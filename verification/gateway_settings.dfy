/** `is_gateway_valid_for_use`: the ordered checks that decide whether the
    gateway may be offered at checkout, and the currency-symbol filter
    `CMM__add_cmm_currency_symbol`. */
module GatewaySettings {
  import opened Wrappers
  import opened Php

  /** The merchant address the plugin refuses: it is the plugin's own
      donation address. */
  const DonationAddress: string := "18vzABPyVbbia8TDCKDtXJYXcoAFAPk2cj"

  const BlockchainInfo: string := "blockchain_info"
  const ElectrumWallet: string := "electrum_wallet"
  const NativeCurrency: string := "CMM"

  /** What the validator reads. The master public key is whatever the key
      store hands out next; whether a big-integer math extension is loaded
      and the exchange rate returned for the store currency are probes of
      the environment, given here as inputs. */
  datatype Settings = Settings(
    serviceProvider: string,
    merchantAddress: string,
    masterPublicKey: string,
    mathExtensionLoaded: bool,
    storeCurrency: string,
    exchangeRate: Option<real>
  )

  /** Why the gateway is not usable, one per message the source can give. */
  datatype Reason =
    | NoServiceProvider
    | NoMerchantAddress
    | DonationAddressGiven
    | NoMasterPublicKey
    | MalformedMasterPublicKey
    | NoMathExtension
    | NoExchangeRate

  datatype Verdict = Usable | Unusable(reason: Reason)

  predicate IsLowerHexDigit(c: char)
  {
    ('0' <= c <= '9') || ('a' <= c <= 'f')
  }

  predicate IsAlphanumeric(c: char)
  {
    ('0' <= c <= '9') || ('a' <= c <= 'z') || ('A' <= c <= 'Z')
  }

  /** The whole string is exactly 128 lower-case hex digits. */
  predicate IsHexKey(s: string)
  {
    |s| == 128 && forall i :: 0 <= i < |s| ==> IsLowerHexDigit(s[i])
  }

  /** The whole string is "xpub" followed by exactly 107 letters or digits. */
  predicate IsXpubKey(s: string)
  {
    |s| == 111 && s[..4] == "xpub" && forall i :: 4 <= i < |s| ==> IsAlphanumeric(s[i])
  }

  /** A pattern anchored `^...$` matches `s`: PCRE's `$` (without the D
      modifier) matches at the end and also just before a final newline. */
  predicate AnchoredMatch(exact: string -> bool, s: string)
  {
    exact(s) || (|s| > 0 && s[|s| - 1] == '\n' && exact(s[..|s| - 1]))
  }

  /** The key passes one of the two format checks. */
  predicate WellFormedMasterPublicKey(mpk: string)
  {
    AnchoredMatch(IsHexKey, mpk) || AnchoredMatch(IsXpubKey, mpk)
  }

  /** The settings checks, in the source's order: provider selected; for the
      hosted-forwarding provider a merchant address that is neither empty nor
      the donation address; for the key-derivation provider a well-formed
      master public key and a math extension. Other providers pass. */
  function CheckSettings(s: Settings): Option<Reason>
  {
    if !Truthy(s.serviceProvider) then Some(NoServiceProvider)
    else if s.serviceProvider == BlockchainInfo then
      if s.merchantAddress == "" then Some(NoMerchantAddress)
      else if s.merchantAddress == DonationAddress then Some(DonationAddressGiven)
      else None
    else if s.serviceProvider == ElectrumWallet then
      if !Truthy(s.masterPublicKey) then Some(NoMasterPublicKey)
      else if !WellFormedMasterPublicKey(s.masterPublicKey) then Some(MalformedMasterPublicKey)
      else if !s.mathExtensionLoaded then Some(NoMathExtension)
      else None
    else None
  }

  /** The whole validator: the settings checks, then, for a store not priced
      in the native currency, a usable exchange rate. */
  function Validate(s: Settings): (v: Verdict)
    ensures v == Usable <==>
              && Truthy(s.serviceProvider)
              && (s.serviceProvider == BlockchainInfo ==>
                    s.merchantAddress != "" && s.merchantAddress != DonationAddress)
              && (s.serviceProvider == ElectrumWallet ==>
                    Truthy(s.masterPublicKey) && WellFormedMasterPublicKey(s.masterPublicKey)
                    && s.mathExtensionLoaded)
              && (s.storeCurrency != NativeCurrency ==>
                    s.exchangeRate.Some? && s.exchangeRate.value != 0.0)
    ensures v == Unusable(NoServiceProvider) <==> !Truthy(s.serviceProvider)
    ensures v == Unusable(DonationAddressGiven) <==>
              s.serviceProvider == BlockchainInfo && s.merchantAddress == DonationAddress
    ensures v == Unusable(NoMerchantAddress) <==>
              s.serviceProvider == BlockchainInfo && s.merchantAddress == ""
    ensures v == Unusable(NoMasterPublicKey) <==>
              s.serviceProvider == ElectrumWallet && !Truthy(s.masterPublicKey)
    ensures v == Unusable(MalformedMasterPublicKey) <==>
              && s.serviceProvider == ElectrumWallet && Truthy(s.masterPublicKey)
              && !WellFormedMasterPublicKey(s.masterPublicKey)
    ensures v == Unusable(NoMathExtension) <==>
              && s.serviceProvider == ElectrumWallet && Truthy(s.masterPublicKey)
              && WellFormedMasterPublicKey(s.masterPublicKey) && !s.mathExtensionLoaded
    ensures v == Unusable(NoExchangeRate) ==>
              s.storeCurrency != NativeCurrency && (s.exchangeRate == None || s.exchangeRate == Some(0.0))
  {
    match CheckSettings(s)
    case Some(reason) => Unusable(reason)
    case None =>
      if s.storeCurrency != NativeCurrency &&
         (s.exchangeRate == None || s.exchangeRate.value == 0.0)
      then Unusable(NoExchangeRate)
      else Usable
  }

  /** An accepted key-derivation configuration carries a key that, less at
      most one final newline, is 128 lower-case hex digits or "xpub" and 107
      letters or digits. */
  lemma AcceptedKeyShape(s: Settings)
    requires Validate(s) == Usable && s.serviceProvider == ElectrumWallet
    ensures var k := s.masterPublicKey;
            IsHexKey(k) || IsXpubKey(k) ||
            (|k| > 0 && k[|k| - 1] == '\n' && (IsHexKey(k[..|k| - 1]) || IsXpubKey(k[..|k| - 1])))
  {
  }

  /** `CMM__add_cmm_currency_symbol`: the native currency is shown as "C";
      every other currency keeps the symbol it already had. */
  function CurrencySymbol(symbol: string, currency: string): (r: string)
    ensures currency == NativeCurrency ==> r == "C"
    ensures currency != NativeCurrency ==> r == symbol
  {
    if currency == NativeCurrency then "C" else symbol
  }

  /** Running the filter again on its own output changes nothing. */
  lemma CurrencySymbolIdempotent(symbol: string, currency: string)
    ensures CurrencySymbol(CurrencySymbol(symbol, currency), currency) == CurrencySymbol(symbol, currency)
  {
  }
}
