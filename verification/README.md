# Commercium payment reconciliation, modelled in Dafny

This project models the payment-reconciliation core of the Commercium
gateway for WooCommerce (`cmm-commercium-gateway.php`):

- **Order creation** (`process_payment`). The store total is converted with
  the fetched exchange rate and rounded to 8 decimals. The per-order meta is
  then written: paid total 0, refunded 0, an empty `_incoming_payments`
  array, and `_payment_completed` set to 0 (not completed).
- **The payment notification callback** (`CMM__maybe_commercium_ipn_callback`).
  It is one pure step from (order record, configuration, notification) to
  (new record, reply, whether completion fired). It checks the `src` tag,
  then the `secret_key`, then the confirmation count. An accepted
  notification is upserted into the payments array under its transaction
  hash. The paid total is then recomputed as the sum over the array. If the
  total reaches the order total, the completion routine runs. Every
  accepted notification is answered `*ok*`.
- **The completion routine** (`CMM__process_payment_completed_for_order`).
  Its side effects are guarded by the `_payment_completed` flag, so they run
  at most once per order.
- **The gateway validator** (`is_gateway_valid_for_use`). It checks the
  provider, the merchant address (the plugin's donation address is
  refused), the master public key format, the math extension and the
  exchange rate, in that order.
- **The currency-symbol filter** (`CMM__add_cmm_currency_symbol`).

Amounts are integer subunits (1 CMM = 10^8 subunits). The payments array is
a PHP ordered map, so it is modelled as a sequence of `(hash, payment)`
entries with distinct hashes (`Ledger`). Its view as a Dafny map is
`ToMap`. `MapSum` is an order-independent reference sum over the distinct
hashes, and the running total is proved equal to it.

Files:

- `wrappers.dfy`: `Option` and `Result`.
- `php.dfy`: PHP string truthiness.
- `ledger.dfy`: the payments array, upsert, and the two sums.
- `orders.dfy`: the order record, its invariant, creation and completion.
- `ipn.dfy`: the notification handler, runs of notifications, and the
  replay and at-most-once lemmas.
- `gateway_settings.dfy`: the validator and the currency-symbol filter.
- `scenarios.dfy`: two concrete delivery histories.

Behaviour of the source that the model keeps:

- The code does not reject a negative or zero `value`. It is recorded like
  any other.
- `confs_num` is read from the live configuration on every notification. It
  is not a copy taken when the order is created.
- An under-confirmed notification is only logged. It is not recorded in the
  order.
- The master public key patterns end in `$` without the `D` modifier, and
  PCRE's `$` also matches just before a final newline. So a key of 128 hex
  digits followed by one newline passes the check, and so does an `xpub`
  key followed by one newline. The model keeps this.

## Model

| member | source | states |
|---|---|---|
| Ledger.Upsert | cmm-commercium-gateway.php:608-617 | Writing a payment under a hash gives a map view equal to the old view updated at that hash. The hash set gains exactly that hash. |
| Ledger.UpsertShape | cmm-commercium-gateway.php:609-615 | An existing hash is overwritten in place: the length is unchanged, its entry keeps its index and every other entry is untouched. A new hash is appended at the end. |
| Ledger.UpsertKeepsDistinct | cmm-commercium-gateway.php:609-617 | Redelivering a hash never gives it a second entry. |
| Ledger.UpsertCommute | cmm-commercium-gateway.php:609-624 | Upserts at two different hashes, in either order, give the same map and the same total. |
| Ledger.UpsertIdempotent | cmm-commercium-gateway.php:609-615 | Writing the same payment under the same hash twice gives the same array as writing it once. |
| Ledger.Sum | cmm-commercium-gateway.php:621-624 | The running total of `txn_value` in entry order. It has no contract of its own; its meaning is fixed by `SumIsMapSum`. |
| Ledger.SumIsMapSum | cmm-commercium-gateway.php:621-624 | Over an array with one entry per hash, the `foreach` total equals the order-independent sum of `txn_value` over the distinct hashes. |
| Ledger.MapSumRemove | cmm-commercium-gateway.php:621-624 | The reference sum does not depend on which hash is taken first. |
| Ledger.SumDependsOnlyOnMap | cmm-commercium-gateway.php:621-626 | Two well-formed arrays with the same hash-to-payment map have the same paid total, whatever their entry order. |
| Orders.RoundToSubunits | cmm-commercium-gateway.php:378-383 | The `%.8f` order total, as subunits, is within half a subunit of the exact converted amount. It is non-negative for a non-negative amount. |
| Orders.CreateOrder | cmm-commercium-gateway.php:369-442 | Creation fails exactly when the rate is missing or zero, or the issued address is missing or falsy. A missing rate is reported first. On success the record is well formed, with paid total 0, refunded 0, no payments, not completed, the issued address, the given secret key, and the rounded total. |
| Orders.CompletePayment | cmm-commercium-gateway.php:740-776 | Side effects fire exactly when the completed flag was not set, and the flag is set afterwards. The paid total is overwritten only by a truthy paid argument. Nothing else changes. |
| Orders.CompletionAtMostOnce | cmm-commercium-gateway.php:746-750 | A second call of the completion routine never fires, whatever paid amount either call gets. |
| Orders.CompletionKeepsValid | cmm-commercium-gateway.php:631 | Called with `false`, as the handler calls it, the routine keeps the payments and the paid-total invariant. |
| Ipn.Handle | cmm-commercium-gateway.php:577-643 | A wrong `src` gives no reply and no change. A wrong `secret_key` gives `Invalid secret_key` and no change. Too few confirmations give no reply and no change. The reply is `*ok*` (body `*ok*`) exactly when all three gates pass. An accepted notification updates the map at its hash and sets the paid total to the new sum. Completion fires exactly when accepted, not yet completed, and paid total >= order total. The order total, address, key and refunded amount never change. The record invariant is preserved. |
| Ipn.ResponseBody | cmm-commercium-gateway.php:577-643 | The reply body is `*ok*` exactly for an acknowledged notification and empty exactly for a silent exit; otherwise it is `Invalid secret_key`. |
| Ipn.PaidTotalIsDistinctSum | cmm-commercium-gateway.php:621-626 | After any notification on a well-formed record, the paid total is the sum of `txn_value` over the distinct hashes in the map. |
| Ipn.ReplayIdempotent | cmm-commercium-gateway.php:609-637 | Delivering the same notification again leaves the record unchanged, gets the same reply, and never fires completion. |
| Ipn.AcceptedCommute | cmm-commercium-gateway.php:609-626 | Two accepted notifications with different hashes, in either order, give the same payments map and paid total. |
| Ipn.Run | cmm-commercium-gateway.php:577-643 | Over any sequence of notifications: completion fires at most once, never when the order was already completed, and the order ends completed iff it started so or completion fired. The invariant is kept. A sequence with no accepted notification changes nothing. An `*ok*` reply always carries the expected `src`. |
| Ipn.RunPayments | cmm-commercium-gateway.php:599-626 | Over any sequence of notifications, the final payments map is the fold, in delivery order, of each accepted notification's payment written at its hash; rejected ones are skipped. The paid total equals the sum of `txn_value` over the distinct hashes of that map. |
| Ipn.RedeliveryKeepsTotal | cmm-commercium-gateway.php:609-626 | An accepted redelivery of a recorded transaction with the same value (for example with more confirmations) leaves the paid total unchanged. |
| Ipn.ReplayManyIsOnce | cmm-commercium-gateway.php:609-637 | Any number (at least one) of deliveries of one notification leaves the order exactly as one delivery does, with the same number of completions. |
| GatewaySettings.Validate | cmm-commercium-gateway.php:99-163 | The gateway is usable iff: a provider is selected; for `blockchain_info` the merchant address is neither empty nor the donation address; for `electrum_wallet` the master public key is present, well formed, and a math extension is loaded; and a non-CMM store has a non-zero rate. Each refusal reason holds exactly under its own condition, given the checks before it. |
| GatewaySettings.AcceptedKeyShape | cmm-commercium-gateway.php:121-123 | An accepted `electrum_wallet` key, less at most one final newline, is 128 lower-case hex digits or `xpub` plus 107 letters or digits. |
| GatewaySettings.CurrencySymbol | cmm-commercium-gateway.php:716-725 | The symbol of `CMM` is `C`. Every other currency keeps its symbol. |
| GatewaySettings.CurrencySymbolIdempotent | cmm-commercium-gateway.php:716-725 | A sanity property of the model, not a promise the source makes: applying the filter to its own output changes nothing. |
| Scenarios.TwoPartialPaymentsComplete | cmm-commercium-gateway.php:599-637 | Payments of 4 and then 6 CMM against a 10 CMM order give a paid total of 10 CMM, two `*ok*` replies, and exactly one completion. |
| Scenarios.RedeliveryCountsOnce | cmm-commercium-gateway.php:596-643 | One transaction delivered with 2, 4 and 6 confirmations against a threshold of 3 is first ignored, then stored once. Its amount is counted once. |

## Left out

- The entry guard at cmm-commercium-gateway.php:574 tests
  `isset($_REQUEST['commericum'])` (misspelled) and compares
  `$_REQUEST['commercium']`. The model starts at the handler body (:577)
  and assumes the request is a callback.
- The handler works on one order record. Looking up an unknown `order_id`
  through post meta is not modelled.
- Missing query parameters (`@$_GET[...]` yielding null) are not modelled.
  Every notification carries all its fields.
- PHP loose comparison is not modelled. `secret_key`, `src` and the
  provider names are compared with plain string equality, and
  confirmations are integers. So numeric-looking strings such as `"1e3"`
  and `"1000"` are different keys here.
- Ipn.Handle: the source divides `value` by 10^8 into a float, sums floats,
  and compares against the `%.8f` order-total string. The model uses exact
  integer subunits, so float rounding in the total and the comparison is
  not reproduced.
- Orders.RoundToSubunits: the conversion uses exact rationals. Float error
  in `get_total() / $exchange_rate` is not reproduced.
- Nothing in `process_payment` writes the `secret_key` meta that the
  handler reads (:588). The model takes the key as a creation parameter.
- The payment `datetime` and all logging are clock or I/O and are not
  modelled. The undefined `$value_in_cmm` in the log message at :641 only
  affects logging.
- At :405, `$commercium_address` is defined only for the `electrum_wallet`
  provider. The address issuer is not part of this model, so creation takes
  the issued address as an input. A missing or falsy address fails.
- Exchange-rate fetching, address derivation and the next master public
  key are called but not shown. They are inputs: the rate, the issued
  address and the key.
- The math-extension probe is a boolean input. The list of disabled PHP
  functions in the rate error message (:147-155) is folded into one reason.
- Completion side effects are reduced to one "fired" output: the order note,
  `payment_complete`, the autocomplete status change and the admin email.
  So are the status change to on-hold and the cart emptying in
  `process_payment`.
- The constructor, settings form, admin page, thank-you page, email
  instructions, currency list, checkout-field and button filters are
  WooCommerce UI plumbing.
- Address uniqueness across orders depends on the address issuer, which is
  not part of this model.
- Concurrent read-modify-write of post meta is not modelled. The source
  has no locking.
