/** The per-order payment record kept in post meta, its creation at checkout
    (`process_payment`) and the completion routine
    (`CMM__process_payment_completed_for_order`). */
module Orders {
  import opened Wrappers
  import opened Ledger
  import opened Php

  /** The order meta this core reads and writes. Amounts are integer subunits
      (1e-8 CMM). `secretKey` is the token a notification must echo back. */
  datatype OrderRecord = OrderRecord(
    orderTotal: int,          // order_total_in_cmm
    address: string,          // commercium_address
    secretKey: string,        // secret_key
    paidTotal: int,           // commercium_paid_total
    refunded: int,            // commercium_refunded
    payments: Entries,        // _incoming_payments
    completed: bool           // _payment_completed
  )

  /** The record invariant: one entry per hash, and the cached paid total is
      the sum of the recorded payment values. */
  predicate Valid(rec: OrderRecord)
  {
    DistinctHashes(rec.payments) && rec.paidTotal == Sum(rec.payments)
  }

  /** The fixed-point scale of the currency: 1 CMM is 10^8 subunits. */
  const SubunitsPerCoin: int := 100000000

  /** `sprintf("%.8f", x)` read back as a count of subunits: the nearest
      integer to x * 10^8, halves rounded away from zero. */
  function RoundToSubunits(x: real): (r: int)
    ensures (r as real) - 0.5 <= x * SubunitsPerCoin as real <= (r as real) + 0.5
    ensures x >= 0.0 ==> r >= 0
  {
    var y := x * SubunitsPerCoin as real;
    if y >= 0.0 then (y + 0.5).Floor else -((-y + 0.5).Floor)
  }

  /** Why checkout cannot create the payment record. */
  datatype CreateError = RateUnavailable | AddressUnavailable

  /** `process_payment`: convert the store total with the fetched exchange
      rate, take the address issued for the order, and write the initial
      meta. The rate and the address come from collaborators that are not
      part of this model and arrive as parameters; either may be missing. */
  function CreateOrder(fiatTotal: real, exchangeRate: Option<real>,
                       issuedAddress: Option<string>, secretKey: string)
    : (r: Result<OrderRecord, CreateError>)
    ensures r.Failure? <==>
              exchangeRate == None || exchangeRate == Some(0.0) ||
              issuedAddress == None || !Truthy(issuedAddress.value)
    ensures r == Failure(RateUnavailable) <==> exchangeRate == None || exchangeRate == Some(0.0)
    ensures r.Success? ==>
              && Valid(r.value)
              && r.value.paidTotal == 0 && r.value.refunded == 0
              && r.value.payments == [] && !r.value.completed
              && Some(r.value.address) == issuedAddress
              && r.value.secretKey == secretKey
              && (r.value.orderTotal as real) - 0.5
                   <= fiatTotal / exchangeRate.value * SubunitsPerCoin as real
                   <= (r.value.orderTotal as real) + 0.5
  {
    if exchangeRate == None || exchangeRate.value == 0.0 then Failure(RateUnavailable)
    else
      var total := RoundToSubunits(fiatTotal / exchangeRate.value);
      if issuedAddress == None || !Truthy(issuedAddress.value) then Failure(AddressUnavailable)
      else Success(OrderRecord(total, issuedAddress.value, secretKey, 0, 0, [], false))
  }

  /** What the completion routine leaves behind, and whether its one-time
      side effects (order note, `payment_complete`, autocomplete, admin
      email) ran. */
  datatype Completion = Completion(rec: OrderRecord, fired: bool)

  /** `CMM__process_payment_completed_for_order`: optionally overwrite the
      paid total with a truthy `commerciumPaid`, then run the side effects
      only if the completed flag is not yet set, setting it. */
  function CompletePayment(rec: OrderRecord, commerciumPaid: Option<int>): (c: Completion)
    ensures c.fired <==> !rec.completed
    ensures c.rec.completed
    ensures c.rec.paidTotal ==
              (if commerciumPaid.Some? && commerciumPaid.value != 0
               then commerciumPaid.value else rec.paidTotal)
    ensures c.rec.(paidTotal := rec.paidTotal, completed := rec.completed) == rec
  {
    var rec1 := if commerciumPaid.Some? && commerciumPaid.value != 0
                then rec.(paidTotal := commerciumPaid.value) else rec;
    if !rec1.completed then Completion(rec1.(completed := true), true)
    else Completion(rec1, false)
  }

  /** A second call of the completion routine never runs the side effects
      again, whatever paid amount it is given. */
  lemma CompletionAtMostOnce(rec: OrderRecord, paid1: Option<int>, paid2: Option<int>)
    ensures !CompletePayment(CompletePayment(rec, paid1).rec, paid2).fired
  {
  }

  /** Called as the notification handler calls it (with `false`), the
      completion routine keeps the record invariant. */
  lemma CompletionKeepsValid(rec: OrderRecord)
    requires Valid(rec)
    ensures Valid(CompletePayment(rec, None).rec)
    ensures CompletePayment(rec, None).rec.payments == rec.payments
  {
  }
}
