/** The payment-notification callback (`CMM__maybe_commercium_ipn_callback`)
    as one pure step over an order record, and the properties of runs of
    notifications against one order: replays do not inflate the total,
    completion fires at most once, rejected events change nothing. */
module Ipn {
  import opened Wrappers
  import opened Ledger
  import opened Orders

  /** The query parameters of one notification. `value` is in subunits. */
  datatype Notification = Notification(
    src: string,
    secretKey: string,
    confirmations: int,
    value: int,
    txnHash: string,
    address: string
  )

  /** What the handler writes back to the sender before exiting: an empty
      body, the "Invalid secret_key" message, or the "*ok*" acknowledgement
      that stops redelivery. */
  datatype Response = Silent | InvalidSecretKey | Ok

  function ResponseBody(resp: Response): (body: string)
    ensures (body == "*ok*") <==> resp == Ok
    ensures (body == "") <==> resp == Silent
    ensures resp == InvalidSecretKey ==> body == "Invalid secret_key"
  {
    match resp
    case Silent => ""
    case InvalidSecretKey => "Invalid secret_key"
    case Ok => "*ok*"
  }

  /** The gateway setting the handler reads on every notification: the
      number of confirmations a payment needs before it is recorded. */
  datatype Config = Config(confsNum: int)

  /** The only accepted origin tag. */
  const ExpectedSource: string := "bcinfo"

  /** The result of handling one notification. */
  datatype Outcome = Outcome(rec: OrderRecord, response: Response, fired: bool)

  /** The notification passes the origin, secret-key and confirmation gates. */
  predicate Accepted(rec: OrderRecord, cfg: Config, ev: Notification)
  {
    ev.src == ExpectedSource && ev.secretKey == rec.secretKey &&
    ev.confirmations >= cfg.confsNum
  }

  /** The payment a notification records under its transaction hash. */
  function PaymentOf(ev: Notification): Payment
  {
    Payment(ev.value, ev.address, ev.confirmations)
  }

  /** The body of the callback: gate on origin, then on the secret key, then
      on confirmations; upsert the payment, recompute the paid total, call the
      completion routine (without a paid amount) once the order total is
      reached, and acknowledge. */
  function Handle(rec: OrderRecord, cfg: Config, ev: Notification): (out: Outcome)
    ensures ev.src != ExpectedSource ==> out == Outcome(rec, Silent, false)
    ensures ev.src == ExpectedSource && ev.secretKey != rec.secretKey ==>
              out == Outcome(rec, InvalidSecretKey, false)
    ensures (ev.src == ExpectedSource && ev.secretKey == rec.secretKey &&
             ev.confirmations < cfg.confsNum) ==> out == Outcome(rec, Silent, false)
    ensures out.response == Ok <==> Accepted(rec, cfg, ev)
    ensures ResponseBody(out.response) == "*ok*" <==> Accepted(rec, cfg, ev)
    ensures Accepted(rec, cfg, ev) ==>
              && ToMap(out.rec.payments) == ToMap(rec.payments)[ev.txnHash := PaymentOf(ev)]
              && Hashes(out.rec.payments) == Hashes(rec.payments) + {ev.txnHash}
              && out.rec.paidTotal == Sum(out.rec.payments)
    ensures out.fired <==>
              Accepted(rec, cfg, ev) && !rec.completed && out.rec.paidTotal >= rec.orderTotal
    ensures out.rec.completed <==>
              rec.completed || (Accepted(rec, cfg, ev) && out.rec.paidTotal >= rec.orderTotal)
    ensures out.rec.orderTotal == rec.orderTotal && out.rec.address == rec.address
    ensures out.rec.secretKey == rec.secretKey && out.rec.refunded == rec.refunded
    ensures Valid(rec) ==> Valid(out.rec)
  {
    if ev.src != ExpectedSource then Outcome(rec, Silent, false)
    else if ev.secretKey != rec.secretKey then Outcome(rec, InvalidSecretKey, false)
    else if ev.confirmations >= cfg.confsNum then
      var payments := Upsert(rec.payments, ev.txnHash, PaymentOf(ev));
      UpsertKeepsDistinct(rec.payments, ev.txnHash, PaymentOf(ev));
      var rec1 := rec.(payments := payments, paidTotal := Sum(payments));
      if rec1.paidTotal >= rec1.orderTotal then
        var c := CompletePayment(rec1, None);
        Outcome(c.rec, Ok, c.fired)
      else
        Outcome(rec1, Ok, false)
    else
      Outcome(rec, Silent, false)
  }

  /** For a well-formed record, the paid total after any notification is the
      sum of the payment values over the distinct hashes recorded. */
  lemma PaidTotalIsDistinctSum(rec: OrderRecord, cfg: Config, ev: Notification)
    requires Valid(rec)
    ensures Handle(rec, cfg, ev).rec.paidTotal == MapSum(ToMap(Handle(rec, cfg, ev).rec.payments))
  {
    SumIsMapSum(Handle(rec, cfg, ev).rec.payments);
  }

  /** Delivering the same notification a second time leaves the record as
      the first delivery left it, gets the same reply, and does not fire the
      completion again. */
  lemma ReplayIdempotent(rec: OrderRecord, cfg: Config, ev: Notification)
    ensures var o1 := Handle(rec, cfg, ev);
            var o2 := Handle(o1.rec, cfg, ev);
            o2.rec == o1.rec && o2.response == o1.response && !o2.fired
  {
    var o1 := Handle(rec, cfg, ev);
    if Accepted(rec, cfg, ev) {
      UpsertIdempotent(rec.payments, ev.txnHash, PaymentOf(ev));
    }
  }

  /** What an accepted notification does to the payments and the total. */
  lemma AcceptedStep(rec: OrderRecord, cfg: Config, ev: Notification)
    requires Accepted(rec, cfg, ev)
    ensures var r := Handle(rec, cfg, ev).rec;
            r.payments == Upsert(rec.payments, ev.txnHash, PaymentOf(ev)) &&
            r.paidTotal == Sum(r.payments) && r.secretKey == rec.secretKey
  {
  }

  /** Two accepted notifications for different transactions, delivered in
      either order, leave the same payments map and the same paid total. */
  lemma AcceptedCommute(rec: OrderRecord, cfg: Config, e1: Notification, e2: Notification)
    requires Valid(rec)
    requires Accepted(rec, cfg, e1) && Accepted(rec, cfg, e2)
    requires e1.txnHash != e2.txnHash
    ensures var a := Handle(Handle(rec, cfg, e1).rec, cfg, e2).rec;
            var b := Handle(Handle(rec, cfg, e2).rec, cfg, e1).rec;
            ToMap(a.payments) == ToMap(b.payments) && a.paidTotal == b.paidTotal
  {
    var r1 := Handle(rec, cfg, e1).rec;
    var r2 := Handle(rec, cfg, e2).rec;
    AcceptedStep(rec, cfg, e1);
    AcceptedStep(rec, cfg, e2);
    AcceptedStep(r1, cfg, e2);
    AcceptedStep(r2, cfg, e1);
    UpsertCommute(rec.payments, e1.txnHash, PaymentOf(e1), e2.txnHash, PaymentOf(e2));
  }

  /** The outcome of a run of notifications against one order: the final
      record, the replies in order, and how many times completion fired. */
  datatype RunResult = RunResult(rec: OrderRecord, responses: seq<Response>, fires: nat)

  /** Deliver the notifications one after the other. */
  function Run(rec: OrderRecord, cfg: Config, evs: seq<Notification>): (out: RunResult)
    decreases |evs|
    ensures |out.responses| == |evs|
    ensures out.fires <= 1
    ensures rec.completed ==> out.fires == 0
    ensures out.rec.completed <==> rec.completed || out.fires == 1
    ensures out.rec.orderTotal == rec.orderTotal && out.rec.secretKey == rec.secretKey
    ensures Valid(rec) ==> Valid(out.rec)
    ensures (forall i :: 0 <= i < |evs| ==> !Accepted(rec, cfg, evs[i])) ==> out.rec == rec
    ensures forall i :: 0 <= i < |evs| ==> (out.responses[i] == Ok ==> evs[i].src == ExpectedSource)
  {
    if |evs| == 0 then RunResult(rec, [], 0)
    else
      var o := Handle(rec, cfg, evs[0]);
      var rest := Run(o.rec, cfg, evs[1..]);
      assert forall i :: 1 <= i < |evs| ==> evs[i] == evs[1..][i - 1];
      RunResult(rest.rec, [o.response] + rest.responses, rest.fires + (if o.fired then 1 else 0))
  }

  /** The payments map a run should leave: starting from `m`, every
      notification that passes the three gates (for an order whose key is
      `key`) writes its payment at its hash; the others are skipped. */
  function Applied(m: map<string, Payment>, key: string, cfg: Config, evs: seq<Notification>)
    : map<string, Payment>
    decreases |evs|
  {
    if |evs| == 0 then m
    else
      var ev := evs[0];
      var gated := ev.src == ExpectedSource && ev.secretKey == key && ev.confirmations >= cfg.confsNum;
      Applied(if gated then m[ev.txnHash := PaymentOf(ev)] else m, key, cfg, evs[1..])
  }

  /** Over any run (reordered, interleaved, redelivered), the final payments
      map is the fold of the accepted notifications' writes, and the paid
      total is the sum over the distinct hashes of that map. */
  lemma {:induction false} RunPayments(rec: OrderRecord, cfg: Config, evs: seq<Notification>)
    requires Valid(rec)
    ensures var out := Run(rec, cfg, evs);
            ToMap(out.rec.payments) == Applied(ToMap(rec.payments), rec.secretKey, cfg, evs) &&
            out.rec.paidTotal == MapSum(ToMap(out.rec.payments))
    decreases |evs|
  {
    if |evs| == 0 {
      SumIsMapSum(rec.payments);
    } else {
      var o := Handle(rec, cfg, evs[0]);
      RunPayments(o.rec, cfg, evs[1..]);
    }
  }

  /** A redelivery of a transaction already recorded with the same value
      (typically with more confirmations) does not change the paid total. */
  lemma RedeliveryKeepsTotal(rec: OrderRecord, cfg: Config, ev: Notification)
    requires Valid(rec) && Accepted(rec, cfg, ev)
    requires ev.txnHash in ToMap(rec.payments)
    requires ToMap(rec.payments)[ev.txnHash].txnValue == ev.value
    ensures Handle(rec, cfg, ev).rec.paidTotal == rec.paidTotal
  {
    var m := ToMap(rec.payments);
    var h := ev.txnHash;
    var r := Handle(rec, cfg, ev).rec;
    SumIsMapSum(rec.payments);
    SumIsMapSum(r.payments);
    MapSumRemove(m, h);
    MapSumRemove(m[h := PaymentOf(ev)], h);
    assert m[h := PaymentOf(ev)] - {h} == m - {h};
  }

  /** `n` copies of one notification. */
  function Repeat(ev: Notification, n: nat): (evs: seq<Notification>)
    ensures |evs| == n
    ensures forall i :: 0 <= i < n ==> evs[i] == ev
  {
    if n == 0 then [] else [ev] + Repeat(ev, n - 1)
  }

  /** However many times a notification is redelivered, the order ends as
      after a single delivery: the payment is counted once, and completion
      fires at most once. */
  lemma {:induction false} ReplayManyIsOnce(rec: OrderRecord, cfg: Config, ev: Notification, n: nat)
    requires n >= 1
    decreases n
    ensures Run(rec, cfg, Repeat(ev, n)).rec == Handle(rec, cfg, ev).rec
    ensures Run(rec, cfg, Repeat(ev, n)).fires == (if Handle(rec, cfg, ev).fired then 1 else 0)
  {
    var o := Handle(rec, cfg, ev);
    assert Repeat(ev, n)[0] == ev && Repeat(ev, n)[1..] == Repeat(ev, n - 1);
    if n > 1 {
      ReplayIdempotent(rec, cfg, ev);
      ReplayManyIsOnce(o.rec, cfg, ev, n - 1);
    }
  }
}
