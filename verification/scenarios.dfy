/** Two concrete delivery histories worked through the handler. */
module Scenarios {
  import opened Ledger
  import opened Orders
  import opened Ipn

  /** A fresh order for 10 CMM, as checkout leaves it. */
  function FreshOrder(): (rec: OrderRecord)
    ensures Valid(rec) && !rec.completed && rec.paidTotal == 0
  {
    OrderRecord(10 * SubunitsPerCoin, "addr", "k", 0, 0, [], false)
  }

  function Paid(hash: string, coins: int, confirmations: int): Notification
  {
    Notification(ExpectedSource, "k", confirmations, coins * SubunitsPerCoin, hash, "addr")
  }

  /** Payments of 4 CMM and then 6 CMM settle a 10 CMM order: the total is
      10 CMM, the order is completed, and completion fired exactly once, on
      the second delivery. */
  lemma TwoPartialPaymentsComplete()
    ensures var out := Run(FreshOrder(), Config(1), [Paid("t2", 4, 3), Paid("t1", 6, 3)]);
            out.rec.paidTotal == 10 * SubunitsPerCoin && out.rec.completed && out.fires == 1
            && out.responses == [Ok, Ok]
  {
    var cfg := Config(1);
    var o1 := Handle(FreshOrder(), cfg, Paid("t2", 4, 3));
    assert o1.rec.paidTotal == 4 * SubunitsPerCoin && !o1.fired;
    var o2 := Handle(o1.rec, cfg, Paid("t1", 6, 3));
    assert o2.rec.paidTotal == 10 * SubunitsPerCoin && o2.fired;
  }

  /** One transaction redelivered with 2, 4 and 6 confirmations against a
      threshold of 3: the first delivery is not acknowledged, the next two
      update the same entry, and the amount is counted once. */
  lemma RedeliveryCountsOnce()
    ensures var out := Run(FreshOrder(), Config(3), [Paid("t", 5, 2), Paid("t", 5, 4), Paid("t", 5, 6)]);
            out.rec.paidTotal == 5 * SubunitsPerCoin && |out.rec.payments| == 1
            && out.responses == [Silent, Ok, Ok] && out.fires == 0
  {
    var cfg := Config(3);
    var o1 := Handle(FreshOrder(), cfg, Paid("t", 5, 2));
    assert o1.rec == FreshOrder();
    var o2 := Handle(o1.rec, cfg, Paid("t", 5, 4));
    assert o2.rec.payments == [Entry("t", Payment(5 * SubunitsPerCoin, "addr", 4))];
    var o3 := Handle(o2.rec, cfg, Paid("t", 5, 6));
    assert o3.rec.payments == [Entry("t", Payment(5 * SubunitsPerCoin, "addr", 6))];
    assert o3.rec.paidTotal == 5 * SubunitsPerCoin;
  }
}
