/** The `_incoming_payments` order meta: the payments received for one order,
    keyed by transaction hash.

    A PHP array is an ordered map, so it is modelled as a sequence of entries
    whose hashes are pairwise distinct. `ToMap` is its view as a Dafny map, and
    `MapSum` is an order-independent reference definition of "the sum of the
    payment values over the distinct hashes", against which the running sum
    `Sum` (the `foreach` accumulation) is proved equal. */
module Ledger {

  /** One incoming payment. Amounts are integer subunits (1e-8 CMM). The
      `datetime` the source stores is a clock reading and is not modelled. */
  datatype Payment = Payment(txnValue: int, destAddress: string, confirmations: int)

  datatype Entry = Entry(hash: string, payment: Payment)

  type Entries = seq<Entry>

  /** The set of transaction hashes that have an entry. */
  function Hashes(es: Entries): set<string>
  {
    if |es| == 0 then {} else {es[0].hash} + Hashes(es[1..])
  }

  /** No transaction hash has two entries. */
  predicate DistinctHashes(es: Entries)
  {
    |es| == 0 || (es[0].hash !in Hashes(es[1..]) && DistinctHashes(es[1..]))
  }

  /** The entries seen as a map from hash to payment; where a hash occurs
      twice (never in a well-formed list) the first occurrence wins, as array
      lookup would. */
  function ToMap(es: Entries): (m: map<string, Payment>)
    ensures m.Keys == Hashes(es)
  {
    if |es| == 0 then map[] else ToMap(es[1..])[es[0].hash := es[0].payment]
  }

  /** `$incoming_payments[$txn_hash] = ...`: overwrite the entry for `h` in
      place when there is one, append a new entry otherwise. */
  function Upsert(es: Entries, h: string, p: Payment): (r: Entries)
    ensures ToMap(r) == ToMap(es)[h := p]
    ensures Hashes(r) == Hashes(es) + {h}
  {
    if |es| == 0 then [Entry(h, p)]
    else if es[0].hash == h then
      var r := [Entry(h, p)] + es[1..];
      assert r[1..] == es[1..];
      r
    else
      var rest := Upsert(es[1..], h, p);
      var r := [es[0]] + rest;
      assert r[0] == es[0] && r[1..] == rest;
      UpdatesCommute(ToMap(es[1..]), h, p, es[0].hash, es[0].payment);
      r
  }

  /** Updates of a map at two different keys can be done in either order. */
  lemma UpdatesCommute(m: map<string, Payment>, k1: string, v1: Payment, k2: string, v2: Payment)
    requires k1 != k2
    ensures m[k1 := v1][k2 := v2] == m[k2 := v2][k1 := v1]
  {
  }

  /** A hash has an entry exactly when some index holds it. */
  lemma {:induction false} HashesAt(es: Entries, h: string)
    ensures h in Hashes(es) <==> exists i :: 0 <= i < |es| && es[i].hash == h
  {
    if |es| > 0 {
      HashesAt(es[1..], h);
      if h in Hashes(es[1..]) {
        var i :| 0 <= i < |es[1..]| && es[1..][i].hash == h;
        assert es[i + 1].hash == h;
      }
      if exists i :: 0 <= i < |es| && es[i].hash == h {
        var i :| 0 <= i < |es| && es[i].hash == h;
        if i > 0 { assert es[1..][i - 1].hash == h; }
      }
    }
  }

  /** An existing hash is overwritten in place: the length is kept, the
      entry for the hash keeps its index and every other entry is untouched.
      A new hash is appended at the end, as PHP appends a new key to an
      array. */
  lemma {:induction false} UpsertShape(es: Entries, h: string, p: Payment)
    ensures h in Hashes(es) ==> |Upsert(es, h, p)| == |es|
    ensures DistinctHashes(es) && h in Hashes(es) ==>
              forall i :: 0 <= i < |es| ==>
                Upsert(es, h, p)[i] == (if es[i].hash == h then Entry(h, p) else es[i])
    ensures h !in Hashes(es) ==> Upsert(es, h, p) == es + [Entry(h, p)]
  {
    if |es| > 0 {
      var r := Upsert(es, h, p);
      if es[0].hash == h {
        assert r[1..] == es[1..];
        if DistinctHashes(es) {
          HashesAt(es[1..], h);
          forall i | 1 <= i < |es|
            ensures es[i].hash != h
          {
            assert es[1..][i - 1] == es[i];
          }
        }
      } else {
        UpsertShape(es[1..], h, p);
        assert r[1..] == Upsert(es[1..], h, p);
        assert h !in Hashes(es) ==> [es[0]] + (es[1..] + [Entry(h, p)]) == es + [Entry(h, p)] by {
          assert es == [es[0]] + es[1..];
        }
        if DistinctHashes(es) && h in Hashes(es) {
          forall i | 1 <= i < |es|
            ensures r[i] == (if es[i].hash == h then Entry(h, p) else es[i])
          {
            assert r[i] == r[1..][i - 1] && es[i] == es[1..][i - 1];
          }
        }
      }
    }
  }

  /** Upserting never gives a hash a second entry. */
  lemma {:induction false} UpsertKeepsDistinct(es: Entries, h: string, p: Payment)
    ensures DistinctHashes(es) ==> DistinctHashes(Upsert(es, h, p))
  {
    if |es| > 0 && DistinctHashes(es) {
      var r := Upsert(es, h, p);
      if es[0].hash == h {
        assert r[1..] == es[1..];
      } else {
        UpsertKeepsDistinct(es[1..], h, p);
        assert r[1..] == Upsert(es[1..], h, p);
      }
    }
  }

  /** The `foreach` accumulation of `txn_value` over the entries. */
  function Sum(es: Entries): int
  {
    if |es| == 0 then 0 else es[0].payment.txnValue + Sum(es[1..])
  }

  /** Reference definition: the sum of the payment values of a map, taken
      over its keys in no particular order. */
  ghost function MapSum(m: map<string, Payment>): int
    decreases |m.Keys|
  {
    if m.Keys == {} then 0
    else
      var k :| k in m.Keys;
      assert |(m - {k}).Keys| < |m.Keys| by {
        assert (m - {k}).Keys == m.Keys - {k};
      }
      m[k].txnValue + MapSum(m - {k})
  }

  /** Any key may be taken out first: `MapSum` does not depend on the key its
      definition happens to choose. */
  lemma {:induction false} MapSumRemove(m: map<string, Payment>, k: string)
    requires k in m
    ensures MapSum(m) == m[k].txnValue + MapSum(m - {k})
    decreases |m.Keys|
  {
    var j :| j in m.Keys && MapSum(m) == m[j].txnValue + MapSum(m - {j});
    if j != k {
      assert (m - {j}).Keys == m.Keys - {j};
      assert (m - {k}).Keys == m.Keys - {k};
      MapSumRemove(m - {j}, k);
      MapSumRemove(m - {k}, j);
      assert m - {j} - {k} == m - {k} - {j};
    }
  }

  /** The running total over a well-formed entry list is the sum of the
      payment values over its distinct hashes. */
  lemma {:induction false} SumIsMapSum(es: Entries)
    requires DistinctHashes(es)
    ensures Sum(es) == MapSum(ToMap(es))
  {
    if |es| > 0 {
      var rest := ToMap(es[1..]);
      var h := es[0].hash;
      SumIsMapSum(es[1..]);
      MapSumRemove(rest[h := es[0].payment], h);
      assert rest[h := es[0].payment] - {h} == rest;
    }
  }

  /** Writing the same payment under the same hash a second time changes
      nothing. */
  lemma {:induction false} UpsertIdempotent(es: Entries, h: string, p: Payment)
    ensures Upsert(Upsert(es, h, p), h, p) == Upsert(es, h, p)
  {
    if |es| > 0 && es[0].hash != h {
      UpsertIdempotent(es[1..], h, p);
      assert ([es[0]] + Upsert(es[1..], h, p))[1..] == Upsert(es[1..], h, p);
    }
  }

  /** Upserts at two different hashes, done in either order, give the same
      map view and the same running total. */
  lemma UpsertCommute(es: Entries, h1: string, p1: Payment, h2: string, p2: Payment)
    requires DistinctHashes(es)
    requires h1 != h2
    ensures var a := Upsert(Upsert(es, h1, p1), h2, p2);
            var b := Upsert(Upsert(es, h2, p2), h1, p1);
            ToMap(a) == ToMap(b) && Sum(a) == Sum(b)
  {
    UpdatesCommute(ToMap(es), h1, p1, h2, p2);
    UpsertKeepsDistinct(es, h1, p1);
    UpsertKeepsDistinct(es, h2, p2);
    UpsertKeepsDistinct(Upsert(es, h1, p1), h2, p2);
    UpsertKeepsDistinct(Upsert(es, h2, p2), h1, p1);
    SumDependsOnlyOnMap(Upsert(Upsert(es, h1, p1), h2, p2), Upsert(Upsert(es, h2, p2), h1, p1));
  }

  /** Two well-formed entry lists with the same map view have the same
      running total, whatever the order of their entries. */
  lemma SumDependsOnlyOnMap(es: Entries, fs: Entries)
    requires DistinctHashes(es) && DistinctHashes(fs)
    requires ToMap(es) == ToMap(fs)
    ensures Sum(es) == Sum(fs)
  {
    SumIsMapSum(es);
    SumIsMapSum(fs);
  }
}
