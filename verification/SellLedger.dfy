/**
 The ledger of in-flight SELL quantities, which bounds the sizes of the SELLs on the wire by the position, and the two
 admission checks that use it: one order at a time, and a batch at a time.
 */
module SellLedger {
  import opened Common
  import opened ExecTypes

  datatype Sell = Sell(asset: AssetId, qty: int)

  datatype Ledger = Ledger(qty: map<AssetId, int>, sells: map<nat, Sell>)

  function Reserved(l: Ledger, a: AssetId): int {
    if a in l.qty then l.qty[a] else 0
  }

  function Reserve(l: Ledger, i: Intent): Ledger {
    Ledger(l.qty[i.asset := Reserved(l, i.asset) + i.size], l.sells[i.id := Sell(i.asset, i.size)])
  }

  /** The reservation of an intent that has been answered, if it had one, goes back. */
  function Release(l: Ledger, id: nat): Ledger {
    if id !in l.sells then l
    else
      var s := l.sells[id];
      Ledger(l.qty[s.asset := Max(Reserved(l, s.asset) - s.qty, 0)], l.sells - {id})
  }

  // ---------------------------------------------------------------------------
  // The reserved quantity of a token is the sum over its outstanding SELLs
  // ---------------------------------------------------------------------------

  function Share(s: Sell, a: AssetId): int {
    if s.asset == a then s.qty else 0
  }

  ghost function Total(sells: map<nat, Sell>, a: AssetId): int
    decreases |sells|
  {
    if sells == map[] then 0
    else
      var id :| id in sells;
      Share(sells[id], a) + Total(sells - {id}, a)
  }

  ghost predicate Balanced(l: Ledger) {
    && (forall a :: Reserved(l, a) == Total(l.sells, a))
    && (forall id :: id in l.sells ==> l.sells[id].qty > 0)
  }

  /** The sum does not depend on the order of summation. */
  lemma {:induction false} TotalWithout(sells: map<nat, Sell>, id: nat, a: AssetId)
    requires id in sells
    ensures Total(sells, a) == Share(sells[id], a) + Total(sells - {id}, a)
    decreases |sells|
  {
    var first :| first in sells && Total(sells, a) == Share(sells[first], a) + Total(sells - {first}, a);
    if first != id {
      TotalWithout(sells - {first}, id, a);
      TotalWithout(sells - {id}, first, a);
      assert sells - {first} - {id} == sells - {id} - {first};
    }
  }

  lemma {:induction false} TotalNonNegative(sells: map<nat, Sell>, a: AssetId)
    requires forall id :: id in sells ==> sells[id].qty > 0
    ensures Total(sells, a) >= 0
    decreases |sells|
  {
    if sells != map[] {
      var first :| first in sells && Total(sells, a) == Share(sells[first], a) + Total(sells - {first}, a);
      TotalNonNegative(sells - {first}, a);
      assert sells[first].qty > 0 && Share(sells[first], a) >= 0;
      assert Total(sells - {first}, a) >= 0;
    }
  }

  lemma {:induction false} ReserveBalanced(l: Ledger, i: Intent)
    requires Balanced(l) && i.id !in l.sells && i.size > 0
    ensures Balanced(Reserve(l, i))
  {
    var r := Reserve(l, i);
    forall a
      ensures Reserved(r, a) == Total(r.sells, a)
    {
      TotalWithout(r.sells, i.id, a);
      assert r.sells - {i.id} == l.sells;
      assert Reserved(l, a) == Total(l.sells, a);
    }
  }

  /** Releasing never clamps: a reservation is always covered by what is reserved. */
  lemma {:induction false} ReleaseBalanced(l: Ledger, id: nat)
    requires Balanced(l)
    ensures Balanced(Release(l, id))
    ensures id in l.sells ==>
            Reserved(Release(l, id), l.sells[id].asset) == Reserved(l, l.sells[id].asset) - l.sells[id].qty
  {
    if id in l.sells {
      var r := Release(l, id);
      forall a
        ensures Reserved(r, a) == Total(r.sells, a) == Reserved(l, a) - Share(l.sells[id], a)
      {
        TotalWithout(l.sells, id, a);
        TotalNonNegative(l.sells - {id}, a);
        assert Reserved(l, a) == Total(l.sells, a);
      }
    }
  }

  // ---------------------------------------------------------------------------
  // One order at a time
  // ---------------------------------------------------------------------------

  predicate Covered(l: Ledger, i: Intent, position: int) {
    position - Reserved(l, i.asset) >= i.size
  }

  /** An admitted SELL leaves no more reserved than there is. */
  lemma {:induction false} AdmissionBound(l: Ledger, i: Intent, position: int)
    ensures Reserved(Reserve(l, i), i.asset) <= position <==> Covered(l, i, position)
    ensures forall a :: a != i.asset ==> Reserved(Reserve(l, i), a) == Reserved(l, a)
  {
  }

  // ---------------------------------------------------------------------------
  // A batch at a time: every order is checked before any is reserved
  // ---------------------------------------------------------------------------

  /** The batch check takes what is left as zero when more is reserved than there is. */
  predicate Passes(l: Ledger, i: Intent, position: int) {
    i.side.Bid? || Max(position - Reserved(l, i.asset), 0) >= i.size
  }

  function Admitted(l: Ledger, batch: seq<Intent>, positions: seq<int>): (v: seq<Intent>)
    requires |batch| == |positions|
    ensures |v| <= |batch|
  {
    if batch == [] then []
    else
      var n := |batch| - 1;
      Admitted(l, batch[..n], positions[..n]) + if Passes(l, batch[n], positions[n]) then [batch[n]] else []
  }

  function ReserveAll(l: Ledger, batch: seq<Intent>): Ledger {
    if batch == [] then l
    else
      var n := |batch| - 1;
      var l' := ReserveAll(l, batch[..n]);
      if batch[n].side.Ask? then Reserve(l', batch[n]) else l'
  }

  /** What a batch asks of a token. */
  function Asked(batch: seq<Intent>, a: AssetId): int {
    if batch == [] then 0
    else
      var n := |batch| - 1;
      Asked(batch[..n], a) + if batch[n].side.Ask? && batch[n].asset == a then batch[n].size else 0
  }

  function Sells(batch: seq<Intent>, a: AssetId): nat {
    if batch == [] then 0
    else
      var n := |batch| - 1;
      Sells(batch[..n], a) + if batch[n].side.Ask? && batch[n].asset == a then 1 else 0
  }

  lemma {:induction false} ReserveAllAdds(l: Ledger, batch: seq<Intent>, a: AssetId)
    ensures Reserved(ReserveAll(l, batch), a) == Reserved(l, a) + Asked(batch, a)
  {
    if batch != [] {
      ReserveAllAdds(l, batch[..|batch| - 1], a);
    }
  }

  /** At most one SELL of a token passes, and it fits, when at most one is in the batch. */
  lemma {:induction false} OneSellFits(l: Ledger, batch: seq<Intent>, positions: seq<int>, a: AssetId, p: int)
    requires |batch| == |positions|
    requires forall i :: 0 <= i < |batch| && batch[i].side.Ask? && batch[i].asset == a ==>
            positions[i] == p && batch[i].size > 0
    requires Sells(batch, a) <= 1
    ensures Sells(batch, a) == 0 ==> Asked(Admitted(l, batch, positions), a) == 0
    ensures Asked(Admitted(l, batch, positions), a) <= Max(p - Reserved(l, a), 0)
  {
    if batch != [] {
      var n := |batch| - 1;
      OneSellFits(l, batch[..n], positions[..n], a, p);
      var v := Admitted(l, batch[..n], positions[..n]);
      if Passes(l, batch[n], positions[n]) {
        assert (v + [batch[n]])[..|v|] == v;
      } else {
        assert v + [] == v;
      }
    }
  }

  function Sized(batch: seq<Intent>, sizes: seq<int>): seq<Intent>
    requires |batch| == |sizes|
  {
    seq(|batch|, i requires 0 <= i < |batch| => batch[i].(size := sizes[i]))
  }

  /** What is reserved of `a` after the batch, with these sizes, was checked at position `p`. */
  function AfterBatch(l: Ledger, batch: seq<Intent>, sizes: seq<int>, p: int, a: AssetId): int
    requires |batch| == |sizes|
  {
    var b := Sized(batch, sizes);
    Reserved(ReserveAll(l, Admitted(l, b, seq(|b|, _ => p))), a)
  }

  ghost predicate Positive(sizes: seq<int>) {
    forall i :: 0 <= i < |sizes| ==> sizes[i] > 0
  }

  /** No sizes, position or earlier reservations make the batch reserve more of `a` than there is. */
  ghost predicate NeverOversells(batch: seq<Intent>, a: AssetId) {
    forall l, sizes, p :: |sizes| == |batch| && Positive(sizes) && Reserved(l, a) <= p ==>
        AfterBatch(l, batch, sizes, p, a) <= p
  }

  lemma {:induction false} SizedSells(batch: seq<Intent>, sizes: seq<int>, a: AssetId)
    requires |batch| == |sizes|
    ensures Sells(Sized(batch, sizes), a) == Sells(batch, a)
  {
    if batch != [] {
      var n := |batch| - 1;
      SizedSells(batch[..n], sizes[..n], a);
      assert Sized(batch, sizes)[..n] == Sized(batch[..n], sizes[..n]);
    }
  }

  /** When each SELL takes the one unit there is, all of them pass. */
  lemma {:induction false} AllUnitsPass(l: Ledger, batch: seq<Intent>, p: seq<int>, a: AssetId)
    requires |batch| == |p| && Reserved(l, a) == 0
    requires forall i :: 0 <= i < |batch| ==> batch[i].size == 1 && p[i] == 1
    ensures Asked(Admitted(l, batch, p), a) == Sells(batch, a)
  {
    if batch != [] {
      var n := |batch| - 1;
      AllUnitsPass(l, batch[..n], p[..n], a);
      var v := Admitted(l, batch[..n], p[..n]);
      if Passes(l, batch[n], p[n]) {
        assert (v + [batch[n]])[..|v|] == v;
      } else {
        assert v + [] == v;
      }
    }
  }

  /** The batch check bounds what is reserved of a token exactly when the batch has at most one SELL of it. */
  lemma {:induction false} BatchBoundIff(batch: seq<Intent>, a: AssetId)
    ensures NeverOversells(batch, a) <==> Sells(batch, a) <= 1
  {
    if Sells(batch, a) <= 1 {
      forall l, sizes, p | |sizes| == |batch| && Positive(sizes) && Reserved(l, a) <= p
        ensures AfterBatch(l, batch, sizes, p, a) <= p
      {
        var b := Sized(batch, sizes);
        SizedSells(batch, sizes, a);
        OneSellFits(l, b, seq(|b|, _ => p), a, p);
        ReserveAllAdds(l, Admitted(l, b, seq(|b|, _ => p)), a);
      }
    } else {
      var l, sizes := Ledger(map[], map[]), seq(|batch|, _ => 1);
      var b := Sized(batch, sizes);
      SizedSells(batch, sizes, a);
      AllUnitsPass(l, b, seq(|b|, _ => 1), a);
      ReserveAllAdds(l, Admitted(l, b, seq(|b|, _ => 1)), a);
      assert AfterBatch(l, batch, sizes, 1, a) == Sells(batch, a);
      assert Positive(sizes) && Reserved(l, a) <= 1;
    }
  }
}
