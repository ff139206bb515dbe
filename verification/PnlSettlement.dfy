/**
 Order independence of the settled profit: once every open lot is settled at a valuation that prices
 the two tokens of each pair at one dollar together, the exact profit depends on the fills alone.
 */
module PnlSettlement {
  import opened Common
  import opened PnlLedger
  import opened PnlConservation
  import opened PnlTheorems

  /** A valuation that prices the two tokens of every pair at one dollar together. */
  ghost predicate PricesPairs(l: Ledger, v: AssetId -> int) {
    forall a :: a in l.complement ==> v(a) + v(l.complement[a]) == PRICE_SCALE
  }

  ghost predicate NothingDropped(j: seq<Entry>) {
    forall i :: 0 <= i < |j| ==> !j[i].Dropped?
  }

  predicate Flat(l: Ledger) {
    forall a :: a in l.books ==> l.books[a].longs == [] && l.books[a].shorts == []
  }

  lemma {:induction false} FlatUnrealized(books: map<AssetId, Book>, v: AssetId -> int)
    requires forall a :: a in books ==> books[a].longs == [] && books[a].shorts == []
    ensures Unrealized(books, v) == 0
    decreases |books|
  {
    if |books| != 0 {
      FlatUnrealized(books - {Pick(books)}, v);
    }
  }

  /** Pairings in the journal follow the registered pairs; settlements follow the run's settle calls;
      a settled book comes from a settle call. */
  ghost predicate JournalFollows(ops: seq<Op>, r: Outcome) {
    && (forall e :: e in r.entries && e.Paired? ==>
        e.asset in r.ledger.complement && r.ledger.complement[e.asset] == e.other)
    && (forall e :: e in r.entries && e.Settled? ==> OpSettle(e.asset, e.price) in ops)
    && (forall a :: a in r.ledger.books && r.ledger.books[a].settled ==> exists p :: OpSettle(a, p) in ops)
  }

  lemma {:induction false} CloseEntriesOnlyClose(side: Side, price: int, taken: seq<Lot>)
    ensures forall e :: e in CloseEntries(side, price, taken) ==> e.Closed?
  {
    if taken != [] {
      CloseEntriesOnlyClose(side, price, taken[1..]);
    }
  }

  lemma {:induction false} PairEntriesOnlyPair(a: AssetId, c: AssetId, xs: seq<Lot>, ys: seq<Lot>)
    ensures forall e :: e in PairQueues(a, c, xs, ys).entries ==> e.Paired? && e.asset == a && e.other == c
    decreases |xs| + |ys|
  {
    if xs != [] && ys != [] {
      var m := Min(xs[0].qty, ys[0].qty);
      PairEntriesOnlyPair(a, c, Reduce(xs, m), Reduce(ys, m));
    }
  }

  lemma {:induction false} SettleEntriesOnlySettle(a: AssetId, side: Side, price: int, lots: seq<Lot>)
    ensures forall e :: e in SettleEntries(a, side, price, lots) ==> e.Settled? && e.asset == a && e.price == price
  {
    if lots != [] {
      SettleEntriesOnlySettle(a, side, price, lots[1..]);
    }
  }

  lemma {:induction false} FillEntries(l: Ledger, a: AssetId, side: Side, price: int, size: int)
    ensures forall e :: e in Fill(l, a, side, price, size).entries ==>
              !e.Settled? && (e.Paired? ==> e.asset in l.complement && l.complement[e.asset] == e.other)
  {
    if !BookOf(l, a).settled {
      var book := BookOf(l, a);
      CloseEntriesOnlyClose(side, price, Take(if side.Bid? then book.shorts else book.longs, size).0);
      var t := Trade(a, book, side, price, size);
      assert forall e :: e in t.entries ==> !e.Settled? && !e.Paired?;
      var l1 := l.(books := l.books[a := t.book]);
      hide CloseEntries, PairQueues, Stored, Take, Total, Trade;
      if side.Bid? && Pairable(l1, a) {
        PairEntriesOnlyPair(a, l.complement[a], l1.books[a].longs, l1.books[l.complement[a]].longs);
      }
    }
  }

  /** What the entries of one step can be. */
  lemma {:induction false} StepEntries(l: Ledger, op: Op)
    ensures forall e :: e in Step(l, op).entries && e.Paired? ==>
              e.asset in l.complement && l.complement[e.asset] == e.other
    ensures forall e :: e in Step(l, op).entries && e.Settled? ==> op == OpSettle(e.asset, e.price)
  {
    match op
    case OpFill(a, side, price, size) =>
      FillEntries(l, a, side, price, size);
      hide Fill;
    case OpSettle(a, price) =>
      if a in l.books {
        SettleEntriesOnlySettle(a, Bid, price, l.books[a].longs);
        SettleEntriesOnlySettle(a, Ask, price, l.books[a].shorts);
      }
      hide SettleEntries, Stored;
    case _ =>
  }

  lemma {:induction false} StepSettles(l: Ledger, op: Op, a: AssetId)
    requires a in Step(l, op).ledger.books && Step(l, op).ledger.books[a].settled
    ensures (a in l.books && l.books[a].settled) || (op.OpSettle? && op.asset == a)
  {
  }

  lemma {:induction false} RunFollows(ops: seq<Op>)
    ensures JournalFollows(ops, Run(ops))
  {
    if ops != [] {
      var prefix, op := ops[..|ops| - 1], ops[|ops| - 1];
      var l := Run(prefix).ledger;
      RunFollows(prefix);
      StepEntries(l, op);
      assert forall o :: o in prefix ==> o in ops;
      assert forall a :: a in l.complement ==>
          a in Step(l, op).ledger.complement && Step(l, op).ledger.complement[a] == l.complement[a];
      forall a | a in Run(ops).ledger.books && Run(ops).ledger.books[a].settled
        ensures exists p :: OpSettle(a, p) in ops
      {
        StepSettles(l, op, a);
        if op.OpSettle? && op.asset == a {
          assert OpSettle(a, op.price) in ops;
        }
      }
    }
  }

  /** The marks of the accepted fills. */
  ghost function FilledMark(j: seq<Entry>, v: AssetId -> int): int {
    if j == [] then 0
    else (if j[0].Filled? then Mark(j[0].side, v(j[0].asset), j[0].price, j[0].qty) else 0) + FilledMark(j[1..], v)
  }

  /** The marks of the lots that a full queue dropped. */
  ghost function DroppedMark(j: seq<Entry>, v: AssetId -> int): int {
    if j == [] then 0
    else
      (if j[0].Dropped? then Mark(j[0].side, v(j[0].asset), j[0].lot.price, j[0].lot.qty) else 0)
          + DroppedMark(j[1..], v)
  }

  lemma {:induction false} DroppedMarkNone(j: seq<Entry>, v: AssetId -> int)
    requires NothingDropped(j)
    ensures DroppedMark(j, v) == 0
  {
    if j != [] {
      DroppedMarkNone(j[1..], v);
    }
  }

  lemma {:induction false} DroppedMarkAppend(j: seq<Entry>, more: seq<Entry>, v: AssetId -> int)
    ensures DroppedMark(j + more, v) == DroppedMark(j, v) + DroppedMark(more, v)
  {
    if j == [] {
      assert j + more == more;
    } else {
      assert (j + more)[1..] == j[1..] + more;
      DroppedMarkAppend(j[1..], more, v);
    }
  }

  lemma {:induction false} OnlyFillsFlow(j: seq<Entry>, v: AssetId -> int)
    requires forall e :: e in j && e.Paired? ==> v(e.asset) + v(e.other) == PRICE_SCALE
    requires forall e :: e in j && e.Settled? ==> e.price == v(e.asset)
    ensures Flows(j, v) == FilledMark(j, v) - DroppedMark(j, v)
  {
    if j != [] {
      OnlyFillsFlow(j[1..], v);
      assert j[0] in j;
    }
  }

  /** The marks of all fills of a run, straight from the calls. */
  ghost function FillFlow(ops: seq<Op>, v: AssetId -> int): int {
    if ops == [] then 0 else OpFlow(ops[|ops| - 1], v) + FillFlow(ops[..|ops| - 1], v)
  }

  ghost function OpFlow(op: Op, v: AssetId -> int): int {
    if op.OpFill? && op.size > 0 then Mark(op.side, v(op.asset), op.price, op.size) else 0
  }

  ghost predicate NoFillAfterSettle(ops: seq<Op>) {
    forall i, j :: 0 <= i < j < |ops| && ops[i].OpSettle? && ops[j].OpFill? ==> ops[i].asset != ops[j].asset
  }

  lemma {:induction false} FilledMarkAppend(j: seq<Entry>, k: seq<Entry>, v: AssetId -> int)
    ensures FilledMark(j + k, v) == FilledMark(j, v) + FilledMark(k, v)
  {
    if j == [] {
      assert j + k == k;
    } else {
      assert (j + k)[1..] == j[1..] + k;
      FilledMarkAppend(j[1..], k, v);
    }
  }

  lemma {:induction false} NoFilledMark(j: seq<Entry>, v: AssetId -> int)
    requires forall e :: e in j ==> !e.Filled?
    ensures FilledMark(j, v) == 0
  {
    if j != [] {
      assert j[0] in j;
      NoFilledMark(j[1..], v);
    }
  }

  lemma {:induction false} FillMarksItself(l: Ledger, a: AssetId, side: Side, price: int, size: int, v: AssetId -> int)
    requires !BookOf(l, a).settled
    ensures FilledMark(Fill(l, a, side, price, size).entries, v) == OpFlow(OpFill(a, side, price, size), v)
  {
    var book := BookOf(l, a);
    var t := Trade(a, book, side, price, size);
    var l1 := l.(books := l.books[a := t.book]);
    var o := if side.Bid? then CrossMatch(l1, a) else Outcome(l1, []);
    var head := if size > 0 then [Filled(a, side, price, size)] else [];
    CloseEntriesOnlyClose(side, price, Take(if side.Bid? then book.shorts else book.longs, size).0);
    if side.Bid? && Pairable(l1, a) {
      PairEntriesOnlyPair(a, l1.complement[a], l1.books[a].longs, l1.books[l1.complement[a]].longs);
    }
    NoFilledMark(t.entries, v);
    NoFilledMark(o.entries, v);
    FilledMarkAppend(head, t.entries, v);
    FilledMarkAppend(head + t.entries, o.entries, v);
  }

  lemma {:induction false} StepMarksFill(l: Ledger, op: Op, v: AssetId -> int)
    requires op.OpFill? ==> !BookOf(l, op.asset).settled
    ensures FilledMark(Step(l, op).entries, v) == OpFlow(op, v)
  {
    match op
    case OpFill(a, side, price, size) => FillMarksItself(l, a, side, price, size, v);
    case OpSettle(a, price) =>
      if a in l.books {
        SettleEntriesOnlySettle(a, Bid, price, l.books[a].longs);
        SettleEntriesOnlySettle(a, Ask, price, l.books[a].shorts);
      }
      NoFilledMark(Step(l, op).entries, v);
    case _ =>
  }

  lemma {:induction false} FillsAreAccepted(ops: seq<Op>, v: AssetId -> int)
    requires NoFillAfterSettle(ops)
    ensures FilledMark(Run(ops).entries, v) == FillFlow(ops, v)
  {
    if ops != [] {
      var prefix, op := ops[..|ops| - 1], ops[|ops| - 1];
      var l := Run(prefix).ledger;
      FillsAreAccepted(prefix, v);
      RunFollows(prefix);
      assert op.OpFill? ==> !BookOf(l, op.asset).settled;
      StepMarksFill(l, op, v);
      FilledMarkAppend(Run(prefix).entries, Step(l, op).entries, v);
    }
  }

  /** The situation the settled result is stated for: every settle call uses the valuation `v`, no token is
      traded after it is settled, `v` prices every pair at a dollar, and nothing is left open. */
  ghost predicate SettledAt(ops: seq<Op>, v: AssetId -> int) {
    && LegalRun(ops) && NoFillAfterSettle(ops)
    && (forall op :: op in ops && op.OpSettle? ==> op.price == v(op.asset))
    && PricesPairs(Run(ops).ledger, v)
    && Flat(Run(ops).ledger)
  }

  /** The exact settled profit, with what dropped lots would have brought, depends on the fills alone, not on their
      order, on how they were matched or on how much was cross-matched. */
  lemma {:induction false} SettledProfit(ops: seq<Op>, v: AssetId -> int)
    requires SettledAt(ops, v)
    ensures Exact(Run(ops).entries) == FillFlow(ops, v) - DroppedMark(Run(ops).entries, v)
  {
    var r := Run(ops);
    RunConserves(ops, v);
    FlatUnrealized(r.ledger.books, v);
    RunFollows(ops);
    forall e | e in r.entries && e.Settled?
      ensures e.price == v(e.asset)
    {
      assert OpSettle(e.asset, e.price) in ops;
    }
    OnlyFillsFlow(r.entries, v);
    FillsAreAccepted(ops, v);
  }

  function FillsOf(ops: seq<Op>): seq<Op> {
    if ops == [] then []
    else FillsOf(ops[..|ops| - 1]) + if ops[|ops| - 1].OpFill? then [ops[|ops| - 1]] else []
  }

  lemma {:induction false} FillFlowOfFills(ops: seq<Op>, v: AssetId -> int)
    ensures FillFlow(ops, v) == FillFlow(FillsOf(ops), v)
  {
    if ops != [] {
      var prefix := ops[..|ops| - 1];
      FillFlowOfFills(prefix, v);
      if ops[|ops| - 1].OpFill? {
        assert FillsOf(ops)[..|FillsOf(ops)| - 1] == FillsOf(prefix);
      } else {
        assert FillsOf(ops) == FillsOf(prefix);
      }
    }
  }

  lemma {:induction false} FillFlowRemove(ops: seq<Op>, i: nat, v: AssetId -> int)
    requires i < |ops|
    ensures FillFlow(ops, v) == OpFlow(ops[i], v) + FillFlow(ops[..i] + ops[i + 1..], v)
  {
    var last := |ops| - 1;
    if i == last {
      assert ops[..i] + ops[i + 1..] == ops[..last];
    } else {
      FillFlowRemove(ops[..last], i, v);
      var without := ops[..i] + ops[i + 1..];
      assert without[..|without| - 1] == ops[..last][..i] + ops[..last][i + 1..];
    }
  }

  lemma {:induction false} FillFlowPermuted(xs: seq<Op>, ys: seq<Op>, v: AssetId -> int)
    requires multiset(xs) == multiset(ys)
    ensures FillFlow(xs, v) == FillFlow(ys, v)
    decreases |xs|
  {
    assert |xs| == |multiset(xs)| == |multiset(ys)| == |ys|;
    if xs != [] {
      var last := |xs| - 1;
      var x := xs[last];
      assert xs == xs[..last] + [x];
      assert x in multiset(ys);
      var i :| 0 <= i < |ys| && ys[i] == x;
      var rest := ys[..i] + ys[i + 1..];
      assert ys == ys[..i] + [x] + ys[i + 1..];
      assert multiset(rest) == multiset(ys) - multiset{x};
      FillFlowPermuted(xs[..last], rest, v);
      FillFlowRemove(ys, i, v);
    }
  }

  /** Two runs with the same fills in any order settle to the same exact profit, but for the lots they dropped. */
  lemma {:induction false} OrderIndependence(ops: seq<Op>, other: seq<Op>, v: AssetId -> int)
    requires SettledAt(ops, v) && SettledAt(other, v)
    requires multiset(FillsOf(ops)) == multiset(FillsOf(other))
    ensures Exact(Run(ops).entries) + DroppedMark(Run(ops).entries, v)
         == Exact(Run(other).entries) + DroppedMark(Run(other).entries, v)
    ensures NothingDropped(Run(ops).entries) && NothingDropped(Run(other).entries) ==>
              Exact(Run(ops).entries) == Exact(Run(other).entries)
  {
    if NothingDropped(Run(ops).entries) && NothingDropped(Run(other).entries) {
      DroppedMarkNone(Run(ops).entries, v);
      DroppedMarkNone(Run(other).entries, v);
    }
    SettledProfit(ops, v);
    SettledProfit(other, v);
    FillFlowOfFills(ops, v);
    FillFlowOfFills(other, v);
    FillFlowPermuted(FillsOf(ops), FillsOf(other), v);
  }

  // ---------------------------------------------------------------------------
  // One pair, in closed form
  // ---------------------------------------------------------------------------

  function OpCash(op: Op): int {
    if op.OpFill? && op.size > 0 then Mark(op.side, 0, op.price, op.size) else 0
  }

  function FillCash(ops: seq<Op>): int {
    if ops == [] then 0 else OpCash(ops[|ops| - 1]) + FillCash(ops[..|ops| - 1])
  }

  function OpNet(op: Op, a: AssetId): int {
    if op.OpFill? && op.asset == a && op.size > 0 then (if op.side.Bid? then op.size else -op.size) else 0
  }

  /** Bought less sold. */
  function Net(ops: seq<Op>, a: AssetId): int {
    if ops == [] then 0 else OpNet(ops[|ops| - 1], a) + Net(ops[..|ops| - 1], a)
  }

  ghost predicate TradesOnly(ops: seq<Op>, u: AssetId, d: AssetId) {
    forall op :: op in ops ==> !op.OpSettle? && (op.OpFill? ==> op.asset == u || op.asset == d)
  }

  lemma {:induction false} OpFlowSplits(op: Op, u: AssetId, d: AssetId, v: AssetId -> int)
    requires u != d && (op.OpFill? ==> op.asset == u || op.asset == d)
    ensures OpFlow(op, v) == OpCash(op) + v(u) * OpNet(op, u) + v(d) * OpNet(op, d)
  {
  }

  lemma {:induction false} Distribute(x: int, a: int, b: int)
    ensures x * (a + b) == x * a + x * b
  {
  }

  lemma {:induction false} PairFlow(ops: seq<Op>, u: AssetId, d: AssetId, v: AssetId -> int)
    requires u != d && TradesOnly(ops, u, d)
    ensures FillFlow(ops, v) == FillCash(ops) + v(u) * Net(ops, u) + v(d) * Net(ops, d)
  {
    if ops != [] {
      var prefix, op := ops[..|ops| - 1], ops[|ops| - 1];
      assert op in ops;
      PairFlow(prefix, u, d, v);
      OpFlowSplits(op, u, d, v);
      Distribute(v(u), OpNet(op, u), Net(prefix, u));
      Distribute(v(d), OpNet(op, d), Net(prefix, d));
    }
  }

  /** A fill touches its own book and its partner's, nothing else; registering and reversing touch none. */
  lemma {:induction false} UntouchedBook(l: Ledger, op: Op, x: AssetId)
    requires !op.OpSettle?
    requires op.OpFill? ==> op.asset != x && (op.asset in l.complement ==> l.complement[op.asset] != x)
    ensures BookOf(Step(l, op).ledger, x) == BookOf(l, x)
  {
  }

  /** A run never changes the partner an earlier registration gave. */
  lemma {:induction false} ComplementGrows(l: Ledger, op: Op)
    ensures forall a :: a in l.complement ==>
              a in Step(l, op).ledger.complement && Step(l, op).ledger.complement[a] == l.complement[a]
  {
  }

  lemma {:induction false} UntradedStaysEmpty(ops: seq<Op>, u: AssetId, d: AssetId, x: AssetId, final: Ledger)
    requires TradesOnly(ops, u, d) && x != u && x != d
    requires forall a :: a in Run(ops).ledger.complement ==>
               a in final.complement && final.complement[a] == Run(ops).ledger.complement[a]
    requires PairsInv(final) && u in final.complement && final.complement[u] == d
    ensures BookOf(Run(ops).ledger, x) == EMPTY_BOOK
  {
    if ops != [] {
      var prefix, op := ops[..|ops| - 1], ops[|ops| - 1];
      assert op in ops;
      ComplementGrows(Run(prefix).ledger, op);
      UntradedStaysEmpty(prefix, u, d, x, final);
      UntouchedBook(Run(prefix).ledger, op, x);
    }
  }

  /** Settling the two tokens of the pair leaves nothing open. */
  lemma {:induction false} PairIsFlat(ops: seq<Op>, u: AssetId, d: AssetId, s: int)
    requires LegalRun(ops) && TradesOnly(ops, u, d) && u != d
    requires u in Run(ops).ledger.complement && Run(ops).ledger.complement[u] == d
    ensures Flat(Settle(Settle(Run(ops).ledger, u, s).ledger, d, PRICE_SCALE - s).ledger)
  {
    hide Settle, Step;
    var l := Run(ops).ledger;
    ReachableInv(ops);
    forall x | x in l.books && x != u && x != d
      ensures l.books[x] == EMPTY_BOOK
    {
      UntradedStaysEmpty(ops, u, d, x, l);
    }
    SettleClears(l, u, s);
    SettleClears(Settle(l, u, s).ledger, d, PRICE_SCALE - s);
  }

  lemma {:induction false} SettleClears(l: Ledger, a: AssetId, price: int)
    requires a in l.books && BookInv(l.books[a])
    ensures Settle(l, a, price).ledger.books == l.books[a := Book([], [], true)]
  {
    if l.books[a].settled {
      assert l.books[a] == Book([], [], true);
    }
  }

  lemma {:induction false} SettleFlow(ops: seq<Op>, op: Op, v: AssetId -> int)
    requires op.OpSettle?
    ensures FillFlow(ops + [op], v) == FillFlow(ops, v)
    ensures Run(ops + [op]) ==
            var o := Settle(Run(ops).ledger, op.asset, op.price);
            Outcome(o.ledger, Run(ops).entries + o.entries)
    ensures LegalRun(ops) ==> LegalRun(ops + [op])
  {
    assert (ops + [op])[..|ops|] == ops;
  }

  lemma {:induction false} SettlesComeLast(ops: seq<Op>, u: AssetId, d: AssetId, s: int, v: AssetId -> int)
    requires TradesOnly(ops, u, d)
    requires v(u) == s && v(d) == PRICE_SCALE - s
    ensures var all := ops + [OpSettle(u, s)] + [OpSettle(d, PRICE_SCALE - s)];
            NoFillAfterSettle(all) && forall op :: op in all && op.OpSettle? ==> op.price == v(op.asset)
  {
    var all := ops + [OpSettle(u, s)] + [OpSettle(d, PRICE_SCALE - s)];
    assert forall i :: 0 <= i < |ops| ==> all[i] == ops[i] && ops[i] in ops;
  }

  /** The prices at which the two tokens of a pair are settled. */
  ghost function PairValue(u: AssetId, d: AssetId, s: int): AssetId -> int {
    (a: AssetId) => if a == u then s else if a == d then PRICE_SCALE - s else 5000
  }

  /** For a registered pair: any interleaving of fills, then UP settled at `s` and DOWN at one dollar less `s`.  Lots
      dropped by a full queue are missing from the profit with what they would have brought. */
  lemma {:induction false} PairProfit(ops: seq<Op>, u: AssetId, d: AssetId, s: int)
    requires LegalRun(ops) && TradesOnly(ops, u, d) && u != d
    requires u in Run(ops).ledger.complement && Run(ops).ledger.complement[u] == d
    ensures Exact(Run(ops + [OpSettle(u, s)] + [OpSettle(d, PRICE_SCALE - s)]).entries)
              == FillCash(ops) + s * Net(ops, u) + (PRICE_SCALE - s) * Net(ops, d)
                 - DroppedMark(Run(ops).entries, PairValue(u, d, s))
  {
    var v := PairValue(u, d, s);
    PairSettledAt(ops, u, d, s, v);
    SettledProfit(ops + [OpSettle(u, s)] + [OpSettle(d, PRICE_SCALE - s)], v);
    SettlesDropNothing(ops, u, d, s, v);
    SettleFlow(ops, OpSettle(u, s), v);
    SettleFlow(ops + [OpSettle(u, s)], OpSettle(d, PRICE_SCALE - s), v);
    PairFlow(ops, u, d, v);
  }

  lemma {:induction false} PairSettledAt(ops: seq<Op>, u: AssetId, d: AssetId, s: int, v: AssetId -> int)
    requires LegalRun(ops) && TradesOnly(ops, u, d) && u != d
    requires u in Run(ops).ledger.complement && Run(ops).ledger.complement[u] == d
    requires forall a :: v(a) == if a == u then s else if a == d then PRICE_SCALE - s else 5000
    ensures SettledAt(ops + [OpSettle(u, s)] + [OpSettle(d, PRICE_SCALE - s)], v)
  {
    hide Run, PairsInv, BookInv, SettleEntries, Stored;
    var one := ops + [OpSettle(u, s)];
    var two := one + [OpSettle(d, PRICE_SCALE - s)];
    SettleFlow(ops, OpSettle(u, s), v);
    SettleFlow(one, OpSettle(d, PRICE_SCALE - s), v);
    assert Flat(Run(two).ledger) by {
      PairIsFlat(ops, u, d, s);
    }
    assert PricesPairs(Run(two).ledger, v) by {
      ReachableInv(ops);
      PairPrices(Run(ops).ledger, u, d, s, v);
      assert Run(two).ledger.complement == Run(ops).ledger.complement;
    }
    SettlesComeLast(ops, u, d, s, v);
  }

  lemma {:induction false} PairPrices(l: Ledger, u: AssetId, d: AssetId, s: int, v: AssetId -> int)
    requires PairsInv(l) && u in l.complement && l.complement[u] == d
    requires forall a :: v(a) == if a == u then s else if a == d then PRICE_SCALE - s else 5000
    ensures PricesPairs(l, v)
  {
  }

  lemma {:induction false} SettlesDropNothing(ops: seq<Op>, u: AssetId, d: AssetId, s: int, v: AssetId -> int)
    ensures DroppedMark(Run(ops + [OpSettle(u, s)] + [OpSettle(d, PRICE_SCALE - s)]).entries, v)
         == DroppedMark(Run(ops).entries, v)
  {
    hide Run, Settle, DroppedMark;
    var one := ops + [OpSettle(u, s)];
    var first, second := Settle(Run(ops).ledger, u, s).entries, Settle(Run(one).ledger, d, PRICE_SCALE - s).entries;
    SettleFlow(ops, OpSettle(u, s), v);
    SettleFlow(one, OpSettle(d, PRICE_SCALE - s), v);
    SettleDropsNothing(Run(ops).ledger, u, s);
    SettleDropsNothing(Run(one).ledger, d, PRICE_SCALE - s);
    DroppedMarkNone(first, v);
    DroppedMarkNone(second, v);
    DroppedMarkAppend(Run(ops).entries, first, v);
    DroppedMarkAppend(Run(one).entries, second, v);
  }

  lemma {:induction false} SettleDropsNothing(l: Ledger, a: AssetId, price: int)
    ensures NothingDropped(Settle(l, a, price).entries)
  {
    if a in l.books {
      SettleEntriesOnlySettle(a, Bid, price, l.books[a].longs);
      SettleEntriesOnlySettle(a, Ask, price, l.books[a].shorts);
    }
  }
}
