/**
 What holds of every run of the ledger: the shape of reachable states, FIFO order down to the
 single unit, the double-entry identity, the truncation bound and exact reversal.
 */
module PnlTheorems {
  import opened Common
  import opened PnlLedger
  import opened PnlConservation

  // ---------------------------------------------------------------------------
  // The shape of reachable states
  // ---------------------------------------------------------------------------

  ghost predicate BookInv(b: Book) {
    && Positive(b.longs) && Positive(b.shorts)
    && |b.longs| <= MAX_ENTRIES && |b.shorts| <= MAX_ENTRIES
    && (b.longs == [] || b.shorts == [])
    && (b.settled ==> b.longs == [] && b.shorts == [])
  }

  ghost predicate PairsInv(l: Ledger) {
    forall a :: a in l.complement ==>
      && l.complement[a] != a
      && l.complement[a] in l.complement && l.complement[l.complement[a]] == a
      && a in l.books && l.complement[a] in l.books
  }

  ghost predicate Inv(l: Ledger) {
    && PairsInv(l)
    && (forall a :: a in l.books ==> BookInv(l.books[a]))
    && (forall a :: a in l.complement ==> l.books[a].longs == [] || l.books[l.complement[a]].longs == [])
  }

  /** A registration is of two different unpaired tokens that do not both hold longs already, or of two tokens that are
      both paired, which changes nothing. */
  ghost predicate Legal(l: Ledger, op: Op) {
    op.OpRegister? ==>
      || (op.up in l.complement && op.down in l.complement)
      || (&& op.up != op.down && op.up !in l.complement && op.down !in l.complement
          && (BookOf(l, op.up).longs == [] || BookOf(l, op.down).longs == []))
  }

  ghost predicate LegalRun(ops: seq<Op>) {
    ops == [] || (LegalRun(ops[..|ops| - 1]) && Legal(Run(ops[..|ops| - 1]).ledger, ops[|ops| - 1]))
  }

  lemma {:induction false} TakeShape(queue: seq<Lot>, qty: int)
    requires Positive(queue)
    ensures var (taken, rest) := Take(queue, qty);
            && Positive(taken) && Positive(rest) && |rest| <= |queue|
            && 0 <= Total(taken)
            && (Total(taken) < qty ==> rest == [])
    decreases |queue|
  {
    if qty > 0 && queue != [] {
      if queue[0].qty <= qty {
        TakeShape(queue[1..], qty - queue[0].qty);
        var (taken, rest) := Take(queue[1..], qty - queue[0].qty);
        assert ([queue[0]] + taken)[1..] == taken;
      } else {
        assert Total([Lot(queue[0].price, qty)]) == qty;
      }
    }
  }

  lemma {:induction false} PairShape(a: AssetId, c: AssetId, xs: seq<Lot>, ys: seq<Lot>)
    requires Positive(xs) && Positive(ys)
    ensures var p := PairQueues(a, c, xs, ys);
            && Positive(p.xs) && Positive(p.ys)
            && |p.xs| <= |xs| && |p.ys| <= |ys|
            && (p.xs == [] || p.ys == [])
    decreases |xs| + |ys|
  {
    if xs != [] && ys != [] {
      var m := Min(xs[0].qty, ys[0].qty);
      PairShape(a, c, Reduce(xs, m), Reduce(ys, m));
    }
  }

  lemma {:induction false} TradeKeepsBook(a: AssetId, book: Book, side: Side, price: int, size: int)
    requires BookInv(book) && !book.settled
    ensures BookInv(Trade(a, book, side, price, size).book) && !Trade(a, book, side, price, size).book.settled
    ensures side.Ask? && book.longs == [] ==> Trade(a, book, side, price, size).book.longs == []
  {
    TakeShape(book.shorts, size);
    TakeShape(book.longs, size);
  }

  /** The invariant between the two halves of a BUY of `a`, when `a` and its partner may both be long. */
  ghost predicate MidInv(l: Ledger, a: AssetId) {
    && PairsInv(l)
    && (forall x :: x in l.books ==> BookInv(l.books[x]))
    && (forall x :: x in l.complement && x != a && l.complement[x] != a ==>
          l.books[x].longs == [] || l.books[l.complement[x]].longs == [])
  }

  lemma {:induction false} TradeKeepsMidInv(l: Ledger, a: AssetId, b: Book)
    requires Inv(l) && BookInv(b)
    ensures MidInv(l.(books := l.books[a := b]), a)
    ensures b.longs == [] || (a in l.books && l.books[a].longs != []) ==> Inv(l.(books := l.books[a := b]))
  {
  }

  lemma {:induction false} ReplacePair(l: Ledger, a: AssetId, c: AssetId, b: Book, d: Book)
    requires MidInv(l, a) && a in l.complement && c == l.complement[a]
    requires BookInv(b) && BookInv(d) && (b.longs == [] || d.longs == [])
    ensures Inv(l.(books := l.books[a := b][c := d]))
  {
    hide BookInv;
    var r := l.(books := l.books[a := b][c := d]);
    assert PairsInv(r);
    forall x | x in l.complement
      ensures r.books[x].longs == [] || r.books[l.complement[x]].longs == []
    {
      if x != a && x != c {
        assert l.complement[x] != a && l.complement[x] != c;
      }
    }
  }

  lemma {:induction false} CrossMatchRestoresInv(l: Ledger, a: AssetId)
    requires MidInv(l, a) && a in l.books
    ensures Inv(CrossMatch(l, a).ledger)
  {
    if Pairable(l, a) {
      var c := l.complement[a];
      var p := PairQueues(a, c, l.books[a].longs, l.books[c].longs);
      PairShape(a, c, l.books[a].longs, l.books[c].longs);
      ReplacePair(l, a, c, l.books[a].(longs := p.xs), l.books[c].(longs := p.ys));
    }
  }

  lemma {:induction false} FillKeepsInv(l: Ledger, a: AssetId, side: Side, price: int, size: int)
    requires Inv(l)
    ensures Inv(Fill(l, a, side, price, size).ledger)
  {
    if !BookOf(l, a).settled {
      TradeKeepsBook(a, BookOf(l, a), side, price, size);
      var t := Trade(a, BookOf(l, a), side, price, size);
      var l1 := l.(books := l.books[a := t.book]);
      TradeKeepsMidInv(l, a, t.book);
      if side.Bid? {
        CrossMatchRestoresInv(l1, a);
      }
    }
  }

  lemma {:induction false} EmptyBookInv()
    ensures BookInv(EMPTY_BOOK)
  {
  }

  lemma {:induction false} FreshPairKeepsPairs(l: Ledger, up: AssetId, down: AssetId, books: map<AssetId, Book>)
    requires PairsInv(l) && up != down && up !in l.complement && down !in l.complement
    requires books.Keys == l.books.Keys + {up, down}
    ensures PairsInv(Ledger(books, l.complement[up := down][down := up], l.realized))
    ensures forall x :: x in l.complement ==>
            x in l.books && l.complement[x] in l.books && l.complement[x] != up && l.complement[x] != down
  {
    forall x | x in l.complement
      ensures l.complement[x] != up && l.complement[x] != down && x in books && l.complement[x] in books
    {
      assert l.complement[x] in l.complement;
    }
  }

  lemma {:induction false} FreshPairKeepsInv(l: Ledger, up: AssetId, down: AssetId, books: map<AssetId, Book>)
    requires Inv(l) && up != down && up !in l.complement && down !in l.complement
    requires books.Keys == l.books.Keys + {up, down}
    requires forall x :: x in books ==> books[x] == BookOf(l, x)
    requires books[up].longs == [] || books[down].longs == []
    ensures Inv(Ledger(books, l.complement[up := down][down := up], l.realized))
  {
    FreshPairKeepsPairs(l, up, down, books);
    EmptyBookInv();
    hide BookInv, PairsInv;
    assert forall x :: x in l.complement ==>
        books[x] == l.books[x] && books[l.complement[x]] == l.books[l.complement[x]];
  }

  /** A registration keeps the invariant exactly when it is legal. */
  lemma {:induction false} RegisterKeepsInv(l: Ledger, up: AssetId, down: AssetId)
    requires Inv(l)
    ensures Inv(Register(l, up, down)) <==> Legal(l, OpRegister(up, down))
  {
    if up in l.complement && down in l.complement {
      assert Register(l, up, down).books == l.books;
    } else if Legal(l, OpRegister(up, down)) {
      FreshPairKeepsInv(l, up, down, Register(l, up, down).books);
    } else {
      IllegalBreaksInv(l, up, down);
    }
  }

  /** A token paired with itself, a pairing that is not returned, or a pair of which both tokens are long. */
  lemma {:induction false} IllegalBreaksInv(l: Ledger, up: AssetId, down: AssetId)
    requires PairsInv(l) && !Legal(l, OpRegister(up, down))
    ensures !Inv(Register(l, up, down))
  {
    hide BookInv;
    var r := Register(l, up, down);
    if up in l.complement {
      assert l.complement[up] != down;
      assert r.complement[down] == up && r.complement[up] == l.complement[up];
    } else if down in l.complement {
      assert l.complement[down] != up;
      assert r.complement[up] == down && r.complement[down] == l.complement[down];
    } else {
      assert r.complement[up] == down;
    }
  }

  lemma {:induction false} SettleKeepsInv(l: Ledger, a: AssetId, price: int)
    requires Inv(l)
    ensures Inv(Settle(l, a, price).ledger)
  {
    if a in l.books {
      TradeKeepsMidInv(l, a, Book([], [], true));
    }
  }

  lemma {:induction false} StepKeepsInv(l: Ledger, op: Op)
    requires Inv(l) && Legal(l, op)
    ensures Inv(Step(l, op).ledger)
  {
    match op
    case OpRegister(up, down) => RegisterKeepsInv(l, up, down);
    case OpFill(a, side, price, size) => FillKeepsInv(l, a, side, price, size);
    case OpReverse(_) =>
    case OpSettle(a, price) => SettleKeepsInv(l, a, price);
  }

  /** Every reachable ledger: no asset is both long and short, the two tokens of a pair are never
      both long, every queued lot is positive, queues are bounded, settled assets are empty. */
  lemma {:induction false} ReachableInv(ops: seq<Op>)
    requires LegalRun(ops)
    ensures Inv(Run(ops).ledger)
  {
    if ops != [] {
      ReachableInv(ops[..|ops| - 1]);
      StepKeepsInv(Run(ops[..|ops| - 1]).ledger, ops[|ops| - 1]);
    }
  }

  lemma {:induction false} LegalPrefix(ops: seq<Op>, k: nat)
    requires LegalRun(ops) && k <= |ops|
    ensures LegalRun(ops[..k])
  {
    if k < |ops| {
      LegalPrefix(ops[..|ops| - 1], k);
      assert ops[..|ops| - 1][..k] == ops[..k];
    } else {
      assert ops[..k] == ops;
    }
  }

  /** A run keeps that shape throughout if and only if all its registrations are legal. */
  lemma {:induction false} ReachableInvIff(ops: seq<Op>)
    ensures (forall k :: 0 <= k <= |ops| ==> Inv(Run(ops[..k]).ledger)) <==> LegalRun(ops)
  {
    hide Inv, Legal, Run;
    if LegalRun(ops) {
      forall k | 0 <= k <= |ops|
        ensures Inv(Run(ops[..k]).ledger)
      {
        LegalPrefix(ops, k);
        ReachableInv(ops[..k]);
      }
    }
    if forall k :: 0 <= k <= |ops| ==> Inv(Run(ops[..k]).ledger) {
      InvMeansLegal(ops);
    }
  }

  lemma {:induction false} InvMeansLegal(ops: seq<Op>)
    requires forall k :: 0 <= k <= |ops| ==> Inv(Run(ops[..k]).ledger)
    ensures LegalRun(ops)
  {
    if ops != [] {
      var front, op := ops[..|ops| - 1], ops[|ops| - 1];
      forall k | 0 <= k <= |front|
        ensures front[..k] == ops[..k]
      {
      }
      InvMeansLegal(front);
      assert Inv(Run(ops[..|front|]).ledger) && Inv(Run(ops[..|ops|]).ledger) && ops[..|ops|] == ops;
      hide Inv;
      if op.OpRegister? {
        RegisterKeepsInv(Run(front).ledger, op.up, op.down);
      }
    }
  }

  // ---------------------------------------------------------------------------
  // FIFO, one unit at a time
  // ---------------------------------------------------------------------------

  function Repeat(price: int, n: nat): seq<int> {
    seq(n, _ => price)
  }

  /** The entry price of every single open unit, oldest first. */
  ghost function Units(lots: seq<Lot>): seq<int>
    requires Positive(lots)
  {
    if lots == [] then [] else Repeat(lots[0].price, lots[0].qty) + Units(lots[1..])
  }

  lemma {:induction false} UnitsFront(lot: Lot, rest: seq<Lot>)
    requires lot.qty > 0 && Positive(rest)
    ensures Positive([lot] + rest) && Units([lot] + rest) == Repeat(lot.price, lot.qty) + Units(rest)
  {
    assert ([lot] + rest)[1..] == rest;
  }

  /** Cutting a concatenation beyond its first part. */
  lemma {:induction false} CutBehind(x: seq<int>, y: seq<int>, n: nat)
    requires |x| <= n <= |x| + |y|
    ensures (x + y)[..n] == x + y[..n - |x|] && (x + y)[n..] == y[n - |x|..]
  {
  }

  /** Part of the front lot is taken. */
  lemma {:induction false} TakePart(queue: seq<Lot>, qty: nat)
    requires Positive(queue) && queue != [] && 0 < qty < queue[0].qty
    ensures var part, left := Lot(queue[0].price, qty), Lot(queue[0].price, queue[0].qty - qty);
            && Take(queue, qty) == ([part], [left] + queue[1..]) && Positive([part]) && Positive([left] + queue[1..])
            && qty <= |Units(queue)| && Units([part]) == Units(queue)[..qty]
                && Units([left] + queue[1..]) == Units(queue)[qty..]
  {
    var part, left := Lot(queue[0].price, qty), Lot(queue[0].price, queue[0].qty - qty);
    var rest := queue[1..];
    assert queue == [queue[0]] + rest && [part] == [part] + [];
    UnitsFront(queue[0], rest);
    UnitsFront(left, rest);
    UnitsFront(part, []);
    assert Units([]) == [];
    hide Units;
    assert Repeat(queue[0].price, queue[0].qty) == Repeat(part.price, part.qty) + Repeat(left.price, left.qty);
  }

  /** Matching lots is matching units first in, first out: exactly the oldest
      `min(qty, open)` units leave the queue. */
  lemma {:induction false} TakeIsUnitFifo(queue: seq<Lot>, qty: nat)
    requires Positive(queue)
    ensures Positive(Take(queue, qty).0) && Positive(Take(queue, qty).1)
    ensures var n := Min(qty, |Units(queue)|);
            && Units(Take(queue, qty).0) == Units(queue)[..n]
            && Units(Take(queue, qty).1) == Units(queue)[n..]
    decreases |queue|
  {
    if qty == 0 || queue == [] {
      assert Units([]) == [];
    } else if queue[0].qty > qty {
      TakePart(queue, qty);
    } else {
      var rest := queue[1..];
      TakeIsUnitFifo(rest, qty - queue[0].qty);
      var (taken, left) := Take(rest, qty - queue[0].qty);
      assert Take(queue, qty) == ([queue[0]] + taken, left);
      assert queue == [queue[0]] + rest;
      UnitsFront(queue[0], rest);
      UnitsFront(queue[0], taken);
      hide Take, Units;
      CutBehind(Repeat(queue[0].price, queue[0].qty), Units(rest), Min(qty, |Units(queue)|));
    }
  }

  /** What is left of a queue of units when the oldest `n` have gone. */
  ghost function Behind(units: seq<int>, n: nat): (rest: seq<int>)
    requires n <= |units|
    ensures |rest| == |units| - n
  {
    units[n..]
  }

  lemma {:induction false} BehindTwice(s: seq<int>, m: nat, n: nat)
    requires m <= n <= |s|
    ensures Behind(Behind(s, m), n - m) == Behind(s, n)
  {
  }

  lemma {:induction false} ShorterBehind(xs: seq<int>, ys: seq<int>, m: nat)
    requires m <= |xs| && m <= |ys|
    ensures m <= Min(|xs|, |ys|) && Min(|Behind(xs, m)|, |Behind(ys, m)|) == Min(|xs|, |ys|) - m
  {
  }

  lemma {:induction false} ReduceUnits(queue: seq<Lot>, m: nat)
    requires Positive(queue) && queue != [] && m <= queue[0].qty
    ensures Positive(Reduce(queue, m)) && m <= |Units(queue)|
    ensures Units(Reduce(queue, m)) == Behind(Units(queue), m)
  {
    var rest := queue[1..];
    var first, others := Repeat(queue[0].price, queue[0].qty), Units(rest);
    assert queue == [queue[0]] + rest;
    hide Units;
    UnitsFront(queue[0], rest);
    if queue[0].qty != m {
      var left := Lot(queue[0].price, queue[0].qty - m);
      assert Reduce(queue, m) == [left] + rest;
      UnitsFront(left, rest);
      assert first[m..] == Repeat(left.price, left.qty);
    }
  }

  lemma {:induction false} PairNothing(a: AssetId, c: AssetId, xs: seq<Lot>, ys: seq<Lot>)
    requires Positive(xs) && Positive(ys) && (xs == [] || ys == [])
    ensures PairQueues(a, c, xs, ys).xs == xs && PairQueues(a, c, xs, ys).ys == ys
    ensures Min(|Units(xs)|, |Units(ys)|) == 0 && Units(xs) == Behind(Units(xs), 0) && Units(ys) == Behind(Units(ys), 0)
  {
    assert Units([]) == [];
  }

  /** The front lots pair first. */
  lemma {:induction false} PairFront(a: AssetId, c: AssetId, xs: seq<Lot>, ys: seq<Lot>, m: int)
    requires Positive(xs) && Positive(ys) && xs != [] && ys != [] && m == Min(xs[0].qty, ys[0].qty)
    ensures 0 < m <= xs[0].qty && m <= ys[0].qty && |Reduce(xs, m)| + |Reduce(ys, m)| < |xs| + |ys|
    ensures Positive(Reduce(xs, m)) && Positive(Reduce(ys, m))
    ensures var p, q := PairQueues(a, c, xs, ys), PairQueues(a, c, Reduce(xs, m), Reduce(ys, m));
            p.xs == q.xs && p.ys == q.ys
  {
  }

  /** Pairing takes the oldest units of both queues, as many as the shorter one holds. */
  lemma {:induction false} PairIsUnitFifo(a: AssetId, c: AssetId, xs: seq<Lot>, ys: seq<Lot>)
    requires Positive(xs) && Positive(ys)
    ensures Positive(PairQueues(a, c, xs, ys).xs) && Positive(PairQueues(a, c, xs, ys).ys)
    ensures var n := Min(|Units(xs)|, |Units(ys)|);
            && Units(PairQueues(a, c, xs, ys).xs) == Behind(Units(xs), n)
            && Units(PairQueues(a, c, xs, ys).ys) == Behind(Units(ys), n)
    decreases |xs| + |ys|
  {
    PairShape(a, c, xs, ys);
    hide Units, Reduce, PairQueues, Positive, Behind;
    if xs == [] || ys == [] {
      PairNothing(a, c, xs, ys);
    } else {
      var m := Min(xs[0].qty, ys[0].qty);
      PairFront(a, c, xs, ys, m);
      ReduceUnits(xs, m);
      ReduceUnits(ys, m);
      PairIsUnitFifo(a, c, Reduce(xs, m), Reduce(ys, m));
      var n := Min(|Units(xs)|, |Units(ys)|);
      hide Min;
      ShorterBehind(Units(xs), Units(ys), m);
      BehindTwice(Units(xs), m, n);
      BehindTwice(Units(ys), m, n);
    }
  }

  // ---------------------------------------------------------------------------
  // The double-entry identity
  // ---------------------------------------------------------------------------

  /** On every run and under every valuation: realized plus unrealized is the sum of the flows. */
  lemma {:induction false} RunConserves(ops: seq<Op>, v: AssetId -> int)
    requires LegalRun(ops)
    ensures Exact(Run(ops).entries) + Unrealized(Run(ops).ledger.books, v) == Flows(Run(ops).entries, v)
  {
    if ops != [] {
      var before := ops[..|ops| - 1];
      RunConserves(before, v);
      ReachableInv(before);
      StepConserves(Run(before).ledger, ops[|ops| - 1], v);
      JournalAppend(Run(before).entries, Step(Run(before).ledger, ops[|ops| - 1]).entries, v);
    }
  }

  /** Cash paid and received: fills at their price, settlements at theirs. */
  function Cash(j: seq<Entry>): int {
    if j == [] then 0
    else
      (match j[0]
       case Filled(_, side, price, qty) => Mark(side, 0, price, qty)
       case Settled(_, side, qty, price, _) => Mark(side, price, 0, qty)
       case _ => 0) + Cash(j[1..])
  }

  function PairedQty(j: seq<Entry>): int {
    if j == [] then 0 else (if j[0].Paired? then j[0].qty else 0) + PairedQty(j[1..])
  }

  /** Cost of dropped longs less proceeds of dropped shorts. */
  function DroppedCost(j: seq<Entry>): int {
    if j == [] then 0
    else (if j[0].Dropped? then -Mark(j[0].side, 0, j[0].lot.price, j[0].lot.qty) else 0) + DroppedCost(j[1..])
  }

  /** Cost of all open longs less proceeds of all open shorts. */
  ghost function OpenCost(books: map<AssetId, Book>): int {
    -Unrealized(books, _ => 0)
  }

  lemma {:induction false} FlowsAtZero(j: seq<Entry>)
    ensures Flows(j, _ => 0) == Cash(j) + PRICE_SCALE * PairedQty(j) + DroppedCost(j)
  {
    if j != [] {
      FlowsAtZero(j[1..]);
    }
  }

  /** Exact profit is cash flow plus open cost plus a dollar per paired unit plus what was dropped. */
  lemma {:induction false} LedgerIdentity(ops: seq<Op>)
    requires LegalRun(ops)
    ensures var r := Run(ops);
            Exact(r.entries)
              == Cash(r.entries) + OpenCost(r.ledger.books) + PRICE_SCALE * PairedQty(r.entries)
                  + DroppedCost(r.entries)
  {
    RunConserves(ops, _ => 0);
    FlowsAtZero(Run(ops).entries);
  }

  // ---------------------------------------------------------------------------
  // Truncation and reversal
  // ---------------------------------------------------------------------------

  lemma {:induction false} TruncationStep(g: int)
    ensures var error := PRICE_SCALE * TruncDiv(g, PRICE_SCALE) - g;
            (if g > 0 then -9999 else 0) <= error <= (if g < 0 then 9999 else 0)
  {
  }

  /** The number of matches, pairings and settled lots that brought a profit, and of those that brought a loss. */
  function Wins(j: seq<Entry>): nat {
    if j == [] then 0 else (if Gain(j[0]) > 0 then 1 else 0) + Wins(j[1..])
  }

  function Losses(j: seq<Entry>): nat {
    if j == [] then 0 else (if Gain(j[0]) < 0 then 1 else 0) + Losses(j[1..])
  }

  lemma {:induction false} JournalRounding(j: seq<Entry>)
    ensures var error := PRICE_SCALE * (Stored(j) + ReversedTotal(j)) - Exact(j);
            -9999 * Wins(j) <= error <= 9999 * Losses(j)
    ensures Wins(j) + Losses(j) <= Steps(j)
  {
    if j != [] {
      JournalRounding(j[1..]);
      TruncationStep(Gain(j[0]));
    }
  }

  lemma {:induction false} StepStores(l: Ledger, op: Op)
    ensures Step(l, op).ledger.realized == l.realized + Stored(Step(l, op).entries)
  {
  }

  lemma {:induction false} RealizedIsStored(ops: seq<Op>)
    ensures Run(ops).ledger.realized == Stored(Run(ops).entries)
  {
    if ops != [] {
      var before := Run(ops[..|ops| - 1]);
      RealizedIsStored(ops[..|ops| - 1]);
      StepStores(before.ledger, ops[|ops| - 1]);
      JournalAppend(before.entries, Step(before.ledger, ops[|ops| - 1]).entries, _ => 0);
    }
  }

  /** Truncation goes toward zero: the stored total, reversals undone, falls short of the exact profit by at most 9999
      ten-thousandths per match or settled lot that brought a profit, and exceeds it by as much per losing one. */
  lemma {:induction false} RealizedWithinRounding(ops: seq<Op>)
    ensures var r := Run(ops);
            var error := PRICE_SCALE * (r.ledger.realized + ReversedTotal(r.entries)) - Exact(r.entries);
            -9999 * Wins(r.entries) <= error <= 9999 * Losses(r.entries)
    ensures Wins(Run(ops).entries) + Losses(Run(ops).entries) <= Steps(Run(ops).entries)
  {
    RealizedIsStored(ops);
    JournalRounding(Run(ops).entries);
  }

  /** The number `record_fill` returns. */
  function FillDelta(l: Ledger, a: AssetId, side: Side, price: int, size: int): int {
    Fill(l, a, side, price, size).ledger.realized - l.realized
  }

  /** Steps do not read the stored total: shifting it by a constant shifts every later total by it and nothing else. */
  lemma {:induction false} StepIgnoresRealized(l: Ledger, op: Op, shift: int)
    ensures var o := Step(l.(realized := l.realized + shift), op);
            && o.entries == Step(l, op).entries
            && o.ledger == Step(l, op).ledger.(realized := Step(l, op).ledger.realized + shift)
  {
    hide Trade, PairQueues, SettleEntries, Stored;
  }

  function RunFrom(l: Ledger, ops: seq<Op>): Ledger
    decreases |ops|
  {
    if ops == [] then l else RunFrom(Step(l, ops[0]).ledger, ops[1..])
  }

  lemma {:induction false} RunIgnoresRealized(l: Ledger, ops: seq<Op>, shift: int)
    ensures RunFrom(l.(realized := l.realized + shift), ops)
         == RunFrom(l, ops).(realized := RunFrom(l, ops).realized + shift)
    decreases |ops|
  {
    if ops != [] {
      StepIgnoresRealized(l, ops[0], shift);
      hide Step;
      RunIgnoresRealized(Step(l, ops[0]).ledger, ops[1..], shift);
    }
  }

  /** Reversing a fill at any later time removes exactly that fill's contribution: the total is what the same
      run would show had the fill matched the same lots and recorded no gain. */
  lemma {:induction false} ReverseCancelsItsFill(l: Ledger, a: AssetId, side: Side, price: int, size: int,
      later: seq<Op>)
    ensures var delta := FillDelta(l, a, side, price, size);
            var filled := Fill(l, a, side, price, size).ledger;
            Reverse(RunFrom(filled, later), delta).ledger == RunFrom(filled.(realized := l.realized), later)
  {
    var delta := FillDelta(l, a, side, price, size);
    var filled := Fill(l, a, side, price, size).ledger;
    RunIgnoresRealized(filled, later, -delta);
    hide RunFrom;
    assert filled.(realized := filled.realized + -delta) == filled.(realized := l.realized);
  }
}
