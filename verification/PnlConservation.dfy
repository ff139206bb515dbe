/**
 The conservation law of the ledger.  Fix any value for every asset.  What has been realized
 plus what the open lots are worth always equals what the journal's flows add up to, however
 fills were matched, paired, dropped or settled.
 */
module PnlConservation {
  import opened Common
  import opened PnlLedger

  lemma {:induction false} JournalAppend(j: seq<Entry>, k: seq<Entry>, v: AssetId -> int)
    ensures Exact(j + k) == Exact(j) + Exact(k)
    ensures Stored(j + k) == Stored(j) + Stored(k)
    ensures Steps(j + k) == Steps(j) + Steps(k)
    ensures ReversedTotal(j + k) == ReversedTotal(j) + ReversedTotal(k)
    ensures Flows(j + k, v) == Flows(j, v) + Flows(k, v)
  {
    if j == [] {
      assert j + k == k;
    } else {
      assert (j + k)[1..] == j[1..] + k;
      JournalAppend(j[1..], k, v);
    }
  }

  lemma {:induction false} MarkAppend(side: Side, value: int, xs: seq<Lot>, ys: seq<Lot>)
    ensures MarkLots(side, value, xs + ys) == MarkLots(side, value, xs) + MarkLots(side, value, ys)
    ensures Total(xs + ys) == Total(xs) + Total(ys)
  {
    if xs == [] {
      assert xs + ys == ys;
    } else {
      assert (xs + ys)[1..] == xs[1..] + ys;
      MarkAppend(side, value, xs[1..], ys);
    }
  }

  lemma {:induction false} MarkSplit(side: Side, value: int, price: int, q: int, r: int)
    ensures Mark(side, value, price, q + r) == Mark(side, value, price, q) + Mark(side, value, price, r)
  {
  }

  /** Splitting a queue neither creates nor destroys worth. */
  lemma {:induction false} TakeConserves(side: Side, value: int, queue: seq<Lot>, qty: int)
    ensures var (taken, rest) := Take(queue, qty);
            MarkLots(side, value, taken) + MarkLots(side, value, rest) == MarkLots(side, value, queue)
    ensures var (taken, rest) := Take(queue, qty);
            Total(taken) + Total(rest) == Total(queue)
    decreases |queue|
  {
    if qty <= 0 || queue == [] {
    } else if queue[0].qty <= qty {
      TakeConserves(side, value, queue[1..], qty - queue[0].qty);
      var (taken, rest) := Take(queue[1..], qty - queue[0].qty);
      assert ([queue[0]] + taken)[1..] == taken;
    } else {
      var p := queue[0].price;
      MarkSplit(side, value, p, qty, queue[0].qty - qty);
      MarkAppend(side, value, [Lot(p, queue[0].qty - qty)], queue[1..]);
      assert MarkLots(side, value, [Lot(p, qty)]) == Mark(side, value, p, qty);
      assert MarkLots(side, value, [Lot(p, queue[0].qty - qty)]) == Mark(side, value, p, queue[0].qty - qty);
    }
  }

  function Opposite(side: Side): Side {
    if side.Bid? then Ask else Bid
  }

  /** Closing lots realizes their mark plus the mark of the closing fill itself. */
  lemma {:induction false} CloseRealizes(side: Side, price: int, taken: seq<Lot>, value: int, v: AssetId -> int)
    ensures Exact(CloseEntries(side, price, taken))
              == MarkLots(Opposite(side), value, taken) + Mark(side, value, price, Total(taken))
    ensures Flows(CloseEntries(side, price, taken), v) == 0
  {
    if taken != [] {
      CloseRealizes(side, price, taken[1..], value, v);
      var lot := taken[0];
      MarkSplit(side, value, price, lot.qty, Total(taken[1..]));
      assert CloseEntries(side, price, taken)[1..] == CloseEntries(side, price, taken[1..]);
      assert CloseGain(side, price, lot)
          == Mark(Opposite(side), value, lot.price, lot.qty) + Mark(side, value, price, lot.qty);
    }
  }

  lemma {:induction false} ReduceMark(value: int, queue: seq<Lot>, m: int)
    requires queue != []
    ensures MarkLots(Bid, value, Reduce(queue, m))
              == MarkLots(Bid, value, queue) - Mark(Bid, value, queue[0].price, m)
  {
    if queue[0].qty != m {
      var rest := Lot(queue[0].price, queue[0].qty - m);
      assert Reduce(queue, m) == [rest] + queue[1..];
      MarkAppend(Bid, value, [rest], queue[1..]);
      assert MarkLots(Bid, value, [rest]) == Mark(Bid, value, rest.price, rest.qty);
      MarkSplit(Bid, value, queue[0].price, m, queue[0].qty - m);
    }
  }

  /** Pairing turns the worth of both longs into a dollar per unit. */
  lemma {:induction false} PairConserves(a: AssetId, c: AssetId, xs: seq<Lot>, ys: seq<Lot>, v: AssetId -> int)
    ensures var p := PairQueues(a, c, xs, ys);
            Exact(p.entries) + MarkLots(Bid, v(a), p.xs) + MarkLots(Bid, v(c), p.ys)
              == MarkLots(Bid, v(a), xs) + MarkLots(Bid, v(c), ys) + Flows(p.entries, v)
    decreases |xs| + |ys|
  {
    if xs != [] && ys != [] {
      var m := Min(xs[0].qty, ys[0].qty);
      PairConserves(a, c, Reduce(xs, m), Reduce(ys, m), v);
      ReduceMark(v(a), xs, m);
      ReduceMark(v(c), ys, m);
      var r := PairQueues(a, c, Reduce(xs, m), Reduce(ys, m));
      var e := Paired(a, c, m, PairGain(xs[0].price, ys[0].price, m));
      assert PairQueues(a, c, xs, ys).entries[1..] == r.entries;
      assert PairQueues(a, c, xs, ys).entries[0] == e;
      PairUnit(v(a), v(c), xs[0].price, ys[0].price, m);
    }
  }

  lemma {:induction false} PairUnit(va: int, vc: int, p: int, q: int, m: int)
    ensures PairGain(p, q, m) == (va - p) * m + (vc - q) * m + (PRICE_SCALE - va - vc) * m
  {
  }

  lemma {:induction false} SettleConserves(a: AssetId, side: Side, price: int, lots: seq<Lot>, v: AssetId -> int)
    ensures Exact(SettleEntries(a, side, price, lots))
              == MarkLots(side, v(a), lots) + Flows(SettleEntries(a, side, price, lots), v)
  {
    if lots != [] {
      SettleConserves(a, side, price, lots[1..], v);
      assert SettleEntries(a, side, price, lots)[1..] == SettleEntries(a, side, price, lots[1..]);
      var lot := lots[0];
      assert SettleGain(side, price, lot) == Mark(side, v(a), lot.price, lot.qty) + Mark(side, price, v(a), lot.qty);
    }
  }

  /** What a fill leaves open after closing `Total(taken)`, or drops when the ring is full. */
  lemma {:induction false} PushConserves(a: AssetId, side: Side, lots: seq<Lot>, price: int, left: int,
      v: AssetId -> int)
    ensures var lot := Lot(price, left);
            MarkLots(side, v(a), Push(lots, lot))
              == MarkLots(side, v(a), lots) + Mark(side, v(a), price, left) + Flows(PushEntries(a, side, lots, lot), v)
    ensures Exact(PushEntries(a, side, lots, Lot(price, left))) == 0
  {
    MarkAppend(side, v(a), lots, [Lot(price, left)]);
  }

  // ---------------------------------------------------------------------------
  // The sum over all books
  // ---------------------------------------------------------------------------

  lemma {:induction false} UnrealizedRemove(books: map<AssetId, Book>, v: AssetId -> int, a: AssetId)
    requires a in books
    ensures Unrealized(books, v) == MarkBook(books[a], v(a)) + Unrealized(books - {a}, v)
    decreases |books|
  {
    var b := Pick(books);
    if a != b {
      UnrealizedRemove(books - {b}, v, a);
      UnrealizedRemove(books - {a}, v, b);
      assert books - {b} - {a} == books - {a} - {b};
    }
  }

  lemma {:induction false} UnrealizedUpdate(books: map<AssetId, Book>, v: AssetId -> int, a: AssetId, b: Book)
    ensures Unrealized(books[a := b], v) - MarkBook(b, v(a))
              == Unrealized(books, v) - (if a in books then MarkBook(books[a], v(a)) else 0)
  {
    hide Unrealized, MarkBook;
    UnrealizedRemove(books[a := b], v, a);
    assert books[a := b] - {a} == books - {a};
    if a in books {
      UnrealizedRemove(books, v, a);
    } else {
      assert books - {a} == books;
    }
  }

  // ---------------------------------------------------------------------------
  // One step
  // ---------------------------------------------------------------------------

  predicate NoSelfPair(l: Ledger) {
    forall a :: a in l.complement ==> l.complement[a] != a
  }

  ghost predicate Conserves(l: Ledger, o: Outcome, v: AssetId -> int) {
    Exact(o.entries) + Unrealized(o.ledger.books, v) == Unrealized(l.books, v) + Flows(o.entries, v)
  }

  lemma {:induction false} TakeAtMost(queue: seq<Lot>, qty: int)
    ensures Total(Take(queue, qty).0) <= Max(qty, 0)
    ensures qty <= 0 ==> Take(queue, qty) == ([], queue)
    decreases |queue|
  {
    if qty > 0 && queue != [] && queue[0].qty <= qty {
      TakeAtMost(queue[1..], qty - queue[0].qty);
      var (taken, rest) := Take(queue[1..], qty - queue[0].qty);
      assert ([queue[0]] + taken)[1..] == taken;
    }
  }

  lemma {:induction false} CloseNothing(side: Side, price: int)
    ensures Total([]) == 0 && CloseEntries(side, price, []) == []
  {
  }

  /** The taking, closing and queueing half of a fill, in one asset's book. */
  lemma {:induction false} TradeConserves(a: AssetId, book: Book, side: Side, price: int, size: int, v: AssetId -> int)
    ensures var t := Trade(a, book, side, price, size);
            Exact(t.entries) + MarkBook(t.book, v(a))
              == MarkBook(book, v(a)) + Flows(t.entries, v) + (if size > 0 then Mark(side, v(a), price, size) else 0)
  {
    hide Take, Total, Push, PushEntries, CloseEntries, MarkLots;
    var against, own := if side.Bid? then book.shorts else book.longs, if side.Bid? then book.longs else book.shorts;
    var (taken, rest) := Take(against, size);
    var left := size - Total(taken);
    var drops := if left > 0 then PushEntries(a, side, own, Lot(price, left)) else [];
    TakeConserves(Opposite(side), v(a), against, size);
    CloseRealizes(side, price, taken, v(a), v);
    TakeAtMost(against, size);
    PushConserves(a, side, own, price, left, v);
    JournalAppend(CloseEntries(side, price, taken), drops, v);
    MarkSplit(side, v(a), price, Total(taken), left);
    assert Exact([]) == 0 && Flows([], v) == 0 && Mark(side, v(a), price, 0) == 0;
    if size <= 0 {
      CloseNothing(side, price);
    }
    hide Exact, Flows, Mark;
  }

  lemma {:induction false} CrossMatchConserves(l: Ledger, a: AssetId, v: AssetId -> int)
    requires NoSelfPair(l) && a in l.books
    ensures Conserves(l, CrossMatch(l, a), v)
  {
    if Pairable(l, a) {
      var c := l.complement[a];
      var p := PairQueues(a, c, l.books[a].longs, l.books[c].longs);
      PairConserves(a, c, l.books[a].longs, l.books[c].longs, v);
      var b1 := l.books[a := l.books[a].(longs := p.xs)];
      UnrealizedUpdate(l.books, v, a, l.books[a].(longs := p.xs));
      UnrealizedUpdate(b1, v, c, l.books[c].(longs := p.ys));
    }
  }

  lemma {:induction false} FillConserves(l: Ledger, a: AssetId, side: Side, price: int, size: int, v: AssetId -> int)
    requires NoSelfPair(l)
    ensures Conserves(l, Fill(l, a, side, price, size), v)
  {
    if !BookOf(l, a).settled {
      var t := Trade(a, BookOf(l, a), side, price, size);
      var l1 := l.(books := l.books[a := t.book]);
      var o := if side.Bid? then CrossMatch(l1, a) else Outcome(l1, []);
      var head := if size > 0 then [Filled(a, side, price, size)] else [];
      TradeConserves(a, BookOf(l, a), side, price, size, v);
      UnrealizedUpdate(l.books, v, a, t.book);
      CrossMatchConserves(l1, a, v);
      JournalAppend(head, t.entries, v);
      JournalAppend(head + t.entries, o.entries, v);
    }
  }

  lemma {:induction false} SettleStepConserves(l: Ledger, a: AssetId, price: int, v: AssetId -> int)
    ensures Conserves(l, Settle(l, a, price), v)
  {
    if a in l.books && !l.books[a].settled {
      var book := l.books[a];
      SettleConserves(a, Bid, price, book.longs, v);
      SettleConserves(a, Ask, price, book.shorts, v);
      JournalAppend(SettleEntries(a, Bid, price, book.longs), SettleEntries(a, Ask, price, book.shorts), v);
      UnrealizedUpdate(l.books, v, a, Book([], [], true));
    }
  }

  lemma {:induction false} RegisterConserves(l: Ledger, up: AssetId, down: AssetId, v: AssetId -> int)
    ensures Unrealized(Register(l, up, down).books, v) == Unrealized(l.books, v)
  {
    UnrealizedUpdate(l.books, v, up, BookOf(l, up));
    UnrealizedUpdate(l.books[up := BookOf(l, up)], v, down, BookOf(l, down));
  }

  lemma {:induction false} StepConserves(l: Ledger, op: Op, v: AssetId -> int)
    requires NoSelfPair(l)
    ensures Conserves(l, Step(l, op), v)
  {
    match op
    case OpRegister(up, down) => RegisterConserves(l, up, down, v);
    case OpFill(a, side, price, size) => FillConserves(l, a, side, price, size, v);
    case OpReverse(_) =>
    case OpSettle(a, price) => SettleStepConserves(l, a, price, v);
  }
}
