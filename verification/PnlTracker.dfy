/**
 The profit-and-loss tracker as the engine runs it: a map from asset to a state struct holding two
 rings of 256 lots, updated by matching loops.  Every method is proved to do what `PnlLedger` does
 on queues, so everything proved of ledger runs holds of the tracker.
 */
module PnlTracker {
  import opened Common
  import opened PnlLedger
  import T = PnlTheorems
  import C = PnlConservation
  import U = PnlUnits

  /** A ring of lots, oldest at `head`. */
  datatype Ring = Ring(slots: seq<Lot>, head: nat, count: nat) {

    ghost predicate Valid() {
      |slots| == MAX_ENTRIES && head < MAX_ENTRIES && count <= MAX_ENTRIES
    }

    /** The queue the ring holds. */
    ghost function Lots(): (lots: seq<Lot>)
      requires Valid()
      ensures |lots| == count
    {
      if head + count <= MAX_ENTRIES then slots[head..head + count]
      else slots[head..] + slots[..head + count - MAX_ENTRIES]
    }

    method Push(lot: Lot) returns (r: Ring)
      requires Valid()
      ensures r.Valid() && r.Lots() == if count < MAX_ENTRIES then Lots() + [lot] else Lots()
    {
      if count >= MAX_ENTRIES {
        return this;
      }
      var tail := if head + count < MAX_ENTRIES then head + count else head + count - MAX_ENTRIES;
      assert tail == (head + count) % MAX_ENTRIES;
      r := Ring(slots[(head + count) % MAX_ENTRIES := lot], head, count + 1);
      if head + count < MAX_ENTRIES {
        assert r.slots[head..tail + 1] == slots[head..tail] + [lot];
      } else {
        assert r.slots[head..] == slots[head..] && r.slots[..tail + 1] == slots[..tail] + [lot];
      }
      assert r.Lots() == Lots() + [lot];
    }

    method Pop() returns (r: Ring)
      requires Valid() && count > 0
      ensures r.Valid() && r.count == count - 1 && r.Lots() == Lots()[1..]
    {
      r := Ring(slots, (head + 1) % MAX_ENTRIES, count - 1);
      assert head + 1 < MAX_ENTRIES ==> r.head == head + 1;
    }

    function Front(): (lot: Lot)
      requires Valid() && count > 0
      ensures lot == Lots()[0]
    {
      slots[head]
    }

    /** Uses `m` units of the front lot, and drops the lot when nothing is left of it. */
    method UseFront(m: int) returns (r: Ring)
      requires Valid() && count > 0
      ensures r.Valid() && r.Lots() == Reduce(Lots(), m)
    {
      var lot := Lot(Front().price, Front().qty - m);
      r := Ring(slots[head := lot], head, count);
      assert r.Lots() == Lots()[0 := lot];
      hide Lots;
      if lot.qty == 0 {
        assert Lots()[0 := lot][1..] == Lots()[1..];
        r := r.Pop();
      }
    }

  }

  const EMPTY_RING := Ring(seq(MAX_ENTRIES, _ => Lot(0, 0)), 0, 0)

  /** The front step of `Take`, as the matching loop performs it. */
  lemma {:induction false} TakeOne(side: Side, price: int, queue: seq<Lot>, qty: int, m: int)
    requires Positive(queue) && queue != [] && qty > 0 && m == Min(qty, queue[0].qty)
    ensures Positive(Reduce(queue, m)) && m > 0 && |Reduce(queue, m)| <= |queue|
    ensures var (taken, rest) := Take(queue, qty);
            var (more, rest') := Take(Reduce(queue, m), qty - m);
            && rest' == rest && Total(taken) == m + Total(more)
            && Stored(CloseEntries(side, price, taken))
               == TruncDiv(CloseGain(side, price, Lot(queue[0].price, m)), PRICE_SCALE)
                   + Stored(CloseEntries(side, price, more))
  {
    var (taken, rest) := Take(queue, qty);
    var (more, rest') := Take(Reduce(queue, m), qty - m);
    if queue[0].qty <= qty {
      assert taken[1..] == more;
    } else {
      assert Reduce(queue, m) == [Lot(queue[0].price, queue[0].qty - qty)] + queue[1..];
      assert taken == [Lot(queue[0].price, qty)] && more == [];
    }
    assert CloseEntries(side, price, taken)[1..] == CloseEntries(side, price, more);
  }

  /** The rest of the loop, from `queue` and `remaining` on, finishes a match of `size` against `start` that has gained
      `pnl` so far. */
  ghost predicate Closing(side: Side, price: int, start: seq<Lot>, size: int, queue: seq<Lot>, remaining: int, pnl: int)
    requires Positive(start) && Positive(queue)
  {
    var (taken, rest) := Take(start, size);
    var (more, rest') := Take(queue, remaining);
    && rest' == rest && remaining - Total(more) == size - Total(taken)
    && pnl + Stored(CloseEntries(side, price, more)) == Stored(CloseEntries(side, price, taken))
  }

  lemma {:induction false} CloseStep(side: Side, price: int, start: seq<Lot>, size: int, queue: seq<Lot>,
      remaining: int, pnl: int, m: int)
    requires Positive(start) && Positive(queue) && Closing(side, price, start, size, queue, remaining, pnl)
    requires queue != [] && remaining > 0 && m == Min(remaining, queue[0].qty)
    ensures Positive(Reduce(queue, m)) && m > 0 && |Reduce(queue, m)| <= |queue|
    ensures Closing(side, price, start, size, Reduce(queue, m), remaining - m,
                    pnl + TruncDiv(CloseGain(side, price, Lot(queue[0].price, m)), PRICE_SCALE))
  {
    TakeOne(side, price, queue, remaining, m);
    hide Take, Total, Stored, CloseEntries, Reduce, TruncDiv, CloseGain, Positive;
  }

  lemma {:induction false} CloseDone(side: Side, price: int, start: seq<Lot>, size: int, queue: seq<Lot>,
      remaining: int, pnl: int)
    requires Positive(start) && Positive(queue) && Closing(side, price, start, size, queue, remaining, pnl)
    requires remaining <= 0 || queue == []
    ensures var (taken, rest) := Take(start, size);
            queue == rest && remaining == size - Total(taken) && pnl == Stored(CloseEntries(side, price, taken))
  {
  }

  /** The same-asset matching loop of a fill on `side`: first in, first out. */
  method CloseFifo(ring: Ring, side: Side, price: int, size: int) returns (r: Ring, remaining: int, pnl: int)
    requires ring.Valid() && Positive(ring.Lots())
    ensures r.Valid()
    ensures var (taken, rest) := Take(ring.Lots(), size);
            && r.Lots() == rest && remaining == size - Total(taken)
            && pnl == Stored(CloseEntries(side, price, taken))
  {
    ghost var start := ring.Lots();
    r, remaining, pnl := ring, size, 0;
    hide Reduce, TruncDiv, CloseGain, Take, Total, Stored, CloseEntries, Positive, Closing, Ring.Lots, Ring.Valid;
    assert Closing(side, price, start, size, start, size, 0) by {
      CloseNone(side, price, start, size);
    }
    while remaining > 0 && r.count > 0
      invariant r.Valid() && Positive(r.Lots())
      invariant Closing(side, price, start, size, r.Lots(), remaining, pnl)
      decreases |r.Lots()|, remaining
    {
      r, remaining, pnl := CloseFront(r, side, price, remaining, pnl, start, size);
    }
    CloseDone(side, price, start, size, r.Lots(), remaining, pnl);
  }

  /** One round of the loop: the front lot, or as much of it as is asked for. */
  method CloseFront(ring: Ring, side: Side, price: int, remaining: int, pnl: int, ghost start: seq<Lot>,
      ghost size: int)
    returns (r: Ring, remaining': int, pnl': int)
    requires ring.Valid() && ring.count > 0 && remaining > 0 && Positive(ring.Lots()) && Positive(start)
    requires Closing(side, price, start, size, ring.Lots(), remaining, pnl)
    ensures r.Valid() && Positive(r.Lots()) && Closing(side, price, start, size, r.Lots(), remaining', pnl')
    ensures |r.Lots()| <= |ring.Lots()| && 0 <= remaining' < remaining
  {
    hide Reduce, TruncDiv, CloseGain, Take, Closing, Ring.Lots, Ring.Valid;
    var entry := ring.Front();
    var matched := Min(remaining, entry.qty);
    CloseStep(side, price, start, size, ring.Lots(), remaining, pnl, matched);
    pnl' := pnl + TruncDiv(CloseGain(side, price, Lot(entry.price, matched)), PRICE_SCALE);
    r := ring.UseFront(matched);
    remaining' := remaining - matched;
  }

  lemma {:induction false} CloseNone(side: Side, price: int, start: seq<Lot>, size: int)
    requires Positive(start)
    ensures Closing(side, price, start, size, start, size, 0)
  {
  }

  /** The front step of `PairQueues`, as the cross-asset loop performs it. */
  lemma {:induction false} PairOne(a: AssetId, c: AssetId, xs: seq<Lot>, ys: seq<Lot>, m: int)
    requires Positive(xs) && Positive(ys) && xs != [] && ys != [] && m == Min(xs[0].qty, ys[0].qty)
    ensures Positive(Reduce(xs, m)) && Positive(Reduce(ys, m))
    ensures |Reduce(xs, m)| + |Reduce(ys, m)| < |xs| + |ys|
    ensures var p, q := PairQueues(a, c, xs, ys), PairQueues(a, c, Reduce(xs, m), Reduce(ys, m));
            && q.xs == p.xs && q.ys == p.ys
            && Stored(p.entries) == TruncDiv(PairGain(xs[0].price, ys[0].price, m), PRICE_SCALE) + Stored(q.entries)
  {
    var p, q := PairQueues(a, c, xs, ys), PairQueues(a, c, Reduce(xs, m), Reduce(ys, m));
    assert p.entries[1..] == q.entries;
  }

  lemma {:induction false} PairDone(a: AssetId, c: AssetId, xs: seq<Lot>, ys: seq<Lot>)
    requires xs == [] || ys == []
    ensures PairQueues(a, c, xs, ys) == PairResult(xs, ys, []) && Stored([]) == 0
  {
  }

  /** The cross-asset loop: the fronts of two queues of longs, until one is empty. */
  method PairLongs(ghost a: AssetId, ghost c: AssetId, xs: Ring, ys: Ring) returns (x: Ring, y: Ring, pnl: int)
    requires xs.Valid() && ys.Valid() && Positive(xs.Lots()) && Positive(ys.Lots())
    ensures x.Valid() && y.Valid()
    ensures var p := PairQueues(a, c, xs.Lots(), ys.Lots());
            x.Lots() == p.xs && y.Lots() == p.ys && pnl == Stored(p.entries)
  {
    hide PairQueues, Reduce, Stored, TruncDiv, PairGain;
    x, y, pnl := xs, ys, 0;
    ghost var lx, ly := xs.Lots(), ys.Lots();
    while x.count > 0 && y.count > 0
      invariant x.Valid() && y.Valid() && x.Lots() == lx && y.Lots() == ly && Positive(lx) && Positive(ly)
      invariant var p, q := PairQueues(a, c, xs.Lots(), ys.Lots()), PairQueues(a, c, lx, ly);
                q.xs == p.xs && q.ys == p.ys && pnl + Stored(q.entries) == Stored(p.entries)
      decreases |lx| + |ly|
    {
      var front, partner := x.Front(), y.Front();
      var matched := Min(front.qty, partner.qty);
      pnl := pnl + TruncDiv(PairGain(front.price, partner.price, matched), PRICE_SCALE);
      x := x.UseFront(matched);
      y := y.UseFront(matched);
      PairOne(a, c, lx, ly, matched);
      lx, ly := Reduce(lx, matched), Reduce(ly, matched);
    }
    PairDone(a, c, lx, ly);
  }

  /** The settlement loop for one side's lots. */
  method SettleAll(a: AssetId, ring: Ring, side: Side, price: int) returns (r: Ring, pnl: int)
    requires ring.Valid()
    ensures r.Valid() && r.Lots() == []
    ensures pnl == Stored(SettleEntries(a, side, price, ring.Lots()))
  {
    r, pnl := ring, 0;
    while r.count > 0
      invariant r.Valid()
      invariant pnl + Stored(SettleEntries(a, side, price, r.Lots()))
              == Stored(SettleEntries(a, side, price, ring.Lots()))
      decreases r.count
    {
      pnl := pnl + TruncDiv(SettleGain(side, price, r.Front()), PRICE_SCALE);
      assert SettleEntries(a, side, price, r.Lots())[1..] == SettleEntries(a, side, price, r.Lots()[1..]);
      r := r.Pop();
    }
  }

  /** The open lots of one asset. */
  datatype AssetState = AssetState(longs: Ring, shorts: Ring, settled: bool) {

    ghost predicate Valid() {
      longs.Valid() && shorts.Valid()
    }

    ghost function Book(): PnlLedger.Book
      requires Valid()
    {
      PnlLedger.Book(longs.Lots(), shorts.Lots(), settled)
    }
  }

  const EMPTY_STATE := AssetState(EMPTY_RING, EMPTY_RING, false)

  lemma {:induction false} DropsStoreNothing(a: AssetId, side: Side, price: int, own: seq<Lot>, left: int,
      taken: seq<Lot>)
    ensures var drops := if left > 0 then PushEntries(a, side, own, Lot(price, left)) else [];
            Stored(CloseEntries(side, price, taken) + drops) == Stored(CloseEntries(side, price, taken))
  {
    var drops := if left > 0 then PushEntries(a, side, own, Lot(price, left)) else [];
    C.JournalAppend(CloseEntries(side, price, taken), drops, _ => 0);
  }

  /** Matches a fill against one ring and pushes what is left on the other. */
  method CloseAndQueue(ghost a: AssetId, against: Ring, own: Ring, side: Side, price: int, size: int)
    returns (against': Ring, own': Ring, pnl: int)
    requires against.Valid() && own.Valid() && Positive(against.Lots())
    ensures against'.Valid() && own'.Valid()
    ensures var (taken, rest) := Take(against.Lots(), size);
            var left := size - Total(taken);
            var drops := if left > 0 then PushEntries(a, side, own.Lots(), Lot(price, left)) else [];
            && against'.Lots() == rest
            && own'.Lots() == (if left > 0 then PnlLedger.Push(own.Lots(), Lot(price, left)) else own.Lots())
            && pnl == Stored(CloseEntries(side, price, taken) + drops)
  {
    ghost var taken := Take(against.Lots(), size).0;
    DropsStoreNothing(a, side, price, own.Lots(), size - Total(taken), taken);
    var remaining;
    against', remaining, pnl := CloseFifo(against, side, price, size);
    own' := own;
    if remaining > 0 {
      own' := own.Push(Lot(price, remaining));
    }
  }

  /** A fill inside its own asset's state. */
  method TradeState(ghost a: AssetId, state: AssetState, side: Side, price: int, size: int) returns (s: AssetState,
      pnl: int)
    requires state.Valid() && T.BookInv(state.Book())
    ensures s.Valid()
    ensures var t := Trade(a, state.Book(), side, price, size);
            s.Book() == t.book && pnl == Stored(t.entries)
  {
    if side.Bid? {
      var shorts, longs;
      shorts, longs, pnl := CloseAndQueue(a, state.shorts, state.longs, side, price, size);
      s := AssetState(longs, shorts, state.settled);
    } else {
      var longs, shorts;
      longs, shorts, pnl := CloseAndQueue(a, state.longs, state.shorts, side, price, size);
      s := AssetState(longs, shorts, state.settled);
    }
  }

  ghost predicate ValidStates(states: map<AssetId, AssetState>) {
    forall a :: a in states ==> states[a].Valid()
  }

  ghost function Books(states: map<AssetId, AssetState>): map<AssetId, Book>
    requires ValidStates(states)
  {
    map a | a in states :: states[a].Book()
  }

  lemma {:induction false} BooksUpdate(states: map<AssetId, AssetState>, a: AssetId, s: AssetState)
    requires ValidStates(states) && s.Valid()
    ensures ValidStates(states[a := s]) && Books(states[a := s]) == Books(states)[a := s.Book()]
  {
  }

  lemma {:induction false} BooksAt(states: map<AssetId, AssetState>, a: AssetId)
    requires ValidStates(states) && a in states
    ensures a in Books(states) && Books(states)[a] == states[a].Book()
    ensures states[a].longs.Valid() && states[a].shorts.Valid()
    ensures Books(states)[a] == Book(states[a].longs.Lots(), states[a].shorts.Lots(), states[a].settled)
  {
  }

  /** What matching a fill of `a` relies on. */
  ghost predicate Matchable(l: Ledger, a: AssetId) {
    && T.BookInv(BookOf(l, a))
    && (a in l.complement ==> l.complement[a] != a)
    && (a in l.complement && l.complement[a] in l.books ==> Positive(l.books[l.complement[a]].longs))
  }

  lemma {:induction false} InvMatchable(l: Ledger, a: AssetId)
    requires T.Inv(l)
    ensures Matchable(l, a)
  {
  }

  /** A fill is its own book's half, then the partner's half, and the stored total moves by both. */
  lemma {:induction false} FillStored(l: Ledger, a: AssetId, side: Side, price: int, size: int)
    requires !BookOf(l, a).settled
    ensures var t := Trade(a, BookOf(l, a), side, price, size);
            var l1 := l.(books := l.books[a := t.book]);
            var o := if side.Bid? then CrossMatch(l1, a) else Outcome(l1, []);
            Fill(l, a, side, price, size).ledger
              == Ledger(o.ledger.books, l.complement, l.realized + Stored(t.entries) + Stored(o.entries))
  {
    var t := Trade(a, BookOf(l, a), side, price, size);
    var l1 := l.(books := l.books[a := t.book]);
    var o := if side.Bid? then CrossMatch(l1, a) else Outcome(l1, []);
    var head := if size > 0 then [Filled(a, side, price, size)] else [];
    C.JournalAppend(head, t.entries, _ => 0);
    C.JournalAppend(head + t.entries, o.entries, _ => 0);
  }

  /** The long queues of `a` and its partner are in order. */
  ghost predicate LongsReady(l: Ledger, a: AssetId) {
    && Positive(BookOf(l, a).longs)
    && (a in l.complement ==> l.complement[a] != a && Positive(BookOf(l, l.complement[a]).longs))
  }

  lemma {:induction false} BookSettled(states: map<AssetId, AssetState>, complement: map<AssetId, AssetId>,
      realized: int, a: AssetId)
    requires ValidStates(states)
    ensures (a in states && states[a].settled) == BookOf(Ledger(Books(states), complement, realized), a).settled
  {
    if a in states {
      BooksAt(states, a);
    }
  }

  lemma {:induction false} TradeReady(l: Ledger, a: AssetId, side: Side, price: int, size: int)
    requires Matchable(l, a) && Positive(Trade(a, BookOf(l, a), side, price, size).book.longs)
    ensures LongsReady(l.(books := l.books[a := Trade(a, BookOf(l, a), side, price, size).book]), a)
  {
    hide Trade;
  }

  /** A settled asset takes no fills. */
  lemma {:induction false} FillSettled(l: Ledger, a: AssetId, side: Side, price: int, size: int)
    requires BookOf(l, a).settled
    ensures Fill(l, a, side, price, size).ledger == l
  {
  }

  lemma {:induction false} UnitsFollow(l: Ledger, a: AssetId, side: Side, price: int, size: int)
    requires T.Inv(l)
    ensures forall u :: U.Holds(u, l) ==>
              U.Holds(U.FillUnits(u, a, side, price, Max(size, 0), U.Room(l, OpFill(a, side, price, size))),
                      Fill(l, a, side, price, size).ledger)
  {
    forall u | U.Holds(u, l)
      ensures U.Holds(U.FillUnits(u, a, side, price, Max(size, 0), U.Room(l, OpFill(a, side, price, size))),
                      Fill(l, a, side, price, size).ledger)
    {
      U.FillHolds(u, l, a, side, price, size);
    }
  }

  class PnlTracker {
    var states: map<AssetId, AssetState>
    var complement: map<AssetId, AssetId>
    var realized: int

    ghost function Model(): Ledger
      requires ValidStates(states)
      reads this
    {
      Ledger(Books(states), complement, realized)
    }

    /** What every sequence of calls keeps. */
    ghost predicate Valid()
      reads this
    {
      ValidStates(states) && T.Inv(Model())
    }

    constructor ()
      ensures Valid() && Model() == EMPTY_LEDGER
    {
      states, complement, realized := map[], map[], 0;
    }

    /** Pairs two tokens, whatever they are; the invariant survives exactly if the registration is legal. */
    method RegisterPair(up: AssetId, down: AssetId)
      requires ValidStates(states)
      modifies this
      ensures ValidStates(states) && Model() == Register(old(Model()), up, down)
      ensures old(Valid()) ==> (Valid() <==> T.Legal(old(Model()), OpRegister(up, down)))
    {
      if Valid() {
        T.RegisterKeepsInv(Model(), up, down);
      }
      hide T.Inv, T.Legal;
      if up !in complement {
        complement := complement[up := down];
      }
      if down !in complement {
        complement := complement[down := up];
      }
      Ensure(up);
      Ensure(down);
    }

    /** Map lookup that inserts an empty state, as `operator[]` does. */
    method Ensure(a: AssetId)
      requires ValidStates(states)
      modifies this`states
      ensures a in states && ValidStates(states)
      ensures Books(states) == old(Books(states))[a := BookOf(old(Model()), a)]
    {
      if a !in states {
        BooksUpdate(states, a, EMPTY_STATE);
        states := states[a := EMPTY_STATE];
      } else {
        assert Books(states) == Books(states)[a := Books(states)[a]];
      }
    }

    /** Matches the longs of `a` against its partner's, when it has an unsettled one. */
    method CrossMatchAsset(a: AssetId) returns (pnl: int)
      requires ValidStates(states) && a in states && (a in complement ==> complement[a] != a)
      requires Positive(states[a].longs.Lots())
      requires a in complement && complement[a] in states ==> Positive(states[complement[a]].longs.Lots())
      modifies this`states
      ensures ValidStates(states)
      ensures var o := CrossMatch(old(Model()), a);
              Books(states) == o.ledger.books && pnl == Stored(o.entries)
    {
      pnl := 0;
      if a in complement && complement[a] in states && !states[complement[a]].settled {
        var c := complement[a];
        var x, y;
        assert Books(states)[a] == states[a].Book() && Books(states)[c] == states[c].Book();
        x, y, pnl := PairLongs(a, c, states[a].longs, states[c].longs);
        BooksUpdate(states, a, states[a].(longs := x));
        BooksUpdate(states[a := states[a].(longs := x)], c, states[c].(longs := y));
        states := states[a := states[a].(longs := x)][c := states[c].(longs := y)];
      }
    }

    /** Records a confirmed fill and returns the stored profit it generated.  Counted in single units, the fill closes
        the oldest open ones and its own are queued behind the others. */
    method RecordFill(a: AssetId, side: Side, price: int, size: int) returns (delta: int)
      requires Valid()
      modifies this
      ensures Valid() && Model() == Fill(old(Model()), a, side, price, size).ledger
      ensures delta == T.FillDelta(old(Model()), a, side, price, size)
      ensures var room := U.Room(old(Model()), OpFill(a, side, price, size));
              forall u :: U.Holds(u, old(Model())) ==>
                U.Holds(U.FillUnits(u, a, side, price, Max(size, 0), room), Model())
    {
      UnitsFollow(Model(), a, side, price, size);
      T.FillKeepsInv(Model(), a, side, price, size);
      InvMatchable(Model(), a);
      if !BookOf(Model(), a).settled {
        T.TradeKeepsBook(a, BookOf(Model(), a), side, price, size);
      }
      delta := MatchFill(a, side, price, size);
    }

    /** The half of a fill inside its own asset; nothing on a settled asset. */
    method TradeAsset(a: AssetId, side: Side, price: int, size: int) returns (pnl: int)
      requires ValidStates(states) && T.BookInv(BookOf(Model(), a))
      modifies this`states
      ensures ValidStates(states) && a in states
      ensures BookOf(old(Model()), a).settled ==> pnl == 0 && Books(states) == old(Books(states))
      ensures var t := Trade(a, BookOf(old(Model()), a), side, price, size);
              !BookOf(old(Model()), a).settled ==>
                Books(states) == old(Books(states))[a := t.book] && pnl == Stored(t.entries)
    {
      hide Trade, Stored, Ring.Lots, Ring.Valid;
      ghost var before := Books(states);
      Ensure(a);
      BooksAt(states, a);
      if states[a].settled {
        assert before[a := before[a]] == before;
        return 0;
      }
      var s;
      s, pnl := TradeState(a, states[a], side, price, size);
      BooksUpdate(states, a, s);
      states := states[a := s];
    }

    /** The half of a fill across the pair; only BUYs have one. */
    method MatchPartner(a: AssetId, side: Side) returns (pnl: int)
      requires ValidStates(states) && a in states && LongsReady(Model(), a)
      modifies this`states
      ensures ValidStates(states)
      ensures var o := if side.Bid? then CrossMatch(old(Model()), a) else Outcome(old(Model()), []);
              Books(states) == o.ledger.books && pnl == Stored(o.entries)
    {
      assert Stored([]) == 0;
      pnl := 0;
      if side.Bid? {
        BooksAt(states, a);
        if a in complement && complement[a] in states {
          BooksAt(states, complement[a]);
        }
        hide CrossMatch, Stored, Positive, Books, AssetState.Book, Ring.Lots, Ring.Valid;
        pnl := CrossMatchAsset(a);
      }
    }

    /** Both halves of a fill of an asset that is not settled. */
    method TradeThenMatch(a: AssetId, side: Side, price: int, size: int) returns (delta: int)
      requires ValidStates(states) && Matchable(Model(), a) && !BookOf(Model(), a).settled
      requires Positive(Trade(a, BookOf(Model(), a), side, price, size).book.longs)
      modifies this`states
      ensures ValidStates(states)
      ensures var t := Trade(a, BookOf(old(Model()), a), side, price, size);
              var l1 := old(Model()).(books := old(Model()).books[a := t.book]);
              var o := if side.Bid? then CrossMatch(l1, a) else Outcome(l1, []);
              Books(states) == o.ledger.books && delta == Stored(t.entries) + Stored(o.entries)
    {
      ghost var before := Model();
      TradeReady(before, a, side, price, size);
      hide Trade, CrossMatch, Stored, Positive, Books, AssetState.Book, Ring.Lots, Ring.Valid, BookOf, LongsReady;
      delta := TradeAsset(a, side, price, size);
      ghost var t := Trade(a, BookOf(before, a), side, price, size);
      assert Model() == before.(books := before.books[a := t.book]);
      var cross := MatchPartner(a, side);
      delta := delta + cross;
    }

    /** The body of `RecordFill`, from the facts about `a` and its partner it needs. */
    method MatchFill(a: AssetId, side: Side, price: int, size: int) returns (delta: int)
      requires ValidStates(states) && Matchable(Model(), a)
      requires !BookOf(Model(), a).settled ==> Positive(Trade(a, BookOf(Model(), a), side, price, size).book.longs)
      modifies this
      ensures ValidStates(states) && Model() == Fill(old(Model()), a, side, price, size).ledger
      ensures delta == T.FillDelta(old(Model()), a, side, price, size)
    {
      hide Trade, CrossMatch, Stored, Positive, Fill, AssetState.Book, Ring.Lots, Ring.Valid, Matchable;
      BookSettled(states, complement, realized, a);
      if a in states && states[a].settled {
        FillSettled(Model(), a, side, price, size);
        return 0;
      }
      FillStored(Model(), a, side, price, size);
      delta := TradeThenMatch(a, side, price, size);
      realized := realized + delta;
    }

    /** Takes back exactly what a failed fill had added. */
    method ReverseFill(delta: int)
      requires Valid()
      modifies this`realized
      ensures Valid() && Model() == Reverse(old(Model()), delta).ledger
    {
      realized := realized - delta;
    }

    /** Closes every open lot of the asset at the settlement price, once. */
    method SettleAsset(a: AssetId, price: int)
      requires Valid()
      modifies this
      ensures Valid() && Model() == Settle(old(Model()), a, price).ledger
    {
      T.SettleKeepsInv(Model(), a, price);
      CloseAsset(a, price);
    }

    method CloseAsset(a: AssetId, price: int)
      requires ValidStates(states)
      modifies this
      ensures ValidStates(states) && Model() == Settle(old(Model()), a, price).ledger
    {
      if a !in states || states[a].settled {
        return;
      }
      hide Stored, SettleEntries, Ring.Lots, Ring.Valid;
      BooksAt(states, a);
      var s := states[a];
      var longs, l := SettleAll(a, s.longs, Bid, price);
      var shorts, m := SettleAll(a, s.shorts, Ask, price);
      C.JournalAppend(SettleEntries(a, Bid, price, s.longs.Lots()), SettleEntries(a, Ask, price, s.shorts.Lots()),
          _ => 0);
      BooksUpdate(states, a, AssetState(longs, shorts, true));
      states := states[a := AssetState(longs, shorts, true)];
      realized := realized + l + m;
    }
  }
}
