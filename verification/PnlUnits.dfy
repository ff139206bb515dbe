/**
 The ledger one unit at a time.  The reference keeps, for every token, the entry price of each open unit, oldest
 first; a fill closes the oldest units of the other side, what is left of it is queued behind the open ones, and a
 bought unit pairs with the oldest of the partner.  The ledger of lots does the same on every run.
 */
module PnlUnits {
  import opened Common
  import opened PnlLedger
  import opened PnlConservation
  import opened PnlTheorems

  // ---------------------------------------------------------------------------
  // The reference
  // ---------------------------------------------------------------------------

  /** The entry price of every open unit, oldest first. */
  datatype UnitBook = UnitBook(longs: seq<int>, shorts: seq<int>, settled: bool)

  datatype UnitLedger = UnitLedger(books: map<AssetId, UnitBook>, complement: map<AssetId, AssetId>, gain: int)

  const NO_UNITS := UnitBook([], [], false)

  function UnitBookOf(u: UnitLedger, a: AssetId): UnitBook {
    if a in u.books then u.books[a] else NO_UNITS
  }

  /** The sum of the entry prices. */
  function Cost(units: seq<int>): int {
    if units == [] then 0 else units[0] + Cost(units[1..])
  }

  /** A SELL closes the oldest longs, each for its price less what the unit cost.  What is not closed is sold short,
      behind the open shorts, unless there is no room for it. */
  function SellUnits(b: UnitBook, price: int, size: nat, room: bool): (UnitBook, int) {
    var n := Min(size, |b.longs|);
    (UnitBook(b.longs[n..], b.shorts + if room then Repeat(price, size - n) else [], b.settled),
     n * price - Cost(b.longs[..n]))
  }

  /** A BUY closes the oldest shorts, each for what the unit brought less its price. */
  function BuyUnits(b: UnitBook, price: int, size: nat, room: bool): (UnitBook, int) {
    var n := Min(size, |b.shorts|);
    (UnitBook(b.longs + (if room then Repeat(price, size - n) else []), b.shorts[n..], b.settled),
     Cost(b.shorts[..n]) - n * price)
  }

  /** The longs of two tokens of a pair are closed oldest against oldest, for a dollar less what both cost. */
  function PairUnits(xs: seq<int>, ys: seq<int>): (seq<int>, seq<int>, int) {
    var n := Min(|xs|, |ys|);
    (xs[n..], ys[n..], n * PRICE_SCALE - Cost(xs[..n]) - Cost(ys[..n]))
  }

  function MatchUnits(u: UnitLedger, a: AssetId): UnitLedger
    requires a in u.books
  {
    if a in u.complement && u.complement[a] in u.books && !u.books[u.complement[a]].settled then
      var c := u.complement[a];
      var (xs, ys, gain) := PairUnits(u.books[a].longs, u.books[c].longs);
      u.(books := u.books[a := u.books[a].(longs := xs)][c := u.books[c].(longs := ys)], gain := u.gain + gain)
    else u
  }

  function CloseOrQueue(b: UnitBook, side: Side, price: int, size: nat, room: bool): (UnitBook, int) {
    if side.Bid? then BuyUnits(b, price, size, room) else SellUnits(b, price, size, room)
  }

  function FillUnits(u: UnitLedger, a: AssetId, side: Side, price: int, size: nat, room: bool): UnitLedger {
    if UnitBookOf(u, a).settled then u
    else
      var (b, gain) := CloseOrQueue(UnitBookOf(u, a), side, price, size, room);
      var u' := u.(books := u.books[a := b], gain := u.gain + gain);
      if side.Bid? then MatchUnits(u', a) else u'
  }

  function SettleUnits(u: UnitLedger, a: AssetId, price: int): UnitLedger {
    var b := UnitBookOf(u, a);
    if a !in u.books || b.settled then u
    else
      var gain := |b.longs| * price - Cost(b.longs) + Cost(b.shorts) - |b.shorts| * price;
      u.(books := u.books[a := UnitBook([], [], true)], gain := u.gain + gain)
  }

  function RegisterUnits(u: UnitLedger, up: AssetId, down: AssetId): UnitLedger {
    var c1 := if up in u.complement then u.complement else u.complement[up := down];
    var c2 := if down in c1 then c1 else c1[down := up];
    u.(complement := c2, books := u.books[up := UnitBookOf(u, up)][down := UnitBookOf(u, down)])
  }

  /** One operation; `room` says whether the units it leaves open can be queued.  A reversal moves the stored total and
      no unit. */
  function UnitStep(u: UnitLedger, op: Op, room: bool): UnitLedger {
    match op
    case OpRegister(up, down) => RegisterUnits(u, up, down)
    case OpFill(a, side, price, size) => FillUnits(u, a, side, price, Max(size, 0), room)
    case OpReverse(_) => u
    case OpSettle(a, price) => SettleUnits(u, a, price)
  }

  function UnitRun(ops: seq<Op>, rooms: seq<bool>): UnitLedger
    requires |rooms| == |ops|
  {
    if ops == [] then UnitLedger(map[], map[], 0)
    else UnitStep(UnitRun(ops[..|ops| - 1], rooms[..|ops| - 1]), ops[|ops| - 1], rooms[|ops| - 1])
  }

  /** The ring that a fill would queue in is not full. */
  predicate Room(l: Ledger, op: Op) {
    op.OpFill? ==>
      |if op.side.Bid? then BookOf(l, op.asset).longs else BookOf(l, op.asset).shorts| < MAX_ENTRIES
  }

  function Rooms(ops: seq<Op>): (rooms: seq<bool>)
    ensures |rooms| == |ops|
  {
    if ops == [] then [] else Rooms(ops[..|ops| - 1]) + [Room(Run(ops[..|ops| - 1]).ledger, ops[|ops| - 1])]
  }

  // ---------------------------------------------------------------------------
  // Lots as units
  // ---------------------------------------------------------------------------

  lemma {:induction false} CostAppend(xs: seq<int>, ys: seq<int>)
    ensures Cost(xs + ys) == Cost(xs) + Cost(ys)
  {
    if xs == [] {
      assert xs + ys == ys;
    } else {
      assert (xs + ys)[1..] == xs[1..] + ys;
      CostAppend(xs[1..], ys);
    }
  }

  lemma {:induction false} CostSplit(xs: seq<int>, n: nat)
    requires n <= |xs|
    ensures Cost(xs[..n]) + Cost(xs[n..]) == Cost(xs)
  {
    assert xs == xs[..n] + xs[n..];
    CostAppend(xs[..n], xs[n..]);
  }

  lemma {:induction false} CostRepeat(price: int, n: nat)
    ensures Cost(Repeat(price, n)) == n * price
  {
    if n > 0 {
      assert Repeat(price, n)[1..] == Repeat(price, n - 1);
      CostRepeat(price, n - 1);
    }
  }

  lemma {:induction false} UnitsMeasure(lots: seq<Lot>)
    requires Positive(lots)
    ensures |Units(lots)| == Total(lots) && Cost(Units(lots)) == MarkLots(Ask, 0, lots) == -MarkLots(Bid, 0, lots)
  {
    if lots != [] {
      UnitsMeasure(lots[1..]);
      CostRepeat(lots[0].price, lots[0].qty);
      CostAppend(Repeat(lots[0].price, lots[0].qty), Units(lots[1..]));
    }
  }

  /** A lot at the end of a queue: its units are the youngest. */
  lemma {:induction false} UnitsBack(lots: seq<Lot>, lot: Lot)
    requires Positive(lots) && lot.qty > 0
    ensures Positive(lots + [lot]) && Units(lots + [lot]) == Units(lots) + Repeat(lot.price, lot.qty)
  {
    if lots == [] {
      assert lots + [lot] == [lot] + [];
      UnitsFront(lot, []);
    } else {
      assert lots + [lot] == [lots[0]] + (lots[1..] + [lot]) && lots == [lots[0]] + lots[1..];
      UnitsBack(lots[1..], lot);
      UnitsFront(lots[0], lots[1..] + [lot]);
      UnitsFront(lots[0], lots[1..]);
      hide Units, Repeat;
    }
  }

  /** The units are those of the lots, in the same order. */
  ghost predicate IsUnits(u: UnitBook, b: Book) {
    && Positive(b.longs) && Positive(b.shorts)
    && u.longs == Units(b.longs) && u.shorts == Units(b.shorts) && u.settled == b.settled
  }

  // ---------------------------------------------------------------------------
  // A fill in its own asset
  // ---------------------------------------------------------------------------

  /** What a fill of `size` takes off the other side. */
  lemma {:induction false} CloseUnits(side: Side, against: seq<Lot>, price: int, size: int)
    requires Positive(against)
    ensures var (taken, rest), n := Take(against, size), Min(Max(size, 0), |Units(against)|);
            && Positive(rest) && Units(rest) == Units(against)[n..] && Total(taken) == n
            && Exact(CloseEntries(side, price, taken))
               == if side.Bid? then Cost(Units(against)[..n]) - n * price else n * price - Cost(Units(against)[..n])
  {
    TakeAtMost(against, size);
    TakeAtMost(against, 0);
    TakeIsUnitFifo(against, Max(size, 0));
    var (taken, rest) := Take(against, size);
    assert Take(against, size) == Take(against, Max(size, 0));
    hide Take;
    UnitsMeasure(taken);
    CloseRealizes(side, price, taken, 0, _ => 0);
    hide Units, Positive, CloseEntries, Exact, Flows, MarkLots, Total, Cost;
  }

  /** What is left of the fill goes to the back of its own side. */
  lemma {:induction false} QueueUnits(a: AssetId, side: Side, own: seq<Lot>, price: int, left: nat)
    requires Positive(own)
    ensures var own' := if left > 0 then Push(own, Lot(price, left)) else own;
            && Positive(own')
            && Units(own') == Units(own) + if |own| < MAX_ENTRIES then Repeat(price, left) else []
    ensures Exact(if left > 0 then PushEntries(a, side, own, Lot(price, left)) else []) == 0
  {
    if left == 0 {
      assert Repeat(price, left) == [];
    } else if |own| < MAX_ENTRIES {
      UnitsBack(own, Lot(price, left));
    }
  }

  /** Both, and the gain of the fill. */
  lemma {:induction false} SidesUnits(a: AssetId, side: Side, against: seq<Lot>, own: seq<Lot>, price: int, size: int)
    requires Positive(against) && Positive(own)
    ensures var (taken, rest) := Take(against, size);
            var left, n := size - Total(taken), Min(Max(size, 0), |Units(against)|);
            var own' := if left > 0 then Push(own, Lot(price, left)) else own;
            var drops := if left > 0 then PushEntries(a, side, own, Lot(price, left)) else [];
            && Positive(rest) && Positive(own') && Units(rest) == Units(against)[n..]
            && Units(own') == Units(own) + (if |own| < MAX_ENTRIES then Repeat(price, Max(size, 0) - n) else [])
            && Exact(CloseEntries(side, price, taken) + drops)
               == if side.Bid? then Cost(Units(against)[..n]) - n * price else n * price - Cost(Units(against)[..n])
  {
    hide Take, Push, PushEntries, CloseEntries, Exact, Total, Units, Cost, Repeat, Positive;
    CloseUnits(side, against, price, size);
    var (taken, rest) := Take(against, size);
    var left := size - Total(taken);
    QueueUnits(a, side, own, price, Max(left, 0));
    JournalAppend(CloseEntries(side, price, taken),
                  if left > 0 then PushEntries(a, side, own, Lot(price, left)) else [], _ => 0);
  }

  /** The half of a fill in its own asset, one unit at a time: the oldest units of the other side are closed, and what
      is left of the fill is the youngest of its own side. */
  lemma {:induction false} TradeUnits(a: AssetId, u: UnitBook, b: Book, side: Side, price: int, size: int)
    requires IsUnits(u, b)
    ensures var t := Trade(a, b, side, price, size);
            var room := |if side.Bid? then b.longs else b.shorts| < MAX_ENTRIES;
            var (u', gain) := CloseOrQueue(u, side, price, Max(size, 0), room);
            IsUnits(u', t.book) && Exact(t.entries) == gain
  {
    hide Take, Push, PushEntries, CloseEntries, Exact, Total, Units, Cost, Repeat, Positive, Min;
    if side.Bid? {
      SidesUnits(a, side, b.shorts, b.longs, price, size);
    } else {
      SidesUnits(a, side, b.longs, b.shorts, price, size);
    }
  }

  // ---------------------------------------------------------------------------
  // Pairing
  // ---------------------------------------------------------------------------

  lemma {:induction false} ReduceTotal(queue: seq<Lot>, m: int)
    requires queue != []
    ensures Total(Reduce(queue, m)) == Total(queue) - m
  {
    if queue[0].qty != m {
      assert Reduce(queue, m)[1..] == queue[1..];
    }
  }

  lemma {:induction false} PairCosts(a: AssetId, c: AssetId, xs: seq<Lot>, ys: seq<Lot>)
    ensures var p := PairQueues(a, c, xs, ys);
            Exact(p.entries)
            == PRICE_SCALE * (Total(xs) - Total(p.xs)) + (MarkLots(Bid, 0, xs) - MarkLots(Bid, 0, p.xs))
               + (MarkLots(Bid, 0, ys) - MarkLots(Bid, 0, p.ys))
    decreases |xs| + |ys|
  {
    if xs != [] && ys != [] {
      var m := Min(xs[0].qty, ys[0].qty);
      PairCosts(a, c, Reduce(xs, m), Reduce(ys, m));
      ReduceMark(0, xs, m);
      ReduceMark(0, ys, m);
      ReduceTotal(xs, m);
      var p, q := PairQueues(a, c, xs, ys), PairQueues(a, c, Reduce(xs, m), Reduce(ys, m));
      assert p.entries[1..] == q.entries && p.xs == q.xs && p.ys == q.ys;
      assert Exact(p.entries) == PairGain(xs[0].price, ys[0].price, m) + Exact(q.entries);
      hide PairQueues, Reduce, MarkLots, Total, Exact, Min;
    }
  }

  lemma {:induction false} PairIsPairUnits(a: AssetId, c: AssetId, xs: seq<Lot>, ys: seq<Lot>)
    requires Positive(xs) && Positive(ys)
    ensures var p := PairQueues(a, c, xs, ys);
            && Positive(p.xs) && Positive(p.ys)
            && (Units(p.xs), Units(p.ys), Exact(p.entries)) == PairUnits(Units(xs), Units(ys))
  {
    hide PairQueues, Units, Cost, Positive, MarkLots, Total, Exact;
    PairIsUnitFifo(a, c, xs, ys);
    PairCosts(a, c, xs, ys);
    var p, n := PairQueues(a, c, xs, ys), Min(|Units(xs)|, |Units(ys)|);
    UnitsMeasure(xs);
    UnitsMeasure(ys);
    UnitsMeasure(p.xs);
    UnitsMeasure(p.ys);
    CostSplit(Units(xs), n);
    CostSplit(Units(ys), n);
    assert Exact(p.entries) == PRICE_SCALE * n - Cost(Units(xs)[..n]) - Cost(Units(ys)[..n]);
  }

  // ---------------------------------------------------------------------------
  // Every run
  // ---------------------------------------------------------------------------

  /** The reference holds the units of the ledger's lots. */
  ghost predicate Holds(u: UnitLedger, l: Ledger) {
    && u.complement == l.complement && u.books.Keys == l.books.Keys
    && forall a :: a in l.books ==> IsUnits(u.books[a], l.books[a])
  }

  lemma {:induction false} PutBook(u: UnitLedger, l: Ledger, a: AssetId, x: UnitBook, b: Book, gain: int, realized: int)
    requires Holds(u, l) && IsUnits(x, b)
    ensures Holds(u.(books := u.books[a := x], gain := gain), l.(books := l.books[a := b], realized := realized))
  {
    hide IsUnits;
  }

  lemma {:induction false} NoLotsNoUnits()
    ensures IsUnits(NO_UNITS, EMPTY_BOOK) && IsUnits(UnitBook([], [], true), Book([], [], true))
  {
  }

  lemma {:induction false} HeldBook(u: UnitLedger, l: Ledger, a: AssetId)
    requires Holds(u, l)
    ensures IsUnits(UnitBookOf(u, a), BookOf(l, a)) && UnitBookOf(u, a).settled == BookOf(l, a).settled
  {
    NoLotsNoUnits();
    hide Positive, Units;
  }

  lemma {:induction false} PairBooks(a: AssetId, c: AssetId, u: UnitBook, w: UnitBook, b: Book, d: Book)
    requires IsUnits(u, b) && IsUnits(w, d)
    ensures var p, q := PairQueues(a, c, b.longs, d.longs), PairUnits(u.longs, w.longs);
            && IsUnits(u.(longs := q.0), b.(longs := p.xs)) && IsUnits(w.(longs := q.1), d.(longs := p.ys))
            && Exact(p.entries) == q.2
  {
    PairIsPairUnits(a, c, b.longs, d.longs);
    hide PairQueues, PairUnits, Positive, Units, Exact;
  }

  lemma {:induction false} MatchHolds(u: UnitLedger, l: Ledger, a: AssetId)
    requires Holds(u, l) && a in l.books && (a in l.complement ==> l.complement[a] != a)
    ensures var o, u' := CrossMatch(l, a), MatchUnits(u, a);
            Holds(u', o.ledger) && u'.gain == u.gain + Exact(o.entries)
  {
    if Pairable(l, a) {
      var c := l.complement[a];
      PairBooks(a, c, u.books[a], u.books[c], l.books[a], l.books[c]);
      var p := PairQueues(a, c, l.books[a].longs, l.books[c].longs);
      var (xs, ys, gain) := PairUnits(u.books[a].longs, u.books[c].longs);
      assert !u.books[c].settled;
      var x, y := u.books[a].(longs := xs), u.books[c].(longs := ys);
      hide PairQueues, PairUnits, IsUnits, Exact;
      PutBook(u, l, a, x, l.books[a].(longs := p.xs), u.gain, l.realized);
      PutBook(u.(books := u.books[a := x]), l.(books := l.books[a := l.books[a].(longs := p.xs)]), c, y,
              l.books[c].(longs := p.ys), u.gain + gain, l.realized);
      hide Holds;
    } else {
      hide Units, Positive;
    }
  }

  /** What a fill does before it pairs. */
  function AfterTrade(l: Ledger, a: AssetId, side: Side, price: int, size: int): (r: Ledger)
    ensures a in r.books
  {
    l.(books := l.books[a := Trade(a, BookOf(l, a), side, price, size).book])
  }

  function TradedUnits(u: UnitLedger, a: AssetId, side: Side, price: int, size: nat, room: bool): (r: UnitLedger)
    ensures a in r.books
  {
    var (b, gain) := CloseOrQueue(UnitBookOf(u, a), side, price, size, room);
    u.(books := u.books[a := b], gain := u.gain + gain)
  }

  lemma {:induction false} TradeHolds(u: UnitLedger, l: Ledger, a: AssetId, side: Side, price: int, size: int)
    requires Holds(u, l)
    ensures var u' := TradedUnits(u, a, side, price, Max(size, 0), Room(l, OpFill(a, side, price, size)));
            && Holds(u', AfterTrade(l, a, side, price, size))
            && u'.gain == u.gain + Exact(Trade(a, BookOf(l, a), side, price, size).entries)
  {
    hide Trade, BookOf, UnitBookOf, IsUnits, Exact, Holds, CloseOrQueue;
    HeldBook(u, l, a);
    TradeUnits(a, UnitBookOf(u, a), BookOf(l, a), side, price, size);
    var room := Room(l, OpFill(a, side, price, size));
    var (b, gain) := CloseOrQueue(UnitBookOf(u, a), side, price, Max(size, 0), room);
    PutBook(u, l, a, b, Trade(a, BookOf(l, a), side, price, size).book, u.gain + gain, l.realized);
  }

  lemma {:induction false} FillParts(l: Ledger, a: AssetId, side: Side, price: int, size: int)
    requires !BookOf(l, a).settled
    ensures var l1, r := AfterTrade(l, a, side, price, size), Fill(l, a, side, price, size);
            var o := if side.Bid? then CrossMatch(l1, a) else Outcome(l1, []);
            && r.ledger == o.ledger.(realized := r.ledger.realized)
            && Exact(r.entries) == Exact(Trade(a, BookOf(l, a), side, price, size).entries) + Exact(o.entries)
  {
    var l1 := AfterTrade(l, a, side, price, size);
    var o := if side.Bid? then CrossMatch(l1, a) else Outcome(l1, []);
    FillGain(a, side, price, size, Trade(a, BookOf(l, a), side, price, size).entries, o.entries);
    hide Trade, BookOf, CrossMatch, Exact, Stored;
  }

  lemma {:induction false} FillHolds(u: UnitLedger, l: Ledger, a: AssetId, side: Side, price: int, size: int)
    requires Holds(u, l) && (a in l.complement ==> l.complement[a] != a)
    ensures var o := Fill(l, a, side, price, size);
            var u' := FillUnits(u, a, side, price, Max(size, 0), Room(l, OpFill(a, side, price, size)));
            Holds(u', o.ledger) && u'.gain == u.gain + Exact(o.entries)
  {
    hide Trade, BookOf, UnitBookOf, IsUnits, Exact, Stored, Holds, CloseOrQueue, CrossMatch, MatchUnits, Room;
    HeldBook(u, l, a);
    FillGain(a, side, price, size, [], []);
    if !BookOf(l, a).settled {
      TradeHolds(u, l, a, side, price, size);
      FillParts(l, a, side, price, size);
      var l1, r := AfterTrade(l, a, side, price, size), Fill(l, a, side, price, size);
      var u1 := TradedUnits(u, a, side, price, Max(size, 0), Room(l, OpFill(a, side, price, size)));
      assert l1.complement == l.complement;
      assert FillUnits(u, a, side, price, Max(size, 0), Room(l, OpFill(a, side, price, size)))
          == if side.Bid? then MatchUnits(u1, a) else u1;
      hide AfterTrade, TradedUnits, FillUnits, Fill;
      MatchHolds(u1, l1, a);
      var o := if side.Bid? then CrossMatch(l1, a) else Outcome(l1, []);
      SameBooks(if side.Bid? then MatchUnits(u1, a) else u1, o.ledger, r.ledger.realized);
    }
  }

  /** The note that a fill was accepted carries no gain. */
  lemma {:induction false} FillGain(a: AssetId, side: Side, price: int, size: int, xs: seq<Entry>, ys: seq<Entry>)
    ensures Exact([]) == 0
    ensures Exact((if size > 0 then [Filled(a, side, price, size)] else []) + xs + ys) == Exact(xs) + Exact(ys)
  {
    var head := if size > 0 then [Filled(a, side, price, size)] else [];
    JournalAppend(head, xs, _ => 0);
    JournalAppend(head + xs, ys, _ => 0);
  }

  lemma {:induction false} SettleGains(a: AssetId, side: Side, price: int, lots: seq<Lot>)
    ensures Exact(SettleEntries(a, side, price, lots))
            == if side.Bid? then Total(lots) * price - MarkLots(Ask, 0, lots)
               else MarkLots(Ask, 0, lots) - Total(lots) * price
  {
    if lots != [] {
      SettleGains(a, side, price, lots[1..]);
      assert SettleEntries(a, side, price, lots)[1..] == SettleEntries(a, side, price, lots[1..]);
    }
  }

  lemma {:induction false} SettleBook(a: AssetId, u: UnitBook, b: Book, price: int)
    requires IsUnits(u, b)
    ensures Exact(SettleEntries(a, Bid, price, b.longs) + SettleEntries(a, Ask, price, b.shorts))
            == |u.longs| * price - Cost(u.longs) + Cost(u.shorts) - |u.shorts| * price
  {
    SettleGains(a, Bid, price, b.longs);
    SettleGains(a, Ask, price, b.shorts);
    UnitsMeasure(b.longs);
    UnitsMeasure(b.shorts);
    JournalAppend(SettleEntries(a, Bid, price, b.longs), SettleEntries(a, Ask, price, b.shorts), _ => 0);
    hide SettleEntries, Units, Cost, MarkLots, Total, Exact, Positive;
  }

  lemma {:induction false} SettleHolds(u: UnitLedger, l: Ledger, a: AssetId, price: int)
    requires Holds(u, l)
    ensures var o, u' := Settle(l, a, price), SettleUnits(u, a, price);
            Holds(u', o.ledger) && u'.gain == u.gain + Exact(o.entries)
  {
    HeldBook(u, l, a);
    hide Units, Positive, Exact, SettleEntries, Stored, Cost;
    if a in l.books && !l.books[a].settled {
      SettleBook(a, u.books[a], l.books[a], price);
      NoLotsNoUnits();
      PutBook(u, l, a, UnitBook([], [], true), Book([], [], true), SettleUnits(u, a, price).gain,
              Settle(l, a, price).ledger.realized);
      hide IsUnits, Holds;
    }
  }

  lemma {:induction false} RegisterHolds(u: UnitLedger, l: Ledger, up: AssetId, down: AssetId)
    requires Holds(u, l)
    ensures Holds(RegisterUnits(u, up, down), Register(l, up, down)) && RegisterUnits(u, up, down).gain == u.gain
  {
    HeldBook(u, l, up);
    HeldBook(u, l, down);
    hide IsUnits;
    PutBook(u, l, up, UnitBookOf(u, up), BookOf(l, up), u.gain, l.realized);
    PutBook(u.(books := u.books[up := UnitBookOf(u, up)]), l.(books := l.books[up := BookOf(l, up)]), down,
            UnitBookOf(u, down), BookOf(l, down), u.gain, l.realized);
  }

  lemma {:induction false} StepHolds(u: UnitLedger, l: Ledger, op: Op)
    requires Holds(u, l) && NoSelfPair(l)
    ensures var o, u' := Step(l, op), UnitStep(u, op, Room(l, op));
            Holds(u', o.ledger) && u'.gain == u.gain + Exact(o.entries)
  {
    hide Holds, Fill, FillUnits, Settle, SettleUnits, Register, RegisterUnits;
    match op
    case OpRegister(up, down) => RegisterHolds(u, l, up, down);
    case OpFill(a, side, price, size) => FillHolds(u, l, a, side, price, size);
    case OpReverse(delta) => SameBooks(u, l, l.realized - delta);
    case OpSettle(a, price) => SettleHolds(u, l, a, price);
  }

  lemma {:induction false} SameBooks(u: UnitLedger, l: Ledger, realized: int)
    requires Holds(u, l)
    ensures Holds(u, l.(realized := realized))
  {
  }

  /** On every run the lots of the ledger are the units of the reference, in the same order, and the exact gain is what
      the reference gained: each fill closed the oldest open units and queued its own behind the others. */
  lemma {:induction false} RunIsUnitRun(ops: seq<Op>)
    requires LegalRun(ops)
    ensures Holds(UnitRun(ops, Rooms(ops)), Run(ops).ledger)
    ensures UnitRun(ops, Rooms(ops)).gain == Exact(Run(ops).entries)
  {
    if ops != [] {
      var before := ops[..|ops| - 1];
      RunIsUnitRun(before);
      ReachableInv(before);
      assert Rooms(ops)[..|before|] == Rooms(before);
      var l, op := Run(before).ledger, ops[|ops| - 1];
      assert NoSelfPair(l);
      hide Holds, Step, UnitStep, Room, Inv, Exact;
      StepHolds(UnitRun(before, Rooms(before)), l, op);
      JournalAppend(Run(before).entries, Step(l, op).entries, _ => 0);
    }
  }

  function Against(b: Book, side: Side): seq<Lot> {
    if side.Bid? then b.shorts else b.longs
  }

  function Own(b: Book, side: Side): seq<Lot> {
    if side.Bid? then b.longs else b.shorts
  }

  /** With n the smaller of the fill's size and the units open on the other side: its matches gain the sum over the n
      oldest of those of the SELL price less the BUY price, these n leave, and the rest of the fill goes behind the open
      units of its own side if there is room. */
  ghost predicate ClosesOldest(b: Book, side: Side, price: int, size: nat, b': Book, gain: int) {
    && Positive(Against(b, side)) && Positive(Own(b, side)) && Positive(Against(b', side)) && Positive(Own(b', side))
    && var against := Units(Against(b, side));
       var n := Min(size, |against|);
       && gain == (if side.Bid? then Cost(against[..n]) - n * price else n * price - Cost(against[..n]))
       && Units(Against(b', side)) == against[n..]
       && Units(Own(b', side))
          == Units(Own(b, side)) + if |Own(b, side)| < MAX_ENTRIES then Repeat(price, size - n) else []
  }

  lemma {:induction false} TradeClosesOldest(a: AssetId, b: Book, side: Side, price: int, size: nat)
    requires Positive(b.longs) && Positive(b.shorts)
    ensures var t := Trade(a, b, side, price, size);
            ClosesOldest(b, side, price, size, t.book, Exact(t.entries))
  {
    hide Trade, Units, Exact, Positive, Repeat, Cost;
    TradeUnits(a, UnitBook(Units(b.longs), Units(b.shorts), b.settled), b, side, price, size);
  }

  /** A fill on any run closes the oldest open units. */
  lemma {:induction false} FillClosesOldest(ops: seq<Op>, a: AssetId, side: Side, price: int, size: nat)
    requires LegalRun(ops)
    ensures var b := BookOf(Run(ops).ledger, a);
            var t := Trade(a, b, side, price, size);
            ClosesOldest(b, side, price, size, t.book, Exact(t.entries))
  {
    hide *;
    ReachableBook(ops, a);
    TradeClosesOldest(a, BookOf(Run(ops).ledger, a), side, price, size);
  }

  lemma {:induction false} ReachableBook(ops: seq<Op>, a: AssetId)
    requires LegalRun(ops)
    ensures Positive(BookOf(Run(ops).ledger, a).longs) && Positive(BookOf(Run(ops).ledger, a).shorts)
  {
    ReachableInv(ops);
    EmptyBookInv();
    hide Run, LegalRun, Positive;
  }
}
