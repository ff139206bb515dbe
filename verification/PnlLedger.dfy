/**
 The FIFO profit-and-loss ledger on values: queues of open lots, same-asset matching,
 UP/DOWN pairing, settlement and reversal, together with a journal of everything a
 step did.  `PnlTracker` is the class that runs this ledger on ring buffers.

 All exact amounts are in price units times quantity units, that is 10000 times the
 micro-USDC amounts the tracker stores after truncation.
 */
module PnlLedger {
  import opened Common

  const MAX_ENTRIES: nat := 256

  datatype Lot = Lot(price: int, qty: int)

  datatype Book = Book(longs: seq<Lot>, shorts: seq<Lot>, settled: bool)

  datatype Ledger = Ledger(books: map<AssetId, Book>, complement: map<AssetId, AssetId>, realized: int)

  const EMPTY_BOOK := Book([], [], false)
  const EMPTY_LEDGER := Ledger(map[], map[], 0)

  /** What one step did, entry by entry.  `gain` is exact, before truncation. */
  datatype Entry =
    | Filled(asset: AssetId, side: Side, price: int, qty: int)
    | Closed(gain: int)
    | Paired(asset: AssetId, other: AssetId, qty: int, gain: int)
    | Settled(asset: AssetId, side: Side, qty: int, price: int, gain: int)
    | Dropped(asset: AssetId, side: Side, lot: Lot)
    | Reversed(delta: int)

  // ---------------------------------------------------------------------------
  // Queues of lots
  // ---------------------------------------------------------------------------

  function Total(lots: seq<Lot>): int {
    if lots == [] then 0 else lots[0].qty + Total(lots[1..])
  }

  /** The queue split at a quantity: the lots (or part of a lot) a match of `qty` consumes, and what stays. */
  function Take(queue: seq<Lot>, qty: int): (seq<Lot>, seq<Lot>) {
    if qty <= 0 || queue == [] then ([], queue)
    else if queue[0].qty <= qty then
      var (taken, rest) := Take(queue[1..], qty - queue[0].qty);
      ([queue[0]] + taken, rest)
    else
      ([Lot(queue[0].price, qty)], [Lot(queue[0].price, queue[0].qty - qty)] + queue[1..])
  }

  /** The queue after `m` units of its front lot are used. */
  function Reduce(queue: seq<Lot>, m: int): seq<Lot>
    requires queue != []
  {
    if queue[0].qty == m then queue[1..] else queue[0 := Lot(queue[0].price, queue[0].qty - m)]
  }

  /** The gain of closing `lot` at `price` with a fill on `side`. */
  function CloseGain(side: Side, price: int, lot: Lot): int {
    if side.Bid? then (lot.price - price) * lot.qty else (price - lot.price) * lot.qty
  }

  function CloseEntries(side: Side, price: int, taken: seq<Lot>): seq<Entry> {
    if taken == [] then []
    else [Closed(CloseGain(side, price, taken[0]))] + CloseEntries(side, price, taken[1..])
  }

  /** The gain of pairing `qty` units bought at the two prices: one dollar less both costs. */
  function PairGain(price: int, other: int, qty: int): int {
    (PRICE_SCALE - price - other) * qty
  }

  datatype PairResult = PairResult(xs: seq<Lot>, ys: seq<Lot>, entries: seq<Entry>)

  /** Cross-matches two queues of longs front against front: one unit of each is worth one dollar. */
  function PairQueues(a: AssetId, c: AssetId, xs: seq<Lot>, ys: seq<Lot>): PairResult
    decreases |xs| + |ys|
  {
    if xs == [] || ys == [] then PairResult(xs, ys, [])
    else
      var m := Min(xs[0].qty, ys[0].qty);
      var r := PairQueues(a, c, Reduce(xs, m), Reduce(ys, m));
      r.(entries := [Paired(a, c, m, PairGain(xs[0].price, ys[0].price, m))] + r.entries)
  }

  ghost predicate Positive(lots: seq<Lot>) {
    forall i :: 0 <= i < |lots| ==> lots[i].qty > 0
  }

  /** A ring that is full drops the new lot silently. */
  function Push(lots: seq<Lot>, lot: Lot): seq<Lot> {
    if |lots| >= MAX_ENTRIES then lots else lots + [lot]
  }

  function PushEntries(a: AssetId, side: Side, lots: seq<Lot>, lot: Lot): seq<Entry> {
    if |lots| >= MAX_ENTRIES then [Dropped(a, side, lot)] else []
  }

  function SettleEntries(a: AssetId, side: Side, price: int, lots: seq<Lot>): seq<Entry> {
    if lots == [] then []
    else
      [Settled(a, side, lots[0].qty, price, SettleGain(side, price, lots[0]))]
      + SettleEntries(a, side, price, lots[1..])
  }

  /** The gain of settling an open long (`Bid`) or short (`Ask`) lot. */
  function SettleGain(side: Side, price: int, lot: Lot): int {
    if side.Bid? then (price - lot.price) * lot.qty else (lot.price - price) * lot.qty
  }

  // ---------------------------------------------------------------------------
  // Steps
  // ---------------------------------------------------------------------------

  function BookOf(l: Ledger, a: AssetId): Book {
    if a in l.books then l.books[a] else EMPTY_BOOK
  }

  /** The partner whose longs a BUY of `a` is cross-matched against, if there is one. */
  predicate Pairable(l: Ledger, a: AssetId) {
    a in l.complement && l.complement[a] in l.books && !l.books[l.complement[a]].settled
  }

  datatype Outcome = Outcome(ledger: Ledger, entries: seq<Entry>)

  datatype Traded = Traded(book: Book, entries: seq<Entry>)

  /** A fill inside its own asset's book: close against the opposite queue, queue what is left. */
  function Trade(a: AssetId, book: Book, side: Side, price: int, size: int): Traded {
    var against, own := if side.Bid? then book.shorts else book.longs, if side.Bid? then book.longs else book.shorts;
    var (taken, rest) := Take(against, size);
    var left := size - Total(taken);
    var lot := Lot(price, left);
    var own' := if left > 0 then Push(own, lot) else own;
    var drops := if left > 0 then PushEntries(a, side, own, lot) else [];
    Traded(if side.Bid? then Book(own', rest, book.settled) else Book(rest, own', book.settled),
           CloseEntries(side, price, taken) + drops)
  }

  /** The cross-asset half of a BUY: the asset's longs against its partner's. */
  function CrossMatch(l: Ledger, a: AssetId): Outcome
    requires a in l.books
  {
    if Pairable(l, a) then
      var c := l.complement[a];
      var p := PairQueues(a, c, l.books[a].longs, l.books[c].longs);
      Outcome(l.(books := l.books[a := l.books[a].(longs := p.xs)][c := l.books[c].(longs := p.ys)]), p.entries)
    else
      Outcome(l, [])
  }

  /** A confirmed fill: ignored on a settled asset, otherwise matched; the stored total moves by the truncated gains. */
  function Fill(l: Ledger, a: AssetId, side: Side, price: int, size: int): Outcome {
    if BookOf(l, a).settled then Outcome(l, [])
    else
      var t := Trade(a, BookOf(l, a), side, price, size);
      var l1 := l.(books := l.books[a := t.book]);
      var o := if side.Bid? then CrossMatch(l1, a) else Outcome(l1, []);
      var entries := (if size > 0 then [Filled(a, side, price, size)] else []) + t.entries + o.entries;
      Outcome(o.ledger.(realized := l.realized + Stored(entries)), entries)
  }

  function Settle(l: Ledger, a: AssetId, price: int): Outcome {
    if a !in l.books || l.books[a].settled then Outcome(l, [])
    else
      var book := l.books[a];
      var entries := SettleEntries(a, Bid, price, book.longs) + SettleEntries(a, Ask, price, book.shorts);
      Outcome(l.(books := l.books[a := Book([], [], true)], realized := l.realized + Stored(entries)), entries)
  }

  function Reverse(l: Ledger, delta: int): Outcome {
    Outcome(l.(realized := l.realized - delta), [Reversed(delta)])
  }

  /** Registration never overwrites an existing partner, and creates the two books. */
  function Register(l: Ledger, up: AssetId, down: AssetId): Ledger {
    var c1 := if up in l.complement then l.complement else l.complement[up := down];
    var c2 := if down in c1 then c1 else c1[down := up];
    l.(complement := c2, books := l.books[up := BookOf(l, up)][down := BookOf(l, down)])
  }

  datatype Op =
    | OpRegister(up: AssetId, down: AssetId)
    | OpFill(asset: AssetId, side: Side, price: int, size: int)
    | OpReverse(delta: int)
    | OpSettle(asset: AssetId, price: int)

  function Step(l: Ledger, op: Op): Outcome {
    match op
    case OpRegister(up, down) => Outcome(Register(l, up, down), [])
    case OpFill(a, side, price, size) => Fill(l, a, side, price, size)
    case OpReverse(delta) => Reverse(l, delta)
    case OpSettle(a, price) => Settle(l, a, price)
  }

  /** The ledger and the whole journal after a run from the empty ledger. */
  function Run(ops: seq<Op>): Outcome {
    if ops == [] then Outcome(EMPTY_LEDGER, [])
    else
      var before := Run(ops[..|ops| - 1]);
      var o := Step(before.ledger, ops[|ops| - 1]);
      Outcome(o.ledger, before.entries + o.entries)
  }

  // ---------------------------------------------------------------------------
  // Reading the journal
  // ---------------------------------------------------------------------------

  function Gain(e: Entry): int {
    match e
    case Closed(g) => g
    case Paired(_, _, _, g) => g
    case Settled(_, _, _, _, g) => g
    case _ => 0
  }

  /** What one entry adds to the stored micro-USDC total. */
  function StoredOne(e: Entry): int {
    match e
    case Reversed(d) => -d
    case _ => TruncDiv(Gain(e), PRICE_SCALE)
  }

  function Stored(j: seq<Entry>): int {
    if j == [] then 0 else StoredOne(j[0]) + Stored(j[1..])
  }

  function Exact(j: seq<Entry>): int {
    if j == [] then 0 else Gain(j[0]) + Exact(j[1..])
  }

  /** The number of matches, pairings and settled lots, each of which truncates once. */
  function Steps(j: seq<Entry>): nat {
    if j == [] then 0 else (if j[0].Closed? || j[0].Paired? || j[0].Settled? then 1 else 0) + Steps(j[1..])
  }

  function ReversedTotal(j: seq<Entry>): int {
    if j == [] then 0 else (if j[0].Reversed? then j[0].delta else 0) + ReversedTotal(j[1..])
  }

  /** The worth, over its price, of holding `qty` more (`Bid`) or fewer (`Ask`) units valued at `value`. */
  function Mark(side: Side, value: int, price: int, qty: int): int {
    if side.Bid? then (value - price) * qty else (price - value) * qty
  }

  function MarkLots(side: Side, value: int, lots: seq<Lot>): int {
    if lots == [] then 0
    else Mark(side, value, lots[0].price, lots[0].qty) + MarkLots(side, value, lots[1..])
  }

  function MarkBook(b: Book, value: int): int {
    MarkLots(Bid, value, b.longs) + MarkLots(Ask, value, b.shorts)
  }

  /** The unrealized gain of every open lot when each asset is worth `v(asset)`. */
  ghost function Unrealized(books: map<AssetId, Book>, v: AssetId -> int): int {
    if |books| == 0 then 0
    else
      var a := Pick(books);
      MarkBook(books[a], v(a)) + Unrealized(books - {a}, v)
  }

  ghost function Pick(books: map<AssetId, Book>): (a: AssetId)
    requires |books| > 0
    ensures a in books
  {
    assert books.Keys != {};
    var a :| a in books.Keys;
    a
  }

  /** What an entry contributes to the total worth under the valuation `v`: accepted fills at
      their mark, and the difference between a pairing or settlement price and the valuation.
      A dropped lot loses its mark. */
  ghost function Flow(e: Entry, v: AssetId -> int): int {
    match e
    case Filled(a, side, price, qty) => Mark(side, v(a), price, qty)
    case Paired(a, c, qty, _) => (PRICE_SCALE - v(a) - v(c)) * qty
    case Settled(a, side, qty, price, _) => Mark(side, price, v(a), qty)
    case Dropped(a, side, lot) => -Mark(side, v(a), lot.price, lot.qty)
    case _ => 0
  }

  ghost function Flows(j: seq<Entry>, v: AssetId -> int): int {
    if j == [] then 0 else Flow(j[0], v) + Flows(j[1..], v)
  }
}
