/**
 The order book on values: two dense ladders of 10001 levels, the best bid and ask they hold, and a status.
 Every update is described by a full rescan; `OrderBook` is the class that avoids most rescans.
 */
module BookModel {
  import opened Common

  const PRICE_MIN: int := 0
  const PRICE_MAX: int := 10000
  const LADDER_SIZE: nat := 10001
  const INVALID_PRICE: int := -1

  datatype Error = Ok | InvalidPrice | NegativeQty

  datatype Level = Level(price: int, size: int)

  datatype Change = Change(price: int, side: Side, size: int)

  datatype Bbo = Bbo(bestBid: int, bestAsk: int, bidSize: int, askSize: int)

  datatype Status = Empty | Live | Stale | Crossed

  datatype Book = Book(bids: seq<int>, asks: seq<int>, bbo: Bbo, status: Status, tick: int)

  ghost predicate Shaped(b: Book) {
    |b.bids| == LADDER_SIZE && |b.asks| == LADDER_SIZE
  }

  function NoLevels(): seq<int> {
    seq(LADDER_SIZE, _ => 0)
  }

  function EmptyBook(tick: int): Book {
    Book(NoLevels(), NoLevels(), Bbo(INVALID_PRICE, INVALID_PRICE, 0, 0), Empty, tick)
  }

  // ---------------------------------------------------------------------------
  // Scanning a ladder
  // ---------------------------------------------------------------------------

  /** The highest level below `n` with a positive size. */
  function BestBelow(l: seq<int>, n: nat): int
    requires n <= |l|
  {
    if n == 0 then INVALID_PRICE else if l[n - 1] > 0 then n - 1 else BestBelow(l, n - 1)
  }

  /** The lowest level from `p` on with a positive size. */
  function BestFrom(l: seq<int>, p: nat): int
    requires p <= |l|
    decreases |l| - p
  {
    if p == |l| then INVALID_PRICE else if l[p] > 0 then p else BestFrom(l, p + 1)
  }

  /** What a best bid is, without scanning: positive, and nothing positive above it; or nothing positive at all. */
  ghost predicate IsBestBid(l: seq<int>, b: int) {
    (b == INVALID_PRICE || (0 <= b < |l| && l[b] > 0)) && forall p :: 0 <= p < |l| && p > b ==> l[p] <= 0
  }

  ghost predicate IsBestAsk(l: seq<int>, a: int) {
    if a == INVALID_PRICE then forall p :: 0 <= p < |l| ==> l[p] <= 0
    else 0 <= a < |l| && l[a] > 0 && forall p :: 0 <= p < a ==> l[p] <= 0
  }

  lemma {:induction false} BestBelowIff(l: seq<int>, n: nat, b: int)
    requires n <= |l| && forall p :: n <= p < |l| ==> l[p] <= 0
    ensures BestBelow(l, n) == b <==> IsBestBid(l, b)
  {
    if n > 0 && l[n - 1] <= 0 {
      BestBelowIff(l, n - 1, b);
    }
  }

  lemma {:induction false} BestFromIff(l: seq<int>, n: nat, a: int)
    requires n <= |l| && forall p :: 0 <= p < n ==> l[p] <= 0
    ensures BestFrom(l, n) == a <==> IsBestAsk(l, a)
    decreases |l| - n
  {
    if n < |l| && l[n] <= 0 {
      BestFromIff(l, n + 1, a);
    }
  }

  function SizeAt(l: seq<int>, p: int): int {
    if 0 <= p < |l| then l[p] else 0
  }

  function ScanBbo(bids: seq<int>, asks: seq<int>): Bbo {
    var b, a := BestBelow(bids, |bids|), BestFrom(asks, 0);
    Bbo(b, a, SizeAt(bids, b), SizeAt(asks, a))
  }

  function StatusOf(bbo: Bbo): Status {
    if bbo.bestBid == INVALID_PRICE && bbo.bestAsk == INVALID_PRICE then Empty
    else if bbo.bestBid != INVALID_PRICE && bbo.bestAsk != INVALID_PRICE && bbo.bestBid >= bbo.bestAsk then Crossed
    else Live
  }

  /** The status in terms of the levels: empty without any, crossed when someone bids at least what someone asks, and
      live otherwise. */
  lemma {:induction false} StatusIff(bids: seq<int>, asks: seq<int>)
    ensures var status := StatusOf(ScanBbo(bids, asks));
            var some := (exists p :: 0 <= p < |bids| && bids[p] > 0) || (exists q :: 0 <= q < |asks| && asks[q] > 0);
            var crossed := exists p, q :: 0 <= p < |bids| && 0 <= q < |asks| && bids[p] > 0 && asks[q] > 0 && p >= q;
            && (status.Empty? <==> !some) && (status.Crossed? <==> crossed) && (status.Live? <==> some && !crossed)
  {
    var b, a := BestBelow(bids, |bids|), BestFrom(asks, 0);
    BestBelowIff(bids, |bids|, b);
    BestFromIff(asks, 0, a);
    hide BestBelow, BestFrom;
    if exists p :: 0 <= p < |bids| && bids[p] > 0 {
      var p :| 0 <= p < |bids| && bids[p] > 0;
      assert p <= b;
    }
    if b != INVALID_PRICE && a != INVALID_PRICE && b >= a {
      assert bids[b] > 0 && asks[a] > 0;
    }
  }

  /** The cached best bid and ask are what a full scan of both ladders finds. */
  ghost predicate Agrees(b: Book) {
    Shaped(b) && b.bbo == ScanBbo(b.bids, b.asks)
  }

  // ---------------------------------------------------------------------------
  // Updates
  // ---------------------------------------------------------------------------

  function ErrorOf(price: int, size: int): Error {
    if price < PRICE_MIN || price > PRICE_MAX then InvalidPrice else if size < 0 then NegativeQty else Ok
  }

  /** The error of the first bad change, if there is one. */
  function FirstError(cs: seq<Change>): Error {
    if cs == [] then Ok
    else if ErrorOf(cs[0].price, cs[0].size).Ok? then FirstError(cs[1..])
    else ErrorOf(cs[0].price, cs[0].size)
  }

  predicate ValidChange(c: Change) {
    ErrorOf(c.price, c.size).Ok?
  }

  ghost predicate AllValid(cs: seq<Change>) {
    forall i :: 0 <= i < |cs| ==> ValidChange(cs[i])
  }

  /** One side's ladder after the changes of that side, in order. */
  function ApplySide(l: seq<int>, side: Side, cs: seq<Change>): (r: seq<int>)
    requires |l| == LADDER_SIZE && AllValid(cs)
    ensures |r| == LADDER_SIZE
    decreases cs
  {
    if cs == [] then l
    else ApplySide(if cs[0].side == side then l[cs[0].price := cs[0].size] else l, side, cs[1..])
  }

  function Rebuilt(bids: seq<int>, asks: seq<int>, tick: int): Book {
    var bbo := ScanBbo(bids, asks);
    Book(bids, asks, bbo, StatusOf(bbo), tick)
  }

  datatype Outcome = Outcome(book: Book, error: Error)

  lemma {:induction false} FirstErrorIff(cs: seq<Change>)
    ensures FirstError(cs).Ok? <==> AllValid(cs)
  {
    if cs != [] {
      FirstErrorIff(cs[1..]);
      assert AllValid(cs) <==> ValidChange(cs[0]) && AllValid(cs[1..]);
    }
  }

  /** A change is within the grid and not negative; a size of zero, which empties its level, is fine. */
  predicate Acceptable(c: Change) {
    0 <= c.price <= 10000 && c.size >= 0
  }

  /** A batch is refused if and only if it holds an unacceptable change, and for the fault of the first one. */
  lemma {:induction false} FirstErrorIs(cs: seq<Change>, i: nat)
    ensures FirstError(cs).Ok? <==> forall k :: 0 <= k < |cs| ==> Acceptable(cs[k])
    ensures i < |cs| && !Acceptable(cs[i]) && (forall k :: 0 <= k < i ==> Acceptable(cs[k])) ==>
              FirstError(cs) == if 0 <= cs[i].price <= 10000 then NegativeQty else InvalidPrice
  {
    if cs != [] {
      FirstErrorIs(cs[1..], if i == 0 then 0 else i - 1);
      assert forall k :: 0 < k < |cs| ==> cs[k] == cs[1..][k - 1];
      assert forall k :: 0 <= k < |cs[1..]| ==> cs[1..][k] == cs[k + 1];
    }
  }

  /** A batch of changes: all of them, or none when one is bad. */
  function Update(b: Book, cs: seq<Change>): (o: Outcome)
    requires Shaped(b)
    ensures Shaped(o.book)
  {
    FirstErrorIff(cs);
    if FirstError(cs).Ok? then Outcome(Rebuilt(ApplySide(b.bids, Bid, cs), ApplySide(b.asks, Ask, cs), b.tick), Ok)
    else Outcome(b, FirstError(cs))
  }

  function AsChanges(levels: seq<Level>, side: Side): seq<Change> {
    seq(|levels|, i requires 0 <= i < |levels| => Change(levels[i].price, side, levels[i].size))
  }

  /** A snapshot replaces the whole book; a bad one leaves it empty. */
  function Snapshot(b: Book, bids: seq<Level>, asks: seq<Level>): (o: Outcome)
    ensures Shaped(o.book)
  {
    var cs := AsChanges(bids, Bid) + AsChanges(asks, Ask);
    FirstErrorIff(cs);
    if FirstError(cs).Ok? then
        Outcome(Rebuilt(ApplySide(NoLevels(), Bid, cs), ApplySide(NoLevels(), Ask, cs), b.tick), Ok)
    else Outcome(EmptyBook(b.tick), FirstError(cs))
  }

  lemma {:induction false} ApplySideAppend(l: seq<int>, side: Side, cs: seq<Change>, ds: seq<Change>)
    requires |l| == LADDER_SIZE && AllValid(cs) && AllValid(ds)
    ensures AllValid(cs + ds) && ApplySide(l, side, cs + ds) == ApplySide(ApplySide(l, side, cs), side, ds)
    decreases cs
  {
    if cs == [] {
      assert cs + ds == ds;
    } else {
      assert (cs + ds)[1..] == cs[1..] + ds;
      ApplySideAppend(if cs[0].side == side then l[cs[0].price := cs[0].size] else l, side, cs[1..], ds);
    }
  }

  /** The size of the last change for a level, or what the level held before. */
  function LastSize(cs: seq<Change>, side: Side, p: int, before: int): int {
    if cs == [] then before
    else
      var last := cs[|cs| - 1];
      if last.side == side && last.price == p then last.size else LastSize(cs[..|cs| - 1], side, p, before)
  }

  /** On every level the last change of the batch wins and untouched levels keep their size. */
  lemma {:induction false} LastChangeWins(l: seq<int>, side: Side, cs: seq<Change>, p: int)
    requires |l| == LADDER_SIZE && AllValid(cs) && 0 <= p < LADDER_SIZE
    ensures ApplySide(l, side, cs)[p] == LastSize(cs, side, p, l[p])
  {
    if cs != [] {
      var front, last := cs[..|cs| - 1], [cs[|cs| - 1]];
      assert cs == front + last;
      ApplySideAppend(l, side, front, last);
      LastChangeWins(l, side, front, p);
    }
  }
}
