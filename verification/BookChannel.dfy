/**
 The channel between the market-data thread's book and the strategy thread's shadow of it: how events become
 deltas, and when the two books agree.
 */
module BookChannel {
  import opened Common
  import opened BookModel
  import opened ShadowBook

  /** What reaches the market-data thread for one asset. */
  datatype Event =
    | BookSnapshot(bids: seq<Level>, asks: seq<Level>)
    | PriceChanges(changes: seq<Change>)
    | TickSize(tick: int)
    | Resolved

  /** The market-data thread's own book after an event. */
  function Primary(p: Book, e: Event): (r: Book)
    requires Shaped(p)
    ensures Shaped(r)
  {
    match e
    case BookSnapshot(bids, asks) => Snapshot(p, bids, asks).book
    case PriceChanges(changes) => Update(p, changes).book
    case TickSize(tick) => if tick > 0 then p.(tick := tick) else p
    case Resolved => p.(status := Stale)
  }

  ghost predicate AllIncremental(ds: seq<Delta>) {
    forall i :: 0 <= i < |ds| ==> ds[i].kind.Incremental? && ds[i].tick == 0
  }

  /** The deltas pushed for an event: the accepted changes, cut into messages; nothing for a rejected event. */
  ghost predicate Emitted(p: Book, e: Event, ds: seq<Delta>)
    requires Shaped(p)
  {
    match e
    case BookSnapshot(bids, asks) =>
      if Snapshot(p, bids, asks).error.Ok?
      then IsSnapshotSplit(ds) && AllChanges(ds) == AsChanges(bids, Bid) + AsChanges(asks, Ask)
      else ds == []
    case PriceChanges(changes) =>
      if Update(p, changes).error.Ok? then AllIncremental(ds) && AllChanges(ds) == changes else ds == []
    case TickSize(tick) => ds == if tick > 0 then [Delta(Incremental, [], tick)] else []
    case Resolved => ds == []
  }

  // ---------------------------------------------------------------------------
  // Packing
  // ---------------------------------------------------------------------------

  ghost predicate Fits(ds: seq<Delta>) {
    forall i :: 0 <= i < |ds| ==> |ds[i].changes| <= MAX_DELTA_CHANGES
  }

  /** What has been flushed so far and the message being filled: a BEGIN, then CHUNKs. */
  ghost predicate Filling(out: seq<Delta>, delta: Delta) {
    && Fits(out) && |delta.changes| <= MAX_DELTA_CHANGES
    && (if out == [] then delta.kind.SnapshotBegin? else out[0].kind.SnapshotBegin? && delta.kind.SnapshotChunk?)
    && forall i :: 0 < i < |out| ==> out[i].kind.SnapshotChunk?
  }

  lemma {:induction false} AllChangesAppend(ds: seq<Delta>, d: Delta)
    ensures AllChanges(ds + [d]) == AllChanges(ds) + d.changes
  {
    assert (ds + [d])[..|ds|] == ds;
  }

  /** Adds one change, flushing the message first when it is full. */
  method PackOne(out0: seq<Delta>, delta0: Delta, c: Change) returns (out: seq<Delta>, delta: Delta)
    requires Filling(out0, delta0)
    ensures Filling(out, delta)
    ensures AllChanges(out) + delta.changes == AllChanges(out0) + delta0.changes + [c]
  {
    out, delta := out0, delta0;
    if |delta.changes| >= MAX_DELTA_CHANGES {
      AllChangesAppend(out, delta);
      out := out + [delta];
      delta := Delta(SnapshotChunk, [], 0);
    }
    delta := delta.(changes := delta.changes + [c]);
  }

  method PackLevels(out0: seq<Delta>, delta0: Delta, levels: seq<Level>, side: Side) returns (out: seq<Delta>,
      delta: Delta)
    requires Filling(out0, delta0)
    ensures Filling(out, delta)
    ensures AllChanges(out) + delta.changes == AllChanges(out0) + delta0.changes + AsChanges(levels, side)
  {
    out, delta := out0, delta0;
    ghost var cs := AsChanges(levels, side);
    ghost var start := AllChanges(out0) + delta0.changes;
    hide AllChanges, Filling;
    var i := 0;
    while i < |levels|
      invariant 0 <= i <= |levels| && Filling(out, delta)
      invariant AllChanges(out) + delta.changes == start + cs[..i]
    {
      out, delta := PackOne(out, delta, Change(levels[i].price, side, levels[i].size));
      assert start + cs[..i] + [cs[i]] == start + cs[..i + 1];
      i := i + 1;
    }
    assert cs[..i] == cs;
  }

  /** A snapshot as messages of at most 64 changes, with an empty END when everything fitted in BEGIN. */
  method PackSnapshot(bids: seq<Level>, asks: seq<Level>) returns (ds: seq<Delta>)
    ensures IsSnapshotSplit(ds) && Fits(ds)
    ensures AllChanges(ds) == AsChanges(bids, Bid) + AsChanges(asks, Ask)
  {
    var delta := Delta(SnapshotBegin, [], 0);
    ghost var bs, as_ := AsChanges(bids, Bid), AsChanges(asks, Ask);
    assert AllChanges([]) == [];
    hide AllChanges, AsChanges;
    ds, delta := PackLevels([], delta, bids, Bid);
    assert AllChanges(ds) + delta.changes == bs;
    ds, delta := PackLevels(ds, delta, asks, Ask);
    ds := Close(ds, delta);
  }

  /** Ends a packed snapshot. */
  method Close(out: seq<Delta>, delta: Delta) returns (ds: seq<Delta>)
    requires Filling(out, delta)
    ensures IsSnapshotSplit(ds) && Fits(ds) && AllChanges(ds) == AllChanges(out) + delta.changes
  {
    hide AllChanges;
    if delta.kind.SnapshotBegin? {
      AllChangesAppend(out, delta);
      AllChangesAppend(out + [delta], Delta(SnapshotEnd, [], 0));
      ds := out + [delta] + [Delta(SnapshotEnd, [], 0)];
    } else {
      AllChangesAppend(out, delta.(kind := SnapshotEnd));
      ds := out + [delta.(kind := SnapshotEnd)];
    }
  }

  /** Full messages so far, and one being filled. */
  ghost predicate Batching(out: seq<Delta>, delta: Delta) {
    && AllIncremental(out) && Fits(out)
    && delta.kind.Incremental? && delta.tick == 0 && |delta.changes| <= MAX_DELTA_CHANGES
  }

  ghost function Packed(out: seq<Delta>, delta: Delta): seq<Change> {
    AllChanges(out) + delta.changes
  }

  method AddChange(out0: seq<Delta>, delta0: Delta, c: Change) returns (out: seq<Delta>, delta: Delta)
    requires Batching(out0, delta0)
    ensures Batching(out, delta) && Packed(out, delta) == Packed(out0, delta0) + [c] && |delta.changes| > 0
  {
    out, delta := out0, delta0;
    if |delta.changes| >= MAX_DELTA_CHANGES {
      AllChangesAppend(out, delta);
      out := out + [delta];
      delta := delta.(changes := []);
    }
    hide AllChanges;
    delta := delta.(changes := delta.changes + [c]);
  }

  /** A batch of accepted changes as incremental messages of at most 64 changes; none when there is no change. */
  method PackChanges(cs: seq<Change>) returns (ds: seq<Delta>)
    ensures AllIncremental(ds) && Fits(ds) && AllChanges(ds) == cs
  {
    var delta := Delta(Incremental, [], 0);
    ds := [];
    assert Packed(ds, delta) == cs[..0] && Batching(ds, delta);
    hide AllChanges, Packed, Batching;
    var i := 0;
    while i < |cs|
      invariant 0 <= i <= |cs| && Batching(ds, delta) && Packed(ds, delta) == cs[..i]
    {
      ds, delta := AddChange(ds, delta, cs[i]);
      assert cs[..i] + [cs[i]] == cs[..i + 1];
      i := i + 1;
    }
    assert cs[..i] == cs;
    ds := FlushRest(ds, delta);
  }

  method FlushRest(out: seq<Delta>, delta: Delta) returns (ds: seq<Delta>)
    requires Batching(out, delta)
    ensures AllIncremental(ds) && Fits(ds) && AllChanges(ds) == Packed(out, delta)
  {
    ds := out;
    AllChangesAppend(out, delta);
    hide AllChanges;
    if |delta.changes| > 0 {
      ds := out + [delta];
    }
  }

  // ---------------------------------------------------------------------------
  // Agreement
  // ---------------------------------------------------------------------------

  ghost predicate NonNegative(b: Book) {
    (forall p :: 0 <= p < |b.bids| ==> b.bids[p] >= 0) && (forall p :: 0 <= p < |b.asks| ==> b.asks[p] >= 0)
  }

  /** The two books hold the same ladders, best bid and ask and tick size, no snapshot is under way, and the status
      is the same except that only the primary knows of the market's resolution. */
  ghost predicate InSync(p: Book, s: Shadow) {
    && Clean(s.book) && !s.pending && NonNegative(s.book)
    && p.bids == s.book.bids && p.asks == s.book.asks && p.bbo == s.book.bbo && p.tick == s.book.tick
    && (p.status == s.book.status || p.status == Stale)
  }

  /** A rejected snapshot of a book that has a best bid or ask. */
  predicate Diverges(p: Book, e: Event) {
    && e.BookSnapshot? && !FirstError(AsChanges(e.bids, Bid) + AsChanges(e.asks, Ask)).Ok?
    && (p.bbo.bestBid != INVALID_PRICE || p.bbo.bestAsk != INVALID_PRICE)
  }

  lemma {:induction false} ApplySideNonNegative(l: seq<int>, side: Side, cs: seq<Change>)
    requires |l| == LADDER_SIZE && AllValid(cs) && forall p :: 0 <= p < |l| ==> l[p] >= 0
    ensures forall p :: 0 <= p < LADDER_SIZE ==> ApplySide(l, side, cs)[p] >= 0
    decreases cs
  {
    if cs != [] {
      ApplySideNonNegative(if cs[0].side == side then l[cs[0].price := cs[0].size] else l, side, cs[1..]);
    }
  }

  /** A run of incremental messages is all their changes, one after the other. */
  lemma {:induction false} IncrementalsAccumulate(s: Shadow, ds: seq<Delta>)
    requires Shaped(s.book) && AllIncremental(ds)
    ensures ApplyDeltas(s, ds) == s.(book := ApplyEach(s.book, AllChanges(ds)))
  {
    if ds != [] {
      var front, last := ds[..|ds| - 1], ds[|ds| - 1];
      IncrementalsAccumulate(s, front);
      EachAppend(s.book, AllChanges(front), last.changes);
    }
  }

  lemma {:induction false} ChangesKeepSync(p: Book, s: Shadow, cs: seq<Change>, ds: seq<Delta>)
    requires Shaped(p) && InSync(p, s) && Emitted(p, PriceChanges(cs), ds)
    ensures InSync(Primary(p, PriceChanges(cs)), ApplyDeltas(s, ds))
  {
    FirstErrorIff(cs);
    if AllValid(cs) {
      IncrementalsAccumulate(s, ds);
      EachIsBatch(s.book, cs);
      ApplySideNonNegative(p.bids, Bid, cs);
      ApplySideNonNegative(p.asks, Ask, cs);
      RebuiltIsClean(ApplySide(p.bids, Bid, cs), ApplySide(p.asks, Ask, cs), p.tick);
    }
  }

  lemma {:induction false} SnapshotKeepsSync(p: Book, s: Shadow, bids: seq<Level>, asks: seq<Level>, ds: seq<Delta>)
    requires Shaped(p) && InSync(p, s) && Emitted(p, BookSnapshot(bids, asks), ds)
    requires Snapshot(p, bids, asks).error.Ok?
    ensures InSync(Primary(p, BookSnapshot(bids, asks)), ApplyDeltas(s, ds))
  {
    var cs := AsChanges(bids, Bid) + AsChanges(asks, Ask);
    FirstErrorIff(cs);
    OfSideAsChanges(bids, asks);
    SnapshotInPieces(s, ds, bids, asks);
    ApplySideNonNegative(NoLevels(), Bid, cs);
    ApplySideNonNegative(NoLevels(), Ask, cs);
    RebuiltIsClean(ApplySide(NoLevels(), Bid, cs), ApplySide(NoLevels(), Ask, cs), p.tick);
  }

  /** With non-negative sizes, a book without best bid and ask is the empty book. */
  lemma {:induction false} NoBestIffEmpty(b: Book)
    requires Clean(b) && NonNegative(b)
    ensures b.bbo.bestBid == INVALID_PRICE && b.bbo.bestAsk == INVALID_PRICE <==>
            b.bids == NoLevels() && b.asks == NoLevels()
  {
    BestBelowIff(b.bids, LADDER_SIZE, INVALID_PRICE);
    BestFromIff(b.asks, 0, INVALID_PRICE);
    if b.bbo.bestBid == INVALID_PRICE && b.bbo.bestAsk == INVALID_PRICE {
      assert b.bids == NoLevels() && b.asks == NoLevels();
    }
  }

  /** When every message arrives, an event keeps agreeing books in agreement exactly unless it is a rejected snapshot
      of a book that has a best bid or ask: the primary is emptied, nothing is emitted, and the shadow keeps the old
      levels. */
  lemma {:induction false} SyncWhenDelivered(p: Book, s: Shadow, e: Event, ds: seq<Delta>)
    requires Shaped(p) && InSync(p, s) && Emitted(p, e, ds)
    ensures InSync(Primary(p, e), ApplyDeltas(s, ds)) <==> !Diverges(p, e)
  {
    match e
    case BookSnapshot(bids, asks) =>
      if Snapshot(p, bids, asks).error.Ok? {
        SnapshotKeepsSync(p, s, bids, asks, ds);
      } else {
        NoBestIffEmpty(s.book);
        EmptyIsClean(p.tick);
      }
    case PriceChanges(cs) => ChangesKeepSync(p, s, cs, ds);
    case TickSize(tick) =>
      if tick > 0 {
        assert ds == [Delta(Incremental, [], tick)] && ds[..0] == [];
        assert ApplyDeltas(s, ds) == ApplyDelta(s, ds[0]);
      }
    case Resolved =>
  }

  // ---------------------------------------------------------------------------
  // Dropped messages
  // ---------------------------------------------------------------------------

  const SNAPSHOT_SPIN_LIMIT: nat := 100000

  /** The messages whose flag is set, in order. */
  function Kept(ds: seq<Delta>, kept: seq<bool>): seq<Delta>
    requires |ds| == |kept|
  {
    if ds == [] then []
    else
      var n := |ds| - 1;
      Kept(ds[..n], kept[..n]) + if kept[n] then [ds[n]] else []
  }

  /** The strategy's bounded queue of book messages, which another thread drains: a push may fail. */
  class DeltaQueue {
    ghost var pushed: seq<Delta>
    ghost var tries: nat

    constructor ()
      ensures pushed == [] && tries == 0
    {
      pushed, tries := [], 0;
    }

    method TryPush(d: Delta) returns (ok: bool)
      modifies this
      ensures pushed == old(pushed) + (if ok then [d] else []) && tries == old(tries) + 1
    {
      ok := *;
      pushed, tries := pushed + if ok then [d] else [], tries + 1;
    }

    /** Part of a snapshot is tried up to 100000 times, anything else once; a message that does not fit is dropped. */
    method Push(d: Delta, isSnapshot: bool) returns (ok: bool)
      modifies this
      ensures pushed == old(pushed) + if ok then [d] else []
      ensures var most := if isSnapshot then 100000 else 1;
              old(tries) < tries <= old(tries) + most && (!ok ==> tries == old(tries) + most)
    {
      ok := false;
      if isSnapshot {
        var attempt := 0;
        while attempt < SNAPSHOT_SPIN_LIMIT && !ok
          invariant pushed == old(pushed) + if ok then [d] else []
          invariant 0 <= attempt <= SNAPSHOT_SPIN_LIMIT && tries == old(tries) + attempt && (ok ==> attempt > 0)
          decreases SNAPSHOT_SPIN_LIMIT - attempt, !ok
        {
          ok := TryPush(d);
          attempt := attempt + 1;
        }
      } else {
        ok := TryPush(d);
      }
    }

    /** The messages of an event: those that fitted are queued in order, the others are gone. */
    method PushAll(ds: seq<Delta>, isSnapshot: bool) returns (kept: seq<bool>)
      modifies this
      ensures |kept| == |ds| && pushed == old(pushed) + Kept(ds, kept)
    {
      kept := [];
      for i := 0 to |ds|
        invariant |kept| == i && pushed == old(pushed) + Kept(ds[..i], kept)
      {
        var ok := Push(ds[i], isSnapshot);
        assert ds[..i + 1][..i] == ds[..i] && (kept + [ok])[..i] == kept;
        kept := kept + [ok];
      }
      assert ds[..|ds|] == ds;
    }
  }

  /** What a run of messages makes of a level that held `before`: the last change of the level since the last BEGIN,
      which empties it. */
  function LevelAfter(ds: seq<Delta>, side: Side, p: int, before: int): int {
    if ds == [] then before
    else
      var d := ds[|ds| - 1];
      LastSize(d.changes, side, p, if d.kind.SnapshotBegin? then 0 else LevelAfter(ds[..|ds| - 1], side, p, before))
  }

  /** The last tick size announced, or the one before. */
  function TickAfter(ds: seq<Delta>, before: int): int {
    if ds == [] then before
    else
      var d := ds[|ds| - 1];
      if d.kind.Incremental? && d.tick > 0 then d.tick else TickAfter(ds[..|ds| - 1], before)
  }

  /** The messages that arrived say of every level and of the tick size what all the messages say, and leave no snapshot
      open. */
  ghost predicate NothingMissed(p: Book, ds: seq<Delta>, arrived: seq<Delta>)
    requires Shaped(p)
  {
    && !SnapshotOpen(arrived)
    && TickAfter(arrived, p.tick) == TickAfter(ds, p.tick)
    && (forall q :: 0 <= q < LADDER_SIZE ==>
        LevelAfter(arrived, Bid, q, p.bids[q]) == LevelAfter(ds, Bid, q, p.bids[q]))
    && (forall q :: 0 <= q < LADDER_SIZE ==>
        LevelAfter(arrived, Ask, q, p.asks[q]) == LevelAfter(ds, Ask, q, p.asks[q]))
  }

  ghost predicate MessagesValid(ds: seq<Delta>) {
    forall i :: 0 <= i < |ds| ==> AllValid(ds[i].changes)
  }

  /** One message does to a level what its changes say. */
  lemma {:induction false} DeltaLevels(s: Shadow, d: Delta)
    requires Clean(s.book) && NonNegative(s.book) && AllValid(d.changes)
    ensures var r := ApplyDelta(s, d).book;
            && Clean(r) && NonNegative(r) && r.tick == TickAfter([d], s.book.tick)
            && (forall q :: 0 <= q < LADDER_SIZE ==>
                  r.bids[q] == LastSize(d.changes, Bid, q, if d.kind.SnapshotBegin? then 0 else s.book.bids[q]))
            && (forall q :: 0 <= q < LADDER_SIZE ==>
                  r.asks[q] == LastSize(d.changes, Ask, q, if d.kind.SnapshotBegin? then 0 else s.book.asks[q]))
  {
    var b := if d.kind.SnapshotBegin? then EmptyBook(s.book.tick)
             else if d.kind.Incremental? && d.tick > 0 then s.book.(tick := d.tick) else s.book;
    EmptyIsClean(s.book.tick);
    assert Clean(b) && NonNegative(b);
    assert ApplyDelta(s, d).book == ApplyEach(b, d.changes);
    assert b.tick == TickAfter([d], s.book.tick);
    EachIsBatch(b, d.changes);
    ApplySideNonNegative(b.bids, Bid, d.changes);
    ApplySideNonNegative(b.asks, Ask, d.changes);
    RebuiltIsClean(ApplySide(b.bids, Bid, d.changes), ApplySide(b.asks, Ask, d.changes), b.tick);
    hide ApplyEach, ApplyDelta, LastSize, TickAfter;
    forall q | 0 <= q < LADDER_SIZE
      ensures ApplySide(b.bids, Bid, d.changes)[q] == LastSize(d.changes, Bid, q, b.bids[q])
      ensures ApplySide(b.asks, Ask, d.changes)[q] == LastSize(d.changes, Ask, q, b.asks[q])
    {
      LastChangeWins(b.bids, Bid, d.changes, q);
      LastChangeWins(b.asks, Ask, d.changes, q);
    }
  }

  /** Any run of valid messages, complete or not, does to every level and to the tick size what it says. */
  lemma {:induction false} ShadowLevels(s: Shadow, ds: seq<Delta>)
    requires Clean(s.book) && NonNegative(s.book) && MessagesValid(ds)
    ensures var r := ApplyDeltas(s, ds).book;
            && Clean(r) && NonNegative(r) && r.tick == TickAfter(ds, s.book.tick)
            && (forall q :: 0 <= q < LADDER_SIZE ==> r.bids[q] == LevelAfter(ds, Bid, q, s.book.bids[q]))
            && (forall q :: 0 <= q < LADDER_SIZE ==> r.asks[q] == LevelAfter(ds, Ask, q, s.book.asks[q]))
  {
    if ds != [] {
      var front, d := ds[..|ds| - 1], ds[|ds| - 1];
      ShadowLevels(s, front);
      DeltaLevels(ApplyDeltas(s, front), d);
      assert TickAfter([d], TickAfter(front, s.book.tick)) == TickAfter(ds, s.book.tick) by {
        assert [d][..0] == [];
      }
      hide Clean, NonNegative, ApplyDelta, LastSize, TickAfter;
    }
  }

  lemma {:induction false} ChangesValid(ds: seq<Delta>)
    requires AllValid(AllChanges(ds))
    ensures MessagesValid(ds)
  {
    if ds != [] {
      var n := |ds| - 1;
      var front, last := AllChanges(ds[..n]), ds[n].changes;
      assert forall i :: 0 <= i < |front| ==> front[i] == AllChanges(ds)[i];
      assert forall i :: 0 <= i < |last| ==> last[i] == AllChanges(ds)[|front| + i];
      ChangesValid(ds[..n]);
    }
  }

  lemma {:induction false} KeptValid(ds: seq<Delta>, kept: seq<bool>)
    requires |ds| == |kept| && MessagesValid(ds)
    ensures MessagesValid(Kept(ds, kept))
  {
    if ds != [] {
      KeptValid(ds[..|ds| - 1], kept[..|ds| - 1]);
    }
  }

  lemma {:induction false} EmittedValid(p: Book, e: Event, ds: seq<Delta>)
    requires Shaped(p) && Emitted(p, e, ds)
    ensures MessagesValid(ds)
  {
    if e.BookSnapshot? || e.PriceChanges? {
      FirstErrorIff(if e.BookSnapshot? then AsChanges(e.bids, Bid) + AsChanges(e.asks, Ask) else e.changes);
      if ds != [] {
        ChangesValid(ds);
      }
    }
  }

  /** Pending depends on the messages alone. */
  lemma {:induction false} OpenIffPending(s: Shadow, ds: seq<Delta>)
    requires Shaped(s.book) && !s.pending
    ensures ApplyDeltas(s, ds).pending <==> SnapshotOpen(ds)
  {
    PendingIff(s.book, ds);
    assert s == Shadow(s.book, false);
  }

  /** Two clean books with the same tick size agree exactly when every level does. */
  lemma {:induction false} CleanBooksAgree(p: Book, x: Book, y: Book)
    requires Clean(x) && Clean(y) && p.bids == x.bids && p.asks == x.asks && p.bbo == x.bbo && p.tick == x.tick
    requires p.status == x.status || p.status == Stale
    ensures (&& p.bids == y.bids && p.asks == y.asks && p.bbo == y.bbo && p.tick == y.tick
             && (p.status == y.status || p.status == Stale))
            <==>
            (&& x.tick == y.tick && (forall q :: 0 <= q < LADDER_SIZE ==> x.bids[q] == y.bids[q])
             && (forall q :: 0 <= q < LADDER_SIZE ==> x.asks[q] == y.asks[q]))
  {
    hide ScanBbo, StatusOf;
    if forall q :: 0 <= q < LADDER_SIZE ==> x.bids[q] == y.bids[q] {
      assert x.bids == y.bids;
    }
    if forall q :: 0 <= q < LADDER_SIZE ==> x.asks[q] == y.asks[q] {
      assert x.asks == y.asks;
    }
  }

  /** From agreeing books, an event of which only some messages arrive leaves them in agreement if and only if it is not
      a rejected snapshot of a book that has a best bid or ask, and nothing was missed. */
  lemma {:induction false} SyncStep(p: Book, s: Shadow, e: Event, ds: seq<Delta>, kept: seq<bool>)
    requires Shaped(p) && InSync(p, s) && Emitted(p, e, ds) && |ds| == |kept|
    ensures InSync(Primary(p, e), ApplyDeltas(s, Kept(ds, kept))) <==>
            !Diverges(p, e) && NothingMissed(p, ds, Kept(ds, kept))
  {
    var arrived := Kept(ds, kept);
    SyncWhenDelivered(p, s, e, ds);
    EmittedValid(p, e, ds);
    KeptValid(ds, kept);
    ShadowLevels(s, ds);
    ShadowLevels(s, arrived);
    OpenIffPending(s, arrived);
    if Diverges(p, e) {
      FirstErrorIff(AsChanges(e.bids, Bid) + AsChanges(e.asks, Ask));
      assert ds == [] && arrived == [];
    } else {
      CleanBooksAgree(Primary(p, e), ApplyDeltas(s, ds).book, ApplyDeltas(s, arrived).book);
    }
    hide Primary, ApplyDeltas, LevelAfter, TickAfter, Emitted, Diverges, Kept, SnapshotOpen, Clean;
  }

  /** When everything arrives nothing is missed. */
  lemma {:induction false} AllArrived(p: Book, e: Event, ds: seq<Delta>)
    requires Shaped(p) && Emitted(p, e, ds)
    ensures NothingMissed(p, ds, ds)
  {
    if ds != [] && !e.BookSnapshot? {
      NotOpen(ds);
    }
  }

  lemma {:induction false} NotOpen(ds: seq<Delta>)
    requires forall i :: 0 <= i < |ds| ==> ds[i].kind.Incremental?
    ensures !SnapshotOpen(ds)
  {
    if ds != [] {
      NotOpen(ds[..|ds| - 1]);
    }
  }

  // ---------------------------------------------------------------------------
  // Whole runs
  // ---------------------------------------------------------------------------

  /** An event, the messages it made and which of them the queue took. */
  datatype Step = Step(event: Event, deltas: seq<Delta>, kept: seq<bool>)

  function PrimaryAfter(steps: seq<Step>): (p: Book)
    ensures Shaped(p)
  {
    if steps == [] then EmptyBook(100) else Primary(PrimaryAfter(steps[..|steps| - 1]), steps[|steps| - 1].event)
  }

  ghost predicate WellFormed(steps: seq<Step>) {
    forall k :: 0 <= k < |steps| ==>
      |steps[k].kept| == |steps[k].deltas| && Emitted(PrimaryAfter(steps[..k]), steps[k].event, steps[k].deltas)
  }

  function Arrived(step: Step): seq<Delta> {
    if |step.kept| == |step.deltas| then Kept(step.deltas, step.kept) else []
  }

  function ShadowAfter(steps: seq<Step>): (s: Shadow)
    ensures Shaped(s.book)
  {
    if steps == [] then Shadow(EmptyBook(100), false)
    else ApplyDeltas(ShadowAfter(steps[..|steps| - 1]), Arrived(steps[|steps| - 1]))
  }

  ghost predicate SyncAt(steps: seq<Step>, k: nat)
    requires k <= |steps|
  {
    InSync(PrimaryAfter(steps[..k]), ShadowAfter(steps[..k]))
  }

  /** The k-th event is not a rejected snapshot of a book with a best price, and nothing of it was missed. */
  ghost predicate KeptUpAt(steps: seq<Step>, k: nat)
    requires k < |steps|
  {
    var p := PrimaryAfter(steps[..k]);
    !Diverges(p, steps[k].event) && NothingMissed(p, steps[k].deltas, Arrived(steps[k]))
  }

  lemma {:induction false} SyncAtNext(steps: seq<Step>, k: nat)
    requires WellFormed(steps) && k < |steps| && SyncAt(steps, k)
    ensures SyncAt(steps, k + 1) <==> KeptUpAt(steps, k)
  {
    assert steps[..k + 1][..k] == steps[..k] && steps[..k + 1][k] == steps[k];
    hide InSync, NothingMissed, Diverges, Emitted;
    SyncStep(PrimaryAfter(steps[..k]), ShadowAfter(steps[..k]), steps[k].event, steps[k].deltas, steps[k].kept);
  }

  lemma {:induction false} SyncUpTo(steps: seq<Step>, k: nat)
    requires WellFormed(steps) && k <= |steps| && forall j :: 0 <= j < k ==> KeptUpAt(steps, j)
    ensures SyncAt(steps, k)
  {
    if k == 0 {
      EmptyIsClean(100);
    } else {
      SyncUpTo(steps, k - 1);
      SyncAtNext(steps, k - 1);
    }
  }

  /** Over a whole run, whatever the queue drops, the shadow agrees with the primary after every event if and only if no
      event is a rejected snapshot of a book that has a best bid or ask and nothing of any event was missed. */
  lemma {:induction false} ShadowAgreesIff(steps: seq<Step>)
    requires WellFormed(steps)
    ensures (forall k :: 0 <= k <= |steps| ==> SyncAt(steps, k)) <==>
            (forall k :: 0 <= k < |steps| ==> KeptUpAt(steps, k))
  {
    hide KeptUpAt, SyncAt;
    if forall k :: 0 <= k < |steps| ==> KeptUpAt(steps, k) {
      forall k | 0 <= k <= |steps|
        ensures SyncAt(steps, k)
      {
        SyncUpTo(steps, k);
      }
    }
    if forall k :: 0 <= k <= |steps| ==> SyncAt(steps, k) {
      forall k | 0 <= k < |steps|
        ensures KeptUpAt(steps, k)
      {
        assert SyncAt(steps, k) && SyncAt(steps, k + 1);
        SyncAtNext(steps, k);
      }
    }
  }

  // ---------------------------------------------------------------------------
  // The smallest divergences
  // ---------------------------------------------------------------------------

  /** One bid on the empty book. */
  lemma {:induction false} OneBid(size: int)
    requires size > 0
    ensures var cs := [Change(5000, Bid, size)];
            && Emitted(EmptyBook(100), PriceChanges(cs), [Delta(Incremental, cs, 0)])
            && LastSize(cs, Bid, 5000, 0) == size
            && Primary(EmptyBook(100), PriceChanges(cs)).bbo.bestBid != INVALID_PRICE
  {
    var cs := [Change(5000, Bid, size)];
    var ds := [Delta(Incremental, cs, 0)];
    assert ds[..0] == [] && AllChanges(ds) == [] + cs == cs;
    assert cs[1..] == [] && FirstError(cs).Ok?;
    OneChange(EmptyBook(100), cs[0]);
    var p := Update(EmptyBook(100), cs).book;
    assert p.bids[5000] == size;
    BestBelowIff(p.bids, LADDER_SIZE, INVALID_PRICE);
  }

  lemma {:induction false} KeptOne(d: Delta, b: bool)
    ensures Kept([d], [b]) == if b then [d] else []
  {
    assert [d][..0] == [] && [b][..0] == [];
    assert Kept([d][..0], [b][..0]) == [];
  }

  lemma {:induction false} FirstStep(steps: seq<Step>)
    requires steps != []
    ensures steps[..0] == [] && PrimaryAfter(steps[..0]) == EmptyBook(100)
    ensures PrimaryAfter(steps[..1]) == Primary(EmptyBook(100), steps[0].event)
  {
    var one := steps[..1];
    assert one[..|one| - 1] == [] && one[|one| - 1] == steps[0];
    hide Primary;
  }

  /** The first step of a run decides whether the books still agree after it. */
  lemma {:induction false} FirstSync(steps: seq<Step>)
    requires WellFormed(steps) && steps != []
    ensures SyncAt(steps, 0) && (SyncAt(steps, 1) <==> KeptUpAt(steps, 0))
  {
    SyncUpTo(steps, 0);
    SyncAtNext(steps, 0);
  }

  /** A bid whose only message is dropped. */
  lemma {:induction false} DroppedMessageDiverges(size: int)
    requires size > 0
    ensures var cs := [Change(5000, Bid, size)];
            var steps := [Step(PriceChanges(cs), [Delta(Incremental, cs, 0)], [false])];
            WellFormed(steps) && SyncAt(steps, 0) && !SyncAt(steps, 1)
  {
    var cs := [Change(5000, Bid, size)];
    var d := Delta(Incremental, cs, 0);
    var steps := [Step(PriceChanges(cs), [d], [false])];
    OneBid(size);
    FirstStep(steps);
    KeptOne(d, false);
    assert [d][..0] == [];
    assert LevelAfter([d], Bid, 5000, 0) == LastSize(cs, Bid, 5000, 0);
    assert LevelAfter([], Bid, 5000, 0) == 0 && EmptyBook(100).bids[5000] == 0;
    hide Emitted, Primary, LevelAfter, Kept, SyncAt, PrimaryAfter, LastSize;
    FirstSync(steps);
  }

  /** One bid, then a snapshot with a level above the price range. */
  lemma {:induction false} RejectedSnapshotDiverges(size: int)
    requires size > 0
    ensures var bid := PriceChanges([Change(5000, Bid, size)]);
            var bad := BookSnapshot([Level(10001, size)], []);
            var steps := [Step(bid, [Delta(Incremental, [Change(5000, Bid, size)], 0)], [true]), Step(bad, [], [])];
            WellFormed(steps) && SyncAt(steps, 1) && !SyncAt(steps, 2)
  {
    var cs := [Change(5000, Bid, size)];
    var d := Delta(Incremental, cs, 0);
    var bad := BookSnapshot([Level(10001, size)], []);
    var steps := [Step(PriceChanges(cs), [d], [true]), Step(bad, [], [])];
    var p := Primary(EmptyBook(100), PriceChanges(cs));
    OneBid(size);
    FirstStep(steps);
    BadSnapshot(p, size);
    KeptOne(d, true);
    AllArrived(EmptyBook(100), PriceChanges(cs), [d]);
    hide Emitted, Primary, Kept, SyncAt, PrimaryAfter, NothingMissed, LastSize, Diverges, EmptyBook;
    assert KeptUpAt(steps, 0) && !KeptUpAt(steps, 1);
    hide KeptUpAt;
    SecondDiverges(steps);
  }

  lemma {:induction false} SecondDiverges(steps: seq<Step>)
    requires WellFormed(steps) && |steps| > 1 && KeptUpAt(steps, 0) && !KeptUpAt(steps, 1)
    ensures SyncAt(steps, 1) && !SyncAt(steps, 2)
  {
    hide WellFormed, KeptUpAt, SyncAt;
    FirstSync(steps);
    SyncAtNext(steps, 1);
  }

  lemma {:induction false} BadSnapshot(p: Book, size: int)
    requires Shaped(p) && p.bbo.bestBid != INVALID_PRICE
    ensures var bad := BookSnapshot([Level(10001, size)], []);
            Emitted(p, bad, []) && Diverges(p, bad)
  {
    var all := AsChanges([Level(10001, size)], Bid) + AsChanges([], Ask);
    assert all[0] == Change(10001, Bid, size) && FirstError(all) == InvalidPrice;
  }
}
