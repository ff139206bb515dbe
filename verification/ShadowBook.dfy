/**
 The shadow books of the strategy thread, rebuilt from the deltas the market-data thread emits.
 */
module ShadowBook {
  import opened Common
  import opened BookModel

  const MAX_DELTA_CHANGES: nat := 64

  datatype Kind = Incremental | SnapshotBegin | SnapshotChunk | SnapshotEnd

  datatype Delta = Delta(kind: Kind, changes: seq<Change>, tick: int)

  /** One asset's shadow: the book and whether a snapshot is under way. */
  datatype Shadow = Shadow(book: Book, pending: bool)

  /** A book whose cache and status are those of its ladders. */
  ghost predicate Clean(b: Book) {
    Shaped(b) && b == Rebuilt(b.bids, b.asks, b.tick)
  }

  /** Changes are applied one at a time, and a bad one is skipped. */
  function ApplyEach(b: Book, cs: seq<Change>): (r: Book)
    requires Shaped(b)
    ensures Shaped(r)
    decreases cs
  {
    if cs == [] then b else ApplyEach(Update(b, [cs[0]]).book, cs[1..])
  }

  function ApplyDelta(s: Shadow, d: Delta): (r: Shadow)
    requires Shaped(s.book)
    ensures Shaped(r.book)
  {
    match d.kind
    case SnapshotBegin => Shadow(ApplyEach(EmptyBook(s.book.tick), d.changes), true)
    case SnapshotChunk => s.(book := ApplyEach(s.book, d.changes))
    case SnapshotEnd => Shadow(ApplyEach(s.book, d.changes), false)
    case Incremental =>
      s.(book := ApplyEach(if d.tick > 0 then s.book.(tick := d.tick) else s.book, d.changes))
  }

  function ApplyDeltas(s: Shadow, ds: seq<Delta>): (r: Shadow)
    requires Shaped(s.book)
    ensures Shaped(r.book)
  {
    if ds == [] then s else ApplyDelta(ApplyDeltas(s, ds[..|ds| - 1]), ds[|ds| - 1])
  }

  lemma {:induction false} NextDelta(ds: seq<Delta>, d: Delta)
    ensures var s := Shadow(EmptyBook(100), false);
            ApplyDeltas(s, ds + [d]) == ApplyDelta(ApplyDeltas(s, ds), d)
  {
    assert (ds + [d])[..|ds|] == ds;
  }

  // ---------------------------------------------------------------------------
  // The store
  // ---------------------------------------------------------------------------

  class StrategyBookStore {
    var books: map<AssetId, Book>
    var pending: set<AssetId>
    ghost var heard: map<AssetId, seq<Delta>>  // every message of each asset since it was seeded

    /** Each shadow is what its messages make of an empty book. */
    ghost predicate Valid()
      reads this
    {
      && heard.Keys == books.Keys && pending <= books.Keys
      && (forall a :: a in books ==>
          Shadow(books[a], a in pending) == ApplyDeltas(Shadow(EmptyBook(100), false), heard[a]))
    }

    constructor ()
      ensures Valid() && heard == map[]
    {
      books, pending, heard := map[], {}, map[];
    }

    method Seed(a: AssetId)
      requires Valid()
      modifies this
      ensures Valid() && pending == old(pending)
      ensures heard == if a in old(heard) then old(heard) else old(heard)[a := []]
    {
      if a !in books {
        books, heard := books[a := EmptyBook(100)], heard[a := []];
      }
    }

    /** Messages of unknown assets are ignored; a known asset's shadow moves by `ApplyDelta`, and no other asset moves.
        */
    method Apply(a: AssetId, d: Delta)
      requires Valid()
      modifies this
      ensures Valid() && heard == if a in old(heard) then old(heard)[a := old(heard)[a] + [d]] else old(heard)
      ensures a !in old(books) ==> books == old(books) && pending == old(pending)
      ensures a in old(books) ==>
                var r := ApplyDelta(Shadow(old(books)[a], a in old(pending)), d);
                && books == old(books)[a := r.book]
                && pending == if r.pending then old(pending) + {a} else old(pending) - {a}
    {
      hide ApplyEach, ApplyDelta, ApplyDeltas, EmptyBook, Shaped;
      if a !in books {
        return;
      }
      NextDelta(heard[a], d);
      var shadow := ApplyTo(Shadow(books[a], a in pending), d);
      books := books[a := shadow.book];
      pending := if shadow.pending then pending + {a} else pending - {a};
      heard := heard[a := heard[a] + [d]];
    }

    /** One message, for one asset. */
    static method ApplyTo(start: Shadow, d: Delta) returns (shadow: Shadow)
      requires Shaped(start.book)
      ensures shadow == ApplyDelta(start, d)
    {
      hide ApplyEach;
      var book, pending := start.book, start.pending;
      match d.kind {
        case SnapshotBegin =>
          book := EmptyBook(book.tick);
          pending := true;
          book := ApplyLoop(book, d.changes);
        case SnapshotChunk =>
          book := ApplyLoop(book, d.changes);
        case SnapshotEnd =>
          book := ApplyLoop(book, d.changes);
          pending := false;
        case Incremental =>
          if d.tick > 0 {
            book := book.(tick := d.tick);
          }
          book := ApplyLoop(book, d.changes);
      }
      shadow := Shadow(book, pending);
    }

    /** The per-change loop, each change a batch of one. */
    static method ApplyLoop(start: Book, cs: seq<Change>) returns (book: Book)
      requires Shaped(start)
      ensures book == ApplyEach(start, cs)
    {
      book := start;
      var i := 0;
      while i < |cs|
        invariant 0 <= i <= |cs| && Shaped(book) && ApplyEach(start, cs) == ApplyEach(book, cs[i..])
      {
        assert cs[i..][1..] == cs[i + 1..];
        book := Update(book, [cs[i]]).book;
        i := i + 1;
      }
    }

    /** A book may be used exactly when the asset was seeded and, of all the messages heard for it, the last snapshot
        marker is not a BEGIN. */
    method IsBookValid(a: AssetId) returns (valid: bool)
      requires Valid()
      ensures valid <==> a in heard && !SnapshotOpen(heard[a])
    {
      if a !in books {
        return false;
      }
      PendingIff(EmptyBook(100), heard[a]);
      return a !in pending;
    }
  }

  // ---------------------------------------------------------------------------
  // One change at a time equals the batch
  // ---------------------------------------------------------------------------

  lemma {:induction false} RebuiltIsClean(bids: seq<int>, asks: seq<int>, tick: int)
    requires |bids| == LADDER_SIZE && |asks| == LADDER_SIZE
    ensures Clean(Rebuilt(bids, asks, tick))
  {
  }

  lemma {:induction false} EmptyIsClean(tick: int)
    ensures Clean(EmptyBook(tick))
  {
    BestBelowIff(NoLevels(), LADDER_SIZE, INVALID_PRICE);
    BestFromIff(NoLevels(), 0, INVALID_PRICE);
  }

  /** For good changes, one at a time gives the ladders, the best bid and ask and the status of the batch. */
  lemma {:induction false} EachIsBatch(b: Book, cs: seq<Change>)
    requires Clean(b) && AllValid(cs)
    ensures ApplyEach(b, cs) == Rebuilt(ApplySide(b.bids, Bid, cs), ApplySide(b.asks, Ask, cs), b.tick)
    ensures ApplyEach(b, cs) == Update(b, cs).book && Update(b, cs).error.Ok?
    decreases cs
  {
    FirstErrorIff(cs);
    if cs != [] {
      OneChange(b, cs[0]);
      EachIsBatch(Update(b, [cs[0]]).book, cs[1..]);
    }
  }

  lemma {:induction false} OneChange(b: Book, c: Change)
    requires Shaped(b) && ValidChange(c)
    ensures var r := Update(b, [c]).book;
            && Clean(r) && r.tick == b.tick
            && r.bids == (if c.side.Bid? then b.bids[c.price := c.size] else b.bids)
            && r.asks == (if c.side.Ask? then b.asks[c.price := c.size] else b.asks)
  {
    assert [c][1..] == [] && FirstError([]) == Ok;
    assert ApplySide(b.bids, Bid, [c]) == ApplySide(if c.side.Bid? then b.bids[c.price := c.size] else b.bids, Bid, []);
    assert ApplySide(b.asks, Ask, [c]) == ApplySide(if c.side.Ask? then b.asks[c.price := c.size] else b.asks, Ask, []);
  }

  lemma {:induction false} EachAppend(b: Book, cs: seq<Change>, ds: seq<Change>)
    requires Shaped(b)
    ensures ApplyEach(b, cs + ds) == ApplyEach(ApplyEach(b, cs), ds)
    decreases cs
  {
    if cs == [] {
      assert cs + ds == ds;
    } else {
      assert (cs + ds)[1..] == cs[1..] + ds;
      EachAppend(Update(b, [cs[0]]).book, cs[1..], ds);
    }
  }

  function OfSide(cs: seq<Change>, side: Side): seq<Change> {
    if cs == [] then [] else (if cs[0].side == side then [cs[0]] else []) + OfSide(cs[1..], side)
  }

  /** A ladder depends only on its own side's changes, in their order. */
  lemma {:induction false} SidesAreIndependent(l: seq<int>, side: Side, cs: seq<Change>)
    requires |l| == LADDER_SIZE && AllValid(cs)
    ensures AllValid(OfSide(cs, side)) && ApplySide(l, side, OfSide(cs, side)) == ApplySide(l, side, cs)
    decreases cs
  {
    if cs != [] {
      var l1 := if cs[0].side == side then l[cs[0].price := cs[0].size] else l;
      SidesAreIndependent(l1, side, cs[1..]);
      if cs[0].side == side {
        assert OfSide(cs, side)[1..] == OfSide(cs[1..], side);
      } else {
        assert OfSide(cs, side) == OfSide(cs[1..], side);
      }
    }
  }

  lemma {:induction false} OfSideAsChanges(bids: seq<Level>, asks: seq<Level>)
    ensures OfSide(AsChanges(bids, Bid) + AsChanges(asks, Ask), Bid) == AsChanges(bids, Bid)
    ensures OfSide(AsChanges(bids, Bid) + AsChanges(asks, Ask), Ask) == AsChanges(asks, Ask)
  {
    OfSideAppend(AsChanges(bids, Bid), AsChanges(asks, Ask));
    OneSided(bids, Bid);
    OneSided(asks, Ask);
  }

  lemma {:induction false} OneSided(levels: seq<Level>, side: Side)
    ensures OfSide(AsChanges(levels, side), side) == AsChanges(levels, side)
    ensures OfSide(AsChanges(levels, side), if side.Bid? then Ask else Bid) == []
  {
    if levels != [] {
      OneSided(levels[1..], side);
      assert AsChanges(levels, side)[1..] == AsChanges(levels[1..], side);
    }
  }

  lemma {:induction false} OfSideAppend(cs: seq<Change>, ds: seq<Change>)
    ensures OfSide(cs + ds, Bid) == OfSide(cs, Bid) + OfSide(ds, Bid)
    ensures OfSide(cs + ds, Ask) == OfSide(cs, Ask) + OfSide(ds, Ask)
  {
    if cs == [] {
      assert cs + ds == ds;
    } else {
      assert (cs + ds)[1..] == cs[1..] + ds;
      OfSideAppend(cs[1..], ds);
    }
  }

  // ---------------------------------------------------------------------------
  // A snapshot in pieces
  // ---------------------------------------------------------------------------

  /** BEGIN, any number of CHUNKs, END. */
  ghost predicate IsSnapshotSplit(ds: seq<Delta>) {
    && |ds| >= 2 && ds[0].kind.SnapshotBegin? && ds[|ds| - 1].kind.SnapshotEnd?
    && forall i :: 0 < i < |ds| - 1 ==> ds[i].kind.SnapshotChunk?
  }

  function AllChanges(ds: seq<Delta>): seq<Change> {
    if ds == [] then [] else AllChanges(ds[..|ds| - 1]) + ds[|ds| - 1].changes
  }

  lemma {:induction false} ChunksAccumulate(s: Shadow, ds: seq<Delta>)
    requires Shaped(s.book) && ds != [] && ds[0].kind.SnapshotBegin?
    requires forall i :: 0 < i < |ds| ==> ds[i].kind.SnapshotChunk?
    ensures ApplyDeltas(s, ds) == Shadow(ApplyEach(EmptyBook(s.book.tick), AllChanges(ds)), true)
  {
    var front, last := ds[..|ds| - 1], ds[|ds| - 1];
    if front == [] {
      assert AllChanges(ds) == last.changes;
    } else {
      ChunksAccumulate(s, front);
      EachAppend(EmptyBook(s.book.tick), AllChanges(front), last.changes);
    }
  }

  /** However a snapshot is cut into BEGIN, CHUNKs and END, and however the two sides are interleaved, the shadow ends
      up equal to the book `apply_snapshot` builds, and no longer pending. */
  lemma {:induction false} SnapshotInPieces(s: Shadow, ds: seq<Delta>, bids: seq<Level>, asks: seq<Level>)
    requires Shaped(s.book) && IsSnapshotSplit(ds)
    requires OfSide(AllChanges(ds), Bid) == AsChanges(bids, Bid) && OfSide(AllChanges(ds), Ask) == AsChanges(asks, Ask)
    requires Snapshot(s.book, bids, asks).error.Ok?
    ensures ApplyDeltas(s, ds) == Shadow(Snapshot(s.book, bids, asks).book, false)
  {
    var front, last := ds[..|ds| - 1], ds[|ds| - 1];
    var cs, whole := AllChanges(ds), AsChanges(bids, Bid) + AsChanges(asks, Ask);
    var empty := EmptyBook(s.book.tick);
    ChunksAccumulate(s, front);
    EachAppend(empty, AllChanges(front), last.changes);
    FirstErrorIff(whole);
    OfSideAsChanges(bids, asks);
    SidesValid(cs, whole);
    EmptyIsClean(s.book.tick);
    EachIsBatch(empty, cs);
    SidesAreIndependent(NoLevels(), Bid, cs);
    SidesAreIndependent(NoLevels(), Ask, cs);
    SidesAreIndependent(NoLevels(), Bid, whole);
    SidesAreIndependent(NoLevels(), Ask, whole);
  }

  lemma {:induction false} SidesValid(cs: seq<Change>, ds: seq<Change>)
    requires AllValid(ds) && OfSide(cs, Bid) == OfSide(ds, Bid) && OfSide(cs, Ask) == OfSide(ds, Ask)
    ensures AllValid(cs)
  {
    OfSideMembers(cs);
    OfSideMembers(ds);
    forall i | 0 <= i < |cs|
      ensures ValidChange(cs[i])
    {
      assert cs[i] in OfSide(cs, cs[i].side);
      assert cs[i] in ds;
    }
  }

  lemma {:induction false} OfSideMembers(cs: seq<Change>)
    ensures forall c :: c in cs <==> c in OfSide(cs, c.side)
  {
    if cs != [] {
      OfSideMembers(cs[1..]);
      assert forall c :: c in cs <==> c == cs[0] || c in cs[1..];
    }
  }

  /** The shadow is pending exactly when the last snapshot marker in its history is a BEGIN. */
  ghost predicate SnapshotOpen(ds: seq<Delta>) {
    ds != [] &&
    match ds[|ds| - 1].kind
    case SnapshotBegin => true
    case SnapshotEnd => false
    case _ => SnapshotOpen(ds[..|ds| - 1])
  }

  lemma {:induction false} PendingIff(b: Book, ds: seq<Delta>)
    requires Shaped(b)
    ensures ApplyDeltas(Shadow(b, false), ds).pending <==> SnapshotOpen(ds)
  {
    if ds != [] {
      PendingIff(b, ds[..|ds| - 1]);
    }
  }
}
