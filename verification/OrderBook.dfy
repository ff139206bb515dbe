/**
 The order book as the engine runs it: the ladders are arrays updated in place, and the best bid and ask are
 cached and rescanned only when a change can have touched them.
 */
module OrderBook {
  import opened Common
  import opened BookModel

  class OrderBook {
    const bids: array<int>
    const asks: array<int>
    var bbo: Bbo
    var status: Status
    var tick: int

    ghost predicate Shaped() {
      bids.Length == LADDER_SIZE && asks.Length == LADDER_SIZE && bids != asks
    }

    ghost function Model(): Book
      reads this, bids, asks
    {
      Book(bids[..], asks[..], bbo, status, tick)
    }

    /** The cached best bid and ask agree with a full scan, on every reachable book. */
    ghost predicate Valid()
      reads this, bids, asks
    {
      Shaped() && Agrees(Model())
    }

    constructor ()
      ensures Valid() && Model() == EmptyBook(100) && fresh(bids) && fresh(asks)
    {
      bids := new int[LADDER_SIZE];
      asks := new int[LADDER_SIZE];
      bbo := Bbo(INVALID_PRICE, INVALID_PRICE, 0, 0);
      status, tick := Empty, 100;
      new;
      Clear();
    }

    method Clear()
      requires Shaped()
      modifies this, bids, asks
      ensures Valid() && Model() == EmptyBook(old(tick))
    {
      forall p | 0 <= p < bids.Length {
        bids[p] := 0;
      }
      forall p | 0 <= p < asks.Length {
        asks[p] := 0;
      }
      bbo := Bbo(INVALID_PRICE, INVALID_PRICE, 0, 0);
      status := Empty;
      assert bids[..] == NoLevels() && asks[..] == NoLevels();
      EmptyAgrees(tick);
    }

    /** Rescans both ladders from their best end. */
    method RecomputeBbo()
      requires Shaped()
      modifies `bbo
      ensures bbo == ScanBbo(bids[..], asks[..])
    {
      var bestBid, bidSize := INVALID_PRICE, 0;
      var p := PRICE_MAX;
      while p >= PRICE_MIN
        invariant -1 <= p <= PRICE_MAX && bestBid == INVALID_PRICE && bidSize == 0
        invariant forall q :: p < q < LADDER_SIZE ==> bids[q] <= 0
      {
        if bids[p] > 0 {
          bestBid, bidSize := p, bids[p];
          break;
        }
        p := p - 1;
      }
      BestBelowIff(bids[..], LADDER_SIZE, bestBid);

      var bestAsk, askSize := INVALID_PRICE, 0;
      p := PRICE_MIN;
      while p <= PRICE_MAX
        invariant 0 <= p <= LADDER_SIZE && bestAsk == INVALID_PRICE && askSize == 0
        invariant forall q :: 0 <= q < p ==> asks[q] <= 0
      {
        if asks[p] > 0 {
          bestAsk, askSize := p, asks[p];
          break;
        }
        p := p + 1;
      }
      BestFromIff(asks[..], 0, bestAsk);
      bbo := Bbo(bestBid, bestAsk, bidSize, askSize);
    }

    method RefreshStatus()
      modifies `status
      ensures status == StatusOf(bbo)
    {
      if bbo.bestBid != INVALID_PRICE && bbo.bestAsk != INVALID_PRICE {
        status := if bbo.bestBid >= bbo.bestAsk then Crossed else Live;
        return;
      }
      status := if bbo.bestBid != INVALID_PRICE || bbo.bestAsk != INVALID_PRICE then Live else Empty;
    }

    /** Writes one side of a snapshot, clearing the book again at the first bad level. */
    method LoadSide(levels: seq<Level>, side: Side) returns (error: Error)
      requires Shaped()
      modifies this, bids, asks
      ensures error == FirstError(AsChanges(levels, side))
      ensures !error.Ok? ==> Valid() && Model() == EmptyBook(old(tick))
      ensures error.Ok? ==>
                && AllValid(AsChanges(levels, side))
                && bids[..] == ApplySide(old(bids[..]), Bid, AsChanges(levels, side))
                && asks[..] == ApplySide(old(asks[..]), Ask, AsChanges(levels, side))
                && bbo == old(bbo) && status == old(status) && tick == old(tick)
    {
      ghost var cs := AsChanges(levels, side);
      var i := 0;
      while i < |levels|
        invariant 0 <= i <= |levels| && AllValid(cs[..i]) && FirstError(cs) == FirstError(cs[i..])
        invariant bids[..] == ApplySide(old(bids[..]), Bid, cs[..i])
        invariant asks[..] == ApplySide(old(asks[..]), Ask, cs[..i])
        invariant bbo == old(bbo) && status == old(status) && tick == old(tick)
      {
        var p, s := levels[i].price, levels[i].size;
        assert cs[i..][1..] == cs[i + 1..] && cs[i..][0] == Change(p, side, s);
        if p < PRICE_MIN || p > PRICE_MAX {
          Clear();
          return InvalidPrice;
        }
        if s < 0 {
          Clear();
          return NegativeQty;
        }
        StepSides(old(bids[..]), old(asks[..]), cs, i);
        if side.Bid? {
          bids[p] := s;
        } else {
          asks[p] := s;
        }
        i := i + 1;
      }
      assert cs[..i] == cs && cs[i..] == [];
      error := Ok;
    }

    method ApplySnapshot(bidLevels: seq<Level>, askLevels: seq<Level>) returns (error: Error)
      requires Shaped()
      modifies this, bids, asks
      ensures Valid() && Outcome(Model(), error) == Snapshot(old(Model()), bidLevels, askLevels)
    {
      Clear();
      ghost var bs, as_ := AsChanges(bidLevels, Bid), AsChanges(askLevels, Ask);
      FirstErrorAppend(bs, as_);
      error := LoadSide(bidLevels, Bid);
      if !error.Ok? {
        return;
      }
      error := LoadSide(askLevels, Ask);
      if !error.Ok? {
        return;
      }
      ApplySideAppend(NoLevels(), Bid, bs, as_);
      ApplySideAppend(NoLevels(), Ask, bs, as_);
      RecomputeBbo();
      RefreshStatus();
    }

    /** The validation pass: nothing is written while a later change may be bad. */
    static method Validate(cs: seq<Change>) returns (error: Error)
      ensures error == FirstError(cs)
    {
      var i := 0;
      while i < |cs|
        invariant 0 <= i <= |cs| && FirstError(cs) == FirstError(cs[i..])
      {
        assert cs[i..][1..] == cs[i + 1..];
        if cs[i].price < PRICE_MIN || cs[i].price > PRICE_MAX {
          return InvalidPrice;
        }
        if cs[i].size < 0 {
          return NegativeQty;
        }
        i := i + 1;
      }
      error := Ok;
    }

    /** A batch of changes.  The best bid and ask are rescanned only if a change lies at or beyond the cached best,
        measured before the batch, or empties a level. */
    method ApplyPriceChange(cs: seq<Change>) returns (error: Error)
      requires Valid()
      modifies this, bids, asks
      ensures Valid() && Outcome(Model(), error) == Update(old(Model()), cs)
    {
      error := Validate(cs);
      if !error.Ok? {
        return;
      }
      FirstErrorIff(cs);
      var touches := WriteChanges(cs);
      if touches {
        RecomputeBbo();
      } else {
        UntouchedScan(old(bids[..]), old(asks[..]), bids[..], asks[..], bbo);
      }
      RefreshStatus();
    }

    method WriteChanges(cs: seq<Change>) returns (touches: bool)
      requires Valid() && AllValid(cs)
      modifies bids, asks
      ensures bids[..] == ApplySide(old(bids[..]), Bid, cs) && asks[..] == ApplySide(old(asks[..]), Ask, cs)
      ensures !touches ==> Untouched(old(bids[..]), old(asks[..]), bids[..], asks[..], bbo)
    {
      touches := false;
      var i := 0;
      while i < |cs|
        invariant 0 <= i <= |cs|
        invariant bids[..] == ApplySide(old(bids[..]), Bid, cs[..i])
                && asks[..] == ApplySide(old(asks[..]), Ask, cs[..i])
        invariant !touches ==> Untouched(old(bids[..]), old(asks[..]), bids[..], asks[..], bbo)
      {
        var c := cs[i];
        StepSides(old(bids[..]), old(asks[..]), cs, i);
        var ladder := if c.side.Bid? then bids else asks;
        var oldSize := ladder[c.price];
        ladder[c.price] := c.size;
        if c.side.Bid? {
          if c.price >= bbo.bestBid || (oldSize > 0 && c.size == 0) {
            touches := true;
          }
        } else {
          if bbo.bestAsk == INVALID_PRICE || c.price <= bbo.bestAsk || (oldSize > 0 && c.size == 0) {
            touches := true;
          }
        }
        i := i + 1;
      }
      assert cs[..i] == cs;
    }

    method SetTickSize(ts: int)
      requires Valid()
      modifies `tick
      ensures Valid() && Model() == old(Model()).(tick := ts)
    {
      tick := ts;
    }

    method SetStatus(s: Status)
      requires Valid()
      modifies `status
      ensures Valid() && Model() == old(Model()).(status := s)
    {
      status := s;
    }
  }

  lemma {:induction false} EmptyAgrees(tick: int)
    ensures Agrees(EmptyBook(tick))
  {
    BestBelowIff(NoLevels(), LADDER_SIZE, INVALID_PRICE);
    BestFromIff(NoLevels(), 0, INVALID_PRICE);
  }

  /** No level at or beyond the best bid or ask differs between the two ladders. */
  ghost predicate Untouched(bids: seq<int>, asks: seq<int>, bids': seq<int>, asks': seq<int>, bbo: Bbo) {
    && |bids'| == |bids| && |asks'| == |asks|
    && (bids' != bids ==> bbo.bestBid != INVALID_PRICE)
    && (asks' != asks ==> bbo.bestAsk != INVALID_PRICE)
    && (forall p :: 0 <= p < |bids| && p >= bbo.bestBid ==> bids'[p] == bids[p])
    && (forall p :: 0 <= p < |asks| && p <= bbo.bestAsk ==> asks'[p] == asks[p])
  }

  lemma {:induction false} UntouchedScan(bids: seq<int>, asks: seq<int>, bids': seq<int>, asks': seq<int>, bbo: Bbo)
    requires bbo == ScanBbo(bids, asks) && Untouched(bids, asks, bids', asks', bbo)
    ensures bbo == ScanBbo(bids', asks')
  {
    BestBelowIff(bids, |bids|, bbo.bestBid);
    BestFromIff(asks, 0, bbo.bestAsk);
    BestBelowIff(bids', |bids'|, bbo.bestBid);
    BestFromIff(asks', 0, bbo.bestAsk);
  }

  /** One more change on both sides. */
  lemma {:induction false} StepSides(bids: seq<int>, asks: seq<int>, cs: seq<Change>, i: nat)
    requires |bids| == LADDER_SIZE && |asks| == LADDER_SIZE && i < |cs| && AllValid(cs[..i]) && ValidChange(cs[i])
    ensures AllValid(cs[..i + 1])
    ensures var c := cs[i];
            var b, a := ApplySide(bids, Bid, cs[..i]), ApplySide(asks, Ask, cs[..i]);
            && ApplySide(bids, Bid, cs[..i + 1]) == (if c.side.Bid? then b[c.price := c.size] else b)
            && ApplySide(asks, Ask, cs[..i + 1]) == (if c.side.Ask? then a[c.price := c.size] else a)
  {
    assert cs[..i + 1] == cs[..i] + [cs[i]];
    ApplySideAppend(bids, Bid, cs[..i], [cs[i]]);
    ApplySideAppend(asks, Ask, cs[..i], [cs[i]]);
  }

  lemma {:induction false} FirstErrorAppend(cs: seq<Change>, ds: seq<Change>)
    ensures FirstError(cs + ds) == if FirstError(cs).Ok? then FirstError(ds) else FirstError(cs)
  {
    if cs == [] {
      assert cs + ds == ds;
    } else {
      assert (cs + ds)[1..] == cs[1..] + ds;
      FirstErrorAppend(cs[1..], ds);
    }
  }
}
