/**
 The sliding window of the rate limiter: ten one-second buckets in a ring, advanced lazily by the
 clock of each call.  On values a window is the list of its bucket counts by age, youngest first.
 */
module RateWindow {
  import opened Common

  const NUM_BUCKETS: nat := 10
  const BUCKET_MS: int := 1000
  const NS_PER_MS: int := 1000000

  /** Nanoseconds to milliseconds, as C++ integer division does it. */
  function Ms(ns: int): int {
    TruncDiv(ns, NS_PER_MS)
  }

  function Sum(xs: seq<int>): int {
    if xs == [] then 0 else xs[0] + Sum(xs[1..])
  }

  function Zeros(n: nat): seq<int> {
    seq(n, _ => 0)
  }

  /** `ages[k]` is the number of grants in the bucket that is `k` advances old. */
  datatype Window = Window(limit: int, ages: seq<int>, last: int)

  function Fresh(limit: int): Window {
    Window(limit, Zeros(NUM_BUCKETS), 0)
  }

  /** The first call only starts the clock; later calls age the buckets by whole elapsed seconds. */
  function Slide(w: Window, now: int): Window
    requires |w.ages| == NUM_BUCKETS
  {
    if w.last == 0 then w.(last := now)
    else
      var k := TruncDiv(Ms(now) - Ms(w.last), BUCKET_MS);
      if k <= 0 then w
      else if k >= NUM_BUCKETS then Window(w.limit, Zeros(NUM_BUCKETS), now)
      else Window(w.limit, Zeros(k) + w.ages[..NUM_BUCKETS - k], now)
  }

  /** One request: granted, and counted in the youngest bucket, while the window holds fewer than the limit. */
  function Consume(w: Window, now: int): (Window, bool)
    requires |w.ages| == NUM_BUCKETS
  {
    var s := Slide(w, now);
    if Sum(s.ages) >= s.limit then (s, false) else (s.(ages := s.ages[0 := s.ages[0] + 1]), true)
  }

  /** A window after a sequence of calls, with the times at which it granted. */
  datatype History = History(window: Window, log: seq<int>)

  function Run(limit: int, calls: seq<int>): (h: History)
    ensures |h.window.ages| == NUM_BUCKETS
  {
    if calls == [] then History(Fresh(limit), [])
    else
      var h := Run(limit, calls[..|calls| - 1]);
      var now := calls[|calls| - 1];
      var (w, granted) := Consume(h.window, now);
      History(w, if granted then h.log + [now] else h.log)
  }

  // ---------------------------------------------------------------------------
  // The invariant: where the grants of each age can lie in time
  // ---------------------------------------------------------------------------

  ghost predicate Sorted(ts: seq<int>) {
    forall i, j :: 0 <= i <= j < |ts| ==> ts[i] <= ts[j]
  }

  /** All but the last `n` grants are at or before `bound` milliseconds. */
  ghost predicate OlderBy(log: seq<int>, n: int, bound: int) {
    forall i :: 0 <= i < |log| && i < |log| - n ==> Ms(log[i]) <= bound
  }

  /** The counts are non-negative, count the most recent grants, and a grant that is no longer in the
      youngest `k` buckets was made at least `k` seconds, less the 999 ms it may lie inside its bucket,
      before the last advance. */
  ghost predicate Inv(w: Window, log: seq<int>) {
    && |w.ages| == NUM_BUCKETS
    && (forall k :: 0 <= k < NUM_BUCKETS ==> w.ages[k] >= 0)
    && Sum(w.ages) <= |log|
    && (forall k :: 0 <= k <= NUM_BUCKETS ==> OlderBy(log, Sum(w.ages[..k]), Ms(w.last) - BUCKET_MS * k + 999))
  }

  lemma {:induction false} SumAppend(xs: seq<int>, ys: seq<int>)
    ensures Sum(xs + ys) == Sum(xs) + Sum(ys)
  {
    if xs == [] {
      assert xs + ys == ys;
    } else {
      assert (xs + ys)[1..] == xs[1..] + ys;
      SumAppend(xs[1..], ys);
    }
  }

  lemma {:induction false} SumZeros(n: nat)
    ensures Sum(Zeros(n)) == 0
  {
    if n > 0 {
      assert Zeros(n)[1..] == Zeros(n - 1);
      SumZeros(n - 1);
    }
  }

  lemma {:induction false} SumNonNegative(xs: seq<int>)
    requires forall k :: 0 <= k < |xs| ==> xs[k] >= 0
    ensures Sum(xs) >= 0
  {
    if xs != [] {
      SumNonNegative(xs[1..]);
    }
  }

  lemma MsMonotone(a: int, b: int)
    requires a <= b
    ensures Ms(a) <= Ms(b)
  {
  }

  /** Aging by `k` buckets: the young prefix sums are zero, the older ones shift. */
  lemma {:induction false} AgedPrefix(ages: seq<int>, k: nat, j: nat)
    requires |ages| == NUM_BUCKETS && k < NUM_BUCKETS && j <= NUM_BUCKETS
    ensures var aged := Zeros(k) + ages[..NUM_BUCKETS - k];
            |aged| == NUM_BUCKETS && Sum(aged[..j]) == if j <= k then 0 else Sum(ages[..j - k])
  {
    var aged := Zeros(k) + ages[..NUM_BUCKETS - k];
    if j <= k {
      assert aged[..j] == Zeros(j);
      SumZeros(j);
    } else {
      assert aged[..j] == Zeros(k) + ages[..j - k];
      SumZeros(k);
      SumAppend(Zeros(k), ages[..j - k]);
    }
  }

  lemma {:induction false} SlideKeepsInv(w: Window, log: seq<int>, now: int)
    requires Inv(w, log) && ClockAt(w, log, now)
    ensures Inv(Slide(w, now), log)
    ensures Ms(now) <= Ms(Slide(w, now).last) + 999 && Slide(w, now).last <= now
  {
    var s := Slide(w, now);
    if log != [] {
      MsMonotone(w.last, now);
    }
    var k := TruncDiv(Ms(now) - Ms(w.last), BUCKET_MS);
    if w.last == 0 || k <= 0 {
      assert s.ages == w.ages;
      forall j | 0 <= j <= NUM_BUCKETS
        ensures OlderBy(log, Sum(s.ages[..j]), Ms(s.last) - BUCKET_MS * j + 999)
      {
        assert OlderBy(log, Sum(w.ages[..j]), Ms(w.last) - BUCKET_MS * j + 999);
      }
    } else if k >= NUM_BUCKETS {
      forall j | 0 <= j <= NUM_BUCKETS
        ensures Sum(s.ages[..j]) == 0 && OlderBy(log, Sum(s.ages[..j]), Ms(s.last) - BUCKET_MS * j + 999)
      {
        assert s.ages[..j] == Zeros(j);
        SumZeros(j);
        assert w.ages[..0] == [];
        assert OlderBy(log, Sum(w.ages[..0]), Ms(w.last) - BUCKET_MS * 0 + 999);
      }
      assert s.ages[..NUM_BUCKETS] == s.ages;
    } else {
      SlideAges(w, log, now, k);
    }
  }

  lemma {:induction false} SlideAges(w: Window, log: seq<int>, now: int, k: nat)
    requires Inv(w, log) && 0 < k < NUM_BUCKETS && Ms(now) - Ms(w.last) >= BUCKET_MS * k
    ensures Inv(Window(w.limit, Zeros(k) + w.ages[..NUM_BUCKETS - k], now), log)
  {
    var aged := Zeros(k) + w.ages[..NUM_BUCKETS - k];
    forall j | 0 <= j <= NUM_BUCKETS
      ensures OlderBy(log, Sum(aged[..j]), Ms(now) - BUCKET_MS * j + 999)
    {
      AgedPrefix(w.ages, k, j);
      var from := if j <= k then 0 else j - k;
      assert w.ages[..0] == [];
      assert OlderBy(log, Sum(w.ages[..from]), Ms(w.last) - BUCKET_MS * from + 999);
    }
    AgedPrefix(w.ages, k, NUM_BUCKETS);
    assert aged[..NUM_BUCKETS] == aged;
    assert w.ages == w.ages[..NUM_BUCKETS - k] + w.ages[NUM_BUCKETS - k..];
    SumAppend(w.ages[..NUM_BUCKETS - k], w.ages[NUM_BUCKETS - k..]);
    SumNonNegative(w.ages[NUM_BUCKETS - k..]);
  }

  lemma {:induction false} GrantKeepsInv(w: Window, log: seq<int>, now: int)
    requires Inv(w, log) && Ms(now) <= Ms(w.last) + 999
    ensures Inv(w.(ages := w.ages[0 := w.ages[0] + 1]), log + [now])
  {
    var more := w.ages[0 := w.ages[0] + 1];
    forall k | 0 <= k <= NUM_BUCKETS
      ensures OlderBy(log + [now], Sum(more[..k]), Ms(w.last) - BUCKET_MS * k + 999)
      ensures k == NUM_BUCKETS ==> Sum(more) == Sum(w.ages) + 1
    {
      assert OlderBy(log, Sum(w.ages[..k]), Ms(w.last) - BUCKET_MS * k + 999);
      if k == 0 {
        assert more[..k] == [] && w.ages[..k] == [];
      } else {
        assert more[..k][1..] == w.ages[..k][1..];
        assert Sum(more[..k]) == Sum(w.ages[..k]) + 1;
        SumNonNegative(w.ages[..k]);
        assert more[..NUM_BUCKETS] == more && w.ages[..NUM_BUCKETS] == w.ages;
      }
    }
  }

  // ---------------------------------------------------------------------------
  // The bound
  // ---------------------------------------------------------------------------

  /** The number of grants whose time, in whole milliseconds, lies in the closed interval. */
  function Count(log: seq<int>, lo: int, hi: int): nat {
    if log == [] then 0
    else
      var t := Ms(log[|log| - 1]);
      (if lo <= t <= hi then 1 else 0) + Count(log[..|log| - 1], lo, hi)
  }

  lemma {:induction false} CountRecent(log: seq<int>, n: int, lo: int, hi: int)
    requires 0 <= n <= |log| && OlderBy(log, n, lo - 1)
    ensures Count(log, lo, hi) <= n
  {
    if log != [] {
      var prefix := log[..|log| - 1];
      assert prefix == log[..|prefix|];
      if n == 0 {
        assert Ms(log[|log| - 1]) <= lo - 1;
        CountRecent(prefix, 0, lo, hi);
      } else {
        CountRecent(prefix, n - 1, lo, hi);
      }
    }
  }

  /** Nine seconds: the ten-second window less the second a grant may lie inside its bucket. */
  const GUARANTEED_MS: int := 9000

  ghost predicate Bounded(log: seq<int>, limit: int) {
    forall lo, hi :: hi - lo <= GUARANTEED_MS ==> Count(log, lo, hi) <= Max(limit, 0)
  }

  lemma {:induction false} GrantKeepsBound(w: Window, log: seq<int>, now: int)
    requires Inv(w, log) && Bounded(log, w.limit) && Sum(w.ages) < w.limit && w.last <= now
    ensures Bounded(log + [now], w.limit)
  {
    forall lo, hi | hi - lo <= GUARANTEED_MS
      ensures Count(log + [now], lo, hi) <= Max(w.limit, 0)
    {
      assert (log + [now])[..|log|] == log;
      if lo <= Ms(now) <= hi {
        MsMonotone(w.last, now);
        assert w.ages[..NUM_BUCKETS] == w.ages;
        assert OlderBy(log, Sum(w.ages[..NUM_BUCKETS]), Ms(w.last) - BUCKET_MS * NUM_BUCKETS + 999);
        SumNonNegative(w.ages);
        CountRecent(log, Sum(w.ages), lo, hi);
      }
    }
  }

  /** The clock has not gone back since the window last advanced. */
  ghost predicate ClockAt(w: Window, log: seq<int>, now: int) {
    (w.last == 0 || w.last <= now) && (log != [] ==> w.last <= now)
  }

  lemma {:induction false} ConsumeKeeps(w: Window, log: seq<int>, now: int)
    requires Inv(w, log) && Bounded(log, w.limit) && ClockAt(w, log, now)
    ensures var (w', granted) := Consume(w, now);
            var log' := if granted then log + [now] else log;
            Inv(w', log') && Bounded(log', w.limit) && w'.limit == w.limit && w'.last <= now
  {
    SlideKeepsInv(w, log, now);
    var s := Slide(w, now);
    if Sum(s.ages) < s.limit {
      GrantKeepsInv(s, log, now);
      GrantKeepsBound(s, log, now);
    }
  }

  lemma {:induction false} RunKeeps(limit: int, calls: seq<int>)
    requires Sorted(calls)
    ensures var h := Run(limit, calls);
            && Inv(h.window, h.log) && Bounded(h.log, limit) && h.window.limit == limit
            && (forall now :: (calls == [] || calls[|calls| - 1] <= now) ==> ClockAt(h.window, h.log, now))
  {
    if calls == [] {
      assert forall k :: 0 <= k <= NUM_BUCKETS ==> Zeros(NUM_BUCKETS)[..k] == Zeros(k);
      forall k | 0 <= k <= NUM_BUCKETS
        ensures Sum(Zeros(NUM_BUCKETS)[..k]) == 0
      {
        SumZeros(k);
      }
      assert Zeros(NUM_BUCKETS)[..NUM_BUCKETS] == Zeros(NUM_BUCKETS);
    } else {
      var before := calls[..|calls| - 1];
      RunKeeps(limit, before);
      ConsumeKeeps(Run(limit, before).window, Run(limit, before).log, calls[|calls| - 1]);
    }
  }

  /** For a clock that never goes back, no closed interval of nine seconds holds more grants than the limit. */
  lemma {:induction false} WindowBound(limit: int, calls: seq<int>, lo: int, hi: int)
    requires Sorted(calls) && hi - lo <= GUARANTEED_MS
    ensures Count(Run(limit, calls).log, lo, hi) <= Max(limit, 0)
  {
    RunKeeps(limit, calls);
  }

  // ---------------------------------------------------------------------------
  // The bound is exact
  // ---------------------------------------------------------------------------

  /** Whatever the calls, as long as the clock never goes back, no closed interval of this length holds more grants than
      the limit. */
  ghost predicate Guarantees(limit: int, span: int) {
    forall calls, lo, hi :: Sorted(calls) && hi - lo <= span ==> Count(Run(limit, calls).log, lo, hi) <= Max(limit, 0)
  }

  /** Counts that are all in one bucket. */
  function Only(k: nat, n: int): seq<int>
    requires k < NUM_BUCKETS
  {
    Zeros(NUM_BUCKETS)[k := n]
  }

  lemma {:induction false} SumOnly(k: nat, n: int)
    requires k < NUM_BUCKETS
    ensures Sum(Only(k, n)) == n
  {
    var z := Only(k, n);
    assert z == Zeros(k) + ([n] + Zeros(NUM_BUCKETS - k - 1));
    SumAppend(Zeros(k), [n] + Zeros(NUM_BUCKETS - k - 1));
    SumAppend([n], Zeros(NUM_BUCKETS - k - 1));
    SumZeros(k);
    SumZeros(NUM_BUCKETS - k - 1);
    assert [n][1..] == [] && Sum([n]) == n;
  }

  function Times(t: int, n: nat): seq<int> {
    seq(n, _ => t)
  }

  lemma {:induction false} NoLimitNoGrants(limit: int, calls: seq<int>)
    requires limit <= 0 && Sorted(calls)
    ensures Run(limit, calls).log == []
  {
    if calls != [] {
      var before, now := calls[..|calls| - 1], calls[|calls| - 1];
      NoLimitNoGrants(limit, before);
      RunKeeps(limit, before);
      var w := Run(limit, before).window;
      SlideKeepsInv(w, [], now);
      SumNonNegative(Slide(w, now).ages);
    }
  }

  // With a limit of one a call is granted only in the instant in which the window becomes empty.

  /** Every grant is ten seconds after the one before. */
  ghost predicate Spaced(log: seq<int>) {
    forall i, j :: 0 <= i < j < |log| ==> Ms(log[i]) + BUCKET_MS * NUM_BUCKETS <= Ms(log[j])
  }

  /** The one grant that the window holds, and its age. */
  ghost predicate HoldsOne(w: Window, t: int, k: nat) {
    k < NUM_BUCKETS && w.ages == Only(k, 1) && Ms(w.last) >= Ms(t) + BUCKET_MS * k
  }

  ghost predicate HoldsSome(w: Window, t: int) {
    exists k :: HoldsOne(w, t, k)
  }

  lemma {:induction false} SlideOne(w: Window, t: int, now: int)
    requires HoldsSome(w, t) && w.last <= now
    ensures var s := Slide(w, now);
            && s.limit == w.limit && s.last <= now
            && (HoldsSome(s, t)
                || (s.ages == Zeros(NUM_BUCKETS) && s.last == now && Ms(now) >= Ms(t) + BUCKET_MS * NUM_BUCKETS))
  {
    var k: nat :| HoldsOne(w, t, k);
    MsMonotone(w.last, now);
    var s := Slide(w, now);
    var j := TruncDiv(Ms(now) - Ms(w.last), BUCKET_MS);
    if w.last == 0 || j <= 0 {
      assert HoldsOne(s, t, k);
    } else if j < NUM_BUCKETS {
      if k + j < NUM_BUCKETS {
        assert s.ages == Only(k + j, 1);
        assert HoldsOne(s, t, k + j);
      } else {
        assert s.ages == Zeros(NUM_BUCKETS);
      }
    }
  }

  lemma {:induction false} HeldIsFull(w: Window, t: int)
    requires HoldsSome(w, t)
    ensures |w.ages| == NUM_BUCKETS && Sum(w.ages) == 1
  {
    var k: nat :| HoldsOne(w, t, k);
    SumOnly(k, 1);
  }

  /** A call on a window that holds its one grant is refused, or granted ten seconds after that grant. */
  lemma {:induction false} ConsumeOne(w: Window, t: int, now: int)
    requires HoldsSome(w, t) && w.last <= now && w.limit == 1 && |w.ages| == NUM_BUCKETS
    ensures var (r, granted) := Consume(w, now);
            && r.limit == 1 && r.last <= now && HoldsSome(r, if granted then now else t)
            && (granted ==> Ms(now) >= Ms(t) + BUCKET_MS * NUM_BUCKETS)
  {
    SlideOne(w, t, now);
    var s := Slide(w, now);
    SumZeros(NUM_BUCKETS);
    if HoldsSome(s, t) {
      HeldIsFull(s, t);
    } else {
      assert HoldsOne(s.(ages := Only(0, 1)), now, 0);
      assert s.ages[0 := s.ages[0] + 1] == Only(0, 1);
    }
  }

  lemma {:induction false} ConsumeFirst(limit: int, now: int)
    requires limit > 0
    ensures Consume(Fresh(limit), now) == (Window(limit, Only(0, 1), now), true)
  {
    SumZeros(NUM_BUCKETS);
    assert Zeros(NUM_BUCKETS)[0 := 1] == Only(0, 1);
  }

  lemma {:induction false} OneAtATime(calls: seq<int>)
    requires Sorted(calls) && calls != []
    ensures var h := Run(1, calls);
            && h.log != [] && Spaced(h.log) && h.window.limit == 1 && h.window.last <= calls[|calls| - 1]
            && HoldsSome(h.window, h.log[|h.log| - 1])
  {
    var before, now := calls[..|calls| - 1], calls[|calls| - 1];
    assert calls == before + [now];
    RunStep(1, before, now);
    var h := Run(1, before);
    if before == [] {
      ConsumeFirst(1, now);
      assert Run(1, []) == History(Fresh(1), []);
      assert HoldsOne(Window(1, Only(0, 1), now), now, 0);
      hide Run, Consume;
    } else {
      OneAtATime(before);
      var t := h.log[|h.log| - 1];
      ConsumeOne(h.window, t, now);
      hide Run, Consume, HoldsSome;
      assert forall i :: 0 <= i < |h.log| ==> Ms(h.log[i]) <= Ms(t);
    }
  }

  lemma {:induction false} SpacedCount(log: seq<int>, lo: int, hi: int)
    requires Spaced(log) && hi - lo < BUCKET_MS * NUM_BUCKETS
    ensures Count(log, lo, hi) <= 1
  {
    if log != [] {
      var front := log[..|log| - 1];
      if lo <= Ms(log[|log| - 1]) <= hi {
        assert OlderBy(front, 0, lo - 1);
        CountRecent(front, 0, lo, hi);
      } else {
        SpacedCount(front, lo, hi);
      }
    }
  }

  // With any limit, a call, the rest of the limit 999 ms later and the limit again ten seconds after the first call.

  lemma {:induction false} ConsumeAgain(limit: int, x: nat, last: int, t: int)
    requires last != 0 && 0 <= Ms(t) - Ms(last) < BUCKET_MS && x < limit
    ensures Consume(Window(limit, Only(0, x), last), t) == (Window(limit, Only(0, x + 1), last), true)
  {
    SumOnly(0, x);
    assert Only(0, x)[0 := x + 1] == Only(0, x + 1);
  }

  /** Calls in one instant are granted while the youngest bucket has room for them. */
  lemma {:induction false} RunTimes(limit: int, calls: seq<int>, t: int, m: nat, x: nat, last: int)
    requires Run(limit, calls).window == Window(limit, Only(0, x), last) && last != 0
    requires 0 <= Ms(t) - Ms(last) < BUCKET_MS && x + m <= limit
    ensures Run(limit, calls + Times(t, m))
            == History(Window(limit, Only(0, x + m), last), Run(limit, calls).log + Times(t, m))
  {
    hide Run, Consume, Only, Ms;
    var log := Run(limit, calls).log;
    if m == 0 {
      assert calls + Times(t, 0) == calls && log + Times(t, 0) == log;
    } else {
      RunTimes(limit, calls, t, m - 1, x, last);
      assert Times(t, m) == Times(t, m - 1) + [t];
      hide Times;
      assert calls + Times(t, m) == calls + Times(t, m - 1) + [t];
      assert log + Times(t, m) == log + Times(t, m - 1) + [t];
      RunStep(limit, calls + Times(t, m - 1), t);
      ConsumeAgain(limit, x + m - 1, last, t);
    }
  }

  function Burst(limit: nat, a: int, b: int, c: int): seq<int>
    requires limit > 0
  {
    [a] + Times(b, limit - 1) + Times(c, limit)
  }

  lemma {:induction false} BurstGranted(limit: nat, a: int, b: int, c: int)
    requires limit > 0 && 0 < a && Ms(b) == Ms(a) + 999 && Ms(c) == Ms(a) + 10000 && c != 0
    ensures Run(limit, Burst(limit, a, b, c)).log == Burst(limit, a, b, c)
  {
    hide Run, Consume, Only, Times, Burst, Ms;
    HalfBurst(limit, a, b);
    ConsumeLate(limit, a, c);
    var two := [a] + Times(b, limit - 1);
    RunStep(limit, two, c);
    BurstParts(limit, a, b, c);
    RunTimes(limit, two + [c], c, limit - 1, 1, c);
  }

  lemma {:induction false} HalfBurst(limit: nat, a: int, b: int)
    requires limit > 0 && 0 < a && Ms(b) == Ms(a) + 999
    ensures var two := [a] + Times(b, limit - 1);
            Run(limit, two) == History(Window(limit, Only(0, limit), a), two)
  {
    assert Run(limit, []) == History(Fresh(limit), []);
    assert [] + [a] == [a];
    RunStep(limit, [], a);
    ConsumeFirst(limit, a);
    hide Run, Consume, Only, Times, Ms;
    RunTimes(limit, [a], b, limit - 1, 1, a);
  }

  lemma {:induction false} BurstParts(limit: nat, a: int, b: int, c: int)
    requires limit > 0
    ensures [a] + Times(b, limit - 1) + [c] + Times(c, limit - 1) == Burst(limit, a, b, c)
  {
    assert [c] + Times(c, limit - 1) == Times(c, limit);
    hide Times;
    assert [a] + Times(b, limit - 1) + [c] + Times(c, limit - 1)
        == [a] + Times(b, limit - 1) + ([c] + Times(c, limit - 1));
  }

  lemma {:induction false} ConsumeLate(limit: nat, a: int, c: int)
    requires limit > 0 && a != 0 && Ms(c) >= Ms(a) + 10000
    ensures Consume(Window(limit, Only(0, limit), a), c) == (Window(limit, Only(0, 1), c), true)
  {
    SumZeros(NUM_BUCKETS);
    assert Zeros(NUM_BUCKETS)[0 := 1] == Only(0, 1);
  }

  lemma {:induction false} CountAppend(xs: seq<int>, ys: seq<int>, lo: int, hi: int)
    ensures Count(xs + ys, lo, hi) == Count(xs, lo, hi) + Count(ys, lo, hi)
  {
    if ys == [] {
      assert xs + ys == xs;
    } else {
      var n := |ys| - 1;
      assert xs + ys == xs + ys[..n] + [ys[n]] && ys == ys[..n] + [ys[n]];
      CountAppend(xs, ys[..n], lo, hi);
      CountStep(xs + ys[..n], ys[n], lo, hi);
      CountStep(ys[..n], ys[n], lo, hi);
    }
  }

  lemma {:induction false} CountTimes(t: int, n: nat, lo: int, hi: int)
    requires lo <= Ms(t) <= hi
    ensures Count(Times(t, n), lo, hi) == n
  {
    if n > 0 {
      assert Times(t, n)[..n - 1] == Times(t, n - 1);
      CountTimes(t, n - 1, lo, hi);
    }
  }

  /** The burst puts twice the limit less one into the 9001 ms after its first call, and the first call into ten
      seconds. */
  lemma {:induction false} BurstCounts(limit: nat, a: int, b: int, c: int, lo: int)
    requires limit > 0 && Ms(b) == Ms(a) + 999 && Ms(c) == Ms(a) + 10000 && (lo == Ms(a) || lo == Ms(b))
    ensures Count(Burst(limit, a, b, c), lo, Ms(c)) == 2 * limit - 1 + if lo == Ms(a) then 1 else 0
  {
    CountAppend([a] + Times(b, limit - 1), Times(c, limit), lo, Ms(c));
    CountAppend([a], Times(b, limit - 1), lo, Ms(c));
    CountTimes(b, limit - 1, lo, Ms(c));
    CountTimes(c, limit, lo, Ms(c));
    assert [a][..0] == [];
  }

  /** The span that is guaranteed, for every limit: any if nothing is ever granted, 9999 ms with a limit of one, and
      9000 ms otherwise, and no longer one. */
  lemma {:induction false} WindowBoundIff(limit: int, span: int)
    ensures Guarantees(limit, span) <==> limit <= 0 || span <= GUARANTEED_MS || (limit == 1 && span <= 9999)
  {
    if limit <= 0 || span <= GUARANTEED_MS || (limit == 1 && span <= 9999) {
      forall calls, lo, hi | Sorted(calls) && hi - lo <= span
        ensures Count(Run(limit, calls).log, lo, hi) <= Max(limit, 0)
      {
        if limit <= 0 {
          NoLimitNoGrants(limit, calls);
        } else if span <= GUARANTEED_MS {
          WindowBound(limit, calls, lo, hi);
        } else if calls != [] {
          OneAtATime(calls);
          SpacedCount(Run(limit, calls).log, lo, hi);
        }
      }
    } else {
      var a, b, c := NS_PER_MS, 1000 * NS_PER_MS, 10001 * NS_PER_MS;
      var calls := Burst(limit, a, b, c);
      var lo := if limit == 1 then Ms(a) else Ms(b);
      BurstGranted(limit, a, b, c);
      BurstCounts(limit, a, b, c, lo);
      assert Sorted(calls);
      assert Ms(c) - lo <= span && Count(Run(limit, calls).log, lo, Ms(c)) > Max(limit, 0);
    }
  }

  lemma {:induction false} RunStep(limit: int, calls: seq<int>, now: int)
    ensures var (w, granted) := Consume(Run(limit, calls).window, now);
            Run(limit, calls + [now])
                == History(w, if granted then Run(limit, calls).log + [now] else Run(limit, calls).log)
  {
    assert (calls + [now])[..|calls|] == calls;
  }

  lemma {:induction false} CountStep(log: seq<int>, t: int, lo: int, hi: int)
    ensures Count(log + [t], lo, hi) == Count(log, lo, hi) + if lo <= Ms(t) <= hi then 1 else 0
  {
    assert (log + [t])[..|log|] == log;
  }
}
