/**
 When a sliding window refuses.  A window forgets its grants only when it is called and drops the part of a second that
 is left over each time it advances, so it remembers them for longer than its ten seconds.
 */
module RateRefusal {
  import opened Common
  import opened RateWindow

  /** Whether a window that has seen these calls grants another one. */
  predicate Grants(limit: int, calls: seq<int>, now: int) {
    |Run(limit, calls + [now]).log| > |Run(limit, calls).log|
  }

  lemma {:induction false} GrantsIsConsume(limit: int, calls: seq<int>, now: int)
    ensures Grants(limit, calls, now) <==> Consume(Run(limit, calls).window, now).1
  {
    RunStep(limit, calls, now);
  }

  /** Nine advances that each come 1999 ms after the one before, and 999 ms more. */
  const MEMORY_MS: int := 18990

  /** With a clock that never goes back and starts at `start`, a refused call has at least the limit of grants in the
      `span` milliseconds before it. */
  ghost predicate Forgets(limit: int, start: int, span: int) {
    forall calls, now :: Sorted(calls + [now]) && From(calls + [now], start) && !Grants(limit, calls, now) ==>
      Count(Run(limit, calls).log, Ms(now) - span, Ms(now)) >= limit
  }

  ghost predicate From(calls: seq<int>, start: int) {
    forall t :: t in calls ==> t >= start
  }

  // ---------------------------------------------------------------------------
  // How old a remembered grant can be
  // ---------------------------------------------------------------------------

  /** The last `n` grants are at or after `bound` milliseconds. */
  ghost predicate NewerBy(log: seq<int>, n: int, bound: int) {
    forall i :: 0 <= i < |log| && i >= |log| - n ==> Ms(log[i]) >= bound
  }

  /** The counts count the most recent grants, and one in the youngest `k` buckets was made at most `k - 1` times 1999
      ms before the last advance. */
  ghost predicate Young(w: Window, log: seq<int>) {
    && |w.ages| == NUM_BUCKETS
    && (forall k :: 0 <= k < NUM_BUCKETS ==> w.ages[k] >= 0)
    && Sum(w.ages) <= |log|
    && (forall k :: 0 <= k <= NUM_BUCKETS ==> NewerBy(log, Sum(w.ages[..k]), Ms(w.last) - 1999 * (k - 1)))
  }

  lemma {:induction false} NoneIsYoung(w: Window, log: seq<int>)
    requires w.ages == Zeros(NUM_BUCKETS)
    ensures Young(w, log)
  {
    forall k | 0 <= k <= NUM_BUCKETS
      ensures Sum(w.ages[..k]) == 0
    {
      assert w.ages[..k] == Zeros(k);
      SumZeros(k);
    }
    assert w.ages[..NUM_BUCKETS] == w.ages;
  }

  lemma {:induction false} AgedIsYoung(w: Window, log: seq<int>, now: int, k: nat)
    requires Young(w, log) && 0 < k < NUM_BUCKETS && Ms(now) - Ms(w.last) < BUCKET_MS * (k + 1)
    ensures Young(Window(w.limit, Zeros(k) + w.ages[..NUM_BUCKETS - k], now), log)
  {
    var aged := Zeros(k) + w.ages[..NUM_BUCKETS - k];
    forall j | 0 <= j <= NUM_BUCKETS
      ensures NewerBy(log, Sum(aged[..j]), Ms(now) - 1999 * (j - 1))
    {
      AgedPrefix(w.ages, k, j);
      if j > k {
        assert NewerBy(log, Sum(w.ages[..j - k]), Ms(w.last) - 1999 * (j - k - 1));
      }
    }
    AgedPrefix(w.ages, k, NUM_BUCKETS);
    assert aged[..NUM_BUCKETS] == aged;
    assert w.ages == w.ages[..NUM_BUCKETS - k] + w.ages[NUM_BUCKETS - k..];
    SumAppend(w.ages[..NUM_BUCKETS - k], w.ages[NUM_BUCKETS - k..]);
    SumNonNegative(w.ages[NUM_BUCKETS - k..]);
  }

  lemma {:induction false} SlideIsYoung(w: Window, log: seq<int>, now: int)
    requires Young(w, log) && w.last <= now && w.last != 0
    ensures var s := Slide(w, now);
            Young(s, log) && s.last <= now && Ms(now) <= Ms(s.last) + 999 && (s.last == w.last || s.last == now)
  {
    MsMonotone(w.last, now);
    var k := TruncDiv(Ms(now) - Ms(w.last), BUCKET_MS);
    if k >= NUM_BUCKETS {
      NoneIsYoung(Slide(w, now), log);
    } else if k > 0 {
      AgedIsYoung(w, log, now, k);
    }
  }

  lemma {:induction false} GrantIsYoung(w: Window, log: seq<int>, now: int)
    requires Young(w, log) && w.last <= now
    ensures Young(w.(ages := w.ages[0 := w.ages[0] + 1]), log + [now])
  {
    MsMonotone(w.last, now);
    var more := w.ages[0 := w.ages[0] + 1];
    forall k | 0 <= k <= NUM_BUCKETS
      ensures NewerBy(log + [now], Sum(more[..k]), Ms(w.last) - 1999 * (k - 1))
      ensures k == NUM_BUCKETS ==> Sum(more) == Sum(w.ages) + 1
    {
      assert NewerBy(log, Sum(w.ages[..k]), Ms(w.last) - 1999 * (k - 1));
      if k == 0 {
        assert more[..k] == [] && w.ages[..k] == [];
      } else {
        assert more[..k][1..] == w.ages[..k][1..];
        assert Sum(more[..k]) == Sum(w.ages[..k]) + 1;
        assert more[..NUM_BUCKETS] == more && w.ages[..NUM_BUCKETS] == w.ages;
      }
    }
  }

  /** What a run of calls has led to: an unused window, or one that last advanced at one of the calls. */
  ghost predicate Led(h: History, calls: seq<int>) {
    && Young(h.window, h.log) && (forall t :: t in h.log ==> t in calls)
    && if calls == [] then h.window == Fresh(h.window.limit) && h.log == [] else h.window.last in calls
  }

  lemma {:induction false} LatestCall(calls: seq<int>, now: int)
    requires Sorted(calls + [now])
    ensures Sorted(calls) && forall t :: t in calls ==> t <= now
  {
    var all := calls + [now];
    assert forall i :: 0 <= i < |calls| ==> calls[i] == all[i] && all[i] <= all[|calls|];
  }

  lemma {:induction false} ConsumeLeads(h: History, calls: seq<int>, now: int)
    requires Led(h, calls) && Sorted(calls + [now]) && 0 !in calls + [now]
    ensures var (w, granted) := Consume(h.window, now);
            Led(History(w, if granted then h.log + [now] else h.log), calls + [now])
  {
    LatestCall(calls, now);
    assert forall t :: t in calls ==> t in calls + [now];
    var s := Slide(h.window, now);
    assert now in calls + [now];
    if calls == [] {
      NoneIsYoung(s, h.log);
    } else {
      SlideIsYoung(h.window, h.log, now);
    }
    if Sum(s.ages) < s.limit {
      GrantIsYoung(s, h.log, now);
    }
    hide Young;
  }

  lemma {:induction false} ConsumeKeepsLimit(w: Window, now: int)
    requires |w.ages| == NUM_BUCKETS
    ensures Consume(w, now).0.limit == w.limit
  {
  }

  lemma {:induction false} RunLeads(limit: int, calls: seq<int>)
    requires Sorted(calls) && 0 !in calls
    ensures Led(Run(limit, calls), calls) && Run(limit, calls).window.limit == limit
  {
    if calls == [] {
      NoneIsYoung(Fresh(limit), []);
    } else {
      var before, now := calls[..|calls| - 1], calls[|calls| - 1];
      assert calls == before + [now];
      hide Run, Consume, Led;
      RunLeads(limit, before);
      ConsumeLeads(Run(limit, before), before, now);
      RunStep(limit, before, now);
      ConsumeKeepsLimit(Run(limit, before).window, now);
    }
  }

  lemma {:induction false} CountAtLeast(log: seq<int>, n: int, lo: int, hi: int)
    requires 0 <= n <= |log| && NewerBy(log, n, lo) && forall i :: 0 <= i < |log| ==> Ms(log[i]) <= hi
    ensures Count(log, lo, hi) >= n
  {
    if n > 0 {
      var front := log[..|log| - 1];
      assert forall i :: 0 <= i < |front| ==> front[i] == log[i];
      CountAtLeast(front, n - 1, lo, hi);
    }
  }

  /** Everything that an advanced window still counts is recent. */
  lemma {:induction false} FullIsBusy(w: Window, log: seq<int>, now: int, limit: int)
    requires Young(w, log) && w.last != 0 && w.last <= now && Sum(Slide(w, now).ages) >= limit > 0
    requires forall t :: t in log ==> t <= now
    ensures Count(log, Ms(now) - MEMORY_MS, Ms(now)) >= limit
  {
    SlideIsYoung(w, log, now);
    var s := Slide(w, now);
    hide Slide;
    assert s.ages[..NUM_BUCKETS] == s.ages;
    assert NewerBy(log, Sum(s.ages), Ms(s.last) - 1999 * (NUM_BUCKETS - 1));
    forall i | 0 <= i < |log|
      ensures Ms(log[i]) <= Ms(now)
    {
      assert log[i] in log;
      MsMonotone(log[i], now);
    }
    CountAtLeast(log, Sum(s.ages), Ms(now) - MEMORY_MS, Ms(now));
  }

  lemma {:induction false} RefusedIsBusy(limit: int, calls: seq<int>, now: int)
    requires Sorted(calls + [now]) && 0 !in calls + [now] && !Grants(limit, calls, now) && limit > 0
    ensures Count(Run(limit, calls).log, Ms(now) - MEMORY_MS, Ms(now)) >= limit
  {
    LatestCall(calls, now);
    assert forall t :: t in calls ==> t in calls + [now];
    RunLeads(limit, calls);
    GrantsIsConsume(limit, calls, now);
    SumZeros(NUM_BUCKETS);
    var h := Run(limit, calls);
    hide Run, Count, Young, Sum, Grants;
    if calls != [] {
      FullIsBusy(h.window, h.log, now, limit);
    }
  }

  // ---------------------------------------------------------------------------
  // The bound is exact
  // ---------------------------------------------------------------------------

  lemma {:induction false} Forgotten(limit: int, start: int, span: int, calls: seq<int>, now: int)
    requires Sorted(calls + [now]) && From(calls + [now], start) && !Grants(limit, calls, now)
    requires Count(Run(limit, calls).log, Ms(now) - span, Ms(now)) < limit
    ensures !Forgets(limit, start, span)
  {
    hide Sorted, From, Grants, Run, Ms, Count;
  }

  /** A call at time zero leaves the clock looking as if it had not started, so its grants do not age before the next
      call, however late that is. */
  lemma {:induction false} ZeroIsNotAged(limit: nat, n: nat)
    requires n <= limit
    ensures Run(limit, Times(0, n)) == History(Window(limit, Only(0, n), 0), Times(0, n))
  {
    if n == 0 {
      assert Times(0, 0) == [] && Only(0, 0) == Zeros(NUM_BUCKETS);
    } else {
      ZeroIsNotAged(limit, n - 1);
      assert Times(0, n) == Times(0, n - 1) + [0];
      RunStep(limit, Times(0, n - 1), 0);
      SumOnly(0, n - 1);
      assert Only(0, n - 1)[0 := n] == Only(0, n);
    }
  }

  lemma {:induction false} NoneInside(t: int, n: nat, lo: int, hi: int)
    requires Ms(t) < lo
    ensures Count(Times(t, n), lo, hi) == 0
  {
    if n > 0 {
      assert Times(t, n)[..n - 1] == Times(t, n - 1);
      NoneInside(t, n - 1, lo, hi);
    }
  }

  lemma {:induction false} ZeroFails(limit: nat, start: int, span: int)
    requires limit > 0 && start <= 0
    ensures !Forgets(limit, start, span)
  {
    var ms := Max(span, 0) + 1;
    var calls, now := Times(0, limit), ms * NS_PER_MS;
    ZeroIsNotAged(limit, limit);
    RunStep(limit, calls, now);
    SumOnly(0, limit);
    NoneInside(0, limit, Ms(now) - span, Ms(now));
    Forgotten(limit, start, span, calls, now);
  }

  /** The limit of calls in one instant, then one call every 1999 ms. */
  function Drip(limit: nat, t: int, n: nat): seq<int> {
    if n == 0 then Times(t, limit) else Drip(limit, t, n - 1) + [t + n * (1999 * NS_PER_MS)]
  }

  lemma {:induction false} DripSorted(limit: nat, t: int, n: nat)
    ensures Sorted(Drip(limit, t, n)) && forall x :: x in Drip(limit, t, n) ==> t <= x <= t + n * (1999 * NS_PER_MS)
  {
    if n > 0 {
      var before := Drip(limit, t, n - 1);
      DripSorted(limit, t, n - 1);
      assert forall i :: 0 <= i < |before| ==> before[i] in before;
    }
  }

  /** A full window that is called 1999 ms after its last advance ages by one second only. */
  lemma {:induction false} DripStep(limit: nat, k: nat, last: int, now: int)
    requires limit > 0 && k < 9 && last != 0 && Ms(now) == Ms(last) + 1999
    ensures Consume(Window(limit, Only(k, limit), last), now) == (Window(limit, Only(k + 1, limit), now), false)
  {
    assert Zeros(1) + Only(k, limit)[..9] == Only(k + 1, limit);
    SumOnly(k + 1, limit);
  }

  lemma {:induction false} DripStart(limit: nat, t: int)
    requires limit > 0 && t != 0
    ensures Run(limit, Times(t, limit)) == History(Window(limit, Only(0, limit), t), Times(t, limit))
  {
    assert Run(limit, []) == History(Fresh(limit), []) && [] + [t] == [t];
    RunStep(limit, [], t);
    ConsumeFirst(limit, t);
    hide Run, Consume, Only;
    RunTimes(limit, [t], t, limit - 1, 1, t);
    assert [t] + Times(t, limit - 1) == Times(t, limit);
  }

  lemma {:induction false} DripRun(limit: nat, ms: nat, n: nat)
    requires limit > 0 && ms > 0 && n <= 9
    ensures var t := ms * NS_PER_MS;
            Run(limit, Drip(limit, t, n))
            == History(Window(limit, Only(n, limit), (ms + n * 1999) * NS_PER_MS), Times(t, limit))
  {
    var t := ms * NS_PER_MS;
    hide Run, Only, Consume, Ms, Times;
    if n == 0 {
      DripStart(limit, t);
    } else {
      DripRun(limit, ms, n - 1);
      var last, now := ms + (n - 1) * 1999, ms + n * 1999;
      RunStep(limit, Drip(limit, t, n - 1), now * NS_PER_MS);
      WholeMs(last);
      WholeMs(now);
      DripStep(limit, n - 1, last * NS_PER_MS, now * NS_PER_MS);
    }
  }

  /** After nine advances one more call, 999 ms later, finds the window still full. */
  lemma {:induction false} DripEnd(limit: nat, last: int, now: int)
    requires limit > 0 && last != 0 && Ms(now) == Ms(last) + 999
    ensures !Consume(Window(limit, Only(9, limit), last), now).1
  {
    SumOnly(9, limit);
  }

  lemma {:induction false} WholeMs(ms: nat)
    ensures Ms(ms * NS_PER_MS) == ms
  {
  }

  lemma {:induction false} DripIsClock(limit: nat, t: int, now: int, start: int)
    requires start <= t && t + 9 * (1999 * NS_PER_MS) <= now
    ensures Sorted(Drip(limit, t, 9) + [now]) && From(Drip(limit, t, 9) + [now], start)
  {
    DripSorted(limit, t, 9);
    var calls := Drip(limit, t, 9);
    assert forall i :: 0 <= i < |calls| ==> calls[i] in calls;
    hide Drip;
  }

  /** The last call of the drip is refused, and all grants are 18990 ms old. */
  lemma {:induction false} DripRefused(limit: nat, start: nat)
    requires limit > 0 && start > 0
    ensures var t, now := start * NS_PER_MS, (start + MEMORY_MS) * NS_PER_MS;
            !Grants(limit, Drip(limit, t, 9), now) && Run(limit, Drip(limit, t, 9)).log == Times(t, limit)
  {
    var t, last, now := start * NS_PER_MS, (start + 9 * 1999) * NS_PER_MS, (start + MEMORY_MS) * NS_PER_MS;
    WholeMs(start + 9 * 1999);
    WholeMs(start + MEMORY_MS);
    DripRun(limit, start, 9);
    hide Ms, Run, Consume, Grants, Drip, Only;
    GrantsIsConsume(limit, Drip(limit, t, 9), now);
    DripEnd(limit, last, now);
  }

  lemma {:induction false} DripFails(limit: nat, start: int, span: int)
    requires limit > 0 && start > 0 && span < MEMORY_MS
    ensures !Forgets(limit, start, span)
  {
    var t, now := start * NS_PER_MS, (start + MEMORY_MS) * NS_PER_MS;
    WholeMs(start);
    WholeMs(start + MEMORY_MS);
    DripRefused(limit, start);
    DripIsClock(limit, t, now, start);
    NoneInside(t, limit, Ms(now) - span, Ms(now));
    hide Run, Grants, Drip, Ms, Times, Sorted, From, Forgets;
    Forgotten(limit, start, span, Drip(limit, t, 9), now);
  }

  /** How far back a refused call must look for the grants that used up the limit: 18990 ms, and no less, if the clock
      never shows zero; otherwise there is no bound. */
  lemma {:induction false} RefusalIff(limit: int, start: int, span: int)
    ensures Forgets(limit, start, span) <==> limit <= 0 || (start > 0 && span >= MEMORY_MS)
  {
    hide Run, Ms, Sorted;
    if limit > 0 && start > 0 && span >= MEMORY_MS {
      forall calls, now | Sorted(calls + [now]) && From(calls + [now], start) && !Grants(limit, calls, now)
        ensures Count(Run(limit, calls).log, Ms(now) - span, Ms(now)) >= limit
      {
        RefusedIsBusy(limit, calls, now);
        CountWider(Run(limit, calls).log, Ms(now) - MEMORY_MS, Ms(now) - span, Ms(now));
      }
    } else if limit > 0 {
      if start <= 0 {
        ZeroFails(limit, start, span);
      } else {
        DripFails(limit, start, span);
      }
    }
  }

  lemma {:induction false} CountWider(log: seq<int>, lo: int, lower: int, hi: int)
    requires lower <= lo
    ensures Count(log, lower, hi) >= Count(log, lo, hi)
  {
    if log != [] {
      CountWider(log[..|log| - 1], lo, lower, hi);
    }
  }
}
