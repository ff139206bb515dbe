/**
 The rate limiter as the gateway runs it: bucket rings advanced in place, counters and timers updated by
 each call.  Every method is proved to do what `RateLimits` does on values.
 */
module RateLimiter {
  import opened Common
  import opened RateWindow
  import L = RateLimits

  /** The bucket that is `k` advances old. */
  function Slot(current: nat, k: nat): nat
    requires current < NUM_BUCKETS && k < NUM_BUCKETS
  {
    if k <= current then current - k else current + NUM_BUCKETS - k
  }

  function AgesOf(buckets: seq<int>, current: nat): seq<int>
    requires |buckets| == NUM_BUCKETS && current < NUM_BUCKETS
  {
    seq(NUM_BUCKETS, k requires 0 <= k < NUM_BUCKETS => buckets[Slot(current, k)])
  }

  /** The ages after `i` empty buckets have come in. */
  function Shifted(ages: seq<int>, i: nat): seq<int>
    requires i <= |ages|
  {
    Zeros(i) + ages[..|ages| - i]
  }

  lemma {:induction false} ShiftedStep(ages: seq<int>, i: nat)
    requires i < |ages|
    ensures Shifted(ages, 0) == ages
    ensures |Shifted(ages, i)| == |ages| && [0] + Shifted(ages, i)[..|ages| - 1] == Shifted(ages, i + 1)
  {
    assert [0] + Zeros(i) == Zeros(i + 1);
  }

  lemma {:induction false} NoTimeNoBuckets(elapsed: int)
    ensures elapsed <= 0 ==> TruncDiv(elapsed, BUCKET_MS) <= 0
  {
  }

  class SlidingWindow {
    const limit: int
    const buckets: array<int>
    var current: nat
    var last: int

    ghost predicate Valid()
      reads `current
    {
      buckets.Length == NUM_BUCKETS && current < NUM_BUCKETS
    }

    ghost function Ages(): (ages: seq<int>)
      requires Valid()
      reads `current, buckets
      ensures |ages| == NUM_BUCKETS
    {
      AgesOf(buckets[..], current)
    }

    ghost function Model(): Window
      requires Valid()
      reads this, buckets
    {
      Window(limit, Ages(), last)
    }

    constructor (limit: int)
      ensures Valid() && fresh(buckets) && Model() == Fresh(limit)
    {
      this.limit := limit;
      buckets := new int[NUM_BUCKETS](_ => 0);
      current, last := 0, 0;
    }

    /** Moves to the next bucket and clears it. */
    method Advance()
      requires Valid()
      modifies `current, buckets
      ensures Valid() && Ages() == [0] + old(Ages())[..NUM_BUCKETS - 1]
    {
      current := (current + 1) % NUM_BUCKETS;
      assert old(current) + 1 < NUM_BUCKETS ==> current == old(current) + 1;
      buckets[current] := 0;
    }

    method Expire(n: nat)
      requires Valid() && n < NUM_BUCKETS
      modifies `current, buckets
      ensures Valid() && Ages() == Shifted(old(Ages()), n)
    {
      ghost var ages := Ages();
      ShiftedStep(ages, 0);
      hide Shifted, Ages;
      var i := 0;
      while i < n
        invariant 0 <= i <= n && Valid()
        invariant Ages() == Shifted(ages, i)
      {
        ShiftedStep(ages, i);
        Advance();
        i := i + 1;
      }
    }

    method Clear()
      requires Valid()
      modifies `current, buckets
      ensures Valid() && Ages() == Zeros(NUM_BUCKETS)
    {
      forall i | 0 <= i < NUM_BUCKETS {
        buckets[i] := 0;
      }
      current := 0;
    }

    method Slide(now: int)
      requires Valid()
      modifies this, buckets
      ensures Valid() && Model() == RateWindow.Slide(old(Model()), now)
    {
      hide Ages, Ms;
      if last == 0 {
        last := now;
        return;
      }
      var elapsed := Ms(now) - Ms(last);
      NoTimeNoBuckets(elapsed);
      hide TruncDiv;
      if elapsed <= 0 {
        return;
      }
      var advance := TruncDiv(elapsed, BUCKET_MS);
      if advance <= 0 {
        return;
      }
      if advance >= NUM_BUCKETS {
        Clear();
      } else {
        Expire(advance);
      }
      last := now;
    }

    /** The sum of all buckets, in storage order. */
    method Total() returns (sum: int)
      requires Valid()
      ensures sum == Sum(Ages())
    {
      sum := 0;
      var i := 0;
      while i < NUM_BUCKETS
        invariant 0 <= i <= NUM_BUCKETS && sum == Sum(buckets[..i])
      {
        assert buckets[..i + 1] == buckets[..i] + [buckets[i]];
        SumAppend(buckets[..i], [buckets[i]]);
        sum := sum + buckets[i];
        i := i + 1;
      }
      assert buckets[..NUM_BUCKETS] == buckets[..];
      RingSum(buckets[..], current, Ages());
    }

    method TryConsume(now: int) returns (granted: bool)
      requires Valid()
      modifies this, buckets
      ensures Valid() && (Model(), granted) == Consume(old(Model()), now)
    {
      Slide(now);
      var total := Total();
      if total >= limit {
        return false;
      }
      ghost var ages := Ages();
      buckets[current] := buckets[current] + 1;
      assert Ages() == ages[0 := ages[0] + 1];
      granted := true;
    }
  }

  /** Reading a ring backwards from `current` visits every slot once. */
  lemma {:induction false} RingSum(slots: seq<int>, current: nat, ages: seq<int>)
    requires |slots| == NUM_BUCKETS && current < NUM_BUCKETS && |ages| == NUM_BUCKETS
    requires forall k :: 0 <= k < NUM_BUCKETS ==>
            ages[k] == slots[if k <= current then current - k else current + NUM_BUCKETS - k]
    ensures Sum(ages) == Sum(slots)
  {
    var young, old_ := ages[..current + 1], ages[current + 1..];
    assert ages == young + old_ && slots == slots[..current + 1] + slots[current + 1..];
    SumAppend(young, old_);
    SumAppend(slots[..current + 1], slots[current + 1..]);
    SumReversed(slots[..current + 1], young);
    SumReversed(slots[current + 1..], old_);
  }

  lemma {:induction false} SumReversed(xs: seq<int>, ys: seq<int>)
    requires |xs| == |ys| && forall k :: 0 <= k < |xs| ==> ys[k] == xs[|xs| - 1 - k]
    ensures Sum(xs) == Sum(ys)
  {
    if xs != [] {
      var n := |xs| - 1;
      SumReversed(xs[..n], ys[1..]);
      assert xs == xs[..n] + [xs[n]];
      SumAppend(xs[..n], [xs[n]]);
    }
  }

  /** The limiter: four windows and the backoff state, all owned by the gateway thread. */
  class RateLimiter {
    const cfg: L.Config
    const global: SlidingWindow
    const orders: SlidingWindow
    const cancels: SlidingWindow
    const heartbeats: SlidingWindow

    var consecutive429: nat
    var unavailable: bool
    var backoffUntil: int
    var backoffMs: int
    var consecutive425: nat
    var backoff425Ms: int
    var rttEma: int
    var rttBaseline: int
    var rttCount: nat

    ghost function Repr(): set<object> {
      {global, global.buckets, orders, orders.buckets, cancels, cancels.buckets, heartbeats, heartbeats.buckets}
    }

    /** The four windows share no storage. */
    ghost predicate Apart() {
      && global != orders && global != cancels && global != heartbeats
      && orders != cancels && orders != heartbeats && cancels != heartbeats
      && global.buckets != orders.buckets && global.buckets != cancels.buckets && global.buckets != heartbeats.buckets
      && orders.buckets != cancels.buckets && orders.buckets != heartbeats.buckets
          && cancels.buckets != heartbeats.buckets
    }

    ghost predicate Valid()
      reads Repr()
    {
      Apart() && global.Valid() && orders.Valid() && cancels.Valid() && heartbeats.Valid()
    }

    ghost function BackoffModel(): L.Backoff
      reads this
    {
      L.Backoff(consecutive429, unavailable, backoffUntil, backoffMs, consecutive425, backoff425Ms)
    }

    ghost function Model(): (l: L.Limiter)
      requires Valid()
      reads this, Repr()
      ensures L.Valid(l)
    {
      L.Limiter(cfg, global.Model(), orders.Model(), cancels.Model(), heartbeats.Model(),
                BackoffModel(), L.Rtt(rttEma, rttBaseline, rttCount))
    }

    constructor (cfg: L.Config)
      ensures Valid() && fresh(Repr()) && Model() == L.FreshLimiter(cfg)
    {
      this.cfg := cfg;
      global := new SlidingWindow(cfg.globalLimit);
      orders := new SlidingWindow(cfg.orderLimit);
      cancels := new SlidingWindow(cfg.cancelLimit);
      heartbeats := new SlidingWindow(cfg.heartbeatLimit);
      consecutive429, unavailable, backoffUntil, backoffMs := 0, false, 0, cfg.backoffBaseMs;
      consecutive425, backoff425Ms := 0, L.BASE_425_MS;
      rttEma, rttBaseline, rttCount := 0, 0, 0;
    }

    /** The window that requests of this type have to themselves. */
    ghost function Own(t: L.IntentType): SlidingWindow {
      if t == L.PlaceOrder || t == L.ReplaceOrder then orders
      else if t == L.IntentType.Heartbeat then heartbeats
      else cancels
    }

    /** An unavailable exchange is asked to cancel and to keep the session alive, and nothing else. */
    method TryAcquire(t: L.IntentType, now: int) returns (granted: bool)
      requires Valid()
      modifies Repr()
      ensures Valid() && (Model(), granted) == L.Acquire(old(Model()), t, now)
      ensures granted <==>
                && now >= old(backoffUntil) && (old(unavailable) ==> t != L.PlaceOrder && t != L.ReplaceOrder)
                && Consume(old(global.Model()), now).1 && Consume(old(Own(t).Model()), now).1
    {
      hide Consume;
      if now < backoffUntil {
        return false;
      }
      if unavailable && t != L.CancelOrder && t != L.CancelAll && t != L.Heartbeat {
        return false;
      }
      var passed := global.TryConsume(now);
      if !passed {
        return false;
      }
      match t
      case PlaceOrder | ReplaceOrder =>
        granted := orders.TryConsume(now);
      case CancelOrder | CancelAll =>
        granted := cancels.TryConsume(now);
      case Heartbeat =>
        granted := heartbeats.TryConsume(now);
    }

    /** The delay is moved by a random offset of at most a quarter. */
    method ApplyJitter(baseMs: int) returns (delay: int, ghost jitter: int)
      ensures delay == L.Jittered(baseMs, jitter) && (TruncDiv(baseMs, 4) > 0 ==> L.JitterInRange(baseMs, jitter))
    {
      var quarter := TruncDiv(baseMs, 4);
      if quarter <= 0 {
        return baseMs, 0;
      }
      var offset: int :| -quarter <= offset <= quarter;
      delay, jitter := Max(1, baseMs + offset), offset;
    }

    /** `jitter` is the offset that was drawn, within a quarter of the delay in force. */
    method RecordResponse(status: int, now: int) returns (ghost jitter: int)
      requires Valid()
      modifies this
      ensures Valid() && Model() == old(Model()).(backoff := L.Respond(cfg, old(BackoffModel()), status, now, jitter))
      ensures var delay := L.DelayBase(cfg, old(BackoffModel()), status);
              TruncDiv(delay, 4) > 0 && status in {425, 429, 503} ==> L.JitterInRange(delay, jitter)
    {
      jitter := 0;
      var delay;
      if status == 429 {
        consecutive429 := consecutive429 + 1;
        delay, jitter := ApplyJitter(backoffMs);
        backoffUntil := now + delay * NS_PER_MS;
        backoffMs := Min(backoffMs * 2, cfg.backoffMaxMs);
      } else if status == 425 {
        consecutive425 := consecutive425 + 1;
        delay, jitter := ApplyJitter(backoff425Ms);
        backoffUntil := Max(backoffUntil, now + delay * NS_PER_MS);
        backoff425Ms := Min(backoff425Ms * 2, cfg.backoffMaxMs);
      } else if status == 503 {
        unavailable := true;
        delay, jitter := ApplyJitter(cfg.backoffBaseMs);
        backoffUntil := now + delay * NS_PER_MS;
      } else if 200 <= status < 300 {
        consecutive429, unavailable, backoffMs := 0, false, cfg.backoffBaseMs;
        consecutive425, backoff425Ms := 0, L.BASE_425_MS;
      }
    }

    method RecordRtt(ns: int)
      requires Valid()
      modifies this
      ensures Valid() && Model() == old(Model()).(rtt := L.Measure(old(Model()).rtt, ns))
    {
      rttCount := rttCount + 1;
      if rttCount <= 10 {
        rttBaseline := TruncDiv(rttBaseline * (rttCount - 1) + ns, rttCount);
        rttEma := rttBaseline;
      } else {
        rttEma := TruncDiv(rttEma * 9 + ns, 10);
      }
    }

    method ResetBackoff()
      requires Valid()
      modifies this
      ensures Valid() && Model() == old(Model()).(backoff := L.FreshBackoff(cfg))
    {
      consecutive429, unavailable, backoffUntil, backoffMs := 0, false, 0, cfg.backoffBaseMs;
      consecutive425, backoff425Ms := 0, L.BASE_425_MS;
    }
  }
}
