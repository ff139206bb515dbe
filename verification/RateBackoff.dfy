/**
 What the backoff state of the rate limiter remembers of a run, in terms of the run's events alone.
 */
module RateBackoff {
  import opened Common
  import opened RateWindow
  import opened RateLimits

  /** How many responses with this status arrived since the last 2xx response or reset. */
  function Since(es: seq<Event>, status: int): nat {
    if es == [] then 0
    else
      match es[|es| - 1]
      case Answer(s, _, _) =>
        if Success(s) then 0 else Since(es[..|es| - 1], status) + if s == status then 1 else 0
      case Reset => 0
      case _ => Since(es[..|es| - 1], status)
  }

  function Pow2(k: nat): nat {
    if k == 0 then 1 else 2 * Pow2(k - 1)
  }

  /** A ladder that doubles and is capped after each of `k` responses. */
  function Ladder(baseMs: int, maxMs: int, k: nat): int {
    if k == 0 then baseMs else Min(Ladder(baseMs, maxMs, k - 1) * 2, maxMs)
  }

  /** The backoff state after these many 429s, 425s and 503s since the last 2xx or reset. */
  ghost predicate Remembers(cfg: Config, b: Backoff, n429: nat, n425: nat, n503: nat) {
    && b.count429 == n429 && b.count425 == n425 && (b.unavailable <==> n503 > 0)
    && b.ladder429 == Ladder(cfg.backoffBaseMs, cfg.backoffMaxMs, n429)
    && b.ladder425 == Ladder(BASE_425_MS, cfg.backoffMaxMs, n425)
  }

  lemma {:induction false} RespondRemembers(cfg: Config, b: Backoff, status: int, at: int, jitter: int, n429: nat,
      n425: nat, n503: nat)
    requires Remembers(cfg, b, n429, n425, n503)
    ensures var r := Respond(cfg, b, status, at, jitter);
            if Success(status) then Remembers(cfg, r, 0, 0, 0)
            else
              Remembers(cfg, r, n429 + if status == 429 then 1 else 0, n425 + if status == 425 then 1 else 0,
                        n503 + if status == 503 then 1 else 0)
  {
    hide Jittered;
  }

  /** The counters, the cancel-only mode and both ladders are functions of what arrived since the last 2xx or reset. */
  lemma {:induction false} BackoffFollows(cfg: Config, es: seq<Event>)
    ensures Remembers(cfg, After(cfg, es).backoff, Since(es, 429), Since(es, 425), Since(es, 503))
  {
    if es != [] {
      var before, e := es[..|es| - 1], es[|es| - 1];
      var l := After(cfg, before);
      BackoffFollows(cfg, before);
      AcquireKeepsBackoff(l, e);
      if e.Answer? {
        RespondRemembers(cfg, l.backoff, e.status, e.at, e.jitter, Since(before, 429), Since(before, 425),
            Since(before, 503));
      }
      assert Remembers(cfg, FreshBackoff(cfg), 0, 0, 0);
      hide Remembers, Respond, Acquire, Measure;
    }
  }

  lemma {:induction false} AcquireKeepsBackoff(l: Limiter, e: Event)
    requires Valid(l)
    ensures e.Ask? || e.Sample? ==> Step(l, e).backoff == l.backoff
  {
  }

  /** With a negative cap the ladder doubles the cap too. */
  lemma {:induction false} LadderBelowZero(baseMs: int, maxMs: int, k: nat)
    requires maxMs < 0 && k > 0
    ensures Ladder(baseMs, maxMs, k) == Min(baseMs * Pow2(k), maxMs * Pow2(k - 1))
  {
    if k == 1 {
      assert Pow2(1) == 2 * Pow2(0);
    } else {
      LadderBelowZero(baseMs, maxMs, k - 1);
      assert baseMs * Pow2(k) == 2 * (baseMs * Pow2(k - 1)) && maxMs * Pow2(k - 1) == 2 * (maxMs * Pow2(k - 2));
      Pow2Grows(maxMs, k - 1);
    }
  }

  lemma {:induction false} Pow2Grows(x: int, k: nat)
    ensures Pow2(k) >= 1 && (k > 0 ==> Pow2(k) >= 2) && (x < 0 ==> x * Pow2(k) <= x && (k > 0 ==> x * Pow2(k) < x))
  {
    if k > 0 {
      Pow2Grows(x, k - 1);
      assert x * Pow2(k) == 2 * (x * Pow2(k - 1));
    }
  }

  lemma {:induction false} LadderAboveZero(baseMs: int, maxMs: int, k: nat)
    requires maxMs >= 0 && k > 0
    ensures Ladder(baseMs, maxMs, k) == Min(baseMs * Pow2(k), maxMs)
  {
    if k == 1 {
      assert Pow2(1) == 2 * Pow2(0);
    } else {
      LadderAboveZero(baseMs, maxMs, k - 1);
      assert baseMs * Pow2(k) == 2 * (baseMs * Pow2(k - 1));
    }
  }

  lemma {:induction false} ScaledOrder(x: int, y: int, p: int)
    requires p > 0
    ensures x * p <= y * p <==> x <= y
  {
    if x <= y {
      assert (y - x) * p >= 0;
    } else {
      assert (x - y) * p > 0;
    }
  }

  /** When the ladder is the capped power of two: before the first response if the base is within the cap, after it
      always, and from the second on if the cap is not negative or twice the base is within it. */
  lemma {:induction false} LadderClosedForm(baseMs: int, maxMs: int, k: nat)
    ensures Ladder(baseMs, maxMs, k) == Min(baseMs * Pow2(k), maxMs) <==>
              if k == 0 then baseMs <= maxMs else k == 1 || maxMs >= 0 || 2 * baseMs <= maxMs
  {
    if k > 0 {
      if maxMs >= 0 {
        LadderAboveZero(baseMs, maxMs, k);
      } else {
        LadderBelowZero(baseMs, maxMs, k);
        Pow2Grows(maxMs, k - 1);
        assert baseMs * Pow2(k) == (2 * baseMs) * Pow2(k - 1);
        ScaledOrder(2 * baseMs, maxMs, Pow2(k - 1));
      }
    }
  }

  /** The matching engine counts as down exactly when ten or more 425s have arrived since the last 2xx or reset. */
  lemma {:induction false} EngineDownIff(cfg: Config, es: seq<Event>)
    ensures EngineDown(After(cfg, es).backoff) <==> Since(es, 425) >= 10
  {
    BackoffFollows(cfg, es);
  }

  /** Between a 503 and the next 2xx or reset no order is placed or replaced. */
  lemma {:induction false} CancelOnlyAfter503(cfg: Config, es: seq<Event>, i: nat, j: nat)
    requires i < j < |es| && es[i].Answer? && es[i].status == 503
    requires forall k :: i < k < j ==> es[k] != Reset && (es[k].Answer? ==> !Success(es[k].status))
    requires es[j].Ask? && (es[j].t.PlaceOrder? || es[j].t.ReplaceOrder?)
    ensures !Granted(cfg, es, j)
  {
    SinceStays(es[..j], 503, i);
    BackoffFollows(cfg, es[..j]);
  }

  lemma {:induction false} SinceStays(es: seq<Event>, status: int, i: nat)
    requires i < |es| && es[i].Answer? && es[i].status == status && !Success(status)
    requires forall k :: i < k < |es| ==> es[k] != Reset && (es[k].Answer? ==> !Success(es[k].status))
    ensures Since(es, status) > 0
    decreases |es|
  {
    if i < |es| - 1 {
      SinceStays(es[..|es| - 1], status, i);
    }
  }

  predicate BacksOff(status: int) {
    status == 429 || status == 425 || status == 503
  }

  /** The end of the backoff that the response at position `i` asks for. */
  function BackoffEnd(cfg: Config, es: seq<Event>, i: nat): int
    requires i < |es| && es[i].Answer?
  {
    es[i].at + Jittered(DelayBase(cfg, After(cfg, es[..i]).backoff, es[i].status), es[i].jitter) * NS_PER_MS
  }

  /** A response that sets the end of the backoff, whatever it was. */
  predicate Replaces(e: Event) {
    e.Answer? && (e.status == 429 || e.status == 503)
  }

  /** The backoff of the response at `k` lasts until `end`, and no later response has replaced it by one that does not.
      */
  ghost predicate Outlasts(cfg: Config, es: seq<Event>, k: nat, end: int) {
    && k < |es| && es[k].Answer? && BacksOff(es[k].status) && BackoffEnd(cfg, es, k) >= end
    && forall m :: k < m < |es| && Replaces(es[m]) ==> BackoffEnd(cfg, es, m) >= end
  }

  lemma {:induction false} OutlastsPrefix(cfg: Config, es: seq<Event>, k: nat, end: int)
    requires k < |es| - 1
    ensures var prefix, last := es[..|es| - 1], |es| - 1;
            Outlasts(cfg, es, k, end) <==>
              Outlasts(cfg, prefix, k, end) && (Replaces(es[last]) ==> BackoffEnd(cfg, es, last) >= end)
  {
    var prefix := es[..|es| - 1];
    forall m | 0 <= m < |prefix| && prefix[m].Answer?
      ensures BackoffEnd(cfg, prefix, m) == BackoffEnd(cfg, es, m)
    {
      assert prefix[..m] == es[..m];
    }
    hide BackoffEnd, After;
  }

  /** What the last event does to the end of the backoff. */
  lemma {:induction false} LastEvent(cfg: Config, es: seq<Event>)
    requires es != [] && es[|es| - 1] != Reset
    ensures var last := |es| - 1;
            var before, now := After(cfg, es[..last]).backoff.until, After(cfg, es).backoff.until;
            now == if Replaces(es[last]) then BackoffEnd(cfg, es, last)
                   else if es[last].Answer? && es[last].status == 425 then Max(before, BackoffEnd(cfg, es, last))
                   else before
  {
    AcquireKeepsBackoff(After(cfg, es[..|es| - 1]), es[|es| - 1]);
    hide Acquire, Measure, Jittered;
  }

  /** The backoff that a 429, 425 or 503 asked for is in force, as long as there is no reset, exactly while it or a
      later one that lasts as long has not been replaced: a later 429 or 503 may cut it short. */
  lemma {:induction false} BackoffLastsIff(cfg: Config, es: seq<Event>, i: nat)
    requires i < |es| && es[i].Answer? && BacksOff(es[i].status)
    requires forall k :: i < k < |es| ==> es[k] != Reset
    ensures var end := BackoffEnd(cfg, es, i);
            After(cfg, es).backoff.until >= end <==> exists k :: i <= k < |es| && Outlasts(cfg, es, k, end)
    decreases |es|
  {
    hide After, BackoffEnd, Outlasts;
    var end, last := BackoffEnd(cfg, es, i), |es| - 1;
    var prefix := es[..last];
    LastEvent(cfg, es);
    OutlastsAtLast(cfg, es, end);
    if i < last {
      BackoffLastsIff(cfg, prefix, i);
      SameEnd(cfg, es, i);
      forall k | i <= k < last
        ensures Outlasts(cfg, es, k, end) <==>
                  Outlasts(cfg, prefix, k, end) && (Replaces(es[last]) ==> BackoffEnd(cfg, es, last) >= end)
      {
        OutlastsPrefix(cfg, es, k, end);
      }
      if exists k :: i <= k < last && Outlasts(cfg, prefix, k, end) {
        var k: nat :| i <= k < last && Outlasts(cfg, prefix, k, end);
        assert Outlasts(cfg, es, k, end) || Replaces(es[last]);
      }
    }
  }

  lemma {:induction false} OutlastsAtLast(cfg: Config, es: seq<Event>, end: int)
    requires es != []
    ensures var last := |es| - 1;
            Outlasts(cfg, es, last, end) <==> BacksOffAt(es[last]) && BackoffEnd(cfg, es, last) >= end
  {
    hide BackoffEnd;
  }

  lemma {:induction false} SameEnd(cfg: Config, es: seq<Event>, i: nat)
    requires i < |es| - 1 && es[i].Answer?
    ensures BackoffEnd(cfg, es[..|es| - 1], i) == BackoffEnd(cfg, es, i)
  {
    assert es[..|es| - 1][..i] == es[..i];
  }

  predicate BacksOffAt(e: Event) {
    e.Answer? && BacksOff(e.status)
  }

  /** No request of any type is granted before the backoff a 429, 425 or 503 asked for has run out, unless it was reset
      or a later 429 or 503 replaced it by one that ends earlier. */
  lemma {:induction false} NoGrantDuringBackoff(cfg: Config, es: seq<Event>, i: nat, j: nat)
    requires i < j < |es| && es[i].Answer? && BacksOff(es[i].status)
    requires forall k :: i < k < j ==>
               es[k] != Reset && (Replaces(es[k]) ==> BackoffEnd(cfg, es, k) >= BackoffEnd(cfg, es, i))
    requires Granted(cfg, es, j)
    ensures es[j].now >= BackoffEnd(cfg, es, i)
  {
    var before := es[..j];
    forall k | i <= k < j && es[k].Answer?
      ensures BackoffEnd(cfg, before, k) == BackoffEnd(cfg, es, k)
    {
      assert before[..k] == es[..k];
    }
    BackoffLastsIff(cfg, before, i);
    assert Outlasts(cfg, before, i, BackoffEnd(cfg, es, i));
  }

  /** A 503 after a 429 may cut its backoff short. */
  lemma {:induction false} CutShort(cfg: Config, at: int)
    requires cfg.backoffBaseMs >= 4
    ensures var quarter := cfg.backoffBaseMs / 4;
            var es := [] + [Answer(429, at, quarter)] + [Answer(503, at, -quarter)];
            && JitterInRange(cfg.backoffBaseMs, quarter) && JitterInRange(cfg.backoffBaseMs, -quarter)
            && After(cfg, es).backoff.until < BackoffEnd(cfg, es, 0)
  {
    var quarter := cfg.backoffBaseMs / 4;
    var first := [Answer(429, at, quarter)];
    var es := [] + first + [Answer(503, at, -quarter)];
    assert es[..1] == first && es[..0] == [] && first[..0] == [];
    LastEvent(cfg, es);
    LastEvent(cfg, first);
    assert After(cfg, []).backoff == FreshBackoff(cfg);
    assert DelayBase(cfg, After(cfg, es[..1]).backoff, 503) == cfg.backoffBaseMs;
  }

  /** The delay is within a quarter of its base, so after `k` earlier 429s it lasts at least three quarters of the
      capped power of two. */
  lemma {:induction false} DelayBounds(cfg: Config, es: seq<Event>, i: nat)
    requires i < |es| && es[i].Answer? && es[i].status == 429
    requires JitterInRange(After(cfg, es[..i]).backoff.ladder429, es[i].jitter)
    requires 0 <= cfg.backoffBaseMs && 0 <= cfg.backoffMaxMs
    requires Since(es[..i], 429) > 0 || cfg.backoffBaseMs <= cfg.backoffMaxMs
    ensures var base := Min(cfg.backoffBaseMs * Pow2(Since(es[..i], 429)), cfg.backoffMaxMs);
            base - base / 4 <= (BackoffEnd(cfg, es, i) - es[i].at) / NS_PER_MS <= base + base / 4
  {
    var k := Since(es[..i], 429);
    BackoffFollows(cfg, es[..i]);
    LadderClosedForm(cfg.backoffBaseMs, cfg.backoffMaxMs, k);
    Pow2Positive(cfg.backoffBaseMs, k);
  }

  lemma {:induction false} Pow2Positive(b: int, k: nat)
    requires b >= 0
    ensures b * Pow2(k) >= b
  {
    if k > 0 {
      Pow2Positive(b, k - 1);
      assert b * Pow2(k) == 2 * (b * Pow2(k - 1));
    }
  }

  // ---------------------------------------------------------------------------
  // Latency pressure
  // ---------------------------------------------------------------------------

  function MeasureAll(samples: seq<int>): Rtt {
    if samples == [] then Rtt(0, 0, 0) else Measure(MeasureAll(samples[..|samples| - 1]), samples[|samples| - 1])
  }

  /** Past its first ten samples the baseline is fixed, and as long as no later sample exceeds three times the
      baseline the smoothed latency does not either. */
  lemma {:induction false} FastSamplesKeepRtt(samples: seq<int>)
    requires |samples| >= 10
    requires var base := MeasureAll(samples[..10]).baseline;
             base > 0 && forall k :: 10 <= k < |samples| ==> samples[k] <= 3 * base
    ensures var r := MeasureAll(samples);
            r.count == |samples| && r.baseline == MeasureAll(samples[..10]).baseline && r.ema <= 3 * r.baseline
  {
    CountsSamples(samples);
    if |samples| > 10 {
      var prefix := samples[..|samples| - 1];
      assert prefix[..10] == samples[..10];
      FastSamplesKeepRtt(prefix);
    } else {
      assert samples[..10] == samples;
      CountsSamples(samples[..9]);
    }
  }

  lemma {:induction false} CountsSamples(samples: seq<int>)
    ensures MeasureAll(samples).count == |samples|
  {
    if samples != [] {
      CountsSamples(samples[..|samples| - 1]);
    }
  }

  /** Latency marks the limiter degraded only after a sample above three times the baseline of the first ten. */
  lemma {:induction false} LatencyDegradedNeedsSlowSample(samples: seq<int>)
    requires LatencyDegraded(MeasureAll(samples))
    ensures |samples| >= 20
    ensures exists k :: 10 <= k < |samples| && samples[k] > 3 * MeasureAll(samples[..10]).baseline
  {
    CountsSamples(samples);
    BaselineFixed(samples);
    if forall k :: 10 <= k < |samples| ==> samples[k] <= 3 * MeasureAll(samples[..10]).baseline {
      FastSamplesKeepRtt(samples);
    }
  }

  lemma {:induction false} BaselineFixed(samples: seq<int>)
    requires |samples| >= 10
    ensures MeasureAll(samples).baseline == MeasureAll(samples[..10]).baseline
  {
    if |samples| == 10 {
      assert samples[..10] == samples;
    } else {
      assert samples[..|samples| - 1][..10] == samples[..10];
      BaselineFixed(samples[..|samples| - 1]);
      CountsSamples(samples[..|samples| - 1]);
    }
  }

  /** The remainder that a truncating division leaves. */
  lemma {:induction false} TruncRest(x: int, n: int)
    requires n > 0
    ensures -(n - 1) <= x - TruncDiv(x, n) * n <= n - 1
  {
  }

  lemma {:induction false} MeanStep(n: int, mean: int, sum: int, x: int)
    requires n > 0 && -(n - 1) * (n - 2) <= 2 * (sum - (n - 1) * mean) <= (n - 1) * (n - 2)
    ensures -n * (n - 1) <= 2 * (sum + x - n * TruncDiv(mean * (n - 1) + x, n)) <= n * (n - 1)
  {
    TruncRest(mean * (n - 1) + x, n);
    var q := TruncDiv(mean * (n - 1) + x, n);
    hide TruncDiv;
    var rest := mean * (n - 1) + x - q * n;
    assert sum + x - n * q == sum - (n - 1) * mean + rest;
    assert n * (n - 1) == (n - 1) * (n - 2) + 2 * (n - 1);
  }

  /** The baseline is the mean of the samples so far, up to ten of them, but for what the divisions cut off: at most
      half of one less than their number. */
  lemma {:induction false} BaselineIsMean(samples: seq<int>)
    requires |samples| <= 10
    ensures var n, r := |samples|, MeasureAll(samples);
            r.ema == r.baseline && -n * (n - 1) <= 2 * (Sum(samples) - n * r.baseline) <= n * (n - 1)
  {
    if samples != [] {
      var n, front := |samples|, samples[..|samples| - 1];
      BaselineIsMean(front);
      CountsSamples(front);
      assert samples == front + [samples[n - 1]];
      SumAppend(front, [samples[n - 1]]);
      assert Sum([samples[n - 1]]) == samples[n - 1];
      hide TruncDiv, Sum;
      MeanStep(n, MeasureAll(front).baseline, Sum(front), samples[n - 1]);
    }
  }

  /** A tenth of the newest sample and nine tenths of the average before, from the baseline of the first ten on. */
  function Smoothed(samples: seq<int>): real
    requires |samples| >= 10
  {
    if |samples| == 10 then MeasureAll(samples).baseline as real
    else 0.9 * Smoothed(samples[..|samples| - 1]) + 0.1 * (samples[|samples| - 1] as real)
  }

  /** One truncated step of the average loses less than the decay forgets. */
  lemma {:induction false} SmoothStep(ema: int, x: int, exact: real)
    requires -9.0 <= exact - ema as real <= 9.0
    ensures -9.0 <= 0.9 * exact + 0.1 * (x as real) - TruncDiv(ema * 9 + x, 10) as real <= 9.0
  {
    TruncRest(ema * 9 + x, 10);
    var e := TruncDiv(ema * 9 + x, 10);
    hide TruncDiv;
    assert -9.0 <= (ema * 9 + x - e * 10) as real <= 9.0;
  }

  /** The measured average is within nine nanoseconds of the exact one, however many samples there were. */
  lemma {:induction false} EmaIsSmoothed(samples: seq<int>)
    requires |samples| >= 10
    ensures -9.0 <= Smoothed(samples) - MeasureAll(samples).ema as real <= 9.0
  {
    if |samples| == 10 {
      BaselineIsMean(samples);
    } else {
      var front := samples[..|samples| - 1];
      EmaIsSmoothed(front);
      CountsSamples(front);
      SmoothStep(MeasureAll(front).ema, samples[|samples| - 1], Smoothed(front));
    }
  }

  /** From twenty samples on the latency is degraded when the exact average exceeds three baselines, give or take nine
      nanoseconds, and never earlier. */
  lemma {:induction false} LatencyDegradedNear(samples: seq<int>)
    ensures LatencyDegraded(MeasureAll(samples)) ==> |samples| >= 20
    ensures |samples| >= 20 ==>
              var base, average := MeasureAll(samples[..10]).baseline, Smoothed(samples);
              && (base > 0 && average > (3 * base + 9) as real ==> LatencyDegraded(MeasureAll(samples)))
              && (LatencyDegraded(MeasureAll(samples)) ==> base > 0 && average > (3 * base - 9) as real)
  {
    CountsSamples(samples);
    if |samples| >= 20 {
      BaselineFixed(samples);
      EmaIsSmoothed(samples);
      hide MeasureAll, Smoothed;
    }
  }
}
