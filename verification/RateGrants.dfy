/**
 When the rate limiter grants a request, in terms of the run's events and of what a window alone would do with the calls
 that reach it.
 */
module RateGrants {
  import opened Common
  import opened RateWindow
  import opened RateLimits
  import opened RateBackoff
  import RateRefusal

  /** The delay that a response asks for, before its jitter: the 429 and 425 ladders climb with the responses of their
      kind since the last 2xx or reset. */
  function DelayAsked(cfg: Config, before: seq<Event>, status: int): int {
    if status == 429 then Ladder(cfg.backoffBaseMs, cfg.backoffMaxMs, Since(before, 429))
    else if status == 425 then Ladder(BASE_425_MS, cfg.backoffMaxMs, Since(before, 425))
    else cfg.backoffBaseMs
  }

  /** The end of the backoff in force after a run: what the last 429 or 503 asked for, or a later 425 if that is
      later. */
  function EndInForce(cfg: Config, es: seq<Event>): int {
    if es == [] then 0
    else
      var before := es[..|es| - 1];
      match es[|es| - 1]
      case Reset => 0
      case Answer(status, at, jitter) =>
        var end := at + Jittered(DelayAsked(cfg, before, status), jitter) * NS_PER_MS;
        if status == 429 || status == 503 then end
        else if status == 425 then Max(EndInForce(cfg, before), end)
        else EndInForce(cfg, before)
      case _ => EndInForce(cfg, before)
  }

  lemma {:induction false} EndFollows(cfg: Config, es: seq<Event>)
    ensures After(cfg, es).backoff.until == EndInForce(cfg, es)
  {
    if es != [] {
      var before, e := es[..|es| - 1], es[|es| - 1];
      EndFollows(cfg, before);
      BackoffFollows(cfg, before);
      AcquireKeepsBackoff(After(cfg, before), e);
      hide Acquire, Measure, Jittered, Ladder, Since;
    }
  }

  predicate Places(t: IntentType) {
    t == PlaceOrder || t == ReplaceOrder
  }

  /** Orders share a window, and so do cancels. */
  predicate Alike(t: IntentType, u: IntentType) {
    t == u || (Places(t) && Places(u)) || (t in {CancelOrder, CancelAll} && u in {CancelOrder, CancelAll})
  }

  function OwnLimit(cfg: Config, t: IntentType): int {
    if Places(t) then cfg.orderLimit else if t == IntentType.Heartbeat then cfg.heartbeatLimit else cfg.cancelLimit
  }

  /** The last event of a run asks for a request when no backoff is in force and, if it places an order, the exchange
      has not said since the last 2xx or reset that it is unavailable. */
  predicate Admitted(cfg: Config, es: seq<Event>) {
    es != [] &&
    var before, e := es[..|es| - 1], es[|es| - 1];
    e.Ask? && e.now >= EndInForce(cfg, before) && (Places(e.t) ==> Since(before, 503) == 0)
  }

  /** The times of all admitted requests. */
  function Reaching(cfg: Config, es: seq<Event>): seq<int> {
    if es == [] then []
    else Reaching(cfg, es[..|es| - 1]) + if Admitted(cfg, es) then [es[|es| - 1].now] else []
  }

  /** The times of the admitted requests like `t` that the global window granted. */
  function ReachingOwn(cfg: Config, es: seq<Event>, t: IntentType): seq<int> {
    if es == [] then []
    else
      var before, e := es[..|es| - 1], es[|es| - 1];
      var reaches :=
        Admitted(cfg, es) && Alike(t, e.t) && RateRefusal.Grants(cfg.globalLimit, Reaching(cfg, before), e.now);
      ReachingOwn(cfg, before, t) + if reaches then [e.now] else []
  }

  lemma {:induction false} AdmittedIsOpen(cfg: Config, es: seq<Event>)
    requires es != []
    ensures Admitted(cfg, es) <==> ReachesGlobal(After(cfg, es[..|es| - 1]), es[|es| - 1])
  {
    EndFollows(cfg, es[..|es| - 1]);
    BackoffFollows(cfg, es[..|es| - 1]);
    hide After, Ladder, Since, EndInForce;
  }

  lemma {:induction false} ReachingIsGlobal(cfg: Config, es: seq<Event>)
    ensures Reaching(cfg, es) == GlobalCalls(cfg, es)
  {
    if es != [] {
      ReachingIsGlobal(cfg, es[..|es| - 1]);
      AdmittedIsOpen(cfg, es);
      hide Admitted, ReachesGlobal, After;
    }
  }

  lemma {:induction false} AlikeIsClass(cfg: Config, t: IntentType, u: IntentType)
    ensures Alike(t, u) <==> ClassOf(u) == ClassOf(t)
    ensures OwnLimit(cfg, t) == LimitOf(cfg, ClassOf(t))
  {
  }

  /** What the global window of a run does with one more call. */
  lemma {:induction false} GlobalGrants(cfg: Config, es: seq<Event>, now: int)
    ensures RateRefusal.Grants(cfg.globalLimit, Reaching(cfg, es), now) <==> Consume(After(cfg, es).all, now).1
  {
    ReachingIsGlobal(cfg, es);
    WindowsFollow(cfg, es, Orders);
    RateRefusal.GrantsIsConsume(cfg.globalLimit, Reaching(cfg, es), now);
    hide After, Consume, RateRefusal.Grants, RateWindow.Run, Reaching, GlobalCalls;
  }

  lemma {:induction false} ReachingIsClass(cfg: Config, es: seq<Event>, t: IntentType)
    ensures ReachingOwn(cfg, es, t) == ClassCalls(cfg, es, ClassOf(t))
  {
    if es != [] {
      var before, e := es[..|es| - 1], es[|es| - 1];
      ReachingIsClass(cfg, before, t);
      AdmittedIsOpen(cfg, es);
      if e.Ask? {
        AlikeIsClass(cfg, t, e.t);
        GlobalGrants(cfg, before, e.now);
      }
      hide After, Consume, RateRefusal.Grants, ClassOf, Alike, Reaching;
    }
  }

  /** What the window of its kind does with one more request. */
  lemma {:induction false} OwnGrants(cfg: Config, es: seq<Event>, t: IntentType, now: int)
    ensures RateRefusal.Grants(OwnLimit(cfg, t), ReachingOwn(cfg, es, t), now)
            <==> Consume(WindowOf(After(cfg, es), ClassOf(t)), now).1
  {
    ReachingIsClass(cfg, es, t);
    AlikeIsClass(cfg, t, t);
    WindowsFollow(cfg, es, ClassOf(t));
    RateRefusal.GrantsIsConsume(OwnLimit(cfg, t), ReachingOwn(cfg, es, t), now);
    hide After, Consume, RateRefusal.Grants, RateWindow.Run, ReachingOwn, ClassCalls, ClassOf, OwnLimit, LimitOf;
    hide WindowOf;
  }

  /** A request is granted if and only if no backoff is in force, the exchange has not said since the last 2xx or reset
      that it is unavailable or no order is placed, and both the global window and that of its kind have room, each
      having seen the calls that reached it and no others. */
  lemma {:induction false} GrantedIff(cfg: Config, es: seq<Event>, i: nat)
    requires i < |es| && es[i].Ask?
    ensures var t, now, before := es[i].t, es[i].now, es[..i];
            Granted(cfg, es, i) <==>
              && now >= EndInForce(cfg, before)
              && (t == PlaceOrder || t == ReplaceOrder ==> Since(before, 503) == 0)
              && RateRefusal.Grants(cfg.globalLimit, Reaching(cfg, before), now)
              && RateRefusal.Grants(OwnLimit(cfg, t), ReachingOwn(cfg, before, t), now)
  {
    var t, now, before := es[i].t, es[i].now, es[..i];
    var upTo := before + [es[i]];
    assert upTo[..|upTo| - 1] == before && upTo[|upTo| - 1] == es[i];
    AdmittedIsOpen(cfg, upTo);
    GlobalGrants(cfg, before, now);
    OwnGrants(cfg, before, t, now);
    hide After, Consume, RateRefusal.Grants, Reaching, ReachingOwn, OwnLimit, EndInForce, Since;
  }

  ghost predicate ClockStarted(es: seq<Event>) {
    forall i :: 0 <= i < |es| && es[i].Ask? ==> es[i].now > 0
  }

  /** The calls of a run, and the next one, are times of a clock that has started and never goes back. */
  lemma {:induction false} CallsAreClock(cfg: Config, es: seq<Event>, i: nat, c: Class)
    requires i < |es| && es[i].Ask? && ClockForward(es) && ClockStarted(es)
    ensures Sorted(GlobalCalls(cfg, es[..i]) + [es[i].now]) && 0 !in GlobalCalls(cfg, es[..i]) + [es[i].now]
    ensures Sorted(ClassCalls(cfg, es[..i], c) + [es[i].now]) && 0 !in ClassCalls(cfg, es[..i], c) + [es[i].now]
  {
    var before, now := es[..i], es[i].now;
    CallsAreAsks(cfg, before, c);
    forall t | t in GlobalCalls(cfg, before) || t in ClassCalls(cfg, before, c)
      ensures 0 < t <= now
    {
      var k :| 0 <= k < |before| && before[k].Ask? && before[k].now == t;
      assert es[k].Ask? && es[k].now == t;
    }
    SortedAppend(GlobalCalls(cfg, before), now);
    SortedAppend(ClassCalls(cfg, before, c), now);
    hide GlobalCalls, ClassCalls, Sorted;
  }

  lemma {:induction false} GlobalHasRoom(cfg: Config, es: seq<Event>, i: nat)
    requires i < |es| && es[i].Ask? && ClockForward(es) && ClockStarted(es)
    requires var log, ms := RateWindow.Run(cfg.globalLimit, Reaching(cfg, es[..i])).log, Ms(es[i].now);
             Count(log, ms - RateRefusal.MEMORY_MS, ms) < cfg.globalLimit
    ensures RateRefusal.Grants(cfg.globalLimit, Reaching(cfg, es[..i]), es[i].now)
  {
    hide *;
    CallsAreClock(cfg, es, i, Orders);
    ReachingIsGlobal(cfg, es[..i]);
    if !RateRefusal.Grants(cfg.globalLimit, Reaching(cfg, es[..i]), es[i].now) {
      RateRefusal.RefusedIsBusy(cfg.globalLimit, Reaching(cfg, es[..i]), es[i].now);
    }
  }

  lemma {:induction false} OwnHasRoom(cfg: Config, es: seq<Event>, i: nat)
    requires i < |es| && es[i].Ask? && ClockForward(es) && ClockStarted(es)
    requires var log, ms := ClassGrants(cfg, es[..i], ClassOf(es[i].t)), Ms(es[i].now);
             Count(log, ms - RateRefusal.MEMORY_MS, ms) < OwnLimit(cfg, es[i].t)
    ensures RateRefusal.Grants(OwnLimit(cfg, es[i].t), ReachingOwn(cfg, es[..i], es[i].t), es[i].now)
  {
    hide *;
    var t := es[i].t;
    CallsAreClock(cfg, es, i, ClassOf(t));
    ReachingIsClass(cfg, es[..i], t);
    WindowsFollow(cfg, es[..i], ClassOf(t));
    AlikeIsClass(cfg, t, t);
    if !RateRefusal.Grants(OwnLimit(cfg, t), ReachingOwn(cfg, es[..i], t), es[i].now) {
      RateRefusal.RefusedIsBusy(OwnLimit(cfg, t), ReachingOwn(cfg, es[..i], t), es[i].now);
    }
  }

  /** Outside a backoff, and unless it places an order with an unavailable exchange, a request is refused only if the
      18990 ms before it hold the global limit of calls that the global window granted, or its own limit of grants of
      its kind. */
  lemma {:induction false} QuietMeansGranted(cfg: Config, es: seq<Event>, i: nat)
    requires i < |es| && es[i].Ask? && ClockForward(es) && ClockStarted(es)
    requires es[i].now >= EndInForce(cfg, es[..i]) && (Places(es[i].t) ==> Since(es[..i], 503) == 0)
    requires var lo, hi := Ms(es[i].now) - RateRefusal.MEMORY_MS, Ms(es[i].now);
             && Count(RateWindow.Run(cfg.globalLimit, Reaching(cfg, es[..i])).log, lo, hi) < cfg.globalLimit
             && Count(ClassGrants(cfg, es[..i], ClassOf(es[i].t)), lo, hi) < OwnLimit(cfg, es[i].t)
    ensures Granted(cfg, es, i)
  {
    GrantedIff(cfg, es, i);
    GlobalHasRoom(cfg, es, i);
    OwnHasRoom(cfg, es, i);
    hide Granted, Reaching, ReachingOwn, OwnLimit, EndInForce, Since, ClassGrants, Count, Ms, RateRefusal.Grants;
  }

  /** The limiter is degraded if and only if the configured number of 429s has arrived since the last 2xx or reset, or
      its latency is. */
  lemma {:induction false} DegradedIff(cfg: Config, es: seq<Event>)
    ensures Degraded(After(cfg, es)) <==> Since(es, 429) >= cfg.max429 || LatencyDegraded(MeasureAll(Samples(es)))
  {
    BackoffFollows(cfg, es);
    RttFollows(cfg, es);
    hide After, MeasureAll, Since, Ladder;
  }

  /** The latencies measured in a run. */
  function Samples(es: seq<Event>): seq<int> {
    if es == [] then []
    else Samples(es[..|es| - 1]) + if es[|es| - 1].Sample? then [es[|es| - 1].ns] else []
  }

  lemma {:induction false} RttFollows(cfg: Config, es: seq<Event>)
    ensures After(cfg, es).rtt == MeasureAll(Samples(es))
  {
    if es != [] {
      var before, e := es[..|es| - 1], es[|es| - 1];
      RttFollows(cfg, before);
      if e.Sample? {
        assert Samples(es)[..|Samples(es)| - 1] == Samples(before);
      } else {
        assert Samples(es) == Samples(before);
      }
      hide Respond, Measure, Consume;
    }
  }
}
