/**
 The market rotation handshake as a state machine.  The coordinator (T7) runs `execute_rotation`, the main loop and
 the shutdown of `run`, one shared access or callback per step; the strategy thread (T2) acknowledges a pause and a
 resume; stop flags may be raised at any time and are never cleared; the clock moves forward.
 */
module Rotation {
  import opened Common

  type Market = string  // a condition id; "" is no market

  datatype Phase = Normal | PauseRequested | Paused | ResumeRequested

  function Next(p: Phase): Phase {
    match p
    case Normal => PauseRequested
    case PauseRequested => Paused
    case Paused => ResumeRequested
    case ResumeRequested => Normal
  }

  /** Where the coordinator is. */
  datatype Pc =
    | MainTop                      // the loop condition and its sleep
    | MainBody                     // rotate, or housekeeping
    | Initiate                     // step 1 of a rotation
    | AwaitPause
    | CheckStop
    | StopFeeds                    // step 3
    | Drain(waited: nat)           // step 4
    | RegisterNext                 // step 5
    | QueueRedeem                  // step 5.5
    | Swap                         // step 6
    | StartFeeds                   // steps 7 and 8
    | SetTiming                    // step 9
    | RequestResume                // step 10
    | AwaitResume
    | Shutdown
    | ShutdownWait(tries: nat)
    | Done

  /** A redeem to fire once its time has come; `id` and `queuedAt` say which it is and when it was queued. */
  datatype Redeem = Redeem(id: nat, market: Market, queuedAt: int, fireAt: int)

  datatype Act = StoppedFeeds | Registered(market: Market) | Swapped(outgoing: Market)
      | StartedFeeds(markets: seq<Market>) | WroteTiming

  /** What has happened so far: the phase changes, the rotation's callbacks with the phase they ran in, the queued
      redeems and the fired ones. */
  datatype History = History(phases: seq<Phase>, acts: seq<(Act, Phase)>, queued: seq<Redeem>, fired: seq<(nat, int)>)

  datatype State = State(
    pc: Pc, phase: Phase, stop: bool, fatal: bool, clock: int,
    current: Market, next: Option<Market>, planned: Market, registered: set<Market>,
    pending: seq<Redeem>, rotations: nat, history: History)

  const DRAIN_TIMEOUT_MS: nat := 3000
  const DRAIN_POLL_MS: nat := 10
  const REDEEM_DELAY_MS: int := 180000
  const SHUTDOWN_TRIES: nat := 100

  /** The coordinator enters its main loop with the current and the next market registered. */
  ghost predicate Init(s: State) {
    && s.pc.MainTop? && s.phase.Normal? && s.current in s.registered
    && (s.next.Some? ==> s.next.value in s.registered)
    && s.pending == [] && s.rotations == 0 && s.history == History([Normal], [], [], [])
  }

  // ---------------------------------------------------------------------------
  // Steps
  // ---------------------------------------------------------------------------

  function SetPhase(s: State, p: Phase): State {
    s.(phase := p, history := s.history.(phases := s.history.phases + [p]))
  }

  function Log(s: State, a: Act): State {
    s.(history := s.history.(acts := s.history.acts + [(a, s.phase)]))
  }

  predicate Ripe(r: Redeem, now: int) {
    now >= r.fireAt
  }

  /** The redeems that stay, and those that fire, in queue order. */
  function Unripe(rs: seq<Redeem>, now: int): seq<Redeem> {
    if rs == [] then [] else (if Ripe(rs[0], now) then [] else [rs[0]]) + Unripe(rs[1..], now)
  }

  function Firings(rs: seq<Redeem>, now: int): seq<(nat, int)> {
    if rs == [] then [] else (if Ripe(rs[0], now) then [(rs[0].id, now)] else []) + Firings(rs[1..], now)
  }

  /** The erase-while-iterating loop over the pending redeems. */
  method FireMatured(pending: seq<Redeem>, now: int) returns (left: seq<Redeem>, fired: seq<(nat, int)>)
    ensures left == Unripe(pending, now) && fired == Firings(pending, now)
  {
    left, fired := pending, [];
    var i := 0;
    while i < |left|
      invariant 0 <= i <= |left|
      invariant left[..i] + Unripe(left[i..], now) == Unripe(pending, now)
      invariant fired + Firings(left[i..], now) == Firings(pending, now)
      decreases |left| - i
    {
      assert left[i..][1..] == left[i + 1..];
      if now >= left[i].fireAt {
        fired := fired + [(left[i].id, now)];
        ghost var tail := left[i + 1..];
        left := left[..i] + left[i + 1..];
        assert left[i..] == tail;
      } else {
        assert left[..i + 1] == left[..i] + [left[i]];
        i := i + 1;
      }
    }
    assert left[..i] == left && left[i..] == [];
  }

  /** What the environment decides in a coordinator step: whether the executor queue is drained, whether the window is
      about to end, which market discovery finds, and whether redeems can be fired. */
  datatype Choice = Choice(drained: bool, due: bool, found: Option<Market>, canFire: bool)

  /** One step of the main loop's body: a rotation when the window ends and a next market is known, otherwise matured
      redeems fire and discovery may find and register a next market. */
  function MainStep(s: State, c: Choice): State {
    if c.due && s.next.Some? then
      s.(pc := Initiate, planned := if c.found.Some? then c.found.value else "")
    else
      var s1 := if c.canFire then
                  s.(pending := Unripe(s.pending, s.clock),
                     history := s.history.(fired := s.history.fired + Firings(s.pending, s.clock)))
                else s;
      if s.next.None? && c.found.Some? && c.found.value != s.current then
        s1.(pc := MainTop, next := c.found, registered := s1.registered + {c.found.value})
      else
        s1.(pc := MainTop)
  }

  predicate BeforeSwap(pc: Pc) {
    pc.Initiate? || pc.AwaitPause? || pc.CheckStop? || pc.StopFeeds? || pc.Drain? || pc.RegisterNext?
        || pc.QueueRedeem? || pc.Swap?
  }

  /** The rotation up to its swap: pause the strategy, stop the feeds, drain the executor, register the planned market,
      queue the outgoing market's redeem and swap. */
  function Prepare(s: State, c: Choice): State {
    match s.pc
    case Initiate => SetPhase(s, PauseRequested).(pc := AwaitPause)
    case AwaitPause => if s.stop || s.phase.Paused? then s.(pc := CheckStop) else s
    case CheckStop => if s.stop then s.(pc := MainTop) else s.(pc := StopFeeds)
    case StopFeeds => Log(s, StoppedFeeds).(pc := Drain(0))
    case Drain(waited) =>
      if waited >= DRAIN_TIMEOUT_MS || c.drained then s.(pc := RegisterNext)
      else if s.stop || s.fatal then s.(pc := MainTop)
      else s.(pc := Drain(waited + DRAIN_POLL_MS))
    case RegisterNext =>
      if s.planned == "" then s.(pc := QueueRedeem)
      else Log(s, Registered(s.planned)).(pc := QueueRedeem, registered := s.registered + {s.planned})
    case QueueRedeem =>
      if s.current == "" then s.(pc := Swap)
      else
        var r := Redeem(|s.history.queued|, s.current, s.clock, s.clock + REDEEM_DELAY_MS);
        s.(pc := Swap, pending := s.pending + [r], history := s.history.(queued := s.history.queued + [r]))
    case Swap =>
      if s.next.None? then s  // the main loop starts a rotation only with a next market
      else
        Log(s, Swapped(s.current)).(pc := StartFeeds, current := s.next.value,
                                    next := if s.planned == "" then None else Some(s.planned))
    case _ => s
  }

  /** The rotation after its swap, and the shutdown. */
  function Finish(s: State): State {
    match s.pc
    case StartFeeds =>
      Log(s, StartedFeeds([s.current] + if s.next.Some? then [s.next.value] else [])).(pc := SetTiming)
    case SetTiming => Log(s, WroteTiming).(pc := RequestResume, rotations := s.rotations + 1)
    case RequestResume => SetPhase(s, ResumeRequested).(pc := AwaitResume)
    case AwaitResume => if s.stop || s.phase.Normal? then s.(pc := MainTop) else s
    case Shutdown =>
      if s.phase.Normal? then SetPhase(s, PauseRequested).(pc := ShutdownWait(0)) else s.(pc := Done)
    case ShutdownWait(tries) =>
      if tries >= SHUTDOWN_TRIES then s.(pc := Done)
      else if s.phase.Paused? then SetPhase(s, ResumeRequested).(pc := Done)
      else s.(pc := ShutdownWait(tries + 1))
    case _ => s
  }

  /** One step of the coordinator. */
  function Coordinator(s: State, c: Choice): State {
    if s.pc.MainTop? then s.(pc := if s.stop || s.fatal then Shutdown else MainBody)
    else if s.pc.MainBody? then MainStep(s, c)
    else if BeforeSwap(s.pc) then Prepare(s, c)
    else Finish(s)
  }

  datatype Step = Coordinate(choice: Choice) | Acknowledge | RaiseStop | RaiseFatal | Tick(ms: nat)

  /** The strategy thread makes only the steps 1->2 and 3->0. */
  function Apply(s: State, step: Step): State {
    match step
    case Coordinate(c) => Coordinator(s, c)
    case Acknowledge =>
      if s.phase.PauseRequested? || s.phase.ResumeRequested? then SetPhase(s, Next(s.phase)) else s
    case RaiseStop => s.(stop := true)
    case RaiseFatal => s.(fatal := true)
    case Tick(ms) => s.(clock := s.clock + ms)
  }

  function Run(s: State, steps: seq<Step>): State {
    if steps == [] then s else Apply(Run(s, steps[..|steps| - 1]), steps[|steps| - 1])
  }

  // ---------------------------------------------------------------------------
  // The invariant
  // ---------------------------------------------------------------------------

  /** Which phases are possible at each point of the coordinator. */
  ghost predicate PhaseFits(s: State) {
    match s.pc
    case MainTop => s.phase.Normal? || s.stop || s.fatal
    case MainBody => s.phase.Normal?
    case Initiate => s.phase.Normal?
    case AwaitPause => s.phase.PauseRequested? || s.phase.Paused?
    case CheckStop => s.phase.Paused? || (s.stop && s.phase.PauseRequested?)
    case AwaitResume => s.phase.ResumeRequested? || s.phase.Normal?
    case Shutdown => true
    case ShutdownWait(_) => s.phase.PauseRequested? || s.phase.Paused?
    case Done => true
    case _ => s.phase.Paused?
  }

  /** Every market the engine follows, or is about to follow, is registered. */
  ghost predicate MarketsFit(s: State) {
    && s.current in s.registered
    && (s.next.Some? ==> s.next.value in s.registered)
    && (BeforeSwap(s.pc) ==> s.next.Some?)
    && ((s.pc.QueueRedeem? || s.pc.Swap?) && s.planned != "" ==> s.planned in s.registered)
  }

  ghost predicate Follows(ps: seq<Phase>) {
    forall i :: 0 < i < |ps| ==> ps[i] == Next(ps[i - 1])
  }

  /** The phase history is the cycle up to the present phase, everything a rotation did was done while the strategy was
      paused, and feeds were started only for registered markets. */
  ghost predicate HistoryFits(phase: Phase, h: History, registered: set<Market>) {
    && |h.phases| > 0 && h.phases[0].Normal? && h.phases[|h.phases| - 1] == phase && Follows(h.phases)
    && (forall i :: 0 <= i < |h.acts| ==> h.acts[i].1.Paused?)
    && (forall i, m :: 0 <= i < |h.acts| && h.acts[i].0.StartedFeeds? && m in h.acts[i].0.markets ==> m in registered)
  }

  ghost predicate Inv(s: State) {
    PhaseFits(s) && MarketsFit(s) && HistoryFits(s.phase, s.history, s.registered)
  }

  lemma {:induction false} PrepareKeepsPhases(s: State, c: Choice)
    requires PhaseFits(s) && MarketsFit(s) && BeforeSwap(s.pc)
    ensures PhaseFits(Prepare(s, c))
  {
  }

  lemma {:induction false} CoordinatorKeepsPhases(s: State, c: Choice)
    requires PhaseFits(s) && MarketsFit(s)
    ensures PhaseFits(Coordinator(s, c))
  {
    if s.pc.MainBody? {
      MainStepEffect(s, c);
    } else if BeforeSwap(s.pc) {
      PrepareKeepsPhases(s, c);
    }
    hide MainStep, Prepare, MarketsFit;
  }

  /** What the main loop's body can change. */
  lemma {:induction false} MainStepEffect(s: State, c: Choice)
    requires MarketsFit(s)
    ensures var r := MainStep(s, c);
            && (r.pc.MainTop? || (r.pc.Initiate? && r.next.Some?)) && r.phase == s.phase && MarketsFit(r)
            && r.history.phases == s.history.phases && r.history.acts == s.history.acts
                && r.history.queued == s.history.queued
  {
    hide Unripe, Firings;
  }

  lemma {:induction false} PrepareKeepsMarkets(s: State, c: Choice)
    requires MarketsFit(s) && BeforeSwap(s.pc)
    ensures MarketsFit(Prepare(s, c))
  {
  }

  lemma {:induction false} CoordinatorKeepsMarkets(s: State, c: Choice)
    requires MarketsFit(s)
    ensures MarketsFit(Coordinator(s, c))
  {
    if s.pc.MainBody? {
      MainStepEffect(s, c);
    } else if BeforeSwap(s.pc) {
      PrepareKeepsMarkets(s, c);
    }
    hide MainStep, Prepare;
  }

  lemma {:induction false} PhaseStep(phase: Phase, h: History, registered: set<Market>)
    requires HistoryFits(phase, h, registered)
    ensures HistoryFits(Next(phase), h.(phases := h.phases + [Next(phase)]), registered)
  {
  }

  lemma {:induction false} ActStep(h: History, registered: set<Market>, a: Act)
    requires HistoryFits(Paused, h, registered) && (a.StartedFeeds? ==> forall m :: m in a.markets ==> m in registered)
    ensures HistoryFits(Paused, h.(acts := h.acts + [(a, Paused)]), registered)
  {
  }

  lemma {:induction false} RedeemStep(phase: Phase, h: History, registered: set<Market>, q: seq<Redeem>, f: seq<(nat,
      int)>, m: Market)
    requires HistoryFits(phase, h, registered)
    ensures HistoryFits(phase, h.(queued := q), registered) && HistoryFits(phase, h.(fired := f), registered)
    ensures HistoryFits(phase, h, registered + {m}) && HistoryFits(phase, h.(fired := f), registered + {m})
  {
  }

  lemma {:induction false} CoordinatorKeepsHistory(s: State, c: Choice)
    requires Inv(s)
    ensures var r := Coordinator(s, c);
            HistoryFits(r.phase, r.history, r.registered)
  {
    hide HistoryFits, Unripe, Firings;
    var h, reg := s.history, s.registered;
    PhaseStep(s.phase, h, reg);
    match s.pc
    case MainBody =>
      RedeemStep(s.phase, h, reg, h.queued, h.fired + Firings(s.pending, s.clock),
                 if c.found.Some? then c.found.value else "");
    case StopFeeds => ActStep(h, reg, StoppedFeeds);
    case RegisterNext =>
      ActStep(h, reg, Registered(s.planned));
      RedeemStep(s.phase, h.(acts := h.acts + [(Registered(s.planned), Paused)]), reg, h.queued, h.fired, s.planned);
    case QueueRedeem =>
      RedeemStep(s.phase, h, reg,
                 h.queued + [Redeem(|h.queued|, s.current, s.clock, s.clock + REDEEM_DELAY_MS)], h.fired, "");
    case Swap => ActStep(h, reg, Swapped(s.current));
    case StartFeeds => ActStep(h, reg, StartedFeeds([s.current] + if s.next.Some? then [s.next.value] else []));
    case SetTiming => ActStep(h, reg, WroteTiming);
    case _ =>
  }

  lemma {:induction false} StepKeepsInv(s: State, step: Step)
    requires Inv(s)
    ensures Inv(Apply(s, step))
  {
    match step
    case Coordinate(c) =>
      CoordinatorKeepsPhases(s, c);
      CoordinatorKeepsMarkets(s, c);
      CoordinatorKeepsHistory(s, c);
    case Acknowledge => PhaseStep(s.phase, s.history, s.registered);
    case _ =>
  }

  /** In every reachable state: the phases have gone round the cycle, every swap, registration, feed restart and timing
      write of a rotation ran while the strategy was paused, and every market whose feeds were started was registered.
      */
  lemma {:induction false} Reachable(s: State, steps: seq<Step>)
    requires Init(s)
    ensures Inv(Run(s, steps))
  {
    if steps != [] {
      Reachable(s, steps[..|steps| - 1]);
      StepKeepsInv(Run(s, steps[..|steps| - 1]), steps[|steps| - 1]);
    }
  }

  /** The history only grows, so what it records happened in this order. */
  lemma {:induction false} PhaseChangesAlternate(s: State, step: Step)
    requires Inv(s)
    ensures Apply(s, step).phase != s.phase ==> Apply(s, step).phase == Next(s.phase)
    ensures (step.Coordinate? && Apply(s, step).phase != s.phase) ==> s.phase.Normal? || s.phase.Paused?
  {
    hide Unripe, Firings, HistoryFits;
  }

  // ---------------------------------------------------------------------------
  // How the coordinator leaves the strategy
  // ---------------------------------------------------------------------------

  /** The strategy is paused, or about to be, with nobody left to resume it but the coordinator. */
  predicate PausedSide(p: Phase) {
    p.PauseRequested? || p.Paused?
  }

  /** The coordinator gives up what it asked the strategy to pause for: a rotation that a stop ends before its feeds are
      stopped, one that a stop or a fatal error ends while draining, and the last pause when nobody answers it. */
  predicate Abandons(s: State, step: Step) {
    step.Coordinate? &&
    match s.pc
    case CheckStop => s.stop
    case Drain(waited) => waited < DRAIN_TIMEOUT_MS && !step.choice.drained && (s.stop || s.fatal)
    case ShutdownWait(tries) => tries >= SHUTDOWN_TRIES
    case _ => false
  }

  predicate Abandoned(s: State, steps: seq<Step>) {
    steps != [] && (Abandoned(s, steps[..|steps| - 1]) || Abandons(Run(s, steps[..|steps| - 1]), steps[|steps| - 1]))
  }

  /** Outside a rotation the phase is on the paused side exactly after an abandoned pause; inside there was none. */
  ghost predicate SideFits(pc: Pc, phase: Phase, abandoned: bool) {
    if pc.MainTop? || pc.Shutdown? || pc.Done? then abandoned <==> PausedSide(phase) else !abandoned
  }

  lemma {:induction false} PrepareSide(s: State, c: Choice)
    requires PhaseFits(s) && BeforeSwap(s.pc) && s.next.Some? && SideFits(s.pc, s.phase, false)
    ensures var r := Prepare(s, c);
            SideFits(r.pc, r.phase, Abandons(s, Coordinate(c)))
  {
  }

  lemma {:induction false} StepSide(s: State, step: Step, abandoned: bool)
    requires PhaseFits(s) && MarketsFit(s) && SideFits(s.pc, s.phase, abandoned)
    ensures var r := Apply(s, step);
            SideFits(r.pc, r.phase, abandoned || Abandons(s, step))
  {
    if step.Coordinate? {
      if s.pc.MainBody? {
        MainStepEffect(s, step.choice);
      } else if BeforeSwap(s.pc) {
        PrepareSide(s, step.choice);
      }
      hide MainStep, Prepare, MarketsFit;
    }
  }

  lemma {:induction false} RunSide(s: State, steps: seq<Step>)
    requires Init(s)
    ensures SideFits(Run(s, steps).pc, Run(s, steps).phase, Abandoned(s, steps))
  {
    if steps != [] {
      var front := steps[..|steps| - 1];
      RunSide(s, front);
      Reachable(s, front);
      hide SideFits, HistoryFits, PhaseFits, MarketsFit;
      StepSide(Run(s, front), steps[|steps| - 1], Abandoned(s, front));
    }
  }

  lemma {:induction false} DoneStays(s: State, steps: seq<Step>)
    requires s.pc.Done?
    ensures Run(s, steps).pc.Done? && (PausedSide(Run(s, steps).phase) <==> PausedSide(s.phase))
  {
    if steps != [] {
      DoneStays(s, steps[..|steps| - 1]);
    }
  }

  /** A coordinator that has ended leaves the strategy paused for good, whatever happens later, if and only if on its
      way it abandoned a pause; otherwise the strategy runs or has been asked to. */
  lemma {:induction false} LeftPausedIff(s: State, steps: seq<Step>, later: seq<Step>)
    requires Init(s) && Run(s, steps).pc.Done?
    ensures var r := Run(Run(s, steps), later);
            r.pc.Done? && (PausedSide(r.phase) <==> Abandoned(s, steps))
  {
    RunSide(s, steps);
    DoneStays(Run(s, steps), later);
  }

  lemma {:induction false} RunOne(s: State, steps: seq<Step>, step: Step)
    ensures Run(s, steps + [step]) == Apply(Run(s, steps), step)
  {
    assert (steps + [step])[..|steps|] == steps;
  }

  const DUE := Coordinate(Choice(false, true, None, false))

  /** The coordinator has asked for a pause, and a stop comes before the strategy has answered. */
  const STOPPED_EARLY := [] + [DUE] + [DUE] + [DUE] + [RaiseStop] + [DUE] + [DUE] + [DUE] + [DUE]

  /** From every start with a next market and no flag raised the coordinator can end with the strategy left paused. */
  lemma {:induction false} LeftPaused(s: State)
    requires Init(s) && s.next.Some? && !s.stop && !s.fatal
    ensures var r := Run(s, STOPPED_EARLY);
            r.pc.Done? && r.phase.PauseRequested? && Abandoned(s, STOPPED_EARLY)
  {
    var c := DUE.choice;
    var before := [] + [DUE] + [DUE] + [DUE];
    RunOne(s, [], DUE);
    RunOne(s, [] + [DUE], DUE);
    RunOne(s, [] + [DUE] + [DUE], DUE);
    RunOne(s, before, RaiseStop);
    RunOne(s, before + [RaiseStop], DUE);
    RunOne(s, before + [RaiseStop] + [DUE], DUE);
    RunOne(s, before + [RaiseStop] + [DUE] + [DUE], DUE);
    RunOne(s, before + [RaiseStop] + [DUE] + [DUE] + [DUE], DUE);
    assert Run(s, []) == s;
    RunSide(s, STOPPED_EARLY);
    hide Run, Abandoned, Unripe, Firings, HistoryFits;
    var r3 := Run(s, before);
    assert r3.pc.AwaitPause? && r3.phase.PauseRequested? && !r3.stop && !r3.fatal;
    var r4 := Run(s, before + [RaiseStop]);
    assert r4 == r3.(stop := true);
  }

  // ---------------------------------------------------------------------------
  // Redeems
  // ---------------------------------------------------------------------------

  function PendingIds(rs: seq<Redeem>): seq<nat> {
    if rs == [] then [] else [rs[0].id] + PendingIds(rs[1..])
  }

  function FiredIds(fs: seq<(nat, int)>): seq<nat> {
    if fs == [] then [] else [fs[0].0] + FiredIds(fs[1..])
  }

  function Ids(n: nat): seq<nat> {
    seq(n, i => i)
  }

  /** The markets that rotations have swapped out, in order. */
  function Outgoing(acts: seq<(Act, Phase)>): seq<Market> {
    if acts == [] then []
    else
      var a := acts[|acts| - 1].0;
      Outgoing(acts[..|acts| - 1]) + if a.Swapped? && a.outgoing != "" then [a.outgoing] else []
  }

  function QueuedMarkets(rs: seq<Redeem>): seq<Market> {
    seq(|rs|, i requires 0 <= i < |rs| => rs[i].market)
  }

  /** Each queued redeem is either still pending or has fired, exactly once, and none fired before its time. */
  ghost predicate Accounted(queued: seq<Redeem>, pending: seq<Redeem>, fired: seq<(nat, int)>) {
    && (forall i :: 0 <= i < |queued| ==> queued[i].id == i && queued[i].fireAt == queued[i].queuedAt + REDEEM_DELAY_MS)
    && (forall r :: r in pending ==> r.id < |queued| && queued[r.id] == r)
    && multiset(PendingIds(pending)) + multiset(FiredIds(fired)) == multiset(Ids(|queued|))
    && (forall f :: f in fired ==> f.0 < |queued| && f.1 >= queued[f.0].queuedAt + REDEEM_DELAY_MS)
  }

  /** Redeems are queued one per outgoing market, just before the swap. */
  ghost predicate OnePerRotation(queued: seq<Redeem>, acts: seq<(Act, Phase)>, ahead: seq<Market>) {
    QueuedMarkets(queued) == Outgoing(acts) + ahead
  }

  function Ahead(s: State): seq<Market> {
    if s.pc.Swap? && s.current != "" then [s.current] else []
  }

  ghost predicate RedeemsFit(s: State) {
    Accounted(s.history.queued, s.pending, s.history.fired)
        && OnePerRotation(s.history.queued, s.history.acts, Ahead(s))
  }

  lemma {:induction false} PendingIdsAppend(rs: seq<Redeem>, r: Redeem)
    ensures PendingIds(rs + [r]) == PendingIds(rs) + [r.id]
  {
    if rs == [] {
      assert rs + [r] == [r] && [r][1..] == [];
    } else {
      assert (rs + [r])[1..] == rs[1..] + [r];
      PendingIdsAppend(rs[1..], r);
    }
  }

  lemma {:induction false} FiredIdsAppend(xs: seq<(nat, int)>, ys: seq<(nat, int)>)
    ensures FiredIds(xs + ys) == FiredIds(xs) + FiredIds(ys)
  {
    if xs == [] {
      assert xs + ys == ys;
    } else {
      assert (xs + ys)[1..] == xs[1..] + ys;
      FiredIdsAppend(xs[1..], ys);
    }
  }

  lemma {:induction false} MultisetFront(id: nat, ids: seq<nat>)
    ensures multiset([id] + ids) == multiset{id} + multiset(ids)
  {
  }

  lemma {:induction false} FiredFront(id: nat, now: int, fs: seq<(nat, int)>)
    ensures FiredIds([(id, now)] + fs) == [id] + FiredIds(fs)
  {
    assert ([(id, now)] + fs)[1..] == fs;
  }

  lemma {:induction false} PendingFront(r: Redeem, rs: seq<Redeem>)
    ensures PendingIds([r] + rs) == [r.id] + PendingIds(rs)
  {
    assert ([r] + rs)[1..] == rs;
  }

  /** Firing moves ids from pending to fired and loses none. */
  lemma {:induction false} FiringPartitions(rs: seq<Redeem>, now: int)
    ensures multiset(PendingIds(rs)) == multiset(PendingIds(Unripe(rs, now))) + multiset(FiredIds(Firings(rs, now)))
  {
    if rs != [] {
      FiringPartitions(rs[1..], now);
      var u, f := Unripe(rs[1..], now), Firings(rs[1..], now);
      var id := rs[0].id;
      assert PendingIds(rs) == [id] + PendingIds(rs[1..]);
      if Ripe(rs[0], now) {
        assert Unripe(rs, now) == u && Firings(rs, now) == [(id, now)] + f;
        FiredFront(id, now, f);
      } else {
        assert Unripe(rs, now) == [rs[0]] + u && Firings(rs, now) == f;
        PendingFront(rs[0], u);
      }
      hide Unripe, Firings, PendingIds, FiredIds;
      FrontOfEither(id, PendingIds(rs[1..]), PendingIds(u), FiredIds(f));
    }
  }

  lemma {:induction false} FrontOfEither(id: nat, all: seq<nat>, xs: seq<nat>, ys: seq<nat>)
    requires multiset(all) == multiset(xs) + multiset(ys)
    ensures multiset([id] + all) == multiset([id] + xs) + multiset(ys) == multiset(xs) + multiset([id] + ys)
  {
    MultisetFront(id, all);
    MultisetFront(id, xs);
    MultisetFront(id, ys);
  }

  /** Only pending redeems whose time has come fire. */
  lemma {:induction false} FiringsAreRipe(rs: seq<Redeem>, now: int)
    ensures forall r :: r in Unripe(rs, now) ==> r in rs
    ensures forall f :: f in Firings(rs, now) ==> f.1 == now && exists r :: r in rs && r.id == f.0 && now >= r.fireAt
  {
    if rs != [] {
      FiringsAreRipe(rs[1..], now);
      assert forall r :: r in rs[1..] ==> r in rs;
      forall x | x in Firings(rs, now)
        ensures x.1 == now && exists r :: r in rs && r.id == x.0 && now >= r.fireAt
      {
        if x !in Firings(rs[1..], now) {
          assert rs[0] in rs;
        }
      }
    }
  }

  lemma {:induction false} FireAccounted(queued: seq<Redeem>, pending: seq<Redeem>, fired: seq<(nat, int)>, now: int)
    requires Accounted(queued, pending, fired)
    ensures Accounted(queued, Unripe(pending, now), fired + Firings(pending, now))
  {
    FiringPartitions(pending, now);
    FiringsAreRipe(pending, now);
    FiredIdsAppend(fired, Firings(pending, now));
    hide Unripe, Firings, PendingIds, FiredIds, Ids;
  }

  lemma {:induction false} QueueAccounted(queued: seq<Redeem>, pending: seq<Redeem>, fired: seq<(nat, int)>, r: Redeem)
    requires Accounted(queued, pending, fired) && r.id == |queued| && r.fireAt == r.queuedAt + REDEEM_DELAY_MS
    ensures Accounted(queued + [r], pending + [r], fired)
  {
    hide PendingIds, FiredIds, Ids;
    assert multiset(PendingIds(pending + [r])) + multiset(FiredIds(fired)) == multiset(Ids(|queued| + 1)) by {
      PendingIdsAppend(pending, r);
      IdsAppend(|queued|);
    }
    var more := queued + [r];
    assert forall i :: 0 <= i < |queued| ==> more[i] == queued[i];
    assert forall x :: x in pending + [r] ==> x in pending || x == r;
  }

  lemma {:induction false} IdsAppend(n: nat)
    ensures Ids(n + 1) == Ids(n) + [n]
  {
  }

  lemma {:induction false} ActKeepsOutgoing(acts: seq<(Act, Phase)>, a: Act, p: Phase)
    ensures Outgoing(acts + [(a, p)])
            == if a.Swapped? && a.outgoing != "" then Outgoing(acts) + [a.outgoing] else Outgoing(acts)
  {
    assert (acts + [(a, p)])[..|acts|] == acts;
  }

  lemma {:induction false} CoordinatorKeepsAccounts(s: State, c: Choice)
    requires Accounted(s.history.queued, s.pending, s.history.fired)
    ensures var r := Coordinator(s, c);
            Accounted(r.history.queued, r.pending, r.history.fired)
  {
    hide Accounted, Unripe, Firings;
    if s.pc.MainBody? {
      FireAccounted(s.history.queued, s.pending, s.history.fired, s.clock);
    } else if s.pc.QueueRedeem? {
      QueueAccounted(s.history.queued, s.pending, s.history.fired,
                     Redeem(|s.history.queued|, s.current, s.clock, s.clock + REDEEM_DELAY_MS));
    }
  }

  /** What a step up to the swap adds to the queue of redeems and to the log of callbacks. */
  lemma {:induction false} PrepareEffect(s: State, c: Choice)
    requires BeforeSwap(s.pc) && s.next.Some?
    ensures var r := Prepare(s, c);
            var h, h' := s.history, r.history;
            if s.pc.QueueRedeem? && s.current != "" then
              && h'.queued == h.queued + [Redeem(|h.queued|, s.current, s.clock, s.clock + REDEEM_DELAY_MS)]
              && h'.acts == h.acts && Ahead(r) == [s.current]
            else if s.pc.Swap? then
              h'.queued == h.queued && h'.acts == h.acts + [(Swapped(s.current), s.phase)] && Ahead(r) == []
            else
              h'.queued == h.queued && Ahead(r) == [] && ActsGrow(h.acts, h'.acts, s.phase)
  {
  }

  /** At most one callback was logged, and it was not a swap. */
  ghost predicate ActsGrow(acts: seq<(Act, Phase)>, more: seq<(Act, Phase)>, phase: Phase) {
    more == acts || exists a: Act :: !a.Swapped? && more == acts + [(a, phase)]
  }

  lemma {:induction false} FinishEffect(s: State)
    requires !s.pc.Swap?
    ensures var r := Finish(s);
            r.history.queued == s.history.queued && Ahead(r) == [] && ActsGrow(s.history.acts, r.history.acts, s.phase)
  {
    LogGrows(s, StartedFeeds([s.current] + if s.next.Some? then [s.next.value] else []));
    LogGrows(s, WroteTiming);
    assert ActsGrow(s.history.acts, s.history.acts, s.phase);
    hide ActsGrow;
  }

  lemma {:induction false} LogGrows(s: State, a: Act)
    requires !a.Swapped?
    ensures ActsGrow(s.history.acts, Log(s, a).history.acts, s.phase)
  {
  }

  lemma {:induction false} StepEffect(s: State, c: Choice)
    requires MarketsFit(s)
    ensures var r := Coordinator(s, c);
            var h, h' := s.history, r.history;
            if s.pc.QueueRedeem? && s.current != "" then
              && h'.queued == h.queued + [Redeem(|h.queued|, s.current, s.clock, s.clock + REDEEM_DELAY_MS)]
              && h'.acts == h.acts && Ahead(s) == [] && Ahead(r) == [s.current]
            else if s.pc.Swap? then
              h'.queued == h.queued && h'.acts == h.acts + [(Swapped(s.current), s.phase)] && Ahead(r) == []
            else
              h'.queued == h.queued && Ahead(s) == [] && Ahead(r) == [] && ActsGrow(h.acts, h'.acts, s.phase)
  {
    if s.pc.MainBody? {
      MainStepEffect(s, c);
    } else if BeforeSwap(s.pc) {
      PrepareEffect(s, c);
    } else {
      FinishEffect(s);
    }
    hide MainStep, Prepare, Finish;
  }

  lemma {:induction false} CoordinatorKeepsOutgoing(s: State, c: Choice)
    requires OnePerRotation(s.history.queued, s.history.acts, Ahead(s)) && MarketsFit(s)
    ensures var r := Coordinator(s, c);
            OnePerRotation(r.history.queued, r.history.acts, Ahead(r))
  {
    StepEffect(s, c);
    hide Coordinator, Outgoing, MarketsFit;
    var h, h' := s.history, Coordinator(s, c).history;
    if s.pc.QueueRedeem? && s.current != "" {
      var r := Redeem(|h.queued|, s.current, s.clock, s.clock + REDEEM_DELAY_MS);
      assert QueuedMarkets(h.queued + [r]) == QueuedMarkets(h.queued) + [s.current];
      assert Outgoing(h.acts) + [] == Outgoing(h.acts);
    } else if s.pc.Swap? {
      ActKeepsOutgoing(h.acts, Swapped(s.current), s.phase);
      assert Outgoing(h'.acts) + [] == Outgoing(h.acts) + Ahead(s);
    } else if h'.acts != h.acts {
      var a: Act :| !a.Swapped? && h'.acts == h.acts + [(a, s.phase)];
      ActKeepsOutgoing(h.acts, a, s.phase);
    }
  }

  /** Over every run: one redeem per market that was rotated out, each fired at most once and never before its delay. */
  lemma {:induction false} RedeemsReachable(s: State, steps: seq<Step>)
    requires Init(s)
    ensures RedeemsFit(Run(s, steps))
  {
    if steps == [] {
      assert QueuedMarkets([]) == [] && Ids(0) == [];
    } else {
      var before := Run(s, steps[..|steps| - 1]);
      RedeemsReachable(s, steps[..|steps| - 1]);
      Reachable(s, steps[..|steps| - 1]);
      match steps[|steps| - 1]
      case Coordinate(c) =>
        CoordinatorKeepsAccounts(before, c);
        CoordinatorKeepsOutgoing(before, c);
      case _ =>
        hide Accounted, OnePerRotation;
    }
  }

  /** A redeem that fired is no longer pending and did not fire twice. */
  lemma {:induction false} FiresAtMostOnce(s: State, steps: seq<Step>, id: nat)
    requires Init(s)
    ensures var r := Run(s, steps);
            multiset(FiredIds(r.history.fired))[id] + multiset(PendingIds(r.pending))[id]
                == if id < |r.history.queued| then 1 else 0
  {
    RedeemsReachable(s, steps);
    IdsOnce(|Run(s, steps).history.queued|, id);
  }

  lemma {:induction false} IdsOnce(n: nat, id: nat)
    ensures multiset(Ids(n))[id] == if id < n then 1 else 0
  {
    if n > 0 {
      IdsOnce(n - 1, id);
      assert Ids(n) == Ids(n - 1) + [n - 1];
    } else {
      assert Ids(0) == [];
    }
  }
}
