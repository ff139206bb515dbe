/**
 Which markets a run of rotations follows.  Every rotation is begun with a plan: the market it leaves, the next market
 known then, and the one planned after that.  The callbacks of a run are those its plans call for, in order, and the
 plans hand the markets on from one to the next.
 */
module RotationPlans {
  import opened Common
  import opened Rotation

  /** `after` is "" when no market is known to follow. */
  datatype Plan = Plan(outgoing: Market, incoming: Market, after: Market)

  /** The coordinator begins a rotation: the window is about to end and a next market is known. */
  predicate Begins(s: State, step: Step) {
    step.Coordinate? && s.pc.MainBody? && step.choice.due && s.next.Some?
  }

  function PlanAt(s: State, step: Step): Plan
    requires Begins(s, step)
  {
    Plan(s.current, s.next.value, if step.choice.found.Some? then step.choice.found.value else "")
  }

  /** The plans of the rotations that were begun, in order. */
  function Plans(s: State, steps: seq<Step>): seq<Plan> {
    if steps == [] then []
    else
      var before, step := steps[..|steps| - 1], steps[|steps| - 1];
      Plans(s, before) + if Begins(Run(s, before), step) then [PlanAt(Run(s, before), step)] else []
  }

  /** Every market that discovery has come up with. */
  function Found(steps: seq<Step>): set<Market> {
    if steps == [] then {}
    else
      var step := steps[|steps| - 1];
      Found(steps[..|steps| - 1])
      + if step.Coordinate? && step.choice.found.Some? then {step.choice.found.value} else {}
  }

  /** The callbacks of one rotation: stop the feeds, register the market planned, swap, start the feeds of the incoming
      market and the one after it, and write the new window. */
  function Script(p: Plan): seq<Act> {
    [StoppedFeeds] + (if p.after == "" then [] else [Registered(p.after)])
    + [Swapped(p.outgoing), StartedFeeds([p.incoming] + if p.after == "" then [] else [p.after]), WroteTiming]
  }

  function Scripts(ps: seq<Plan>): seq<Act> {
    if ps == [] then [] else Scripts(ps[..|ps| - 1]) + Script(ps[|ps| - 1])
  }

  function Acts(h: History): seq<Act> {
    seq(|h.acts|, i requires 0 <= i < |h.acts| => h.acts[i].0)
  }

  // ---------------------------------------------------------------------------
  // The invariant
  // ---------------------------------------------------------------------------

  /** How much of its rotation's script the coordinator has gone through; nothing once the rotation is complete. */
  function Progress(pc: Pc, p: Plan): Option<nat> {
    var extra := if p.after == "" then 0 else 1;
    match pc
    case Initiate | AwaitPause | CheckStop | StopFeeds => Some(0)
    case Drain(_) | RegisterNext => Some(1)
    case QueueRedeem | Swap => Some(1 + extra)
    case StartFeeds => Some(2 + extra)
    case SetTiming => Some(3 + extra)
    case _ => None
  }

  predicate Underway(pc: Pc) {
    BeforeSwap(pc) || pc.StartFeeds? || pc.SetTiming?
  }

  /** A coordinator on its way out may have left its last rotation, before or just after stopping the feeds. */
  predicate Leaving(s: State) {
    (s.pc.MainTop? && (s.stop || s.fatal)) || s.pc.Shutdown? || s.pc.ShutdownWait? || s.pc.Done?
  }

  /** The log holds the scripts of the first `n` plans and the first `k` callbacks of the one after. */
  ghost predicate Logged(log: seq<Act>, plans: seq<Plan>, n: nat, k: nat) {
    n < |plans| && k <= |Script(plans[n])| && log == Scripts(plans[..n]) + Script(plans[n])[..k]
  }

  ghost predicate LogFits(plans: seq<Plan>, s: State) {
    var n, log := s.rotations, Acts(s.history);
    if Underway(s.pc) then
      |plans| == n + 1 && Progress(s.pc, plans[n]).Some? && Logged(log, plans, n, Progress(s.pc, plans[n]).value)
    else
      || (|plans| == n && log == Scripts(plans))
      || (|plans| == n + 1 && Leaving(s) && (Logged(log, plans, n, 0) || Logged(log, plans, n, 1)))
  }

  /** The first rotation leaves the initial market, every other one the market the one before brought in.  A rotation
      brings in the market that was known to follow, or else one that discovery came up with. */
  ghost predicate Chained(first: Market, next: Option<Market>, plans: seq<Plan>, found: set<Market>) {
    forall i :: 0 <= i < |plans| ==>
      && plans[i].outgoing == CurrentAfter(first, plans, i)
      && ComesNext(next, plans, found, i, plans[i].incoming)
  }

  /** The market that is current after the first `n` swaps. */
  ghost function CurrentAfter(first: Market, plans: seq<Plan>, n: nat): Market
    requires n <= |plans|
  {
    if n == 0 then first else plans[n - 1].incoming
  }

  ghost predicate ComesNext(next: Option<Market>, plans: seq<Plan>, found: set<Market>, n: nat, m: Market)
    requires n <= |plans|
  {
    if n > 0 && plans[n - 1].after != "" then m == plans[n - 1].after
    else if n == 0 && next.Some? then m == next.value
    else m in found
  }

  /** How many rotations have swapped. */
  function Swaps(s: State): nat {
    s.rotations + if s.pc.StartFeeds? || s.pc.SetTiming? then 1 else 0
  }

  ghost predicate NowFits(first: Market, next: Option<Market>, plans: seq<Plan>, found: set<Market>, s: State) {
    && Swaps(s) <= |plans| && s.current == CurrentAfter(first, plans, Swaps(s))
    && (s.next.Some? ==> ComesNext(next, plans, found, Swaps(s), s.next.value))
    && (s.next.None? ==> if Swaps(s) == 0 then next.None? else plans[Swaps(s) - 1].after == "")
    && (BeforeSwap(s.pc) ==>
          s.next.Some? && s.rotations < |plans| && plans[s.rotations] == Plan(s.current, s.next.value, s.planned))
    && (s.pc.StartFeeds? ==>
          s.next == if plans[s.rotations].after == "" then None else Some(plans[s.rotations].after))
  }

  // ---------------------------------------------------------------------------
  // One step
  // ---------------------------------------------------------------------------

  lemma {:induction false} ActsGrowBy(h: History, a: Act, p: Phase)
    ensures Acts(h.(acts := h.acts + [(a, p)])) == Acts(h) + [a]
  {
  }

  lemma {:induction false} ScriptAt(p: Plan)
    ensures var extra := if p.after == "" then 0 else 1;
            && |Script(p)| == 4 + extra && Script(p)[0] == StoppedFeeds
            && (extra == 1 ==> Script(p)[1] == Registered(p.after))
            && Script(p)[1 + extra] == Swapped(p.outgoing)
            && Script(p)[2 + extra] == StartedFeeds([p.incoming] + if p.after == "" then [] else [p.after])
            && Script(p)[3 + extra] == WroteTiming
            && Script(p)[..0] == [] && Script(p)[..1] == [StoppedFeeds] && Script(p)[..4 + extra] == Script(p)
  {
  }

  lemma {:induction false} ScriptsEnd(plans: seq<Plan>)
    requires plans != []
    ensures Scripts(plans) == Scripts(plans[..|plans| - 1]) + Script(plans[|plans| - 1])
  {
  }

  /** The next callback of the script is made. */
  lemma {:induction false} NextCallback(h: History, plans: seq<Plan>, n: nat, k: nat, a: Act, p: Phase)
    requires Logged(Acts(h), plans, n, k) && k < |Script(plans[n])| && a == Script(plans[n])[k]
    ensures Logged(Acts(h.(acts := h.acts + [(a, p)])), plans, n, k + 1)
  {
    ActsGrowBy(h, a, p);
    var script := Script(plans[n]);
    hide Script, Scripts, Acts;
    assert script[..k + 1] == script[..k] + [script[k]];
  }

  /** With the last one the rotation is complete. */
  lemma {:induction false} LastCallback(log: seq<Act>, plans: seq<Plan>, n: nat)
    requires |plans| == n + 1 && Logged(log, plans, n, |Script(plans[n])|)
    ensures log == Scripts(plans)
  {
    ScriptsEnd(plans);
    hide Script, Scripts;
    assert Script(plans[n])[..|Script(plans[n])|] == Script(plans[n]);
  }

  /** The steps of a rotation up to its swap that call nothing. */
  predicate Silent(s: State) {
    s.pc.Initiate? || s.pc.AwaitPause? || s.pc.CheckStop? || s.pc.Drain? || s.pc.QueueRedeem?
        || (s.pc.RegisterNext? && s.planned == "")
  }

  lemma {:induction false} SilentLog(plans: seq<Plan>, s: State, c: Choice)
    requires LogFits(plans, s) && BeforeSwap(s.pc) && Silent(s) && plans[s.rotations].after == s.planned
    ensures LogFits(plans, Prepare(s, c))
  {
    var r := Prepare(s, c);
    assert r.rotations == s.rotations && r.history.acts == s.history.acts;
    SameActs(s.history, r.history);
    hide Logged, Scripts, Acts;
  }

  lemma {:induction false} PrepareLog(plans: seq<Plan>, s: State, c: Choice)
    requires LogFits(plans, s) && BeforeSwap(s.pc) && s.next.Some?
    requires plans[s.rotations] == Plan(s.current, s.next.value, s.planned)
    ensures LogFits(plans, Prepare(s, c))
  {
    if Silent(s) {
      SilentLog(plans, s, c);
    } else {
      var n := s.rotations;
      ScriptAt(plans[n]);
      hide Scripts, Script, Acts, Logged;
      if s.pc.StopFeeds? {
        NextCallback(s.history, plans, n, 0, StoppedFeeds, s.phase);
      } else if s.pc.RegisterNext? {
        NextCallback(s.history, plans, n, 1, Registered(s.planned), s.phase);
      } else {
        NextCallback(s.history, plans, n, if s.planned == "" then 1 else 2, Swapped(s.current), s.phase);
      }
    }
  }

  lemma {:induction false} StartLog(plans: seq<Plan>, s: State)
    requires LogFits(plans, s) && s.pc.StartFeeds? && s.current == plans[s.rotations].incoming
    requires s.next == if plans[s.rotations].after == "" then None else Some(plans[s.rotations].after)
    ensures LogFits(plans, Finish(s))
  {
    var n := s.rotations;
    ScriptAt(plans[n]);
    hide Scripts, Script, Acts, Logged;
    var started := StartedFeeds([s.current] + if s.next.Some? then [s.next.value] else []);
    NextCallback(s.history, plans, n, if plans[n].after == "" then 2 else 3, started, s.phase);
  }

  lemma {:induction false} TimingLog(plans: seq<Plan>, s: State)
    requires LogFits(plans, s) && s.pc.SetTiming?
    ensures LogFits(plans, Finish(s))
  {
    var n := s.rotations;
    ScriptAt(plans[n]);
    hide Scripts, Script, Acts, Logged;
    NextCallback(s.history, plans, n, if plans[n].after == "" then 3 else 4, WroteTiming, s.phase);
    LastCallback(Acts(Finish(s).history), plans, n);
  }

  /** After its rotations the coordinator calls nothing any more. */
  lemma {:induction false} FinishLog(plans: seq<Plan>, s: State)
    requires LogFits(plans, s) && !Underway(s.pc) && !s.pc.MainTop? && !s.pc.MainBody?
    ensures LogFits(plans, Finish(s))
  {
    var r := Finish(s);
    assert r.rotations == s.rotations && r.history.acts == s.history.acts && !Underway(r.pc);
    assert Leaving(s) ==> Leaving(r);
    SameActs(s.history, r.history);
    hide Scripts, Acts, Logged, Finish, Leaving, Underway;
  }

  lemma {:induction false} SameActs(h: History, g: History)
    requires h.acts == g.acts
    ensures Acts(h) == Acts(g)
  {
  }

  lemma {:induction false} BeginLog(plans: seq<Plan>, s: State, step: Step)
    requires LogFits(plans, s) && Begins(s, step)
    ensures LogFits(plans + [PlanAt(s, step)], Apply(s, step)) && |plans| == s.rotations
  {
    var more := plans + [PlanAt(s, step)];
    assert more[..|plans|] == plans;
    SameActs(s.history, Apply(s, step).history);
    assert Script(more[|plans|])[..0] == [] && Scripts(plans) + [] == Scripts(plans);
    hide Scripts, Script, Acts;
  }

  /** A step that neither begins a rotation nor belongs to one. */
  lemma {:induction false} IdleLog(plans: seq<Plan>, s: State, step: Step)
    requires LogFits(plans, s) && !Begins(s, step) && (step.Coordinate? ==> s.pc.MainTop? || s.pc.MainBody?)
    ensures LogFits(plans, Apply(s, step))
  {
    var r := Apply(s, step);
    assert r.rotations == s.rotations && r.history.acts == s.history.acts by {
      hide Unripe, Firings;
    }
    SameActs(s.history, r.history);
    assert Underway(r.pc) == Underway(s.pc) && (Leaving(s) ==> Leaving(r)) by {
      hide Unripe, Firings;
    }
    assert !step.Coordinate? ==> r.pc == s.pc;
    hide Scripts, Script, Acts, Logged, Apply, Leaving, Underway;
  }

  lemma {:induction false} StepLog(first: Market, next: Option<Market>, plans: seq<Plan>, found: set<Market>, s: State,
      step: Step)
    requires LogFits(plans, s) && NowFits(first, next, plans, found, s) && !Begins(s, step)
    ensures LogFits(plans, Apply(s, step))
  {
    if step.Coordinate? && BeforeSwap(s.pc) {
      PrepareLog(plans, s, step.choice);
    } else if step.Coordinate? && s.pc.StartFeeds? {
      StartLog(plans, s);
    } else if step.Coordinate? && s.pc.SetTiming? {
      TimingLog(plans, s);
    } else if step.Coordinate? && !s.pc.MainTop? && !s.pc.MainBody? {
      FinishLog(plans, s);
    } else {
      IdleLog(plans, s, step);
    }
    hide LogFits, Prepare, Finish, MainStep, ComesNext;
  }

  lemma {:induction false} MoreFound(next: Option<Market>, plans: seq<Plan>, found: set<Market>, more: set<Market>)
    requires found <= more
    ensures forall n, m :: 0 <= n <= |plans| && ComesNext(next, plans, found, n, m) ==>
              ComesNext(next, plans, more, n, m)
  {
  }

  lemma {:induction false} MorePlans(first: Market, next: Option<Market>, plans: seq<Plan>, found: set<Market>, p: Plan,
      n: nat, m: Market)
    requires n <= |plans|
    ensures CurrentAfter(first, plans + [p], n) == CurrentAfter(first, plans, n)
    ensures ComesNext(next, plans + [p], found, n, m) <==> ComesNext(next, plans, found, n, m)
  {
  }

  lemma {:induction false} BeginChain(first: Market, next: Option<Market>, plans: seq<Plan>, found: set<Market>,
      p: Plan)
    requires Chained(first, next, plans, found)
    requires p.outgoing == CurrentAfter(first, plans, |plans|) && ComesNext(next, plans, found, |plans|, p.incoming)
    ensures Chained(first, next, plans + [p], found)
  {
    var more := plans + [p];
    hide CurrentAfter, ComesNext;
    forall i | 0 <= i < |more|
      ensures more[i].outgoing == CurrentAfter(first, more, i) && ComesNext(next, more, found, i, more[i].incoming)
    {
      MorePlans(first, next, plans, found, p, i, more[i].incoming);
      assert i < |plans| ==> more[i] == plans[i];
    }
  }

  lemma {:induction false} BeginState(s: State, step: Step)
    requires Begins(s, step)
    ensures var p, r := PlanAt(s, step), Apply(s, step);
            && r.pc.Initiate? && r.current == s.current && r.next == s.next && r.rotations == s.rotations
            && s.next.Some? && Swaps(s) == Swaps(r) == s.rotations && p == Plan(r.current, r.next.value, r.planned)
  {
  }

  lemma {:induction false} BeginNow(first: Market, next: Option<Market>, plans: seq<Plan>, found: set<Market>, s: State,
      step: Step)
    requires Chained(first, next, plans, found) && NowFits(first, next, plans, found, s)
    requires Begins(s, step) && |plans| == s.rotations
    ensures var more := plans + [PlanAt(s, step)];
            Chained(first, next, more, found) && NowFits(first, next, more, found, Apply(s, step))
  {
    BeginState(s, step);
    hide CurrentAfter, ComesNext, Apply, PlanAt, Begins, Chained;
    var p := PlanAt(s, step);
    MorePlans(first, next, plans, found, p, |plans|, s.next.value);
    BeginChain(first, next, plans, found, p);
  }

  /** Nothing that the plans speak of has changed. */
  predicate SameMarkets(s: State, r: State) {
    && r.current == s.current && r.next == s.next && Swaps(r) == Swaps(s) && !r.pc.StartFeeds?
    && (BeforeSwap(r.pc) ==> BeforeSwap(s.pc) && r.planned == s.planned && r.rotations == s.rotations)
  }

  lemma {:induction false} SameNow(first: Market, next: Option<Market>, plans: seq<Plan>, found: set<Market>, s: State,
      r: State)
    requires NowFits(first, next, plans, found, s) && SameMarkets(s, r)
    ensures NowFits(first, next, plans, found, r)
  {
    hide CurrentAfter, ComesNext, Swaps, BeforeSwap;
  }

  /** Discovery comes up with a next market when none is known. */
  lemma {:induction false} FoundNow(first: Market, next: Option<Market>, plans: seq<Plan>, found: set<Market>, s: State,
      r: State)
    requires NowFits(first, next, plans, found, s) && s.next.None? && r.next.Some? && r.next.value in found
    requires r.current == s.current && Swaps(r) == Swaps(s) && !BeforeSwap(r.pc) && !r.pc.StartFeeds?
    ensures NowFits(first, next, plans, found, r)
  {
    hide CurrentAfter, Swaps, BeforeSwap;
  }

  lemma {:induction false} SwapNow(first: Market, next: Option<Market>, plans: seq<Plan>, found: set<Market>, s: State,
      c: Choice)
    requires NowFits(first, next, plans, found, s) && s.pc.Swap?
    ensures NowFits(first, next, plans, found, Prepare(s, c))
  {
    var r := Prepare(s, c);
    assert r.pc.StartFeeds? && r.current == s.next.value && r.rotations == s.rotations
        && r.next == if s.planned == "" then None else Some(s.planned);
    hide Prepare;
  }

  /** A discovered market becomes the next one. */
  predicate Discovers(s: State, step: Step) {
    && step.Coordinate? && s.pc.MainBody? && s.next.None?
    && step.choice.found.Some? && step.choice.found.value != s.current
  }

  lemma {:induction false} PrepareSame(s: State, c: Choice)
    requires BeforeSwap(s.pc) && !s.pc.Swap?
    ensures SameMarkets(s, Prepare(s, c))
  {
  }

  lemma {:induction false} FinishSame(s: State)
    requires !BeforeSwap(s.pc) && !s.pc.MainTop? && !s.pc.MainBody?
    ensures SameMarkets(s, Finish(s))
  {
  }

  lemma {:induction false} MainSame(s: State, c: Choice)
    requires s.pc.MainBody? && !Begins(s, Coordinate(c)) && !Discovers(s, Coordinate(c))
    ensures SameMarkets(s, MainStep(s, c))
  {
    hide Unripe, Firings;
  }

  lemma {:induction false} OtherSteps(s: State, step: Step)
    requires !Begins(s, step) && !Discovers(s, step) && !(step.Coordinate? && s.pc.Swap?)
    requires !s.pc.StartFeeds? || step.Coordinate?
    ensures SameMarkets(s, Apply(s, step))
  {
    if step.Coordinate? {
      if s.pc.MainBody? {
        MainSame(s, step.choice);
      } else if BeforeSwap(s.pc) {
        PrepareSame(s, step.choice);
      } else if !s.pc.MainTop? {
        FinishSame(s);
      }
      hide MainStep, Prepare, Finish;
    }
  }

  lemma {:induction false} StepNow(first: Market, next: Option<Market>, plans: seq<Plan>, found: set<Market>, s: State,
      step: Step)
    requires NowFits(first, next, plans, found, s) && !Begins(s, step)
    requires step.Coordinate? && step.choice.found.Some? ==> step.choice.found.value in found
    ensures NowFits(first, next, plans, found, Apply(s, step))
  {
    if Discovers(s, step) {
      FoundNow(first, next, plans, found, s, Apply(s, step));
    } else if step.Coordinate? && s.pc.Swap? {
      SwapNow(first, next, plans, found, s, step.choice);
    } else if step.Coordinate? || !s.pc.StartFeeds? {
      hide NowFits;
      OtherSteps(s, step);
      SameNow(first, next, plans, found, s, Apply(s, step));
    }
    hide Unripe, Firings, CurrentAfter, ComesNext;
  }

  // ---------------------------------------------------------------------------
  // Every run
  // ---------------------------------------------------------------------------

  lemma {:induction false} StepPlans(first: Market, next: Option<Market>, plans: seq<Plan>, found: set<Market>,
      s: State, step: Step, plans': seq<Plan>)
    requires LogFits(plans, s) && Chained(first, next, plans, found) && NowFits(first, next, plans, found, s)
    requires step.Coordinate? && step.choice.found.Some? ==> step.choice.found.value in found
    requires plans' == plans + if Begins(s, step) then [PlanAt(s, step)] else []
    ensures var r := Apply(s, step);
            LogFits(plans', r) && Chained(first, next, plans', found) && NowFits(first, next, plans', found, r)
  {
    hide LogFits, Chained, NowFits, Apply;
    if Begins(s, step) {
      BeginLog(plans, s, step);
      BeginNow(first, next, plans, found, s, step);
    } else {
      assert plans' == plans;
      StepLog(first, next, plans, found, s, step);
      StepNow(first, next, plans, found, s, step);
    }
  }

  lemma {:induction false} MoreFits(first: Market, next: Option<Market>, plans: seq<Plan>, found: set<Market>,
      more: set<Market>, s: State)
    requires found <= more && Chained(first, next, plans, found) && NowFits(first, next, plans, found, s)
    ensures Chained(first, next, plans, more) && NowFits(first, next, plans, more, s)
  {
    hide ComesNext, CurrentAfter;
    MoreFound(next, plans, found, more);
  }

  lemma {:induction false} RunPlans(s: State, steps: seq<Step>)
    requires Init(s)
    ensures var r, plans, found := Run(s, steps), Plans(s, steps), Found(steps);
            LogFits(plans, r) && Chained(s.current, s.next, plans, found)
                && NowFits(s.current, s.next, plans, found, r)
  {
    if steps == [] {
      assert Acts(s.history) == [];
    } else {
      var before, step := steps[..|steps| - 1], steps[|steps| - 1];
      RunPlans(s, before);
      var r, plans := Run(s, before), Plans(s, before);
      hide LogFits, Apply;
      MoreFits(s.current, s.next, plans, Found(before), Found(steps), r);
      hide Chained, NowFits, Begins, PlanAt;
      StepPlans(s.current, s.next, plans, Found(steps), r, step, Plans(s, steps));
    }
  }

  /** On every run the callbacks are those that the plans of the begun rotations call for, in order and up to some point
      of the last one; the plans hand the markets on; and the current market is the one the last swap brought in, or the
      initial one.  Between rotations nothing of them is left to do. */
  lemma {:induction false} RotationsFollow(s: State, steps: seq<Step>)
    requires Init(s)
    ensures var r, plans := Run(s, steps), Plans(s, steps);
            && r.rotations <= |plans| <= r.rotations + 1
            && Scripts(plans[..r.rotations]) <= Acts(r.history) <= Scripts(plans)
            && Chained(s.current, s.next, plans, Found(steps))
            && Swaps(r) <= |plans| && r.current == CurrentAfter(s.current, plans, Swaps(r))
            && (r.pc.MainBody? ==> Acts(r.history) == Scripts(plans) && r.rotations == |plans|)
  {
    hide Run, Plans, Acts, Script, Chained, CurrentAfter, ComesNext, Found;
    RunPlans(s, steps);
    var r, plans := Run(s, steps), Plans(s, steps);
    var n, log := r.rotations, Acts(r.history);
    assert plans[..|plans|] == plans;
    if |plans| == n + 1 {
      ScriptsEnd(plans);
      hide Scripts;
      var script := Script(plans[n]);
      assert forall k :: 0 <= k <= |script| ==> script[..k] <= script;
    }
  }

  // ---------------------------------------------------------------------------
  // The current market and the feeds
  // ---------------------------------------------------------------------------

  /** The first market of the feeds that were started last, or `first` when none were. */
  function LastFed(log: seq<Act>, first: Market): Market {
    if log == [] then first
    else
      var a := log[|log| - 1];
      if a.StartedFeeds? && a.markets != [] then a.markets[0] else LastFed(log[..|log| - 1], first)
  }

  lemma {:induction false} LastFedAppend(log: seq<Act>, more: seq<Act>, first: Market)
    ensures LastFed(log + more, first) == LastFed(more, LastFed(log, first))
  {
    if more == [] {
      assert log + more == log;
    } else {
      var n := |more| - 1;
      assert (log + more)[..|log + more| - 1] == log + more[..n];
      LastFedAppend(log, more[..n], first);
    }
  }

  /** A script changes the market that was fed last only when it starts the feeds. */
  lemma {:induction false} LastFedScript(p: Plan, k: nat, first: Market)
    requires k <= |Script(p)|
    ensures LastFed(Script(p)[..k], first)
            == if k <= (if p.after == "" then 2 else 3) then first else p.incoming
  {
    ScriptAt(p);
    if k > 0 {
      LastFedScript(p, k - 1, first);
      assert Script(p)[..k][..k - 1] == Script(p)[..k - 1];
    }
  }

  lemma {:induction false} LastFedScripts(plans: seq<Plan>, n: nat, first: Market)
    requires n <= |plans|
    ensures LastFed(Scripts(plans[..n]), first) == CurrentAfter(first, plans, n)
  {
    if n > 0 {
      LastFedScripts(plans, n - 1, first);
      var p := plans[n - 1];
      assert plans[..n][..n - 1] == plans[..n - 1];
      ScriptsEnd(plans[..n]);
      LastFedAppend(Scripts(plans[..n - 1]), Script(p), first);
      ScriptAt(p);
      LastFedScript(p, |Script(p)|, LastFed(Scripts(plans[..n - 1]), first));
      assert Script(p)[..|Script(p)|] == Script(p);
    }
  }

  lemma {:induction false} LastFedLogged(log: seq<Act>, plans: seq<Plan>, n: nat, k: nat, first: Market)
    requires Logged(log, plans, n, k)
    ensures LastFed(log, first)
            == CurrentAfter(first, plans, if k <= (if plans[n].after == "" then 2 else 3) then n else n + 1)
  {
    LastFedScripts(plans, n, first);
    LastFedAppend(Scripts(plans[..n]), Script(plans[n])[..k], first);
    LastFedScript(plans[n], k, LastFed(Scripts(plans[..n]), first));
    hide LastFed, Script, Scripts;
  }

  /** On every run, except between a swap and the start of its feeds, the current market is the one whose feeds were
      started last, or the initial one; and so is, at its beginning, the market that a rotation leaves. */
  lemma {:induction false} CurrentIsFed(s: State, steps: seq<Step>)
    requires Init(s)
    ensures var r, plans := Run(s, steps), Plans(s, steps);
            && (!r.pc.StartFeeds? ==> r.current == LastFed(Acts(r.history), s.current))
            && forall i :: 0 <= i < |plans| ==> plans[i].outgoing == LastFed(Scripts(plans[..i]), s.current)
  {
    RunPlans(s, steps);
    var r, plans := Run(s, steps), Plans(s, steps);
    forall i | 0 <= i < |plans|
      ensures plans[i].outgoing == LastFed(Scripts(plans[..i]), s.current)
    {
      LastFedScripts(plans, i, s.current);
    }
    if !r.pc.StartFeeds? {
      FedNow(s.current, s.next, plans, Found(steps), r);
    }
  }

  lemma {:induction false} FedNow(first: Market, next: Option<Market>, plans: seq<Plan>, found: set<Market>, s: State)
    requires LogFits(plans, s) && NowFits(first, next, plans, found, s) && !s.pc.StartFeeds?
    ensures s.current == LastFed(Acts(s.history), first)
  {
    var n, log := s.rotations, Acts(s.history);
    hide LastFed, Scripts, Acts, Logged, CurrentAfter, ComesNext;
    if |plans| == n {
      assert plans[..n] == plans;
      LastFedScripts(plans, n, first);
    } else if Underway(s.pc) {
      LastFedLogged(log, plans, n, Progress(s.pc, plans[n]).value, first);
    } else if Logged(log, plans, n, 0) {
      LastFedLogged(log, plans, n, 0, first);
    } else {
      LastFedLogged(log, plans, n, 1, first);
    }
  }
}
