/**
 The rate limiter on values: a global and three per-class sliding windows, and the backoff state
 driven by the HTTP statuses of the responses.
 */
module RateLimits {
  import opened Common
  import opened RateWindow

  datatype IntentType = PlaceOrder | CancelOrder | CancelAll | ReplaceOrder | Heartbeat

  datatype Class = Orders | Cancels | Heartbeats

  function ClassOf(t: IntentType): Class {
    match t
    case PlaceOrder => Orders
    case ReplaceOrder => Orders
    case CancelOrder => Cancels
    case CancelAll => Cancels
    case Heartbeat => Heartbeats
  }

  datatype Config = Config(
    globalLimit: int, orderLimit: int, cancelLimit: int, heartbeatLimit: int,
    backoffBaseMs: int, backoffMaxMs: int, max429: int)

  function LimitOf(cfg: Config, c: Class): int {
    match c
    case Orders => cfg.orderLimit
    case Cancels => cfg.cancelLimit
    case Heartbeats => cfg.heartbeatLimit
  }

  const BASE_425_MS: int := 1500
  const MAX_425: nat := 10

  /** The part of the state that responses drive. */
  datatype Backoff = Backoff(
    count429: nat, unavailable: bool, until: int, ladder429: int, count425: nat, ladder425: int)

  datatype Rtt = Rtt(ema: int, baseline: int, count: nat)

  datatype Limiter = Limiter(
    cfg: Config, all: Window, orders: Window, cancels: Window, heartbeats: Window, backoff: Backoff, rtt: Rtt)

  ghost predicate Valid(l: Limiter) {
    && |l.all.ages| == NUM_BUCKETS && |l.orders.ages| == NUM_BUCKETS
    && |l.cancels.ages| == NUM_BUCKETS && |l.heartbeats.ages| == NUM_BUCKETS
  }

  function FreshBackoff(cfg: Config): Backoff {
    Backoff(0, false, 0, cfg.backoffBaseMs, 0, BASE_425_MS)
  }

  function FreshLimiter(cfg: Config): (l: Limiter)
    ensures Valid(l)
  {
    Limiter(cfg, Fresh(cfg.globalLimit), Fresh(cfg.orderLimit), Fresh(cfg.cancelLimit), Fresh(cfg.heartbeatLimit),
            FreshBackoff(cfg), Rtt(0, 0, 0))
  }

  function WindowOf(l: Limiter, c: Class): Window {
    match c
    case Orders => l.orders
    case Cancels => l.cancels
    case Heartbeats => l.heartbeats
  }

  function WithWindow(l: Limiter, c: Class, w: Window): Limiter {
    match c
    case Orders => l.(orders := w)
    case Cancels => l.(cancels := w)
    case Heartbeats => l.(heartbeats := w)
  }

  /** Whether a request gets past the backoff timer and the cancel-only mode. */
  predicate Open(b: Backoff, t: IntentType, now: int) {
    now >= b.until && !(b.unavailable && ClassOf(t).Orders?)
  }

  /** A request must get past the backoff, then the global window, then its class's window.  The global
      window counts it even when its class refuses it. */
  function Acquire(l: Limiter, t: IntentType, now: int): (r: (Limiter, bool))
    requires Valid(l)
    ensures Valid(r.0)
  {
    if !Open(l.backoff, t, now) then (l, false)
    else
      var (all, passed) := Consume(l.all, now);
      var l1 := l.(all := all);
      if !passed then (l1, false)
      else
        var (w, granted) := Consume(WindowOf(l1, ClassOf(t)), now);
        (WithWindow(l1, ClassOf(t), w), granted)
  }

  /** A quarter either way, but at least one millisecond; `jitter` is the drawn offset. */
  function Jittered(baseMs: int, jitter: int): int {
    if TruncDiv(baseMs, 4) <= 0 then baseMs else Max(1, baseMs + jitter)
  }

  predicate JitterInRange(baseMs: int, jitter: int) {
    -TruncDiv(baseMs, 4) <= jitter <= TruncDiv(baseMs, 4)
  }

  predicate Success(status: int) {
    200 <= status < 300
  }

  /** The delay base in force when a response with this status arrives. */
  function DelayBase(cfg: Config, b: Backoff, status: int): int {
    if status == 429 then b.ladder429 else if status == 425 then b.ladder425 else cfg.backoffBaseMs
  }

  function Respond(cfg: Config, b: Backoff, status: int, now: int, jitter: int): Backoff {
    var until := now + Jittered(DelayBase(cfg, b, status), jitter) * NS_PER_MS;
    if status == 429 then
      b.(count429 := b.count429 + 1, until := until, ladder429 := Min(b.ladder429 * 2, cfg.backoffMaxMs))
    else if status == 425 then
      b.(count425 := b.count425 + 1, until := Max(b.until, until), ladder425 := Min(b.ladder425 * 2, cfg.backoffMaxMs))
    else if status == 503 then
      b.(unavailable := true, until := until)
    else if Success(status) then
      Backoff(0, false, b.until, cfg.backoffBaseMs, 0, BASE_425_MS)
    else b
  }

  function Measure(r: Rtt, ns: int): Rtt {
    var n := r.count + 1;
    if n <= 10 then
      var baseline := TruncDiv(r.baseline * (n - 1) + ns, n);
      Rtt(baseline, baseline, n)
    else
      Rtt(TruncDiv(r.ema * 9 + ns, 10), r.baseline, n)
  }

  predicate LatencyDegraded(r: Rtt) {
    r.count >= 20 && r.baseline > 0 && r.ema > r.baseline * 3
  }

  predicate Degraded(l: Limiter) {
    l.backoff.count429 >= l.cfg.max429 || LatencyDegraded(l.rtt)
  }

  predicate EngineDown(b: Backoff) {
    b.count425 >= MAX_425
  }

  // ---------------------------------------------------------------------------
  // Runs
  // ---------------------------------------------------------------------------

  datatype Event =
    | Ask(t: IntentType, now: int)
    | Answer(status: int, at: int, jitter: int)
    | Sample(ns: int)
    | Reset

  function Step(l: Limiter, e: Event): (r: Limiter)
    requires Valid(l)
    ensures Valid(r) && r.cfg == l.cfg
  {
    match e
    case Ask(t, now) => Acquire(l, t, now).0
    case Answer(status, at, jitter) => l.(backoff := Respond(l.cfg, l.backoff, status, at, jitter))
    case Sample(ns) => l.(rtt := Measure(l.rtt, ns))
    case Reset => l.(backoff := FreshBackoff(l.cfg))
  }

  function After(cfg: Config, es: seq<Event>): (l: Limiter)
    ensures Valid(l) && l.cfg == cfg
  {
    if es == [] then FreshLimiter(cfg) else Step(After(cfg, es[..|es| - 1]), es[|es| - 1])
  }

  predicate Granted(cfg: Config, es: seq<Event>, i: nat)
    requires i < |es|
  {
    es[i].Ask? && Acquire(After(cfg, es[..i]), es[i].t, es[i].now).1
  }

  /** The times of the granted requests of a run: of all, or of one class. */
  function Grants(cfg: Config, es: seq<Event>): seq<int> {
    if es == [] then []
    else
      var before, i := Grants(cfg, es[..|es| - 1]), |es| - 1;
      if Granted(cfg, es, i) then before + [es[i].now] else before
  }

  function ClassGrants(cfg: Config, es: seq<Event>, c: Class): seq<int> {
    if es == [] then []
    else
      var before, i := ClassGrants(cfg, es[..|es| - 1], c), |es| - 1;
      if Granted(cfg, es, i) && ClassOf(es[i].t) == c then before + [es[i].now] else before
  }

  ghost predicate ClockForward(es: seq<Event>) {
    forall i, j :: 0 <= i <= j < |es| && es[i].Ask? && es[j].Ask? ==> es[i].now <= es[j].now
  }

  /** The calls that reach the global window, and those that reach the window of a class. */
  function GlobalCalls(cfg: Config, es: seq<Event>): seq<int> {
    if es == [] then []
    else
      var before, e := GlobalCalls(cfg, es[..|es| - 1]), es[|es| - 1];
      if ReachesGlobal(After(cfg, es[..|es| - 1]), e) then before + [e.now] else before
  }

  function ClassCalls(cfg: Config, es: seq<Event>, c: Class): seq<int> {
    if es == [] then []
    else
      var before, e := ClassCalls(cfg, es[..|es| - 1], c), es[|es| - 1];
      if ReachesClass(After(cfg, es[..|es| - 1]), e, c) then before + [e.now] else before
  }

  predicate ReachesGlobal(l: Limiter, e: Event) {
    e.Ask? && Open(l.backoff, e.t, e.now)
  }

  predicate ReachesClass(l: Limiter, e: Event, c: Class)
    requires Valid(l)
  {
    ReachesGlobal(l, e) && ClassOf(e.t) == c && Consume(l.all, e.now).1
  }

  lemma {:induction false} SortedAppend(ts: seq<int>, t: int)
    requires Sorted(ts) && forall x :: x in ts ==> x <= t
    ensures Sorted(ts + [t])
  {
    assert forall i :: 0 <= i < |ts| ==> ts[i] in ts;
  }

  /** What one event does to each window. */
  lemma {:induction false} StepWindows(l: Limiter, e: Event, c: Class)
    requires Valid(l)
    ensures Step(l, e).all == if ReachesGlobal(l, e) then Consume(l.all, e.now).0 else l.all
    ensures WindowOf(Step(l, e), c) == if ReachesClass(l, e, c) then Consume(WindowOf(l, c), e.now).0
            else WindowOf(l, c)
    ensures e.Ask? ==> (Acquire(l, e.t, e.now).1 && ClassOf(e.t) == c
                        <==> ReachesClass(l, e, c) && Consume(WindowOf(l, c), e.now).1)
  {
    hide Consume;
  }

  lemma {:induction false} CallsAreAsks(cfg: Config, es: seq<Event>, c: Class)
    requires ClockForward(es)
    ensures forall t :: t in GlobalCalls(cfg, es) || t in ClassCalls(cfg, es, c) ==>
              exists i :: 0 <= i < |es| && es[i].Ask? && es[i].now == t
    ensures Sorted(GlobalCalls(cfg, es)) && Sorted(ClassCalls(cfg, es, c))
  {
    if es != [] {
      var prefix, e := es[..|es| - 1], es[|es| - 1];
      CallsAreAsks(cfg, prefix, c);
      forall t | t in GlobalCalls(cfg, prefix) || t in ClassCalls(cfg, prefix, c)
        ensures e.Ask? ==> t <= e.now
        ensures exists i :: 0 <= i < |es| && es[i].Ask? && es[i].now == t
      {
        var i :| 0 <= i < |prefix| && prefix[i].Ask? && prefix[i].now == t;
        assert es[i].Ask? && es[i].now == t;
      }
      if e.Ask? {
        assert es[|es| - 1].Ask?;
        SortedAppend(GlobalCalls(cfg, prefix), e.now);
        SortedAppend(ClassCalls(cfg, prefix, c), e.now);
      }
    }
  }

  /** Each window of a run has seen exactly the calls that reached it, and a class's window granted exactly
      the class's grants. */
  lemma {:induction false} WindowsFollow(cfg: Config, es: seq<Event>, c: Class)
    ensures After(cfg, es).all == Run(cfg.globalLimit, GlobalCalls(cfg, es)).window
    ensures WindowOf(After(cfg, es), c) == Run(LimitOf(cfg, c), ClassCalls(cfg, es, c)).window
    ensures ClassGrants(cfg, es, c) == Run(LimitOf(cfg, c), ClassCalls(cfg, es, c)).log
  {
    if es == [] {
      assert GlobalCalls(cfg, es) == [] && ClassCalls(cfg, es, c) == [];
    } else {
      var prefix, e := es[..|es| - 1], es[|es| - 1];
      hide RateWindow.Run, Consume, Step, Acquire, WindowOf;
      WindowsFollow(cfg, prefix, c);
      StepWindows(After(cfg, prefix), e, c);
      if e.Ask? {
        RunStep(cfg.globalLimit, GlobalCalls(cfg, prefix), e.now);
        RunStep(LimitOf(cfg, c), ClassCalls(cfg, prefix, c), e.now);
      }
    }
  }

  /** Every grant was counted by the global window. */
  lemma {:induction false} GrantsWithinGlobal(cfg: Config, es: seq<Event>, lo: int, hi: int)
    ensures Count(Grants(cfg, es), lo, hi) <= Count(Run(cfg.globalLimit, GlobalCalls(cfg, es)).log, lo, hi)
  {
    if es != [] {
      var prefix, e := es[..|es| - 1], es[|es| - 1];
      hide RateWindow.Run, Consume, Respond, Measure;
      GrantsWithinGlobal(cfg, prefix, lo, hi);
      WindowsFollow(cfg, prefix, Orders);
      if e.Ask? {
        RunStep(cfg.globalLimit, GlobalCalls(cfg, prefix), e.now);
        CountStep(Grants(cfg, prefix), e.now, lo, hi);
        CountStep(Run(cfg.globalLimit, GlobalCalls(cfg, prefix)).log, e.now, lo, hi);
      }
    }
  }

  /** On every run with a clock that never goes back, any nine seconds hold at most the global limit of grants
      in all, and at most its own limit of each class. */
  lemma {:induction false} GrantBound(cfg: Config, es: seq<Event>, c: Class, lo: int, hi: int)
    requires ClockForward(es) && hi - lo <= GUARANTEED_MS
    ensures Count(Grants(cfg, es), lo, hi) <= Max(cfg.globalLimit, 0)
    ensures Count(ClassGrants(cfg, es, c), lo, hi) <= Max(LimitOf(cfg, c), 0)
  {
    CallsAreAsks(cfg, es, c);
    WindowsFollow(cfg, es, c);
    GrantsWithinGlobal(cfg, es, lo, hi);
    WindowBound(cfg.globalLimit, GlobalCalls(cfg, es), lo, hi);
    WindowBound(LimitOf(cfg, c), ClassCalls(cfg, es, c), lo, hi);
  }
}
