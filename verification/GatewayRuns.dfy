/**
 Runs of the gateway.  Intents arrive, with whatever ids, are dealt with one by one or in batches, heartbeats go out,
 and replies come to requests in flight; what every run keeps.
 */
module GatewayRuns {
  import opened Common
  import opened RateLimits
  import opened ExecTypes
  import opened SellLedger
  import opened Sums
  import opened Desk
  import opened DeskInvariant
  import opened GatewaySteps
  import opened GatewayOrders

  datatype Move =
    | Arrive(intent: Intent)
    | Refuse(intent: Intent)                                  // by the rate limiter
    | Handle(intent: Intent, position: int, built: bool)
    | HandleAll(intents: seq<Intent>, positions: seq<int>, again: int, built: bool)
    | Ping                                                    // a heartbeat that is due
    | Deliver(request: Request, reply: Reply, impaired: bool) // `impaired` is the gateway's health after the reply

  /** What can happen.  Intents are dealt with when they are in hand, heartbeats are due if they have an interval,
      replies come between polls, to requests in flight, and the gateway is impaired at least when too many heartbeats
      failed. */
  ghost predicate Enabled(setup: Setup, s: State, m: Move) {
    match m
    case Arrive(_) => true
    case Refuse(i) => i in s.desk.hand
    case Handle(i, _, _) => i in s.desk.hand
    case HandleAll(batch, positions, _, _) =>
      |batch| == |positions| && multiset(batch) <= s.desk.hand && AllPlace(batch)
    case Ping => setup.beatInterval > 0
    case Deliver(r, reply, impaired) =>
      && s.desk.hand == multiset{} && r in s.desk.inFlight
      && (Replied(setup, s, r, reply, impaired).failures >= setup.maxFailures ==> impaired)
  }

  function Step(setup: Setup, s: State, m: Move): State
    requires m.HandleAll? ==> |m.intents| == |m.positions|
  {
    match m
    case Arrive(i) => s.(desk := Take(s.desk, i))
    case Refuse(i) => Throttled(s, i)
    case Handle(i, position, built) => Processed(setup, s, i, position, built)
    case HandleAll(batch, positions, again, built) => Batched(s, batch, positions, again, built)
    case Ping => s.(desk := Send(s.desk, Beat, 1))
    case Deliver(r, reply, impaired) => Replied(setup, s, r, reply, impaired)
  }

  /** These moves lead from the start to `s`. */
  ghost predicate Leads(setup: Setup, moves: seq<Move>, s: State) {
    if moves == [] then s == START
    else
      var m := moves[|moves| - 1];
      exists before :: Leads(setup, moves[..|moves| - 1], before) && Enabled(setup, before, m)
          && s == Step(setup, before, m)
  }

  ghost predicate Reachable(setup: Setup, s: State) {
    exists moves :: Leads(setup, moves, s)
  }

  lemma {:induction false} StartReachable(setup: Setup)
    ensures Reachable(setup, START)
  {
    assert Leads(setup, [], START);
  }

  lemma {:induction false} StepReachable(setup: Setup, s: State, m: Move)
    requires Reachable(setup, s) && Enabled(setup, s, m)
    ensures Reachable(setup, Step(setup, s, m))
  {
    var s' := Step(setup, s, m);
    hide Enabled, Step;
    var moves :| Leads(setup, moves, s);
    var more := moves + [m];
    assert more[..|more| - 1] == moves && more[|more| - 1] == m;
    assert Leads(setup, more, s');
  }

  // ---------------------------------------------------------------------------
  // What every run keeps
  // ---------------------------------------------------------------------------

  lemma {:induction false} StepSound(setup: Setup, s: State, m: Move)
    requires AtRest(setup, s) && Enabled(setup, s, m) && setup.clients > 0
    ensures AtRest(setup, Step(setup, s, m))
  {
    hide AtRest, Take, Throttled, Processed, Batched, Send, Replied;
    match m
    case Arrive(i) => TakeSound(setup, s, i);
    case Refuse(i) => ThrottledSound(setup, s, i);
    case Handle(i, position, built) => ProcessedSound(setup, s, i, position, built);
    case HandleAll(batch, positions, again, built) => BatchedSound(setup, s, batch, positions, again, built);
    case Ping => BeatSound(setup, s);
    case Deliver(r, reply, impaired) => ReplySound(setup, s, r, reply, impaired);
  }

  lemma {:induction false} LeadsSound(setup: Setup, moves: seq<Move>, s: State)
    requires Leads(setup, moves, s) && setup.clients > 0
    ensures AtRest(setup, s)
  {
    if moves == [] {
      FreshSound(setup);
    } else {
      var front, m := moves[..|moves| - 1], moves[|moves| - 1];
      hide AtRest, Enabled, Step;
      var before :| Leads(setup, front, before) && Enabled(setup, before, m) && s == Step(setup, before, m);
      LeadsSound(setup, front, before);
      StepSound(setup, before, m);
    }
  }

  /** On every run the desk is in order. */
  lemma {:induction false} ReachableSound(setup: Setup, s: State)
    requires Reachable(setup, s) && setup.clients > 0
    ensures AtRest(setup, s)
  {
    hide AtRest;
    var moves :| Leads(setup, moves, s);
    LeadsSound(setup, moves, s);
  }

  /** Nothing is in hand: no poll is under way. */
  predicate Idle(s: State) {
    s.desk.hand == multiset{}
  }

  /** A reply leads on and leaves nothing in hand. */
  lemma {:induction false} ReplyReachable(setup: Setup, s: State, r: Request, reply: Reply, impaired: bool)
    requires Reachable(setup, s) && setup.clients > 0 && Idle(s) && r in s.desk.inFlight
    requires Replied(setup, s, r, reply, impaired).failures >= setup.maxFailures ==> impaired
    ensures var s' := Replied(setup, s, r, reply, impaired);
            Reachable(setup, s') && Idle(s')
  {
    hide Reachable, AtRest, Replied;
    ReachableSound(setup, s);
    ReplySound(setup, s, r, reply, impaired);
    StepReachable(setup, s, Deliver(r, reply, impaired));
  }

  lemma {:induction false} HandleReachable(setup: Setup, s: State, i: Intent, position: int, built: bool)
    requires Reachable(setup, s) && setup.clients > 0 && i in s.desk.hand
    ensures var s' := Processed(setup, s, i, position, built);
            Reachable(setup, s') && s'.desk.hand == s.desk.hand - multiset{i}
  {
    hide Reachable, AtRest, Processed;
    ReachableSound(setup, s);
    ProcessedSound(setup, s, i, position, built);
    StepReachable(setup, s, Handle(i, position, built));
  }

  lemma {:induction false} RefuseReachable(setup: Setup, s: State, i: Intent)
    requires Reachable(setup, s) && setup.clients > 0 && i in s.desk.hand
    ensures Reachable(setup, Throttled(s, i)) && Throttled(s, i).desk.hand == s.desk.hand - multiset{i}
  {
    hide Reachable, AtRest, Throttled;
    ReachableSound(setup, s);
    ThrottledSound(setup, s, i);
    StepReachable(setup, s, Refuse(i));
  }

  /** One intent leaves the hand and the buffer stays. */
  lemma {:induction false} LeftInHand(buffer: seq<Intent>, i: Intent)
    ensures var hand := multiset(buffer) + multiset{i};
            i in hand && hand - multiset{i} == multiset(buffer) + multiset{}
  {
  }

  lemma {:induction false} HandleAllReachable(setup: Setup, s: State, batch: seq<Intent>, positions: seq<int>,
      again: int, built: bool)
    requires Reachable(setup, s) && setup.clients > 0 && multiset(batch) <= s.desk.hand && AllPlace(batch)
    requires |batch| == |positions|
    ensures var s' := Batched(s, batch, positions, again, built);
            Reachable(setup, s') && s'.desk.hand == s.desk.hand - multiset(batch)
  {
    hide Reachable, AtRest, Batched;
    ReachableSound(setup, s);
    BatchedSound(setup, s, batch, positions, again, built);
    StepReachable(setup, s, HandleAll(batch, positions, again, built));
  }

  // ---------------------------------------------------------------------------
  // Outcomes
  // ---------------------------------------------------------------------------

  /** No request on the wire concerns the id. */
  ghost predicate Quiet(s: State, id: nat) {
    forall r :: r in s.desk.inFlight ==> !Concerns(r, id)
  }

  /** A request on the wire still owes an outcome to the id. */
  ghost predicate Owing(setup: Setup, s: State, id: nat) {
    exists r :: r in s.desk.inFlight && Concerns(r, id) && !Stale(setup, s.responded, r)
  }

  lemma {:induction false} IdleAccount(setup: Setup, s: State, id: nat)
    requires Reachable(setup, s) && Idle(s) && setup.clients > 0
    ensures var a := AccountOf(s, id);
            && Fits(setup, id, a, 0, 0, 0) && a.tally == TallyOf(s.desk.trace, id)
            && a.orders == a.sells == a.cancels == a.beats == 0
            && (a.reserved <==> id in s.ledger.sells) && (a.heeded <==> id in s.responded)
            && (a.wire + a.copies == 0 <==> Quiet(s, id))
  {
    ReachableSound(setup, s);
    BalancesAt(setup, s, NONE, id);
    WireIsQuietIff(s.desk.inFlight, id);
    hide Reachable, Sound, TallyOf, InHand, OrdersOn, CancelsOn, Fits, Concerns;
  }

  /** Between polls, on every run and for every id: intents taken and replies to cancels heard are outcomes given,
      orders on the wire and cancels sent. */
  lemma {:induction false} OutcomeLaw(setup: Setup, s: State, id: nat)
    requires Reachable(setup, s) && Idle(s) && setup.clients > 0
    ensures var t := TallyOf(s.desk.trace, id);
            Takings(t) + Heard(setup, t) == t.outcomes + Sum(s.desk.inFlight, OrdersOn(id)) + t.sent
  {
    IdleAccount(setup, s, id);
    assert AccountOf(s, id).wire == Sum(s.desk.inFlight, OrdersOn(id));
    hide Reachable, AccountOf, TallyOf, Sum, OrdersOn;
  }

  /** Once nothing on the wire concerns an id, its intents have had one outcome each if and only if, with one cancel
      connection, no cancel-all in the gateway's own name used the id; and with more, at most one of its intents was
      sent as a cancel, and one was if the gateway's own cancel-all used it. */
  lemma {:induction false} SettledIff(setup: Setup, s: State, id: nat)
    requires Reachable(setup, s) && Idle(s) && setup.clients > 0 && Quiet(s, id)
    ensures var t := TallyOf(s.desk.trace, id);
            t.outcomes == Takings(t) <==>
              if setup.clients == 1 then t.alarms == 0 else t.sent == (if t.sent + t.alarms > 0 then 1 else 0)
  {
    IdleAccount(setup, s, id);
    hide Reachable, AccountOf, TallyOf, Quiet;
  }

  /** While the id is not the gateway's own and, with redundant connections, at most one cancel carries it: no intent
      has two outcomes, and each has one exactly when nothing on the wire owes the id any more. */
  lemma {:induction false} OncePerIntent(setup: Setup, s: State, id: nat)
    requires Reachable(setup, s) && Idle(s) && setup.clients > 0 && Owned(setup, id)
    requires setup.clients == 1 || TallyOf(s.desk.trace, id).cancels <= 1
    ensures var t := TallyOf(s.desk.trace, id);
            t.outcomes <= Takings(t) && (t.outcomes == Takings(t) <==> !Owing(setup, s, id))
  {
    IdleAccount(setup, s, id);
    OwingIff(setup, s, id);
    var a := AccountOf(s, id);
    assert a.wire == Sum(s.desk.inFlight, OrdersOn(id)) && a.copies == Sum(s.desk.inFlight, CancelsOn(id));
    hide Reachable, AccountOf, TallyOf, Quiet, Owing, Sum;
  }

  lemma {:induction false} OwingIff(setup: Setup, s: State, id: nat)
    ensures Owing(setup, s, id) <==>
              || Sum(s.desk.inFlight, OrdersOn(id)) > 0
              || (Sum(s.desk.inFlight, CancelsOn(id)) > 0 && !(setup.clients > 1 && id in s.responded))
  {
    SumZeroIff(s.desk.inFlight, OrdersOn(id));
    SumZeroIff(s.desk.inFlight, CancelsOn(id));
    forall r
      ensures Concerns(r, id) <==> OrdersOn(id)(r) + CancelsOn(id)(r) > 0
      ensures OrdersOn(id)(r) > 0 ==> !r.Cancel?
      ensures CancelsOn(id)(r) > 0 ==> r.Cancel? && r.target.id == id
    {
      ConcernsIff(r, id);
    }
    hide Sum, Concerns, OrdersOn, CancelsOn;
  }

  // ---------------------------------------------------------------------------
  // Reservations
  // ---------------------------------------------------------------------------

  /** A SELL with this id is on the wire: the orders that carry the id are SELLs, and one of them is in flight. */
  ghost predicate SellOnTheWire(s: State, id: nat) {
    var t := TallyOf(s.desk.trace, id);
    0 < t.sells == t.orders && Sum(s.desk.inFlight, OrdersOn(id)) > 0
  }

  ghost predicate StaysReserved(s: State, id: nat) {
    SellOnTheWire(s, id) ==> id in s.ledger.sells
  }

  /** A SELL on the wire is reserved if nothing else carries its id and the id is not the gateway's own. */
  lemma {:induction false} AloneStaysReserved(setup: Setup, s: State, id: nat)
    requires Reachable(setup, s) && Idle(s) && setup.clients > 0
    requires Owned(setup, id) && Carriers(TallyOf(s.desk.trace, id)) <= 1
    ensures StaysReserved(s, id)
  {
    IdleAccount(setup, s, id);
    assert AccountOf(s, id).wire == Sum(s.desk.inFlight, OrdersOn(id));
    hide Reachable, AccountOf, TallyOf, Sum, OrdersOn, Quiet;
  }

  /** Only SELLs on the wire are reserved; and if each SELL has an id of its own, not the gateway's, and a positive
      size, all of them are, and what is reserved of a token is the sum of their sizes. */
  lemma {:induction false} ReservedIsOnTheWire(setup: Setup, s: State)
    requires Reachable(setup, s) && Idle(s) && setup.clients > 0
    ensures forall id :: id in s.ledger.sells ==>
              TallyOf(s.desk.trace, id).sells > 0 && Sum(s.desk.inFlight, OrdersOn(id)) > 0
    ensures SellsProper(s.desk.trace) ==>
              Balanced(s.ledger) && forall id :: id in s.ledger.sells ==> IsTaken(s.desk.trace, id, s.ledger.sells[id])
    ensures SellsAlone(setup, s.desk.trace) ==> forall id :: id in s.ledger.sells <==> SellOnTheWire(s, id)
  {
    ReachableSound(setup, s);
    forall id
      ensures id in s.ledger.sells ==> TallyOf(s.desk.trace, id).sells > 0 && Sum(s.desk.inFlight, OrdersOn(id)) > 0
      ensures SellsAlone(setup, s.desk.trace) ==> (id in s.ledger.sells <==> SellOnTheWire(s, id))
    {
      ReservedAt(setup, s, id);
    }
    hide Reachable, Balances, TraceFits, TallyOf, Sum, OrdersOn, SellOnTheWire, SellsAlone, Balanced, SellsProper,
        IsTaken;
  }

  /** No other intent carries the id of a SELL, and no cancel-all in the gateway's own name. */
  ghost predicate SellsAlone(setup: Setup, trace: seq<Act>) {
    forall id :: TallyOf(trace, id).sells > 0 ==> Owned(setup, id) && Carriers(TallyOf(trace, id)) == 1
  }

  lemma {:induction false} ReservedAt(setup: Setup, s: State, id: nat)
    requires Reachable(setup, s) && Idle(s) && setup.clients > 0
    ensures id in s.ledger.sells ==> TallyOf(s.desk.trace, id).sells > 0 && Sum(s.desk.inFlight, OrdersOn(id)) > 0
    ensures SellsAlone(setup, s.desk.trace) ==> (id in s.ledger.sells <==> SellOnTheWire(s, id))
  {
    IdleAccount(setup, s, id);
    var t := TallyOf(s.desk.trace, id);
    assert AccountOf(s, id).wire == Sum(s.desk.inFlight, OrdersOn(id));
    if SellsAlone(setup, s.desk.trace) && t.sells > 0 {
      AloneStaysReserved(setup, s, id);
    }
    hide Reachable, AccountOf, TallyOf, Sum, OrdersOn, Quiet;
  }
}
