/**
 Where ids that are shared get in the way: for every failure threshold and number of cancel connections, the runs on
 which an intent has an outcome too many or none, a SELL loses its reservation early, or a reply goes unheard, and
 exactly when there are none.
 */
module GatewaySharing {
  import opened Common
  import opened RateLimits
  import opened ExecTypes
  import opened SellLedger
  import opened Sums
  import opened Desk
  import opened DeskInvariant
  import opened GatewaySteps
  import opened GatewayOrders
  import opened GatewayRuns

  // ---------------------------------------------------------------------------
  // Failing heartbeats
  // ---------------------------------------------------------------------------

  const SILENCE := Reply(0, true, 0, None, None, None, None)
  const CHAINED := Reply(200, false, 0, None, None, None, Some("next"))
  const OWN := CancelAllRequest(0)
  const PULSE := Intent(IntentType.Heartbeat, 1, "", Side.Bid, 0, "", "")

  /** The same tally but for heartbeats with the id 1, and alarms. */
  ghost predicate SameTally(t: Tally, t': Tally, id: nat) {
    t' == t.(beats := t'.beats, alarms := t'.alarms, copies := t'.copies) && (id != 1 ==> t'.beats == t.beats)
  }

  /** Nothing but heartbeats and health has happened since. */
  ghost predicate Undisturbed(s: State, s': State) {
    && s'.desk.hand == s.desk.hand && s'.ledger == s.ledger && s'.responded == s.responded
    && (forall id {:trigger TallyOf(s'.desk.trace, id)} ::
          SameTally(TallyOf(s.desk.trace, id), TallyOf(s'.desk.trace, id), id))
  }

  lemma {:induction false} UndisturbedTwice(a: State, b: State, c: State)
    requires Undisturbed(a, b) && Undisturbed(b, c)
    ensures Undisturbed(a, c)
  {
    hide TallyOf;
    forall id
      ensures SameTally(TallyOf(a.desk.trace, id), TallyOf(c.desk.trace, id), id)
    {
      assert SameTally(TallyOf(b.desk.trace, id), TallyOf(c.desk.trace, id), id);
    }
  }

  /** Events that leave the tallies alone. */
  predicate Idling(e: Act) {
    match e
    case Took(i) => i == PULSE
    case Sent(r, _) => r.Beat?
    case Alarmed(_) => true
    case Came(r) => r.Beat?
    case Said(fb) => !Terminal(fb.kind)
    case _ => false
  }

  lemma {:induction false} RecordUndisturbed(s: State, s': State, e: Act)
    requires Idling(e) && s'.desk.trace == s.desk.trace + [e]
    requires s'.desk.hand == s.desk.hand && s'.ledger == s.ledger && s'.responded == s.responded
    ensures Undisturbed(s, s')
  {
    forall id
      ensures SameTally(TallyOf(s.desk.trace, id), TallyOf(s'.desk.trace, id), id)
    {
      TallyOne(s.desk.trace, e, id);
    }
    hide TallyOf;
  }

  lemma {:induction false} SayUndisturbed(s: State, fb: Feedback)
    requires !Terminal(fb.kind)
    ensures Undisturbed(s, Saying(s, fb)) && Saying(s, fb).desk.inFlight == s.desk.inFlight
  {
    hide TallyOf, Terminal;
    RecordUndisturbed(s, Saying(s, fb), Said(fb));
  }

  lemma {:induction false} HealthUndisturbed(s: State, degraded: bool)
    ensures var s' := HealthNote(s, degraded);
            && Undisturbed(s, s') && s'.desk.inFlight == s.desk.inFlight
            && s'.failures == s.failures && s'.latched == s.latched
  {
    assert !Terminal(HealthFeedback(degraded).kind);
    hide TallyOf, Terminal;
    SayUndisturbed(s, HealthFeedback(degraded));
  }

  /** The gateway has sent a heartbeat for an intent, and the reply has come. */
  function Pulsed(setup: Setup, s: State): State {
    var taken := s.(desk := Take(s.desk, PULSE));
    Sending(taken, Beat, 1, [PULSE])
  }

  lemma {:induction false} PulsedUndisturbed(setup: Setup, s: State)
    ensures var s' := Received(setup, Pulsed(setup, s), Beat);
            && Undisturbed(s, s') && s'.desk.inFlight == s.desk.inFlight
            && s'.failures == s.failures && s'.latched == s.latched && s'.degraded == s.degraded
    ensures Pulsed(setup, s).desk.hand == s.desk.hand && Beat in Pulsed(setup, s).desk.inFlight
  {
    var s1 := s.(desk := Record(s.desk, Took(PULSE)));
    var s2 := s1.(desk := Record(s1.desk, Sent(Beat, 1)));
    var s3 := s2.(desk := Record(s2.desk, Came(Beat)));
    var s' := Received(setup, Pulsed(setup, s), Beat);
    assert multiset([PULSE]) == multiset{PULSE};
    assert s.desk.hand + multiset{PULSE} - multiset{PULSE} == s.desk.hand;
    assert Launch(s.desk.inFlight, Beat, 1) - multiset{Beat} == s.desk.inFlight;
    assert s' == s3;
    hide TallyOf, Undisturbed, Received, Pulsed;
    RecordUndisturbed(s, s1, Took(PULSE));
    RecordUndisturbed(s1, s2, Sent(Beat, 1));
    RecordUndisturbed(s2, s3, Came(Beat));
    UndisturbedTwice(s, s1, s2);
    UndisturbedTwice(s, s2, s3);
  }

  lemma {:induction false} PulsedReachable(setup: Setup, s: State)
    requires Reachable(setup, s)
    ensures Reachable(setup, Pulsed(setup, s))
  {
    var taken := s.(desk := Take(s.desk, PULSE));
    assert PULSE in taken.desk.hand;
    hide Reachable, Take, Sending;
    StepReachable(setup, s, Arrive(PULSE));
    StepReachable(setup, taken, Handle(PULSE, 0, false));
  }

  /** A heartbeat fails: this is all that changes. */
  lemma {:induction false} FailureUndisturbed(setup: Setup, s: State, fb: Feedback)
    requires fb.kind.HeartbeatFailed?
    ensures var s' := Failing(setup, s, fb);
            var alarm := setup.cancelOnFailure && s.failures + 1 >= setup.maxFailures && !s.latched;
            && Undisturbed(s, s') && s'.failures == s.failures + 1 && s'.latched == (s.latched || alarm)
            && s'.desk.inFlight == if alarm then Launch(s.desk.inFlight, OWN, setup.clients) else s.desk.inFlight
  {
    var said, s' := Saying(s, fb), Failing(setup, s, fb);
    SayUndisturbed(s, fb);
    hide TallyOf, Undisturbed, Saying, Launch;
    if setup.cancelOnFailure && s.failures + 1 >= setup.maxFailures && !s.latched {
      RecordUndisturbed(said, s', Alarmed(setup.clients));
      UndisturbedTwice(s, said, s');
    } else {
      SameStateUndisturbed(s, said, s');
    }
  }

  lemma {:induction false} SameStateUndisturbed(s: State, b: State, c: State)
    requires Undisturbed(s, b) && c.desk == b.desk && c.ledger == b.ledger && c.responded == b.responded
    ensures Undisturbed(s, c)
  {
    hide TallyOf;
  }

  /** The gateway sends a heartbeat that is not answered. */
  lemma {:induction false} OneFailure(setup: Setup, s: State) returns (s': State)
    requires Reachable(setup, s) && Idle(s)
    ensures var alarm := setup.cancelOnFailure && s.failures + 1 >= setup.maxFailures && !s.latched;
            && Reachable(setup, s') && Undisturbed(s, s')
            && s'.failures == s.failures + 1 && s'.latched == (s.latched || alarm)
            && s'.desk.inFlight == if alarm then Launch(s.desk.inFlight, OWN, setup.clients) else s.desk.inFlight
  {
    hide Reachable, Undisturbed, TallyOf, Pulsed, Failing, HealthNote, Launch, Received;
    var pulsed, fb := Pulsed(setup, s), Feedback(HeartbeatFailed, 0, "", "", 0);
    var came := Received(setup, pulsed, Beat);
    PulsedReachable(setup, s);
    PulsedUndisturbed(setup, s);
    FailureUndisturbed(setup, came, fb);
    var failed := Failing(setup, came, fb);
    var impaired := failed.failures >= setup.maxFailures;
    HealthUndisturbed(failed, impaired);
    s' := HealthNote(failed, impaired);
    assert s' == Replied(setup, pulsed, Beat, SILENCE, impaired);
    hide Replied;
    StepReachable(setup, pulsed, Deliver(Beat, SILENCE, impaired));
    UndisturbedTwice(s, came, failed);
    UndisturbedTwice(s, failed, s');
  }

  /** The gateway sends a heartbeat that succeeds, which ends the streak. */
  lemma {:induction false} OneSuccess(setup: Setup, s: State) returns (s': State)
    requires Reachable(setup, s) && Idle(s)
    ensures Reachable(setup, s') && Undisturbed(s, s')
    ensures s'.failures == 0 && !s'.latched && s'.desk.inFlight == s.desk.inFlight
  {
    hide Reachable, Undisturbed, TallyOf, Pulsed, HealthNote, Received, Saying, Terminal;
    var pulsed, fb := Pulsed(setup, s), Feedback(HeartbeatOk, 0, "", "", 200);
    var came := Received(setup, pulsed, Beat);
    PulsedReachable(setup, s);
    PulsedUndisturbed(setup, s);
    assert !Terminal(fb.kind) by {
      OkIsNotTerminal(fb);
    }
    SayUndisturbed(came, fb);
    var ok := Saying(came, fb).(failures := 0, latched := false);
    SameStateUndisturbed(came, Saying(came, fb), ok);
    var impaired := 0 >= setup.maxFailures;
    HealthUndisturbed(ok, impaired);
    s' := HealthNote(ok, impaired);
    assert BeatAnswered(CHAINED) && s' == Replied(setup, pulsed, Beat, CHAINED, impaired);
    hide Replied;
    StepReachable(setup, pulsed, Deliver(Beat, CHAINED, impaired));
    UndisturbedTwice(s, came, ok);
    UndisturbedTwice(s, ok, s');
  }

  lemma {:induction false} OkIsNotTerminal(fb: Feedback)
    requires fb.kind.HeartbeatOk?
    ensures !Terminal(fb.kind)
  {
  }

  lemma {:induction false} UndisturbedSelf(s: State)
    ensures Undisturbed(s, s)
  {
    hide TallyOf;
  }

  lemma {:induction false} SomeFailures(setup: Setup, s: State, n: nat) returns (s': State)
    requires Reachable(setup, s) && Idle(s) && s.failures == 0 && !s.latched && n < Max(setup.maxFailures, 1)
    ensures Reachable(setup, s') && Undisturbed(s, s')
    ensures s'.failures == n && !s'.latched && s'.desk.inFlight == s.desk.inFlight
  {
    s' := s;
    UndisturbedSelf(s);
    hide Reachable, TallyOf, Launch;
    if n > 0 {
      var before := SomeFailures(setup, s, n - 1);
      s' := OneFailure(setup, before);
      UndisturbedTwice(s, before, s');
    }
  }

  /** Unanswered heartbeats alone make the gateway cancel everything, whatever the threshold. */
  lemma {:induction false} AlarmReached(setup: Setup, s: State) returns (s': State)
    requires Reachable(setup, s) && Idle(s) && s.failures == 0 && !s.latched && setup.cancelOnFailure
    ensures Reachable(setup, s') && Undisturbed(s, s') && s'.latched
    ensures s'.desk.inFlight == Launch(s.desk.inFlight, OWN, setup.clients)
  {
    hide Reachable, TallyOf, Launch;
    var before := SomeFailures(setup, s, Max(setup.maxFailures, 1) - 1);
    s' := OneFailure(setup, before);
    UndisturbedTwice(s, before, s');
  }

  // ---------------------------------------------------------------------------
  // Replies to cancels
  // ---------------------------------------------------------------------------

  function WithOutcome(t: Tally): Tally {
    t.(outcomes := t.outcomes + 1)
  }

  lemma {:induction false} SayTally(s: State, fb: Feedback)
    requires Terminal(fb.kind)
    ensures TallyOf(Saying(s, fb).desk.trace, fb.id) == WithOutcome(TallyOf(s.desk.trace, fb.id))
  {
    TallyOne(s.desk.trace, Said(fb), fb.id);
    hide TallyOf;
  }

  lemma {:induction false} HealthTally(s: State, degraded: bool, id: nat)
    ensures TallyOf(HealthNote(s, degraded).desk.trace, id) == TallyOf(s.desk.trace, id)
  {
    TallyOne(s.desk.trace, Said(HealthFeedback(degraded)), id);
    hide TallyOf;
  }

  /** What a reply that is heard does to the tally of its id. */
  function Answered(t: Tally, r: Request, id: nat): Tally {
    WithOutcome(if CancelsId(r, id) then t.(came := t.came + 1) else t)
  }

  /** A reply that is heard is one outcome for its id, and gives back what is reserved under it. */
  lemma {:induction false} HeardOutcome(setup: Setup, s: State, r: Request, fb: Feedback, impaired: bool)
    requires Terminal(fb.kind)
    ensures var s' := Saying(HealthNote(Received(setup, s, r), impaired), fb);
            && TallyOf(s'.desk.trace, fb.id) == Answered(TallyOf(s.desk.trace, fb.id), r, fb.id)
            && s'.ledger == Release(s.ledger, fb.id) && s'.desk.inFlight == s.desk.inFlight - multiset{r}
            && s'.failures == s.failures && s'.latched == s.latched && s'.desk.hand == s.desk.hand
            && s'.responded == Heeded(setup, s.responded, r)
  {
    hide TallyOf, HealthNote, Release, Heeded, Terminal, SameTally;
    var came := Received(setup, s, r);
    TallyOne(s.desk.trace, Came(r), fb.id);
    HealthTally(came, impaired, fb.id);
    HealthUndisturbed(came, impaired);
    SayTally(HealthNote(came, impaired), fb);
  }

  /** The first reply to a cancel with the id. */
  lemma {:induction false} HearCancel(setup: Setup, s: State, r: Request) returns (s': State)
    requires Reachable(setup, s) && Idle(s) && r.Cancel? && r in s.desk.inFlight && !Stale(setup, s.responded, r)
    ensures Reachable(setup, s') && Idle(s')
    ensures TallyOf(s'.desk.trace, r.target.id) == Answered(TallyOf(s.desk.trace, r.target.id), r, r.target.id)
    ensures s'.ledger == Release(s.ledger, r.target.id) && s'.desk.inFlight == s.desk.inFlight - multiset{r}
    ensures s'.failures == s.failures && s'.latched == s.latched && s'.responded == Heeded(setup, s.responded, r)
  {
    var fb, impaired := CancelFeedback(r.target, r.exchangeOid, SILENCE), s.failures >= setup.maxFailures;
    s' := Saying(HealthNote(Received(setup, s, r), impaired), fb);
    assert s' == Replied(setup, s, r, SILENCE, impaired);
    CancelFeedbackIsTerminal(r.target, r.exchangeOid, SILENCE);
    hide Reachable, TallyOf, CancelFeedback, Replied, Saying, HealthNote, Received, Terminal, Heeded, Release, Answered;
    HeardOutcome(setup, s, r, fb, impaired);
    StepReachable(setup, s, Deliver(r, SILENCE, impaired));
  }

  /** The other copies go unheard. */
  lemma {:induction false} DrainCancel(setup: Setup, s: State, r: Request) returns (s': State)
    requires Reachable(setup, s) && Idle(s) && r.Cancel? && (r in s.desk.inFlight ==> Stale(setup, s.responded, r))
    ensures Reachable(setup, s') && Idle(s') && s'.desk.inFlight == s.desk.inFlight[r := 0]
    ensures s'.ledger == s.ledger && s'.responded == s.responded && s'.failures == s.failures && s'.latched == s.latched
    ensures forall id {:trigger TallyOf(s'.desk.trace, id)} ::
              var t := TallyOf(s.desk.trace, id);
              TallyOf(s'.desk.trace, id) == t.(came := TallyOf(s'.desk.trace, id).came)
    decreases s.desk.inFlight[r]
  {
    hide Reachable, TallyOf;
    s' := s;
    if r in s.desk.inFlight {
      var impaired := s.failures >= setup.maxFailures;
      var next := Replied(setup, s, r, SILENCE, impaired);
      assert next == Received(setup, s, r) && next.responded == s.responded;
      StepReachable(setup, s, Deliver(r, SILENCE, impaired));
      s' := DrainCancel(setup, next, r);
      forall id
        ensures TallyOf(next.desk.trace, id) == TallyOf(s.desk.trace, id).(came := TallyOf(next.desk.trace, id).came)
      {
        TallyOne(s.desk.trace, Came(r), id);
      }
    }
  }

  /** The first reply is heard and no copy is left. */
  lemma {:induction false} HearAndDrain(setup: Setup, s: State, r: Request) returns (s': State)
    requires Reachable(setup, s) && Idle(s) && r.Cancel? && s.desk.inFlight[r] == setup.clients > 0
    requires !Stale(setup, s.responded, r)
    ensures var t, t' := TallyOf(s.desk.trace, r.target.id), TallyOf(s'.desk.trace, r.target.id);
            && Reachable(setup, s') && Idle(s')
            && t'.outcomes == t.outcomes + 1 && Takings(t') == Takings(t) && t'.cancels == t.cancels
            && s'.desk.inFlight == s.desk.inFlight[r := 0] && s'.failures == s.failures && s'.latched == s.latched
            && s'.responded == Heeded(setup, s.responded, r)
  {
    hide Reachable, TallyOf;
    var heard := HearCancel(setup, s, r);
    s' := DrainCancel(setup, heard, r);
    assert TallyOf(s'.desk.trace, r.target.id)
        == TallyOf(heard.desk.trace, r.target.id).(came := TallyOf(s'.desk.trace, r.target.id).came);
  }

  // ---------------------------------------------------------------------------
  // Orders and cancel-alls
  // ---------------------------------------------------------------------------

  function SellWith(id: nat): Intent {
    Intent(PlaceOrder, id, "", Side.Ask, 1, "", "")
  }

  function CancelAllWith(id: nat): Intent {
    Intent(IntentType.CancelAll, id, "", Side.Bid, 0, "", "")
  }

  function OrderWith(id: nat): Request {
    Order(Entry(id, ""))
  }

  /** A SELL order with the id can be placed. */
  lemma {:induction false} SellPlaced(id: nat)
    ensures var i := SellWith(id);
            var s := Placed(START.(desk := Take(FreshDesk, i)), i, 1, true);
            && s.desk.trace
                == [] + [Took(i)] + [Act.Booked(i, 1, 1)] + [Said(Note(RequestSent, i))] + [Sent(OrderWith(id), 1)]
            && s.desk.hand == multiset{} && s.desk.inFlight == multiset{OrderWith(id)}
            && id in s.ledger.sells && s.failures == 0 && !s.latched && s.responded == {}
  {
    assert multiset([SellWith(id)]) == multiset{SellWith(id)};
    hide TallyOf;
  }

  lemma {:induction false} TallyFour(e1: Act, e2: Act, e3: Act, e4: Act, id: nat)
    ensures TallyOf([] + [e1] + [e2] + [e3] + [e4], id)
            == Count(Count(Count(Count(NOTHING, e1, id), e2, id), e3, id), e4, id)
  {
    assert TallyOf([], id) == NOTHING;
    hide TallyOf, Count;
    TallyOne([], e1, id);
    TallyOne([] + [e1], e2, id);
    TallyOne([] + [e1] + [e2], e3, id);
    TallyOne([] + [e1] + [e2] + [e3], e4, id);
  }

  /** A SELL order with the id is on the wire. */
  lemma {:induction false} SellSent(setup: Setup, id: nat) returns (s: State)
    ensures Reachable(setup, s) && Idle(s) && s.failures == 0 && !s.latched && s.responded == {}
    ensures s.desk.inFlight == multiset{OrderWith(id)} && id in s.ledger.sells
    ensures TallyOf(s.desk.trace, id) == NOTHING.(orders := 1, sells := 1)
  {
    hide Reachable, TallyOf;
    var i := SellWith(id);
    StartReachable(setup);
    var taken := GatewayRuns.Step(setup, START, Arrive(i));
    s := GatewayRuns.Step(setup, taken, Handle(i, 1, true));
    assert Enabled(setup, START, Arrive(i)) && Enabled(setup, taken, Handle(i, 1, true));
    assert s == Placed(taken, i, 1, true) && taken == START.(desk := Take(FreshDesk, i));
    SellPlaced(id);
    TallyFour(Took(i), Act.Booked(i, 1, 1), Said(Note(RequestSent, i)), Sent(OrderWith(id), 1), id);
    hide Enabled, GatewayRuns.Step, Placed, Take;
    StepReachable(setup, START, Arrive(i));
    StepReachable(setup, taken, Handle(i, 1, true));
  }

  /** A cancel-all intent with the id goes out on every connection. */
  lemma {:induction false} CancelAllSent(setup: Setup, s: State, id: nat) returns (s': State)
    requires Reachable(setup, s) && Idle(s)
    ensures Reachable(setup, s') && Idle(s') && s'.ledger == s.ledger && s'.responded == s.responded
    ensures s'.failures == s.failures && s'.latched == s.latched
    ensures s'.desk.inFlight == Launch(s.desk.inFlight, CancelAllRequest(id), setup.clients)
    ensures var t, t' := TallyOf(s.desk.trace, id), TallyOf(s'.desk.trace, id);
            t' == t.(cancels := t.cancels + 1, sent := t.sent + 1, copies := t.copies + setup.clients)
  {
    var i := CancelAllWith(id);
    var taken := s.(desk := Take(s.desk, i));
    s' := Sending(taken, CancelAllRequest(id), setup.clients, [i]);
    TallyOne(s.desk.trace, Took(i), id);
    TallyOne(taken.desk.trace, Sent(CancelAllRequest(id), setup.clients), id);
    assert multiset([i]) == multiset{i} && i in taken.desk.hand;
    hide Reachable, TallyOf, Launch;
    StepReachable(setup, s, Arrive(i));
    StepReachable(setup, taken, Handle(i, 0, false));
  }

  // ---------------------------------------------------------------------------
  // Outcomes
  // ---------------------------------------------------------------------------

  /** The reply to the gateway's own cancel-all ends the SELL with id 0 and gives its quantity back, while the order is
      still on the wire. */
  lemma {:induction false} ZeroReleased(setup: Setup) returns (s: State)
    requires setup.cancelOnFailure && setup.clients > 0
    ensures Reachable(setup, s) && Idle(s) && OrderWith(0) in s.desk.inFlight && 0 !in s.ledger.sells
    ensures var t := TallyOf(s.desk.trace, 0);
            t.outcomes == 1 && t.orders == t.sells == Carriers(t) == 1
  {
    hide Reachable, TallyOf;
    var sent := SellSent(setup, 0);
    var alarmed := AlarmReached(setup, sent);
    assert SameTally(TallyOf(sent.desk.trace, 0), TallyOf(alarmed.desk.trace, 0), 0);
    s := HearCancel(setup, alarmed, OWN);
  }

  /** An order is replied to. */
  lemma {:induction false} OrderAnswered(setup: Setup, s: State, id: nat) returns (s': State)
    requires Reachable(setup, s) && Idle(s) && OrderWith(id) in s.desk.inFlight
    ensures var t, t' := TallyOf(s.desk.trace, id), TallyOf(s'.desk.trace, id);
            && Reachable(setup, s') && Idle(s') && s'.desk.inFlight == s.desk.inFlight - multiset{OrderWith(id)}
            && t'.outcomes == t.outcomes + 1 && Takings(t') == Takings(t) && t'.cancels == t.cancels
  {
    var e, impaired := Entry(id, ""), s.failures >= setup.maxFailures;
    var fb := OrderFeedback(e, SILENCE, None);
    s' := Saying(HealthNote(Received(setup, s, OrderWith(id)), impaired), fb);
    assert s' == Replied(setup, s, OrderWith(id), SILENCE, impaired);
    OrderFeedbackIsTerminal(e, SILENCE, None);
    hide Reachable, TallyOf, OrderFeedback, Replied, Saying, HealthNote, Received, Terminal, Heeded, Release;
    HeardOutcome(setup, s, OrderWith(id), fb, impaired);
    StepReachable(setup, s, Deliver(OrderWith(id), SILENCE, impaired));
  }

  lemma {:induction false} NothingIsQuiet(s: State, id: nat)
    requires s.desk.inFlight == multiset{}
    ensures Quiet(s, id)
  {
  }

  /** One order with the id 0, and the gateway's own cancel-all: two outcomes for one intent. */
  lemma {:induction false} ZeroTwice(setup: Setup) returns (s: State)
    requires setup.cancelOnFailure && setup.clients > 0
    ensures Reachable(setup, s) && Idle(s) && Quiet(s, 0)
    ensures var t := TallyOf(s.desk.trace, 0);
            t.outcomes == 2 && Takings(t) == 1 && t.cancels == 0
  {
    hide Reachable, TallyOf, Quiet;
    var sent := SellSent(setup, 0);
    var alarmed := AlarmReached(setup, sent);
    assert SameTally(TallyOf(sent.desk.trace, 0), TallyOf(alarmed.desk.trace, 0), 0);
    var heard := HearAndDrain(setup, alarmed, OWN);
    s := OrderAnswered(setup, heard, 0);
    assert s.desk.inFlight == multiset{};
    NothingIsQuiet(s, 0);
  }

  /** Two cancel-all intents with one id on redundant connections: one outcome for two intents. */
  lemma {:induction false} TwoCancelAlls(setup: Setup, id: nat) returns (s: State)
    requires setup.clients > 1
    ensures Reachable(setup, s) && Idle(s) && Quiet(s, id)
    ensures var t := TallyOf(s.desk.trace, id);
            t.outcomes == 1 && Takings(t) == t.cancels == 2
  {
    StartReachable(setup);
    assert TallyOf(START.desk.trace, id) == NOTHING;
    hide Reachable, TallyOf, Quiet;
    var r := CancelAllRequest(id);
    var first := CancelAllSent(setup, START, id);
    var answered := HearAndDrain(setup, first, r);
    assert answered.desk.inFlight == multiset{};
    var second := CancelAllSent(setup, answered, id);
    s := DrainCancel(setup, second, r);
    assert TallyOf(s.desk.trace, id) == TallyOf(second.desk.trace, id).(came := TallyOf(s.desk.trace, id).came);
    assert s.desk.inFlight == multiset{};
    NothingIsQuiet(s, id);
  }

  /** Every intent with this id has had one outcome, once nothing on the wire concerns the id. */
  ghost predicate Settled(s: State, id: nat) {
    Idle(s) && Quiet(s, id) ==> TallyOf(s.desk.trace, id).outcomes == Takings(TallyOf(s.desk.trace, id))
  }

  /** For every id and every number of cancels: on all runs with at most that many cancels of the id its intents have
      one outcome each, if and only if the id is not that of the gateway's own cancel-all, and there is one cancel
      connection or at most one cancel. */
  lemma {:induction false} SettledOnEveryRunIff(setup: Setup, id: nat, k: nat)
    requires setup.clients > 0
    ensures (forall s :: Reachable(setup, s) && TallyOf(s.desk.trace, id).cancels <= k ==> Settled(s, id))
            <==> Owned(setup, id) && (setup.clients == 1 || k <= 1)
  {
    hide Reachable, TallyOf, Quiet;
    if Owned(setup, id) && (setup.clients == 1 || k <= 1) {
      forall s | Reachable(setup, s) && TallyOf(s.desk.trace, id).cancels <= k
        ensures Settled(s, id)
      {
        if Idle(s) && Quiet(s, id) {
          QuietSettles(setup, s, id);
        }
      }
    } else if !Owned(setup, id) {
      var s := ZeroTwice(setup);
      assert !Settled(s, id);
    } else {
      var s := TwoCancelAlls(setup, id);
      assert !Settled(s, id);
    }
  }

  lemma {:induction false} QuietSettles(setup: Setup, s: State, id: nat)
    requires Reachable(setup, s) && Idle(s) && Quiet(s, id) && setup.clients > 0
    requires Owned(setup, id) && (setup.clients == 1 || TallyOf(s.desk.trace, id).cancels <= 1)
    ensures TallyOf(s.desk.trace, id).outcomes == Takings(TallyOf(s.desk.trace, id))
  {
    OncePerIntent(setup, s, id);
    hide Reachable, TallyOf, Concerns, Stale;
  }

  // ---------------------------------------------------------------------------
  // Reservations
  // ---------------------------------------------------------------------------

  lemma {:induction false} OrderIsCounted(s: State, id: nat)
    requires OrderWith(id) in s.desk.inFlight
    ensures Sum(s.desk.inFlight, OrdersOn(id)) > 0
  {
    SumZeroIff(s.desk.inFlight, OrdersOn(id));
    MentionsIff(Entries(OrderWith(id)), id);
    assert Entry(id, "") in Entries(OrderWith(id));
    hide Sum;
  }

  /** A SELL and a cancel-all with one id: the cancel-all's reply gives the SELL's quantity back. */
  lemma {:induction false} SharedReleased(setup: Setup, id: nat) returns (s: State)
    requires setup.clients > 0
    ensures Reachable(setup, s) && Idle(s) && OrderWith(id) in s.desk.inFlight && id !in s.ledger.sells
    ensures var t := TallyOf(s.desk.trace, id);
            t.orders == t.sells == 1 && Takings(t) == Carriers(t) == 2
  {
    hide Reachable, TallyOf;
    var sent := SellSent(setup, id);
    var both := CancelAllSent(setup, sent, id);
    s := HearCancel(setup, both, CancelAllRequest(id));
  }

  /** For every id and every number of intents that carry it: on all runs with at most that many a SELL stays reserved
      while it is on the wire, if and only if it is the only one and the id is not that of the gateway's own
      cancel-all. */
  lemma {:induction false} StaysReservedIff(setup: Setup, id: nat, k: nat)
    requires setup.clients > 0
    ensures (forall s :: Reachable(setup, s) && Idle(s) && Carriers(TallyOf(s.desk.trace, id)) <= k ==>
            StaysReserved(s, id))
            <==> k == 0 || (k == 1 && Owned(setup, id))
  {
    hide Reachable, TallyOf, Sum;
    if k == 0 {
    } else if k == 1 && Owned(setup, id) {
      forall s | Reachable(setup, s) && Idle(s) && Carriers(TallyOf(s.desk.trace, id)) <= k
        ensures StaysReserved(s, id)
      {
        AloneStaysReserved(setup, s, id);
      }
    } else if !Owned(setup, id) {
      var s := ZeroReleased(setup);
      OrderIsCounted(s, id);
      assert !StaysReserved(s, id);
    } else {
      var s := SharedReleased(setup, id);
      OrderIsCounted(s, id);
      assert !StaysReserved(s, id);
    }
  }

  // ---------------------------------------------------------------------------
  // Replies that are not heard
  // ---------------------------------------------------------------------------

  /** The reply makes the gateway say something. */
  ghost predicate IsHeard(setup: Setup, s: State, r: Request, reply: Reply, impaired: bool) {
    Spoken(Replied(setup, s, r, reply, impaired).desk.trace) != Spoken(s.desk.trace)
  }

  lemma {:induction false} SpeaksMore(setup: Setup, s: State, r: Request, fb: Feedback, impaired: bool)
    ensures var came := Received(setup, s, r);
            && Spoken(came.desk.trace) == Spoken(s.desk.trace)
            && |Spoken(Saying(HealthNote(came, impaired), fb).desk.trace)| > |Spoken(s.desk.trace)|
  {
    var came := Received(setup, s, r);
    SpokenOne(s.desk.trace, Came(r));
    SpokenOne(came.desk.trace, Said(HealthFeedback(impaired)));
    SpokenOne(HealthNote(came, impaired).desk.trace, Said(fb));
    hide Spoken, Release, Heeded, Terminal;
  }

  /** With redundant cancel connections the gateway remembers the ids whose cancels have been replied to. */
  lemma {:induction false} RespondedIff(setup: Setup, s: State, id: nat)
    requires Reachable(setup, s) && setup.clients > 0
    ensures id in s.responded <==> setup.clients > 1 && TallyOf(s.desk.trace, id).came > 0
  {
    ReachableSound(setup, s);
    BalancesAt(setup, s, NONE, id);
    hide Reachable, Sound, TallyOf, Sum;
  }

  /** The reply to a cancel, of an intent or in the gateway's own name, is heard if and only if there is one cancel
      connection or no reply to a cancel with its id has come before. */
  lemma {:induction false} CancelHeardIff(setup: Setup, s: State, r: Request, reply: Reply, impaired: bool)
    requires Reachable(setup, s) && setup.clients > 0 && r.Cancel?
    ensures IsHeard(setup, s, r, reply, impaired)
            <==> setup.clients == 1 || TallyOf(s.desk.trace, r.target.id).came == 0
  {
    RespondedIff(setup, s, r.target.id);
    hide Reachable, TallyOf, Spoken, CancelFeedback, Saying, HealthNote, Received;
    SpeaksMore(setup, s, r, CancelFeedback(r.target, r.exchangeOid, reply), impaired);
  }

  /** All copies of a cancel-all with the id are on the wire, and whatever the exchange replies to them is not heard. */
  ghost predicate Deaf(setup: Setup, s: State, id: nat) {
    && s.desk.inFlight[CancelAllRequest(id)] == setup.clients
    && forall reply, impaired :: !IsHeard(setup, s, CancelAllRequest(id), reply, impaired)
  }

  lemma {:induction false} AnsweredIsDeaf(setup: Setup, s: State, id: nat)
    requires Reachable(setup, s) && setup.clients > 1 && id in s.responded
    requires s.desk.inFlight[CancelAllRequest(id)] == setup.clients
    ensures Deaf(setup, s, id)
  {
    RespondedIff(setup, s, id);
    hide Reachable, TallyOf, IsHeard;
    forall reply, impaired
      ensures !IsHeard(setup, s, CancelAllRequest(id), reply, impaired)
    {
      CancelHeardIff(setup, s, CancelAllRequest(id), reply, impaired);
    }
  }

  /** A second cancel-all with the same id. */
  lemma {:induction false} SecondCancelAll(setup: Setup, id: nat) returns (s: State)
    requires setup.clients > 1
    ensures Reachable(setup, s) && s.desk.inFlight[CancelAllRequest(id)] == setup.clients && id in s.responded
  {
    StartReachable(setup);
    hide Reachable, TallyOf;
    var first := CancelAllSent(setup, START, id);
    var answered := HearAndDrain(setup, first, CancelAllRequest(id));
    s := CancelAllSent(setup, answered, id);
  }

  /** The gateway can become deaf to a cancel-all, to a refusal of the credentials as to everything else, if and only
      if it has more than one cancel connection. */
  lemma {:induction false} DeafIff(setup: Setup, id: nat)
    requires setup.clients > 0
    ensures (exists s :: Reachable(setup, s) && Deaf(setup, s, id)) <==> setup.clients > 1
  {
    hide Reachable, IsHeard, TallyOf;
    if setup.clients > 1 {
      var s := SecondCancelAll(setup, id);
      AnsweredIsDeaf(setup, s, id);
    } else {
      forall s | Reachable(setup, s)
        ensures !Deaf(setup, s, id)
      {
        CancelHeardIff(setup, s, CancelAllRequest(id), SILENCE, true);
      }
    }
  }

  /** A first streak of failures, a success, and a second streak: the gateway is deaf to its own second cancel-all. */
  lemma {:induction false} SecondAlarm(setup: Setup) returns (s: State)
    requires setup.cancelOnFailure && setup.clients > 1
    ensures Reachable(setup, s) && s.latched && Deaf(setup, s, 0)
  {
    StartReachable(setup);
    hide Reachable, TallyOf, Deaf;
    var first := AlarmReached(setup, START);
    var answered := HearAndDrain(setup, first, OWN);
    var calm := OneSuccess(setup, answered);
    s := AlarmReached(setup, calm);
    AnsweredIsDeaf(setup, s, 0);
  }
}
