/**
 What the gateway sends and says is what it was asked for.  On every run each request on the wire carries the ids of
 intents that were taken, in as many copies as its kind calls for, and each feedback answers an intent that was taken,
 with what the reply to it says.
 */
module GatewayWire {
  import opened Common
  import opened RateLimits
  import opened ExecTypes
  import opened SellLedger
  import opened Desk
  import opened DeskInvariant
  import opened GatewaySteps
  import opened GatewayOrders
  import opened GatewayRuns

  // ---------------------------------------------------------------------------
  // What was asked for
  // ---------------------------------------------------------------------------

  /** Some intent asked for this order. */
  ghost predicate Ordered(taken: seq<Intent>, e: Entry) {
    exists i :: i in taken && (i.t.PlaceOrder? || i.t.ReplaceOrder?) && e.id == i.id && e.clientOid == i.clientOid
  }

  /** Some intent asked to cancel the order with this exchange id. */
  ghost predicate CancelAsked(taken: seq<Intent>, e: Entry, exchangeOid: string) {
    exists i :: i in taken && i.t.CancelOrder? && e.id == i.id && e.clientOid == i.clientOid
        && exchangeOid == i.exchangeOid != ""
  }

  /** Some intent asked to cancel everything. */
  ghost predicate CancelAllAsked(taken: seq<Intent>, e: Entry) {
    exists i :: i in taken && i.t.CancelAll? && e == Entry(i.id, "")
  }

  /** A request for intents that were taken: orders singly or in batches of at least two, a cancel on one connection, a
      cancel-all on every one. */
  ghost predicate Asked(setup: Setup, taken: seq<Intent>, r: Request, copies: nat) {
    match r
    case Order(e) => copies == 1 && Ordered(taken, e)
    case Batch(es) => copies == 1 && |es| >= 2 && forall k :: 0 <= k < |es| ==> Ordered(taken, es[k])
    case Cancel(e, exchangeOid) =>
      if exchangeOid == "" then copies == setup.clients && CancelAllAsked(taken, e)
      else copies == 1 && CancelAsked(taken, e, exchangeOid)
    case Beat => copies == 1
  }

  /** A request that is there for an intent, or the cancel-all of failing heartbeats. */
  ghost predicate Justified(setup: Setup, taken: seq<Intent>, r: Request) {
    || (exists copies: nat :: Asked(setup, taken, r, copies))
    || (setup.cancelOnFailure && r == Cancel(Entry(0, ""), ""))
  }

  /** What a reply to an order said. */
  ghost predicate AnswersOrder(taken: seq<Intent>, fb: Feedback) {
    exists e, reply, answer :: Ordered(taken, e) && OrderOutcome(fb, e, reply, answer)
  }

  /** What a reply to a cancel said. */
  ghost predicate AnswersCancel(setup: Setup, taken: seq<Intent>, fb: Feedback) {
    exists e, exchangeOid, reply ::
      Justified(setup, taken, Cancel(e, exchangeOid)) && CancelOutcome(fb, e, exchangeOid, reply)
  }

  /** What is said of an intent without a reply: that it is refused or throttled, or that it is about to be sent. */
  ghost predicate SaidOf(taken: seq<Intent>, fb: Feedback, beats: bool) {
    exists i :: i in taken && i.t.Heartbeat? == beats && fb == Feedback(fb.kind, i.id, i.clientOid, "", 0)
  }

  ghost predicate SaidFits(setup: Setup, taken: seq<Intent>, fb: Feedback) {
    if fb.kind in {GatewayDegraded, GatewayRecovered} then fb == Feedback(fb.kind, 0, "", "", 0)
    else if fb.kind in {HeartbeatOk, HeartbeatFailed} then fb == Feedback(fb.kind, 0, "", "", fb.status)
    else if fb.kind == RequestSent then SaidOf(taken, fb, false)
    else
      || (fb.kind in {OrderRejected, RateLimited} && SaidOf(taken, fb, false))
      || AnswersOrder(taken, fb) || AnswersCancel(setup, taken, fb)
  }

  ghost predicate ActFits(setup: Setup, taken: seq<Intent>, e: Act) {
    match e
    case Took(i) => i in taken
    case Booked(i, _, _) => i in taken && i.side.Ask?
    case Sent(r, copies) => Asked(setup, taken, r, copies)
    case Alarmed(copies) => setup.cancelOnFailure && copies == setup.clients
    case Came(r) => Justified(setup, taken, r)
    case Said(fb) => SaidFits(setup, taken, fb)
    case Shed(fb) => fb.kind == RateLimited && SaidOf(taken, fb, true)
  }

  /** Everything that happened, is in hand or is on the wire is there for the intents `taken`. */
  ghost predicate WireFits(setup: Setup, taken: seq<Intent>, d: Desk) {
    && (forall k :: 0 <= k < |d.trace| ==> ActFits(setup, taken, d.trace[k]))
    && (forall r :: r in d.inFlight ==> Justified(setup, taken, r))
    && (forall i :: i in d.hand ==> i in taken)
  }

  /** And those intents were taken. */
  ghost predicate Wire(setup: Setup, taken: seq<Intent>, d: Desk) {
    WireFits(setup, taken, d) && forall i :: i in taken ==> Took(i) in d.trace
  }

  // ---------------------------------------------------------------------------
  // Single acts
  // ---------------------------------------------------------------------------

  lemma {:induction false} RecordWire(setup: Setup, taken: seq<Intent>, d: Desk, e: Act)
    requires Wire(setup, taken, d) && ActFits(setup, taken, e)
    ensures Wire(setup, taken, Record(d, e))
  {
    hide ActFits, Justified;
  }

  lemma {:induction false} LeaveWire(setup: Setup, taken: seq<Intent>, d: Desk, left: multiset<Intent>)
    requires Wire(setup, taken, d) && left <= d.hand
    ensures Wire(setup, taken, d.(hand := left))
  {
    hide ActFits, Justified;
    assert forall i :: i in left ==> i in d.hand;
  }

  lemma {:induction false} LaunchWire(setup: Setup, taken: seq<Intent>, d: Desk, r: Request, copies: nat)
    requires Wire(setup, taken, d) && Justified(setup, taken, r)
    ensures Wire(setup, taken, d.(inFlight := Launch(d.inFlight, r, copies)))
  {
    hide ActFits, Justified;
    assert forall x :: x in Launch(d.inFlight, r, copies) ==> x in d.inFlight || x == r;
  }

  lemma {:induction false} SendWire(setup: Setup, taken: seq<Intent>, s: State, r: Request, copies: nat, v: seq<Intent>)
    requires Wire(setup, taken, s.desk) && Asked(setup, taken, r, copies)
    ensures Wire(setup, taken, Sending(s, r, copies, v).desk)
  {
    var left := s.desk.hand - multiset(v);
    hide Wire, Asked, Launch;
    LeaveWire(setup, taken, s.desk, left);
    RecordWire(setup, taken, s.desk.(hand := left), Sent(r, copies));
    LaunchWire(setup, taken, Record(s.desk.(hand := left), Sent(r, copies)), r, copies);
  }

  lemma {:induction false} SayWire(setup: Setup, taken: seq<Intent>, s: State, fb: Feedback)
    requires Wire(setup, taken, s.desk) && SaidFits(setup, taken, fb)
    ensures Wire(setup, taken, Saying(s, fb).desk)
  {
    RecordWire(setup, taken, s.desk, Said(fb));
    hide Wire, SaidFits;
  }

  lemma {:induction false} RefuseWire(setup: Setup, taken: seq<Intent>, s: State, i: Intent, kind: Kind)
    requires Wire(setup, taken, s.desk) && i in taken && !i.t.Heartbeat? && kind in {OrderRejected, RateLimited}
    ensures Wire(setup, taken, Refused(s, i, kind).desk)
  {
    assert SaidOf(taken, Note(kind, i), false);
    SayWire(setup, taken, s, Note(kind, i));
    var d := Saying(s, Note(kind, i)).desk;
    LeaveWire(setup, taken, d, d.hand - multiset{i});
    hide Wire, SaidOf;
  }

  lemma {:induction false} ThrottledWire(setup: Setup, taken: seq<Intent>, s: State, i: Intent)
    requires Wire(setup, taken, s.desk) && i in taken
    ensures Wire(setup, taken, Throttled(s, i).desk)
  {
    if i.t.Heartbeat? {
      var fb := Note(RateLimited, i);
      assert SaidOf(taken, fb, true);
      RecordWire(setup, taken, s.desk, Shed(fb));
      var d := Shedding(s, fb).desk;
      LeaveWire(setup, taken, d, d.hand - multiset{i});
      hide Wire, SaidOf;
    } else {
      RefuseWire(setup, taken, s, i, RateLimited);
      hide Wire, Refused;
    }
  }

  // ---------------------------------------------------------------------------
  // Orders and cancels
  // ---------------------------------------------------------------------------

  lemma {:induction false} NoteWire(setup: Setup, taken: seq<Intent>, s: State, i: Intent)
    requires Wire(setup, taken, s.desk) && i in taken && !i.t.Heartbeat?
    ensures Wire(setup, taken, Saying(s, Note(RequestSent, i)).desk)
  {
    assert SaidOf(taken, Note(RequestSent, i), false);
    SayWire(setup, taken, s, Note(RequestSent, i));
  }

  lemma {:induction false} AdmitWire(setup: Setup, taken: seq<Intent>, s: State, i: Intent, position: int)
    requires Wire(setup, taken, s.desk) && i in taken && i.side.Ask?
    ensures Wire(setup, taken, Admit(s, i, position).desk)
  {
    RecordWire(setup, taken, s.desk, Act.Booked(i, Reserved(Book(s, i).ledger, i.asset), position));
    hide Wire;
  }

  lemma {:induction false} PlacedWire(setup: Setup, taken: seq<Intent>, s: State, i: Intent, position: int, built: bool)
    requires Wire(setup, taken, s.desk) && i in taken && IsPlace(i.t)
    ensures Wire(setup, taken, Placed(s, i, position, built).desk)
  {
    assert Ordered(taken, EntryOf(i));
    hide Wire, Refused, Saying, Sending, Admit, Ordered;
    RefuseWire(setup, taken, s, i, OrderRejected);
    if i.side.Ask? {
      AdmitWire(setup, taken, s, i, position);
    }
    var b := if i.side.Ask? then Admit(s, i, position) else s;
    RefuseWire(setup, taken, b, i, OrderRejected);
    NoteWire(setup, taken, b, i);
    SendWire(setup, taken, Saying(b, Note(RequestSent, i)), Order(EntryOf(i)), 1, [i]);
  }

  lemma {:induction false} CancelWire(setup: Setup, taken: seq<Intent>, s: State, i: Intent)
    requires Wire(setup, taken, s.desk) && i in taken && i.t.CancelOrder?
    ensures Wire(setup, taken, CancelPlaced(s, i).desk)
  {
    assert i.exchangeOid != "" ==> CancelAsked(taken, EntryOf(i), i.exchangeOid);
    hide Wire, Refused, Saying, Sending, CancelAsked;
    if i.exchangeOid == "" {
      RefuseWire(setup, taken, s, i, OrderRejected);
    } else {
      NoteWire(setup, taken, s, i);
      SendWire(setup, taken, Saying(s, Note(RequestSent, i)), Cancel(EntryOf(i), i.exchangeOid), 1, [i]);
    }
  }

  lemma {:induction false} ProcessedWire(setup: Setup, taken: seq<Intent>, s: State, i: Intent, position: int,
      built: bool)
    requires Wire(setup, taken, s.desk) && i in taken
    ensures Wire(setup, taken, Processed(setup, s, i, position, built).desk)
  {
    hide Wire, Placed, CancelPlaced, Sending;
    match i.t
    case CancelOrder => CancelWire(setup, taken, s, i);
    case CancelAll =>
      assert CancelAllAsked(taken, Entry(i.id, ""));
      SendWire(setup, taken, s, CancelAllRequest(i.id), setup.clients, [i]);
    case Heartbeat => SendWire(setup, taken, s, Beat, 1, [i]);
    case _ => PlacedWire(setup, taken, s, i, position, built);
  }

  // ---------------------------------------------------------------------------
  // Batches
  // ---------------------------------------------------------------------------

  ghost predicate AllTaken(taken: seq<Intent>, v: seq<Intent>) {
    forall k :: 0 <= k < |v| ==> v[k] in taken && IsPlace(v[k].t)
  }

  lemma {:induction false} ScreenedWire(setup: Setup, taken: seq<Intent>, s: State, batch: seq<Intent>,
      positions: seq<int>, n: nat)
    requires Wire(setup, taken, s.desk) && AllTaken(taken, batch) && n <= |batch| == |positions|
    ensures Wire(setup, taken, Screened(s, batch, positions, n).desk)
    ensures AllTaken(taken, Passed(s, batch, positions, n))
  {
    hide Wire, Refused, Passes;
    if n > 0 {
      ScreenedWire(setup, taken, s, batch, positions, n - 1);
      RefuseWire(setup, taken, Screened(s, batch, positions, n - 1), batch[n - 1], OrderRejected);
    }
  }

  lemma {:induction false} BookingsWire(s: State, v: seq<Intent>, n: nat)
    requires n <= |v|
    ensures Bookings(s, v, n).desk == s.desk
  {
    if n > 0 {
      BookingsWire(s, v, n - 1);
    }
  }

  lemma {:induction false} RefuseAllWire(setup: Setup, taken: seq<Intent>, s: State, v: seq<Intent>, n: nat)
    requires Wire(setup, taken, s.desk) && AllTaken(taken, v) && n <= |v|
    ensures Wire(setup, taken, RefuseAll(s, v, n).desk)
  {
    hide Wire, Refused;
    if n > 0 {
      RefuseAllWire(setup, taken, s, v, n - 1);
      RefuseWire(setup, taken, RefuseAll(s, v, n - 1), v[n - 1], OrderRejected);
    }
  }

  lemma {:induction false} NoteAllWire(setup: Setup, taken: seq<Intent>, s: State, v: seq<Intent>, n: nat)
    requires Wire(setup, taken, s.desk) && AllTaken(taken, v) && n <= |v|
    ensures Wire(setup, taken, NoteAll(s, v, n).desk)
  {
    hide Wire, Saying;
    if n > 0 {
      NoteAllWire(setup, taken, s, v, n - 1);
      NoteWire(setup, taken, NoteAll(s, v, n - 1), v[n - 1]);
    }
  }

  lemma {:induction false} EntriesOrdered(taken: seq<Intent>, v: seq<Intent>)
    requires AllTaken(taken, v)
    ensures |EntriesOf(v)| == |v| && forall k :: 0 <= k < |v| ==> Ordered(taken, EntriesOf(v)[k])
  {
    if v != [] {
      var n := |v| - 1;
      EntriesOrdered(taken, v[..n]);
      assert v[n] in taken && Ordered(taken, EntryOf(v[n]));
    }
  }

  lemma {:induction false} BatchedWire(setup: Setup, taken: seq<Intent>, s: State, batch: seq<Intent>,
      positions: seq<int>, again: int, built: bool)
    requires Wire(setup, taken, s.desk) && AllTaken(taken, batch) && |batch| == |positions|
    ensures Wire(setup, taken, Batched(s, batch, positions, again, built).desk)
  {
    hide Wire, Screened, Passed, Placed, Bookings, RefuseAll, NoteAll, Sending, EntriesOf, Ordered;
    ScreenedWire(setup, taken, s, batch, positions, |batch|);
    var v, s1 := Passed(s, batch, positions, |batch|), Screened(s, batch, positions, |batch|);
    if |v| == 1 {
      PlacedWire(setup, taken, s1, v[0], again, built);
    } else if |v| > 1 {
      var s2 := Bookings(s1, v, |v|);
      BookingsWire(s1, v, |v|);
      RefuseAllWire(setup, taken, s2, v, |v|);
      NoteAllWire(setup, taken, s2, v, |v|);
      EntriesOrdered(taken, v);
      SendWire(setup, taken, NoteAll(s2, v, |v|), Batch(EntriesOf(v)), 1, v);
    }
  }

  // ---------------------------------------------------------------------------
  // Replies
  // ---------------------------------------------------------------------------

  lemma {:induction false} ReceiveWire(setup: Setup, taken: seq<Intent>, s: State, r: Request)
    requires Wire(setup, taken, s.desk) && r in s.desk.inFlight
    ensures Wire(setup, taken, Received(setup, s, r).desk) && Justified(setup, taken, r)
  {
    RecordWire(setup, taken, s.desk, Came(r));
    hide ActFits, Justified;
    assert forall x :: x in s.desk.inFlight - multiset{r} ==> x in s.desk.inFlight;
  }

  lemma {:induction false} HealthWire(setup: Setup, taken: seq<Intent>, s: State, degraded: bool)
    requires Wire(setup, taken, s.desk)
    ensures Wire(setup, taken, HealthNote(s, degraded).desk)
  {
    SayWire(setup, taken, s, HealthFeedback(degraded));
    hide Wire;
  }

  lemma {:induction false} AnswerWire(setup: Setup, taken: seq<Intent>, s: State, e: Entry, reply: Reply,
      answer: Option<OrderReply>)
    requires Wire(setup, taken, s.desk) && Ordered(taken, e)
    ensures Wire(setup, taken, Saying(s, OrderFeedback(e, reply, answer)).desk)
  {
    var fb := OrderFeedback(e, reply, answer);
    OrderFeedbackIff(fb, e, reply, answer);
    assert AnswersOrder(taken, fb);
    assert fb.kind in {Timeout, RateLimited, ExchangeUnavailable, OrderAccepted, OrderRejected};
    hide Wire, Ordered, OrderFeedback, AnswersOrder, OrderOutcome;
    SayWire(setup, taken, s, fb);
  }

  lemma {:induction false} AnswerCancelWire(setup: Setup, taken: seq<Intent>, s: State, e: Entry, exchangeOid: string,
      reply: Reply)
    requires Wire(setup, taken, s.desk) && Justified(setup, taken, Cancel(e, exchangeOid))
    ensures Wire(setup, taken, Saying(s, CancelFeedback(e, exchangeOid, reply)).desk)
  {
    var fb := CancelFeedback(e, exchangeOid, reply);
    hide Wire, Justified, CancelFeedback, Contains;
    CancelFeedbackIff(fb, e, exchangeOid, reply);
    assert fb.kind in {Timeout, RateLimited, ExchangeUnavailable, CancelConfirmed, OrderRejected};
    hide CancelOutcome;
    assert AnswersCancel(setup, taken, fb);
    SayWire(setup, taken, s, fb);
  }

  lemma {:induction false} SayAllWire(setup: Setup, taken: seq<Intent>, s: State, es: seq<Entry>, reply: Reply, n: nat)
    requires Wire(setup, taken, s.desk) && n <= |es| && forall k :: 0 <= k < |es| ==> Ordered(taken, es[k])
    ensures Wire(setup, taken, SayAll(s, es, reply, n).desk)
  {
    hide Wire, Ordered, Saying, OrderFeedback, Item;
    if n > 0 {
      SayAllWire(setup, taken, s, es, reply, n - 1);
      AnswerWire(setup, taken, SayAll(s, es, reply, n - 1), es[n - 1], reply, Item(reply, n - 1));
    }
  }

  lemma {:induction false} AlarmWire(setup: Setup, taken: seq<Intent>, s: State)
    requires Wire(setup, taken, s.desk) && setup.cancelOnFailure
    ensures Wire(setup, taken, Alarm(s.desk, setup.clients))
  {
    RecordWire(setup, taken, s.desk, Alarmed(setup.clients));
    hide Wire, Launch, Asked;
    LaunchWire(setup, taken, Record(s.desk, Alarmed(setup.clients)), CancelAllRequest(0), setup.clients);
  }

  lemma {:induction false} BeatWire(setup: Setup, taken: seq<Intent>, s: State, reply: Reply)
    requires Wire(setup, taken, s.desk)
    ensures Wire(setup, taken, BeatOutcome(setup, s, reply).desk)
  {
    hide Wire, Alarm, BeatAnswered, BeatThrottled, Release;
    SayWire(setup, taken, s, Feedback(HeartbeatOk, 0, "", "", reply.status));
    var fb := Feedback(HeartbeatFailed, 0, "", "", reply.status);
    SayWire(setup, taken, s, fb);
    if setup.cancelOnFailure {
      AlarmWire(setup, taken, Saying(s, fb).(failures := s.failures + 1));
    }
  }

  lemma {:induction false} RepliedWire(setup: Setup, taken: seq<Intent>, s: State, r: Request, reply: Reply,
      impaired: bool)
    requires Wire(setup, taken, s.desk) && r in s.desk.inFlight
    ensures Wire(setup, taken, Replied(setup, s, r, reply, impaired).desk)
  {
    ReceiveWire(setup, taken, s, r);
    var received := Received(setup, s, r);
    hide Wire, HealthNote, Saying, SayAll, OrderFeedback, CancelFeedback, BeatOutcome, Received, Ordered, Stale;
    HealthWire(setup, taken, received, impaired);
    match r
    case Order(e) => AnswerWire(setup, taken, HealthNote(received, impaired), e, reply, reply.order);
    case Batch(es) => SayAllWire(setup, taken, HealthNote(received, impaired), es, reply, |es|);
    case Cancel(e, exchangeOid) =>
      hide Justified;
      AnswerCancelWire(setup, taken, HealthNote(received, impaired), e, exchangeOid, reply);
    case Beat =>
      BeatWire(setup, taken, received, reply);
      HealthWire(setup, taken, BeatOutcome(setup, received, reply), impaired);
  }

  // ---------------------------------------------------------------------------
  // Every run
  // ---------------------------------------------------------------------------

  lemma {:induction false} MoreTaken(setup: Setup, taken: seq<Intent>, more: seq<Intent>, d: Desk)
    requires WireFits(setup, taken, d) && forall i :: i in taken ==> i in more
    ensures WireFits(setup, more, d)
  {
    forall e: Act | ActFits(setup, taken, e)
      ensures ActFits(setup, more, e)
    {
      MoreFits(setup, taken, more, e);
    }
    forall r | Justified(setup, taken, r)
      ensures Justified(setup, more, r)
    {
      MoreJustified(setup, taken, more, r);
    }
    hide ActFits, Justified;
  }

  lemma {:induction false} MoreAsked(setup: Setup, taken: seq<Intent>, more: seq<Intent>, r: Request, copies: nat)
    requires Asked(setup, taken, r, copies) && forall i :: i in taken ==> i in more
    ensures Asked(setup, more, r, copies)
  {
    match r
    case Batch(es) =>
      forall k | 0 <= k < |es|
        ensures Ordered(more, es[k])
      {
        assert Ordered(taken, es[k]);
      }
    case _ =>
  }

  lemma {:induction false} MoreJustified(setup: Setup, taken: seq<Intent>, more: seq<Intent>, r: Request)
    requires Justified(setup, taken, r) && forall i :: i in taken ==> i in more
    ensures Justified(setup, more, r)
  {
    if copies: nat :| Asked(setup, taken, r, copies) {
      MoreAsked(setup, taken, more, r, copies);
    }
    hide Asked;
  }

  lemma {:induction false} MoreFits(setup: Setup, taken: seq<Intent>, more: seq<Intent>, e: Act)
    requires ActFits(setup, taken, e) && forall i :: i in taken ==> i in more
    ensures ActFits(setup, more, e)
  {
    match e
    case Sent(r, copies) => MoreAsked(setup, taken, more, r, copies);
    case Came(r) => MoreJustified(setup, taken, more, r);
    case Said(fb) => MoreSaid(setup, taken, more, fb);
    case _ =>
  }

  lemma {:induction false} MoreSaid(setup: Setup, taken: seq<Intent>, more: seq<Intent>, fb: Feedback)
    requires SaidFits(setup, taken, fb) && forall i :: i in taken ==> i in more
    ensures SaidFits(setup, more, fb)
  {
    hide OrderOutcome, CancelOutcome;
    if AnswersOrder(taken, fb) {
      var e, reply, answer :| Ordered(taken, e) && OrderOutcome(fb, e, reply, answer);
      assert Ordered(more, e);
    }
    if AnswersCancel(setup, taken, fb) {
      var e, exchangeOid, reply :|
        Justified(setup, taken, Cancel(e, exchangeOid)) && CancelOutcome(fb, e, exchangeOid, reply);
      MoreJustified(setup, taken, more, Cancel(e, exchangeOid));
      hide Justified;
      assert AnswersCancel(setup, more, fb);
    }
    hide Justified;
  }

  lemma {:induction false} ArriveWire(setup: Setup, taken: seq<Intent>, s: State, i: Intent)
    requires Wire(setup, taken, s.desk)
    ensures Wire(setup, taken + [i], Take(s.desk, i))
  {
    MoreTaken(setup, taken, taken + [i], s.desk);
    assert ActFits(setup, taken + [i], Took(i));
    hide ActFits, Justified;
  }

  lemma {:induction false} InHandTaken(setup: Setup, taken: seq<Intent>, d: Desk)
    requires Wire(setup, taken, d)
    ensures forall i :: i in d.hand ==> i in taken
  {
    hide ActFits, Justified;
  }

  lemma {:induction false} AllInHand(taken: seq<Intent>, hand: multiset<Intent>, batch: seq<Intent>)
    requires multiset(batch) <= hand && AllPlace(batch) && forall i :: i in hand ==> i in taken
    ensures AllTaken(taken, batch)
  {
    forall k | 0 <= k < |batch|
      ensures batch[k] in hand
    {
      assert batch[k] in multiset(batch);
    }
  }

  lemma {:induction false} PingWire(setup: Setup, taken: seq<Intent>, s: State)
    requires Wire(setup, taken, s.desk)
    ensures Wire(setup, taken, Send(s.desk, Beat, 1))
  {
    hide Wire;
    var none: seq<Intent> := [];
    SendWire(setup, taken, s, Beat, 1, none);
    assert multiset(none) == multiset{} && s.desk.hand - multiset{} == s.desk.hand;
  }

  /** What a move takes. */
  function Takes(m: Move): seq<Intent> {
    if m.Arrive? then [m.intent] else []
  }

  lemma {:induction false} StepWire(setup: Setup, taken: seq<Intent>, s: State, m: Move)
    requires Wire(setup, taken, s.desk) && Enabled(setup, s, m)
    ensures Wire(setup, taken + Takes(m), GatewayRuns.Step(setup, s, m).desk)
  {
    InHandTaken(setup, taken, s.desk);
    assert taken + [] == taken;
    hide Wire, Throttled, Processed, Batched, Replied, Send, Take, AllPlace;
    match m
    case Arrive(i) => ArriveWire(setup, taken, s, i);
    case Refuse(i) => ThrottledWire(setup, taken, s, i);
    case Handle(i, position, built) => ProcessedWire(setup, taken, s, i, position, built);
    case HandleAll(batch, positions, again, built) =>
      AllInHand(taken, s.desk.hand, batch);
      BatchedWire(setup, taken, s, batch, positions, again, built);
    case Ping => PingWire(setup, taken, s);
    case Deliver(r, reply, impaired) => RepliedWire(setup, taken, s, r, reply, impaired);
  }

  /** What a run has taken. */
  function TakenBy(moves: seq<Move>): seq<Intent> {
    if moves == [] then [] else TakenBy(moves[..|moves| - 1]) + Takes(moves[|moves| - 1])
  }

  lemma {:induction false} LeadsWire(setup: Setup, moves: seq<Move>, s: State)
    requires Leads(setup, moves, s)
    ensures Wire(setup, TakenBy(moves), s.desk)
  {
    if moves != [] {
      var front, m := moves[..|moves| - 1], moves[|moves| - 1];
      hide Wire, Enabled, GatewayRuns.Step, Takes;
      var before :| Leads(setup, front, before) && Enabled(setup, before, m) && s == GatewayRuns.Step(setup, before, m);
      LeadsWire(setup, front, before);
      StepWire(setup, TakenBy(front), before, m);
    }
  }

  lemma {:induction false} TookIsTaken(trace: seq<Act>, i: Intent)
    requires Took(i) in trace
    ensures i in Taken(trace)
  {
    var n := |trace| - 1;
    assert trace == trace[..n] + [trace[n]];
    if trace[n] != Took(i) {
      TookIsTaken(trace[..n], i);
    }
  }

  /** On every run everything the gateway sent, has on the wire and said is there for the intents it took. */
  lemma {:induction false} ReachableWire(setup: Setup, s: State)
    requires Reachable(setup, s)
    ensures WireFits(setup, Taken(s.desk.trace), s.desk)
  {
    var moves :| Leads(setup, moves, s);
    LeadsWire(setup, moves, s);
    forall i | i in TakenBy(moves)
      ensures i in Taken(s.desk.trace)
    {
      TookIsTaken(s.desk.trace, i);
    }
    hide WireFits, Leads, TakenBy, Taken;
    MoreTaken(setup, TakenBy(moves), Taken(s.desk.trace), s.desk);
  }
}
