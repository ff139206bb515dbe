/**
 The execution gateway: it takes intents from the strategy, sends them to the exchange one by one or in batches,
 classifies the replies and says what came of each intent.  The exchange, the clock, positions and order signing are the
 environment: their answers are parameters, and every reply is to a request in flight.  Its methods do the steps of
 `GatewayRuns`, so what holds of every run holds of it.
 */
module Gateway {
  import opened Common
  import opened RateLimits
  import opened ExecTypes
  import opened FeedbackSink
  import opened SellLedger
  import opened Sums
  import opened Desk
  import opened DeskInvariant
  import opened GatewaySteps
  import opened GatewayRuns
  import opened GatewaySharing
  import opened GatewayWire

  ghost function Last(fs: seq<Feedback>): Feedback
    requires fs != []
  {
    fs[|fs| - 1]
  }

  /** So many more copies of a request are on the wire, and nothing else has changed there. */
  ghost predicate OnWire(before: multiset<Request>, after: multiset<Request>, r: Request, copies: nat) {
    after == if copies == 0 then before else before[r := before[r] + copies]
  }

  class Gateway {
    const setup: Setup
    const sink: FeedbackSink
    var limiter: Limiter
    var heartbeat: Pulse
    var beatInFlight: bool
    var latched: bool
    var wasDegraded: bool
    var responded: set<nat>
    var ledger: Ledger
    const batch: array<Intent>
    var batchCount: nat
    ghost var desk: Desk

    ghost function Now(): State
      reads this
    {
      State(desk, responded, ledger, wasDegraded, heartbeat.failures, latched)
    }

    /** What the gateway has said is what it has published. */
    ghost predicate Valid()
      reads this, sink
    {
      && setup.clients > 0 && batch.Length == BATCH_CAPACITY && RateLimits.Valid(limiter)
      && sink.Valid() && Spoken(desk.trace) == sink.published
    }

    /** Between polls nothing is in the gateway's hands, and a run has led here. */
    ghost predicate Idle()
      reads this, sink
    {
      Valid() && Reachable(setup, Now()) && batchCount == 0 && desk.hand == multiset{}
    }

    predicate Impaired()
      reads this
    {
      Degraded(limiter) || limiter.backoff.unavailable || heartbeat.failures >= setup.maxFailures
    }

    constructor (setup: Setup, limits: Config, hasFlag: bool)
      requires setup.clients > 0
      ensures this.setup == setup && fresh(sink) && fresh(batch) && sink.hasFlag == hasFlag
              && limiter == FreshLimiter(limits)
      ensures Idle() && desk == FreshDesk && !wasDegraded
    {
      this.setup := setup;
      sink := new FeedbackSink(hasFlag);
      limiter, heartbeat := FreshLimiter(limits), Pulse(0, "", 0);
      beatInFlight, latched, wasDegraded, responded := false, false, false, {};
      ledger := Ledger(map[], map[]);
      batch := new Intent[BATCH_CAPACITY](_ => Intent(PlaceOrder, 0, "", Bid, 0, "", ""));
      batchCount, desk := 0, FreshDesk;
      new;
      StartReachable(setup);
    }

    // -------------------------------------------------------------------------
    // Publishing
    // -------------------------------------------------------------------------

    /** The reservation of the SELL `id`, if it has one, goes back. */
    method ReleaseSell(id: nat)
      modifies `ledger
      ensures ledger == Release(old(ledger), id)
    {
      if id in ledger.sells {
        var s := ledger.sells[id];
        var held := if s.asset in ledger.qty then ledger.qty[s.asset] else 0;
        ledger := Ledger(ledger.qty[s.asset := if held > s.qty then held - s.qty else 0], ledger.sells - {id});
      }
    }

    /** Publishes a feedback and gives back what is reserved under its id if it ends something; `shed` marks the
        refusal of a heartbeat intent. */
    method PublishRaw(fb: Feedback, ghost shed: bool := false)
      requires Valid() && (shed ==> Terminal(fb.kind))
      modifies `desk, `ledger, sink
      ensures Valid() && Now() == (if shed then Shedding(old(Now()), fb) else Saying(old(Now()), fb))
      ensures Taken(desk.trace) == old(Taken(desk.trace)) && (old(sink.fatal) ==> sink.fatal)
      ensures sink.published == old(sink.published) + [fb] && desk.inFlight == old(desk.inFlight)
    {
      hide Spoken, Taken, Accounted, Release;
      if fb.kind != RequestSent && fb.kind != HeartbeatOk && fb.kind != HeartbeatFailed && fb.kind != GatewayDegraded
         && fb.kind != GatewayRecovered {
        ReleaseSell(fb.id);
      }
      ghost var e := if shed then Shed(fb) else Said(fb);
      SpokenOne(desk.trace, e);
      desk := Record(desk, e);
      sink.Publish(fb);
    }

    /** Answers an intent that is not sent. */
    method Answer(i: Intent, kind: Kind)
      requires Valid()
      modifies `desk, `ledger, sink
      ensures Valid() && Now() == Refused(old(Now()), i, kind) && Taken(desk.trace) == old(Taken(desk.trace))
      ensures sink.published == old(sink.published) + [Feedback(kind, i.id, i.clientOid, "", 0)]
      ensures desk.inFlight == old(desk.inFlight)
    {
      hide Spoken, Taken, Accounted, Saying;
      PublishRaw(Note(kind, i));
      desk := desk.(hand := desk.hand - multiset{i});
    }

    method CheckDegraded()
      requires Valid()
      modifies `desk, `ledger, `wasDegraded, sink
      ensures Valid() && wasDegraded == Impaired() && Now() == HealthNote(old(Now()), Impaired())
      ensures wasDegraded <==>
                || limiter.backoff.count429 >= limiter.cfg.max429 || LatencyDegraded(limiter.rtt)
                || limiter.backoff.unavailable || heartbeat.failures >= setup.maxFailures
      ensures old(sink.fatal) ==> sink.fatal
    {
      hide Spoken, Taken, Accounted, Saying, LatencyDegraded;
      var nowDegraded := Impaired();
      if nowDegraded && !wasDegraded {
        PublishRaw(HealthFeedback(true));
        wasDegraded := true;
      } else if !nowDegraded && wasDegraded {
        PublishRaw(HealthFeedback(false));
        wasDegraded := false;
      }
    }

    // -------------------------------------------------------------------------
    // Replies
    // -------------------------------------------------------------------------

    /** Every reply is noted by the rate limiter and may change the gateway's health. */
    method NoteReply(reply: Reply, now: int, jitter: int)
      requires Valid()
      modifies `desk, `ledger, `wasDegraded, `limiter, sink
      ensures Valid() && limiter == Noted(old(limiter), reply, now, jitter)
      ensures limiter.backoff == Respond(old(limiter.cfg), old(limiter.backoff), reply.status, now, jitter)
      ensures limiter.rtt == Measure(old(limiter.rtt), reply.latency)
      ensures wasDegraded == Impaired() && Now() == HealthNote(old(Now()), Impaired())
      ensures old(sink.fatal) ==> sink.fatal
    {
      hide Spoken, Accounted, Saying, Degraded, Respond, Measure;
      limiter := limiter.(backoff := Respond(limiter.cfg, limiter.backoff, reply.status, now, jitter));
      limiter := limiter.(rtt := Measure(limiter.rtt, reply.latency));
      CheckDegraded();
    }

    /** A reply comes off the wire. */
    ghost method Accept(r: Request)
      requires Valid()
      modifies `desk
      ensures Valid() && desk == Receive(old(desk), r)
    {
      hide Spoken, Taken, Accounted;
      SpokenOne(desk.trace, Came(r));
      desk := Receive(desk, r);
    }

    /** The reply to a single order. */
    method OnOrderReply(e: Entry, reply: Reply, now: int, jitter: int)
      requires Idle() && Order(e) in desk.inFlight
      modifies `desk, `ledger, `wasDegraded, `limiter, sink
      ensures Idle() && limiter == Noted(old(limiter), reply, now, jitter) && wasDegraded == Impaired()
      ensures Now() == Replied(setup, old(Now()), Order(e), reply, Impaired())
      ensures sink.published != [] && OrderOutcome(Last(sink.published), e, reply, reply.order)
      ensures sink.hasFlag && Alarming(reply, limiter) ==> sink.fatal
    {
      hide Spoken, Accounted, Saying, Degraded, Noted, HealthNote, OrderFeedback, OrderOutcome, Reachable, Receive;
      hide LatencyDegraded, Terminal;
      ghost var r := Order(e);
      Accept(r);
      NoteReply(reply, now, jitter);
      var fb, alarm := JudgeOrder(e, reply, EngineDown(limiter.backoff));
      OrderFeedbackIff(fb, e, reply, reply.order);
      PublishRaw(fb);
      if alarm {
        sink.Raise();
      }
      ReplyReachable(setup, old(Now()), r, reply, Impaired());
    }

    /** The orders of a batch from the `from`-th on all get this kind of feedback. */
    method AnswerRest(es: seq<Entry>, from: nat, kind: Kind, reply: Reply, ghost s0: State)
      requires from <= |es| && Valid() && Now() == SayAll(s0, es, reply, from)
      requires forall i :: from <= i < |es| ==>
                 OrderFeedback(es[i], reply, Item(reply, i))
                     == Feedback(kind, es[i].id, es[i].clientOid, "", reply.status)
      modifies `desk, `ledger, sink
      ensures Valid() && Now() == SayAll(s0, es, reply, |es|) && (old(sink.fatal) ==> sink.fatal)
    {
      hide Spoken, Accounted, Saying, OrderFeedback, Item;
      for i := from to |es|
        invariant Valid() && Now() == SayAll(s0, es, reply, i) && (old(sink.fatal) ==> sink.fatal)
      {
        PublishRaw(Feedback(kind, es[i].id, es[i].clientOid, "", reply.status));
      }
    }

    /** The orders of a batch that the reply has an element for. */
    method AnswerEach(es: seq<Entry>, items: seq<OrderReply>, reply: Reply, ghost s0: State) returns (n: nat)
      requires Valid() && Now() == s0
      requires reply.orders == Some(items) && !Unanswered(reply) && Success(reply.status)
      modifies `desk, `ledger, sink
      ensures n <= |es| && n == Min(|items|, |es|) && Valid() && Now() == SayAll(s0, es, reply, n)
      ensures old(sink.fatal) ==> sink.fatal
    {
      hide Spoken, Accounted, Saying;
      n := if |items| <= |es| then |items| else |es|;
      for i := 0 to n
        invariant Valid() && Now() == SayAll(s0, es, reply, i) && (old(sink.fatal) ==> sink.fatal)
      {
        var fb := Feedback(OrderRejected, es[i].id, es[i].clientOid, "", reply.status);
        if items[i].success {
          if items[i].orderId != "" {
            fb := fb.(kind := OrderAccepted, exchangeOid := items[i].orderId);
          }
        }
        assert fb == OrderFeedback(es[i], reply, Item(reply, i));
        PublishRaw(fb);
      }
    }

    /** One outcome for each order of a batch, however many elements the reply has. */
    method AnswerBatch(es: seq<Entry>, reply: Reply)
      requires Valid()
      modifies `desk, `ledger, sink
      ensures Valid() && Now() == SayAll(old(Now()), es, reply, |es|)
      ensures sink.hasFlag && Alarming(reply, limiter) ==> sink.fatal
    {
      hide Spoken, Accounted, Saying, SayAll;
      ghost var s0 := Now();
      SayNone(s0, es, reply);
      var kind, alarm := Screen(reply, EngineDown(limiter.backoff));
      if kind.Some? {
        AnswerRest(es, 0, kind.value, reply, s0);
      } else if reply.orders.None? {
        AnswerRest(es, 0, OrderRejected, reply, s0);
      } else {
        var n := AnswerEach(es, reply.orders.value, reply, s0);
        AnswerRest(es, n, OrderRejected, reply, s0);
      }
      if alarm {
        sink.Raise();
      }
    }

    /** The reply to a batch. */
    method OnBatchReply(es: seq<Entry>, reply: Reply, now: int, jitter: int)
      requires Idle() && Batch(es) in desk.inFlight
      modifies `desk, `ledger, `wasDegraded, `limiter, sink
      ensures Idle() && limiter == Noted(old(limiter), reply, now, jitter) && wasDegraded == Impaired()
      ensures Now() == Replied(setup, old(Now()), Batch(es), reply, Impaired())
      ensures |sink.published| >= |es|
              && BatchOutcomes(sink.published[|sink.published| - |es|..], es, reply)
      ensures sink.hasFlag && Alarming(reply, limiter) ==> sink.fatal
    {
      hide Spoken, Accounted, Degraded, Noted, HealthNote, SayAll, Alarming, Reachable, BatchOutcomes;
      ghost var r := Batch(es);
      Accept(r);
      NoteReply(reply, now, jitter);
      ghost var fbs := BatchSaysOnePerOrder(Now(), es, reply, |es|);
      assert es[..|es|] == es;
      AnswerBatch(es, reply);
      assert sink.published[|sink.published| - |es|..] == fbs;
      assert Now() == Replied(setup, old(Now()), r, reply, Impaired());
      hide Replied, Receive;
      ReplyReachable(setup, old(Now()), r, reply, Impaired());
    }

    /** The reply to a cancel or to one copy of a cancel-all, of an intent or in the gateway's own name.  With redundant
        cancel connections only the first reply for an id is heard; another one reaches neither the rate limiter nor the
        health check nor the fatal flag. */
    method OnCancelReply(e: Entry, exchangeOid: string, reply: Reply, now: int, jitter: int)
      requires Idle() && Cancel(e, exchangeOid) in desk.inFlight
      modifies `desk, `ledger, `wasDegraded, `limiter, `responded, sink
      ensures Idle() && Now() == Replied(setup, old(Now()), Cancel(e, exchangeOid), reply, Impaired())
      ensures if setup.clients > 1 && old(TallyOf(desk.trace, e.id).came) > 0 then
                unchanged(`limiter, `wasDegraded, sink)
              else
                && limiter == Noted(old(limiter), reply, now, jitter)
                && sink.published != [] && CancelOutcome(Last(sink.published), e, exchangeOid, reply)
                && (sink.hasFlag && Alarming(reply, limiter) ==> sink.fatal)
      ensures old(wasDegraded == Impaired()) || !(setup.clients > 1 && old(TallyOf(desk.trace, e.id).came) > 0) ==>
                wasDegraded == Impaired()
    {
      hide Spoken, Accounted, Saying, Degraded, Noted, HealthNote, CancelFeedback, CancelOutcome, Alarming, Reachable;
      hide TallyOf, Replied, Receive, Heeded, LatencyDegraded, Terminal;
      ghost var r := Cancel(e, exchangeOid);
      RespondedIff(setup, Now(), e.id);
      Accept(r);
      if !(setup.clients > 1 && e.id in responded) {
        HearCancel(e, exchangeOid, reply, now, jitter);
      }
      CancelReplied(setup, old(Now()), r, reply, Impaired());
      ReplyReachable(setup, old(Now()), r, reply, Impaired());
    }

    /** The first reply for its id. */
    method HearCancel(e: Entry, exchangeOid: string, reply: Reply, now: int, jitter: int)
      requires Valid()
      modifies `desk, `ledger, `wasDegraded, `limiter, `responded, sink
      ensures Valid() && limiter == Noted(old(limiter), reply, now, jitter) && wasDegraded == Impaired()
      ensures var heeded := old(Now()).(responded := Heeded(setup, old(responded), Cancel(e, exchangeOid)));
              Now() == Saying(HealthNote(heeded, Impaired()), CancelFeedback(e, exchangeOid, reply))
      ensures sink.published != [] && CancelOutcome(Last(sink.published), e, exchangeOid, reply)
      ensures sink.hasFlag && Alarming(reply, limiter) ==> sink.fatal
    {
      hide Spoken, Accounted, Saying, Degraded, Noted, HealthNote, CancelFeedback, CancelOutcome;
      if setup.clients > 1 {
        responded := responded + {e.id};
      }
      NoteReply(reply, now, jitter);
      var fb, alarm := JudgeCancel(e, exchangeOid, reply, EngineDown(limiter.backoff));
      CancelFeedbackIff(fb, e, exchangeOid, reply);
      PublishRaw(fb);
      if alarm {
        sink.Raise();
      }
    }

    // -------------------------------------------------------------------------
    // Heartbeats
    // -------------------------------------------------------------------------

    /** A request goes on the wire, in as many copies as there are connections for it, for the intents `v`. */
    method Transmit(r: Request, copies: nat, ghost v: seq<Intent>)
      requires Valid()
      modifies `desk
      ensures Valid() && Now() == Sending(old(Now()), r, copies, v) && Taken(desk.trace) == old(Taken(desk.trace))
      ensures OnWire(old(desk.inFlight), desk.inFlight, r, copies)
    {
      hide Spoken, Taken, Accounted;
      assert desk.inFlight[r := desk.inFlight[r]] == desk.inFlight;
      SpokenOne(desk.trace, Sent(r, copies));
      desk := Send(desk, r, copies).(hand := desk.hand - multiset(v));
    }

    method SendHeartbeat(ghost v: seq<Intent>)
      requires Valid()
      modifies `desk, `beatInFlight
      ensures Valid() && beatInFlight && Now() == Sending(old(Now()), Beat, 1, v)
      ensures Taken(desk.trace) == old(Taken(desk.trace))
    {
      hide Spoken, Taken, Accounted, Sending;
      beatInFlight := true;
      Transmit(Beat, 1, v);
    }

    /** A heartbeat goes out when it is due, none is in flight and the rate limiter grants it. */
    method CheckHeartbeat(now: int)
      requires Idle()
      modifies `desk, `beatInFlight, `limiter
      ensures Idle() && Impaired() == old(Impaired())
      ensures var due := heartbeat.lastSent == 0 || now - heartbeat.lastSent >= setup.beatInterval * 1000000;
              var asked := !old(beatInFlight) && setup.beatInterval > 0 && due;
              var granted := asked && Acquire(old(limiter), IntentType.Heartbeat, now).1;
              && limiter == (if asked then Acquire(old(limiter), IntentType.Heartbeat, now).0 else old(limiter))
              && desk == (if granted then Send(old(desk), Beat, 1) else old(desk))
              && beatInFlight == (old(beatInFlight) || granted)
    {
      hide Spoken, Taken, Accounted, Reachable, Degraded, Launch, Acquire, IsDue;
      ghost var s := Now();
      if beatInFlight {
        return;
      }
      IsDueIff(setup, heartbeat, now);
      if !IsDue(setup, heartbeat, now) {
        return;
      }
      AcquireKeepsHealth(limiter, IntentType.Heartbeat, now);
      var (l, granted) := Acquire(limiter, IntentType.Heartbeat, now);
      limiter := l;
      if granted {
        StepReachable(setup, s, Ping);
        ghost var none: seq<Intent> := [];
        SendHeartbeat(none);
        assert multiset(none) == multiset{} && s.desk.hand - multiset(none) == s.desk.hand;
      }
    }

    method BeatFailure(status: int, now: int)
      requires Valid()
      modifies `desk, `ledger, `heartbeat, `latched, `wasDegraded, sink
      ensures Valid() && heartbeat == old(heartbeat).(lastSent := now, failures := old(heartbeat.failures) + 1)
      ensures wasDegraded == Impaired()
      ensures Now() == HealthNote(Failing(setup, old(Now()), Feedback(HeartbeatFailed, 0, "", "", status)), Impaired())
      ensures old(sink.fatal) ==> sink.fatal
    {
      hide Spoken, Taken, Accounted, Degraded, Release, Terminal, Launch, HealthNote;
      var fb := Feedback(HeartbeatFailed, 0, "", "", status);
      heartbeat := heartbeat.(lastSent := now, failures := heartbeat.failures + 1);
      PublishRaw(fb);
      if setup.cancelOnFailure && heartbeat.failures >= setup.maxFailures && !latched {
        latched := true;
        SpokenOne(desk.trace, Alarmed(setup.clients));
        desk := Alarm(desk, setup.clients);
      }
      CheckDegraded();
    }

    method BeatSuccess(id: string, status: int, now: int)
      requires Valid()
      modifies `desk, `ledger, `heartbeat, `latched, `wasDegraded, sink
      ensures Valid() && heartbeat == Pulse(now, id, 0) && wasDegraded == Impaired()
      ensures var ok := Saying(old(Now()), Feedback(HeartbeatOk, 0, "", "", status)).(failures := 0, latched := false);
              Now() == HealthNote(ok, Impaired())
      ensures old(sink.fatal) ==> sink.fatal
    {
      hide Spoken, Taken, Accounted, Degraded, HealthNote, Release, Terminal;
      var fb := Feedback(HeartbeatOk, 0, "", "", status);
      heartbeat := Pulse(now, id, 0);
      latched := false;
      PublishRaw(fb);
      CheckDegraded();
    }

    /** The reply to a heartbeat: a success with an id to chain on, a throttled one, or a failure. */
    method OnBeatReply(reply: Reply, now: int, jitter: int)
      requires Idle() && Beat in desk.inFlight
      modifies `desk, `ledger, `heartbeat, `latched, `wasDegraded, `limiter, `beatInFlight, sink
      ensures Idle() && !beatInFlight && wasDegraded == Impaired()
      ensures limiter
              == old(limiter).(backoff := Respond(old(limiter.cfg), old(limiter.backoff), reply.status, now, jitter))
      ensures Now() == Replied(setup, old(Now()), Beat, reply, Impaired())
      ensures var ok := !reply.timedOut && 200 <= reply.status < 300 && reply.beat.Some? && reply.beat.value != "";
              var throttled := !reply.timedOut && reply.status in {425, 429};
              && heartbeat.id == (if ok then reply.beat.value else old(heartbeat.id))
              && heartbeat.lastSent == (if throttled then old(heartbeat.lastSent) else now)
              && heartbeat.failures
                 == if ok then 0 else if throttled then old(heartbeat.failures) else old(heartbeat.failures) + 1
      ensures sink.hasFlag && Alarming(reply, limiter) ==> sink.fatal
    {
      hide Spoken, Accounted, Reachable, Degraded, HealthNote, Failing, Respond, Saying;
      beatInFlight := false;
      Accept(Beat);
      limiter := limiter.(backoff := Respond(limiter.cfg, limiter.backoff, reply.status, now, jitter));
      JudgeBeat(reply, now);
      ReplyReachable(setup, old(Now()), Beat, reply, Impaired());
    }

    method JudgeBeat(reply: Reply, now: int)
      requires Valid()
      modifies `desk, `ledger, `heartbeat, `latched, `wasDegraded, sink
      ensures Valid() && wasDegraded == Impaired()
              && Now() == HealthNote(BeatOutcome(setup, old(Now()), reply), Impaired())
      ensures heartbeat.id == if BeatAnswered(reply) then reply.beat.value else old(heartbeat.id)
      ensures heartbeat.lastSent == if BeatThrottled(reply) then old(heartbeat.lastSent) else now
      ensures heartbeat.failures
              == if BeatAnswered(reply) then 0
                 else if BeatThrottled(reply) then old(heartbeat.failures)
                 else old(heartbeat.failures) + 1
      ensures sink.hasFlag && Alarming(reply, limiter) ==> sink.fatal
    {
      hide Spoken, Accounted, Degraded, HealthNote, Failing, Saying;
      if reply.timedOut || reply.status == 0 {
        BeatFailure(reply.status, now);
        return;
      }
      if reply.status == 401 || reply.status == 403 {
        BeatFailure(reply.status, now);
        sink.Raise();
        return;
      }
      if reply.status == 429 {
        CheckDegraded();
        return;
      }
      if reply.status == 425 {
        if EngineDown(limiter.backoff) {
          sink.Raise();
        }
        CheckDegraded();
        return;
      }
      if reply.status < 200 || reply.status >= 300 || reply.beat.None? || reply.beat.value == "" {
        BeatFailure(reply.status, now);
        return;
      }
      BeatSuccess(reply.beat.value, reply.status, now);
    }

    // -------------------------------------------------------------------------
    // Orders, one at a time
    // -------------------------------------------------------------------------

    /** Reserves a SELL if the position covers it on top of what is reserved. */
    method AdmitSell(i: Intent, position: int) returns (admitted: bool)
      requires Valid()
      modifies `desk, `ledger
      ensures Valid() && admitted == Covered(old(ledger), i, position)
      ensures Now() == if admitted then Admit(old(Now()), i, position) else old(Now())
      ensures Taken(desk.trace) == old(Taken(desk.trace)) && desk.inFlight == old(desk.inFlight)
    {
      hide Spoken, Taken, Accounted;
      var inflight := if i.asset in ledger.qty then ledger.qty[i.asset] else 0;
      var available := position - inflight;
      admitted := available >= i.size;
      if admitted {
        SpokenOne(desk.trace, Act.Booked(i, inflight + i.size, position));
        ledger := Ledger(ledger.qty[i.asset := inflight + i.size], ledger.sells[i.id := Sell(i.asset, i.size)]);
        desk := Record(desk, Act.Booked(i, inflight + i.size, position));
      }
    }

    /** Places one order; a SELL that the position does not cover is refused. */
    method SendPlaceOrder(i: Intent, position: int, built: bool)
      requires Valid()
      modifies `desk, `ledger, sink
      ensures Valid() && Now() == Placed(old(Now()), i, position, built) && Taken(desk.trace) == old(Taken(desk.trace))
      ensures var short := i.side.Ask? && position < Reserved(old(ledger), i.asset) + i.size;
              var sent := built && !short;
              var kind := if sent then RequestSent else OrderRejected;
              && sink.published == old(sink.published) + [Feedback(kind, i.id, i.clientOid, "", 0)]
              && OnWire(old(desk.inFlight), desk.inFlight, Order(Entry(i.id, i.clientOid)), if sent then 1 else 0)
    {
      hide Spoken, Taken, Accounted, Saying, Refused, Sending, Admit;
      if i.side.Ask? {
        var admitted := AdmitSell(i, position);
        if !admitted {
          Answer(i, OrderRejected);
          return;
        }
      }
      if !built {
        Answer(i, OrderRejected);
        return;
      }
      PublishRaw(Note(RequestSent, i));
      Transmit(Order(EntryOf(i)), 1, [i]);
    }

    // -------------------------------------------------------------------------
    // Orders in batches
    // -------------------------------------------------------------------------

    /** Refuses the SELLs of a batch that the position does not cover.  Nothing is reserved yet. */
    method ScreenBatch(intents: seq<Intent>, positions: seq<int>) returns (valid: seq<Intent>)
      requires Valid() && |positions| == |intents|
      modifies `desk, `ledger, sink
      ensures Valid() && valid == Passed(old(Now()), intents, positions, |intents|)
      ensures Now() == Screened(old(Now()), intents, positions, |intents|)
              && Taken(desk.trace) == old(Taken(desk.trace)) && desk.inFlight == old(desk.inFlight)
    {
      hide Spoken, Taken, Accounted, Refused, Passes;
      valid := [];
      for k := 0 to |intents|
        invariant Valid() && Taken(desk.trace) == old(Taken(desk.trace)) && desk.inFlight == old(desk.inFlight)
        invariant valid == Passed(old(Now()), intents, positions, k)
        invariant Now() == Screened(old(Now()), intents, positions, k)
      {
        var passes := CheckOne(intents[k], positions[k]);
        if passes {
          valid := valid + [intents[k]];
        } else {
          assert valid + [] == valid;
        }
      }
    }

    /** The batch check of one intent. */
    method CheckOne(i: Intent, position: int) returns (passes: bool)
      requires Valid()
      modifies `desk, `ledger, sink
      ensures Valid() && passes == Passes(old(ledger), i, position) && Taken(desk.trace) == old(Taken(desk.trace))
      ensures Now() == if passes then old(Now()) else Refused(old(Now()), i, OrderRejected)
      ensures desk.inFlight == old(desk.inFlight)
    {
      hide Spoken, Taken, Accounted, Refused;
      passes := true;
      if i.side.Ask? {
        var inflight := if i.asset in ledger.qty then ledger.qty[i.asset] else 0;
        var available := if position > inflight then position - inflight else 0;
        if available < i.size {
          Answer(i, OrderRejected);
          passes := false;
        }
      }
    }

    /** Reserves the SELLs of a batch, after all of it has been checked. */
    method BookAll(valid: seq<Intent>)
      requires Valid()
      modifies `ledger
      ensures Valid() && Now() == Bookings(old(Now()), valid, |valid|)
    {
      hide Spoken, Accounted;
      for k := 0 to |valid|
        invariant Valid() && Now() == Bookings(old(Now()), valid, k)
      {
        var i := valid[k];
        if i.side.Ask? {
          var inflight := if i.asset in ledger.qty then ledger.qty[i.asset] else 0;
          ledger := Ledger(ledger.qty[i.asset := inflight + i.size], ledger.sells[i.id := Sell(i.asset, i.size)]);
        }
      }
    }

    /** Answers every intent of a batch that could not be built. */
    method AnswerAll(valid: seq<Intent>)
      requires Valid()
      modifies `desk, `ledger, sink
      ensures Valid() && Now() == RefuseAll(old(Now()), valid, |valid|) && Taken(desk.trace) == old(Taken(desk.trace))
      ensures desk.inFlight == old(desk.inFlight)
    {
      hide Spoken, Taken, Accounted, Refused;
      for k := 0 to |valid|
        invariant Valid() && Taken(desk.trace) == old(Taken(desk.trace)) && Now() == RefuseAll(old(Now()), valid, k)
        invariant desk.inFlight == old(desk.inFlight)
      {
        Answer(valid[k], OrderRejected);
      }
    }

    /** Says that every intent of a batch is about to be sent. */
    method PublishSent(valid: seq<Intent>)
      requires Valid()
      modifies `desk, `ledger, sink
      ensures Valid() && Now() == NoteAll(old(Now()), valid, |valid|) && Taken(desk.trace) == old(Taken(desk.trace))
    {
      hide Spoken, Taken, Accounted, Saying;
      for k := 0 to |valid|
        invariant Valid() && Taken(desk.trace) == old(Taken(desk.trace)) && Now() == NoteAll(old(Now()), valid, k)
      {
        PublishRaw(Note(RequestSent, valid[k]));
      }
    }

    /** Places a batch.  What is left of it after the inventory check goes out as a batch, or alone if it is only one.
        */
    method SendPlaceOrderBatch(intents: seq<Intent>, positions: seq<int>, again: int, built: bool)
      requires Valid() && |positions| == |intents|
      modifies `desk, `ledger, sink
      ensures Valid() && Now() == Batched(old(Now()), intents, positions, again, built)
      ensures !built ==> desk.inFlight == old(desk.inFlight)
      ensures Taken(desk.trace) == old(Taken(desk.trace))
    {
      hide Spoken, Taken, Accounted, Passed, Screened, Bookings, RefuseAll, NoteAll, Placed, Sending, EntriesOf;
      var valid := ScreenBatch(intents, positions);
      if |valid| == 0 {
        return;
      }
      if |valid| == 1 {
        SendPlaceOrder(valid[0], again, built);
        return;
      }
      BookAll(valid);
      if !built {
        AnswerAll(valid);
        return;
      }
      PublishSent(valid);
      Transmit(Batch(EntriesOf(valid)), 1, valid);
    }

    // -------------------------------------------------------------------------
    // Cancels
    // -------------------------------------------------------------------------

    /** Cancels one order, on one connection. */
    method SendCancelOrder(i: Intent)
      requires Valid()
      modifies `desk, `ledger, sink
      ensures Valid() && Now() == CancelPlaced(old(Now()), i) && Taken(desk.trace) == old(Taken(desk.trace))
      ensures var kind := if i.exchangeOid == "" then OrderRejected else RequestSent;
              var request := Cancel(Entry(i.id, i.clientOid), i.exchangeOid);
              && sink.published == old(sink.published) + [Feedback(kind, i.id, i.clientOid, "", 0)]
              && OnWire(old(desk.inFlight), desk.inFlight, request, if i.exchangeOid == "" then 0 else 1)
    {
      hide Spoken, Taken, Accounted, Saying, Refused, Sending;
      if i.exchangeOid == "" {
        Answer(i, OrderRejected);
        return;
      }
      PublishRaw(Note(RequestSent, i));
      Transmit(Cancel(EntryOf(i), i.exchangeOid), 1, [i]);
    }

    /** Cancels everything, on every cancel connection. */
    method SendCancelAll(i: Intent)
      requires Valid()
      modifies `desk
      ensures Valid() && Now() == Sending(old(Now()), CancelAllRequest(i.id), setup.clients, [i])
      ensures OnWire(old(desk.inFlight), desk.inFlight, Cancel(Entry(i.id, ""), ""), setup.clients)
      ensures Taken(desk.trace) == old(Taken(desk.trace))
    {
      hide Spoken, Taken, Accounted, Sending;
      Transmit(CancelAllRequest(i.id), setup.clients, [i]);
    }

    // -------------------------------------------------------------------------
    // Intents
    // -------------------------------------------------------------------------

    /** Says that the rate limiter refused an intent. */
    method Throttle(i: Intent)
      requires Valid()
      modifies `desk, `ledger, sink
      ensures Valid() && Now() == Throttled(old(Now()), i) && Taken(desk.trace) == old(Taken(desk.trace))
      ensures sink.published == old(sink.published) + [Feedback(RateLimited, i.id, i.clientOid, "", 0)]
    {
      hide Spoken, Taken, Accounted, Saying, Shedding;
      PublishRaw(Note(RateLimited, i), i.t.Heartbeat?);
      desk := desk.(hand := desk.hand - multiset{i});
    }

    /** Deals with one intent outside the batch. */
    method ProcessIntent(i: Intent, now: int, position: int, built: bool)
      requires Valid()
      modifies `desk, `ledger, `limiter, `beatInFlight, sink
      ensures Valid() && limiter == Acquire(old(limiter), i.t, now).0 && Impaired() == old(Impaired())
      ensures var granted := Acquire(old(limiter), i.t, now).1;
              Now() == if granted then Processed(setup, old(Now()), i, position, built) else Throttled(old(Now()), i)
      ensures Taken(desk.trace) == old(Taken(desk.trace))
    {
      hide Spoken, Taken, Accounted, Placed, CancelPlaced, Sending, Throttled, Acquire, Degraded;
      AcquireKeepsHealth(limiter, i.t, now);
      var (l, granted) := Acquire(limiter, i.t, now);
      limiter := l;
      if !granted {
        Throttle(i);
        return;
      }
      match i.t {
        case PlaceOrder => SendPlaceOrder(i, position, built);
        case ReplaceOrder => SendPlaceOrder(i, position, built);
        case CancelOrder => SendCancelOrder(i);
        case CancelAll => SendCancelAll(i);
        case Heartbeat => SendHeartbeat([i]);
      }
    }

    // -------------------------------------------------------------------------
    // Polling
    // -------------------------------------------------------------------------

    /** During a poll only the batch buffer, which holds orders, and the intents `extra` are in the gateway's hands. */
    ghost predicate Buffering(extra: multiset<Intent>)
      reads this, sink, batch
    {
      && Valid() && Reachable(setup, Now()) && batchCount <= BATCH_CAPACITY
      && desk.hand == multiset(batch[..batchCount]) + extra && AllPlace(batch[..batchCount])
    }

    /** Positions as they happen to be when they are read. */
    method ReadPositions(n: nat) returns (positions: seq<int>)
      ensures |positions| == n
    {
      positions := [];
      while |positions| < n
        invariant |positions| <= n
      {
        var p: int := *;
        positions := positions + [p];
      }
    }

    /** Sends what is in the batch buffer, a single order by itself, and empties it. */
    method FlushOrderBatch() returns (ghost positions: seq<int>, ghost again: int, ghost built: bool)
      requires Buffering(multiset{})
      modifies `desk, `ledger, `batchCount, sink
      ensures Idle() && Taken(desk.trace) == old(Taken(desk.trace))
      ensures var buffer := old(batch[..batchCount]);
              && |positions| == |buffer|
              && Now() == if |buffer| == 0 then old(Now())
                          else if |buffer| == 1 then Placed(old(Now()), buffer[0], again, built)
                          else Batched(old(Now()), buffer, positions, again, built)
    {
      hide Spoken, Taken, Accounted, Placed, Batched, Reachable;
      var at := ReadPositions(batchCount);
      var position: int, signed: bool := *, *;
      positions, again, built := at, position, signed;
      if batchCount == 0 {
        return;
      }
      if batchCount == 1 {
        FlushOne(position, signed);
      } else {
        FlushMany(at, position, signed);
      }
      batchCount := 0;
    }

    /** The only order in the buffer goes out by itself. */
    method FlushOne(position: int, built: bool)
      requires Buffering(multiset{}) && batchCount == 1
      modifies `desk, `ledger, sink
      ensures Valid() && Reachable(setup, Now()) && desk.hand == multiset{}
      ensures Now() == Placed(old(Now()), batch[0], position, built) && Taken(desk.trace) == old(Taken(desk.trace))
    {
      hide Spoken, Taken, Accounted, Placed, Reachable;
      assert batch[..batchCount] == [batch[0]] && multiset(batch[..batchCount]) == multiset{batch[0]};
      HandleReachable(setup, Now(), batch[0], position, built);
      SendPlaceOrder(batch[0], position, built);
    }

    /** The orders in the buffer go out as a batch. */
    method FlushMany(positions: seq<int>, again: int, built: bool)
      requires Buffering(multiset{}) && |positions| == batchCount
      modifies `desk, `ledger, sink
      ensures Valid() && Reachable(setup, Now()) && desk.hand == multiset{}
      ensures Now() == Batched(old(Now()), batch[..batchCount], positions, again, built)
      ensures Taken(desk.trace) == old(Taken(desk.trace))
    {
      hide Spoken, Taken, Accounted, Batched, Reachable, AllPlace;
      HandleAllReachable(setup, Now(), batch[..batchCount], positions, again, built);
      SendPlaceOrderBatch(batch[..batchCount], positions, again, built);
    }

    /** The batch buffer after an order: it grows by an order that the limiter grants while batching is on, and is empty
        again once it has reached the configured size or fifteen. */
    ghost function Buffered(buffer: seq<Intent>, i: Intent, granted: bool): seq<Intent> {
      if !(setup.batching && IsPlace(i.t) && granted) then buffer
      else if |buffer| + 1 >= Min(setup.batchMax, 15) then []
      else buffer + [i]
    }

    /** Takes one intent from the queue: into the batch buffer if it is an order and batching is on; otherwise it is
        dealt with at once. */
    method PollOne(i: Intent, now: int)
      requires Buffering(multiset{}) && batchCount < BATCH_CAPACITY
      modifies `desk, `ledger, `limiter, `beatInFlight, `batchCount, batch, sink
      ensures Buffering(multiset{}) && batchCount < BATCH_CAPACITY
      ensures batch[..batchCount] == Buffered(old(batch[..batchCount]), i, Acquire(old(limiter), i.t, now).1)
      ensures Taken(desk.trace) == old(Taken(desk.trace)) + [i] && Impaired() == old(Impaired())
    {
      hide Buffering, Taken, Degraded, Acquire, Min;
      TakeIntent(i);
      if setup.batching && IsPlace(i.t) {
        BufferOne(i, now);
      } else {
        ghost var t, position, built := DealWith(i);
      }
    }

    /** An order goes into the batch buffer, if the limiter grants it, which flushes the buffer when it is full. */
    method BufferOne(i: Intent, now: int)
      requires Buffering(multiset{i}) && batchCount < BATCH_CAPACITY && IsPlace(i.t) && setup.batching
      modifies `desk, `ledger, `limiter, `batchCount, batch, sink
      ensures Buffering(multiset{}) && batchCount < BATCH_CAPACITY
      ensures batch[..batchCount] == Buffered(old(batch[..batchCount]), i, Acquire(old(limiter), i.t, now).1)
      ensures Taken(desk.trace) == old(Taken(desk.trace)) && Impaired() == old(Impaired())
    {
      hide Buffering, Taken, Acquire, Degraded, Placed, Batched, Idle;
      var granted := AskLimiter(i, now);
      if !granted {
        ThrottleOne(i);
        return;
      }
      Accumulate(i);
      if batchCount >= Min(setup.batchMax, BATCH_CAPACITY) {
        ghost var positions, again, built := FlushOrderBatch();
        IdleBuffers();
      }
    }

    /** The limiter is asked for an intent in hand. */
    method AskLimiter(i: Intent, now: int) returns (granted: bool)
      requires Buffering(multiset{i})
      modifies `limiter
      ensures Buffering(multiset{i}) && (limiter, granted) == Acquire(old(limiter), i.t, now)
      ensures Impaired() == old(Impaired()) && batch.Length == BATCH_CAPACITY
    {
      hide Spoken, Accounted, Acquire, Degraded, Reachable;
      AcquireKeepsHealth(limiter, i.t, now);
      var (l, g) := Acquire(limiter, i.t, now);
      limiter, granted := l, g;
    }

    /** An intent that the limiter refuses does not reach the buffer. */
    method ThrottleOne(i: Intent)
      requires Buffering(multiset{i})
      modifies `desk, `ledger, sink
      ensures Buffering(multiset{}) && Taken(desk.trace) == old(Taken(desk.trace))
    {
      hide Spoken, Taken, Accounted, Throttled, Reachable;
      RefuseReachable(setup, Now(), i);
      LeftInHand(batch[..batchCount], i);
      Throttle(i);
    }

    lemma {:induction false} IdleBuffers()
      requires Idle()
      ensures Buffering(multiset{}) && batchCount == 0 && batch[..batchCount] == []
    {
      hide Spoken, Accounted, Reachable;
      assert batch[..0] == [] && multiset(batch[..0]) == multiset{};
    }

    /** An intent is dealt with beside the batch buffer: with the limiter's grant as its type calls for, else
        throttled. */
    method DealWith(i: Intent) returns (ghost t: int, ghost position: int, ghost built: bool)
      requires Buffering(multiset{i})
      modifies `desk, `ledger, `limiter, `beatInFlight, sink
      ensures Buffering(multiset{}) && Taken(desk.trace) == old(Taken(desk.trace)) && Impaired() == old(Impaired())
      ensures Now() == if Acquire(old(limiter), i.t, t).1 then Processed(setup, old(Now()), i, position, built)
                       else Throttled(old(Now()), i)
    {
      hide Spoken, Taken, Accounted, Acquire, Processed, Throttled, Degraded, Reachable;
      var now: int, at: int, signed: bool := *, *, *;
      t, position, built := now, at, signed;
      HandleReachable(setup, Now(), i, at, signed);
      RefuseReachable(setup, Now(), i);
      LeftInHand(batch[..batchCount], i);
      ProcessIntent(i, now, at, signed);
    }

    method TakeIntent(i: Intent)
      requires Buffering(multiset{})
      modifies `desk
      ensures Buffering(multiset{i}) && desk == Take(old(desk), i) && Taken(desk.trace) == old(Taken(desk.trace)) + [i]
    {
      hide Spoken, Taken, Accounted, Reachable;
      StepReachable(setup, Now(), Arrive(i));
      SpokenOne(desk.trace, Took(i));
      desk := Take(desk, i);
    }

    method Accumulate(i: Intent)
      requires Buffering(multiset{i}) && batchCount < BATCH_CAPACITY && IsPlace(i.t)
      modifies `batchCount, batch
      ensures batchCount == old(batchCount) + 1 && Buffering(multiset{}) && Impaired() == old(Impaired())
      ensures batch[..batchCount] == old(batch[..batchCount]) + [i]
    {
      hide Spoken, Accounted, Reachable;
      ghost var before := batch[..batchCount];
      batch[batchCount] := i;
      batchCount := batchCount + 1;
      assert batch[..batchCount] == before + [i];
    }

    /** Takes up to sixteen intents and leaves none of them in hand: each has been answered or is on the wire. */
    method PollIntents(queue: seq<Intent>) returns (taken: nat)
      requires Idle()
      modifies `desk, `ledger, `limiter, `beatInFlight, `batchCount, batch, sink
      ensures Idle() && taken == Min(|queue|, 16)
              && Taken(desk.trace) == old(Taken(desk.trace)) + queue[..taken]
      ensures Impaired() == old(Impaired()) && wasDegraded == old(wasDegraded)
    {
      hide Taken, Degraded, Buffering, Buffered, Placed, Batched, Acquire;
      IdleBuffers();
      var now: int := *;
      taken := 0;
      while taken < POLL_LIMIT && taken < |queue|
        invariant taken <= POLL_LIMIT && taken <= |queue| && Buffering(multiset{}) && batchCount < BATCH_CAPACITY
        invariant Taken(desk.trace) == old(Taken(desk.trace)) + queue[..taken]
        invariant Impaired() == old(Impaired())
      {
        PollOne(queue[taken], now);
        assert queue[..taken + 1] == queue[..taken] + [queue[taken]];
        taken := taken + 1;
      }
      ghost var positions, again, built := FlushOrderBatch();
    }

    // -------------------------------------------------------------------------
    // What holds between events on every run
    // -------------------------------------------------------------------------

    /** Intents taken under `id` and replies to their cancels heard are outcomes given, orders on the wire and cancels
        sent; so each has one outcome, unless a request on the wire still owes it, if the id is not the gateway's own
        and, with redundant connections, at most one cancel carries it.  What is reserved of `a` is the sum over the
        SELLs on the wire, if their ids are theirs alone and their sizes positive.  Everything sent, on the wire or
        said is there for the intents taken.  Every admitted SELL fitted the position; health events alternate;
        failing heartbeats cancel everything once per streak, at the threshold; and while the fatal flag is down the
        strategy has been told of every reject, timeout and unavailability. */
    lemma {:induction false} Promises(id: nat, a: AssetId)
      requires Idle()
      ensures var t := TallyOf(desk.trace, id);
              && Takings(t) + Heard(setup, t) == t.outcomes + Sum(desk.inFlight, OrdersOn(id)) + t.sent
              && (Owned(setup, id) && (setup.clients == 1 || t.cancels <= 1) ==>
                    t.outcomes <= Takings(t) && (t.outcomes == Takings(t) <==> !Owing(setup, Now(), id)))
      ensures SellsProper(desk.trace) ==> Reserved(ledger, a) == Total(ledger.sells, a)
      ensures SellsAlone(setup, desk.trace) ==> (id in ledger.sells <==> SellOnTheWire(Now(), id))
      ensures WireFits(setup, Taken(desk.trace), desk)
      ensures AdmissionsFit(desk.trace) && HealthFits(desk.trace, wasDegraded)
      ensures BeatsFit(setup, desk.trace, heartbeat.failures, latched) && StreaksFit(desk.trace)
      ensures var said := Spoken(desk.trace);
              sink.hasFlag && !sink.fatal ==>
                && |sink.queue| + sink.overflow == |said| && sink.overflow < OVERFLOW_FATAL_THRESHOLD
                && forall i :: 0 <= i < |said| ==> Told(sink.queue, said[i])
    {
      ReachableSound(setup, Now());
      OutcomeLaw(setup, Now(), id);
      if Owned(setup, id) && (setup.clients == 1 || TallyOf(desk.trace, id).cancels <= 1) {
        OncePerIntent(setup, Now(), id);
      }
      ReservedIsOnTheWire(setup, Now());
      ReachableWire(setup, Now());
      if sink.hasFlag && !sink.fatal {
        NoSilentLoss(sink.published, sink.kept, sink.queue, sink.overflow, sink.raised);
      }
      hide Reachable, Balances, TallyOf, Sum, OrdersOn, Owing, SellOnTheWire, SellsAlone, SellsProper, Total, IsTaken;
      hide AdmissionsFit, HealthFits, BeatsFit, StreaksFit, WireFits, Taken;
    }
  }
}
