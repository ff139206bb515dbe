/**
 The gateway's steps on values: what placing, cancelling, heartbeats and replies do to the desk, and how replies are
 judged; every reply keeps the desk in order.
 */
module GatewaySteps {
  import RateWindow
  import opened Common
  import opened RateLimits
  import opened ExecTypes
  import opened SellLedger
  import opened Sums
  import opened Desk
  import opened DeskInvariant

  // ---------------------------------------------------------------------------
  // Single steps
  // ---------------------------------------------------------------------------

  const BATCH_CAPACITY: nat := 15
  const POLL_LIMIT: nat := 16

  datatype Pulse = Pulse(lastSent: int, id: string, failures: int)

  predicate IsDue(setup: Setup, h: Pulse, now: int) {
    setup.beatInterval > 0 && (h.lastSent == 0 || TruncDiv(now - h.lastSent, 1000000) >= setup.beatInterval)
  }

  /** The interval is in milliseconds, the clock in nanoseconds; whole milliseconds count. */
  lemma {:induction false} IsDueIff(setup: Setup, h: Pulse, now: int)
    ensures IsDue(setup, h, now) <==>
              setup.beatInterval > 0 && (h.lastSent == 0 || now - h.lastSent >= setup.beatInterval * 1000000)
  {
  }

  function Note(kind: Kind, i: Intent): Feedback {
    Feedback(kind, i.id, i.clientOid, "", 0)
  }

  function HealthFeedback(degraded: bool): Feedback {
    Feedback(if degraded then GatewayDegraded else GatewayRecovered, 0, "", "", 0)
  }

  /** A change of health is published; no change is not. */
  function HealthNote(s: State, degraded: bool): State {
    if degraded == s.degraded then s else Saying(s, HealthFeedback(degraded)).(degraded := degraded)
  }

  function Noted(l: Limiter, reply: Reply, now: int, jitter: int): Limiter {
    l.(backoff := Respond(l.cfg, l.backoff, reply.status, now, jitter), rtt := Measure(l.rtt, reply.latency))
  }

  /** The exchange refuses the credentials, or its matching engine stays down. */
  predicate Alarming(reply: Reply, l: Limiter) {
    !reply.timedOut && (reply.status in {401, 403} || (reply.status == 425 && l.backoff.count425 >= 10))
  }

  /** What a heartbeat's reply does to the desk. */
  function BeatOutcome(setup: Setup, s: State, reply: Reply): State {
    if BeatAnswered(reply) then
        Saying(s, Feedback(HeartbeatOk, 0, "", "", reply.status)).(failures := 0, latched := false)
    else if BeatThrottled(reply) then s
    else Failing(setup, s, Feedback(HeartbeatFailed, 0, "", "", reply.status))
  }

  lemma {:induction false} AcquireKeepsHealth(l: Limiter, t: IntentType, now: int)
    requires RateLimits.Valid(l)
    ensures var l' := Acquire(l, t, now).0;
            l'.cfg == l.cfg && l'.backoff == l.backoff && l'.rtt == l.rtt && Degraded(l') == Degraded(l)
  {
    hide RateWindow.Consume;
  }

  // ---------------------------------------------------------------------------
  // Judging replies
  // ---------------------------------------------------------------------------

  /** The failure branches that the reply handlers share.  No kind is left for a successful status. */
  method Screen(reply: Reply, engineDown: bool) returns (kind: Option<Kind>, alarm: bool)
    ensures kind.None? <==> !reply.timedOut && 200 <= reply.status < 300
    ensures kind == Some(Timeout) <==> reply.timedOut || reply.status in {0, 502, 504}
    ensures kind == Some(RateLimited) <==> !reply.timedOut && reply.status in {425, 429}
    ensures kind == Some(ExchangeUnavailable) <==> !reply.timedOut && reply.status == 503
    ensures kind.None? || kind.value in {Timeout, RateLimited, ExchangeUnavailable, OrderRejected}
    ensures alarm <==> !reply.timedOut && (reply.status in {401, 403} || (reply.status == 425 && engineDown))
  {
    if reply.timedOut || reply.status == 0 {
      return Some(Timeout), false;
    }
    if reply.status == 429 {
      return Some(RateLimited), false;
    }
    if reply.status == 503 {
      return Some(ExchangeUnavailable), false;
    }
    if reply.status == 425 {
      return Some(RateLimited), engineDown;
    }
    if reply.status == 401 || reply.status == 403 {
      return Some(OrderRejected), true;
    }
    if reply.status < 200 || reply.status >= 300 {
      var ambiguous := reply.status == 502 || reply.status == 504;
      return Some(if ambiguous then Timeout else OrderRejected), false;
    }
    return None, false;
  }

  method JudgeOrder(e: Entry, reply: Reply, engineDown: bool) returns (fb: Feedback, alarm: bool)
    ensures OrderOutcome(fb, e, reply, reply.order)
    ensures alarm <==> !reply.timedOut && (reply.status in {401, 403} || (reply.status == 425 && engineDown))
  {
    var kind;
    kind, alarm := Screen(reply, engineDown);
    fb := Feedback(OrderRejected, e.id, e.clientOid, "", reply.status);
    if kind.Some? {
      fb := fb.(kind := kind.value);
    } else if reply.order.Some? && reply.order.value.success {
      if reply.order.value.orderId != "" {
        fb := fb.(kind := OrderAccepted, exchangeOid := reply.order.value.orderId);
      }
    }
  }

  method Find(ids: seq<string>, id: string) returns (found: bool)
    ensures found <==> id in ids
  {
    found := false;
    for k := 0 to |ids|
      invariant !found && id !in ids[..k]
    {
      if ids[k] == id {
        return true;
      }
    }
  }

  method JudgeCancel(e: Entry, exchangeOid: string, reply: Reply, engineDown: bool) returns (fb: Feedback, alarm: bool)
    ensures CancelOutcome(fb, e, exchangeOid, reply)
    ensures alarm <==> !reply.timedOut && (reply.status in {401, 403} || (reply.status == 425 && engineDown))
  {
    hide Contains;
    var kind;
    kind, alarm := Screen(reply, engineDown);
    fb := Feedback(OrderRejected, e.id, e.clientOid, "", reply.status);
    if kind.Some? {
      fb := fb.(kind := kind.value);
      return;
    }
    if reply.cancel.None? {
      return;
    }
    if reply.cancel.value.notCanceled != [] {
      var reason := reply.cancel.value.notCanceled[0].1;
      var gone := Contains(reason, "already canceled") || Contains(reason, "matched orders");
      fb := fb.(kind := if gone then CancelConfirmed else OrderRejected, exchangeOid := exchangeOid);
      return;
    }
    if exchangeOid != "" {
      var found := Find(reply.cancel.value.canceled, exchangeOid);
      if !found {
        return;
      }
    }
    fb := fb.(kind := CancelConfirmed);
  }

  lemma {:induction false} OrderFeedbackIsTerminal(e: Entry, reply: Reply, answer: Option<OrderReply>)
    ensures Terminal(OrderFeedback(e, reply, answer).kind) && OrderFeedback(e, reply, answer).id == e.id
  {
  }

  lemma {:induction false} CancelFeedbackIsTerminal(e: Entry, exchangeOid: string, reply: Reply)
    ensures Terminal(CancelFeedback(e, exchangeOid, reply).kind) && CancelFeedback(e, exchangeOid, reply).id == e.id
  {
  }

  // ---------------------------------------------------------------------------
  // Answering
  // ---------------------------------------------------------------------------

  /** The first n orders of a batch have been answered. */
  function SayAll(s: State, es: seq<Entry>, reply: Reply, n: nat): State
    requires n <= |es|
  {
    if n == 0 then s else Saying(SayAll(s, es, reply, n - 1), OrderFeedback(es[n - 1], reply, Item(reply, n - 1)))
  }

  lemma {:induction false} SayNone(s: State, es: seq<Entry>, reply: Reply)
    ensures SayAll(s, es, reply, 0) == s
  {
  }

  /** What a reply to a batch says of its orders: of each what the element in the same place says, if there is one. */
  ghost predicate BatchOutcomes(fbs: seq<Feedback>, es: seq<Entry>, reply: Reply) {
    && |fbs| == |es|
    && forall i :: 0 <= i < |es| ==>
         var answered := reply.orders.Some? && i < |reply.orders.value|;
         OrderOutcome(fbs[i], es[i], reply, if answered then Some(reply.orders.value[i]) else None)
  }

  lemma {:induction false} NoOutcomes(reply: Reply)
    ensures BatchOutcomes([], [], reply)
  {
  }

  lemma {:induction false} OneMoreOutcome(fbs: seq<Feedback>, es: seq<Entry>, reply: Reply, fb: Feedback, e: Entry)
    requires BatchOutcomes(fbs, es, reply) && fb == OrderFeedback(e, reply, Item(reply, |es|))
    ensures BatchOutcomes(fbs + [fb], es + [e], reply)
  {
    OrderFeedbackIff(fb, e, reply, Item(reply, |es|));
    hide OrderOutcome, OrderFeedback;
  }

  /** The orders of a batch are answered one by one, in order and each with its own element of the reply, whatever the
      exchange replied. */
  lemma {:induction false} BatchSaysOnePerOrder(s: State, es: seq<Entry>, reply: Reply, n: nat)
      returns (fbs: seq<Feedback>)
    requires n <= |es|
    ensures Spoken(SayAll(s, es, reply, n).desk.trace) == Spoken(s.desk.trace) + fbs
    ensures |fbs| == n && BatchOutcomes(fbs, es[..n], reply)
  {
    hide Spoken, OrderFeedback, Item, Release, BatchOutcomes, Terminal;
    if n == 0 {
      fbs := [];
      NoOutcomes(reply);
      assert es[..0] == [];
    } else {
      var more := BatchSaysOnePerOrder(s, es, reply, n - 1);
      var fb := OrderFeedback(es[n - 1], reply, Item(reply, n - 1));
      SpokenOne(SayAll(s, es, reply, n - 1).desk.trace, Said(fb));
      assert |es[..n - 1]| == n - 1 && es[..n] == es[..n - 1] + [es[n - 1]];
      OneMoreOutcome(more, es[..n - 1], reply, fb, es[n - 1]);
      fbs := more + [fb];
    }
  }

  lemma {:induction false} HealthNoteSound(setup: Setup, s: State, degraded: bool, due: multiset<nat>,
      orders: multiset<nat>)
    requires Sound(setup, s, due, orders, NONE)
    ensures Sound(setup, HealthNote(s, degraded), due, orders, NONE) && HealthNote(s, degraded).desk.hand == s.desk.hand
  {
    hide Sound, Release;
    if degraded != s.degraded {
      HealthSound(setup, s, HealthFeedback(degraded), due, orders, NONE);
    }
  }

  /** The ids of the entries from the n-th on. */
  function Rest(es: seq<Entry>, n: nat): multiset<nat>
    requires n <= |es|
  {
    EntryIds(es) - EntryIds(es[..n])
  }

  lemma {:induction false} RestStep(es: seq<Entry>, n: nat)
    requires n < |es|
    ensures es[n].id in Rest(es, n) && Rest(es, n) - multiset{es[n].id} == Rest(es, n + 1)
  {
    hide EntryIds;
    EntryIdsPrefix(es, n + 1);
    LessOneMore(EntryIds(es), EntryIds(es[..n]), es[n].id);
  }

  lemma {:induction false} RestOfAll(es: seq<Entry>)
    ensures Rest(es, 0) == EntryIds(es)
  {
    assert es[..0] == [];
  }

  lemma {:induction false} LessOneMore(all: multiset<nat>, front: multiset<nat>, x: nat)
    requires front + multiset{x} <= all
    ensures x in all - front && all - front - multiset{x} == all - (front + multiset{x})
  {
    assert all[x] >= (front + multiset{x})[x];
  }

  lemma {:induction false} EntryIdsPrefix(es: seq<Entry>, n: nat)
    requires n <= |es|
    ensures EntryIds(es[..n]) <= EntryIds(es)
    ensures n > 0 ==> EntryIds(es[..n]) == EntryIds(es[..n - 1]) + multiset{es[n - 1].id}
  {
    if n > 0 {
      assert es[..n][..n - 1] == es[..n - 1];
    }
    if n < |es| {
      EntryIdsPrefix(es[..|es| - 1], n);
      assert es[..|es| - 1][..n] == es[..n];
    } else {
      assert es[..n] == es;
    }
  }

  lemma {:induction false} SayAllSound(setup: Setup, s: State, es: seq<Entry>, reply: Reply, n: nat)
    requires n <= |es| && Sound(setup, s, EntryIds(es), EntryIds(es), NONE)
    ensures Sound(setup, SayAll(s, es, reply, n), Rest(es, n), Rest(es, n), NONE)
    ensures SayAll(s, es, reply, n).desk.hand == s.desk.hand
  {
    hide Sound, OrderFeedback, Item, Terminal, EntryIds, Release, Rest;
    if n == 0 {
      RestOfAll(es);
    } else {
      SayAllSound(setup, s, es, reply, n - 1);
      RestStep(es, n - 1);
      var s', fb := SayAll(s, es, reply, n - 1), OrderFeedback(es[n - 1], reply, Item(reply, n - 1));
      OrderFeedbackIsTerminal(es[n - 1], reply, Item(reply, n - 1));
      AnswerSound(setup, s', fb, Rest(es, n - 1), Rest(es, n - 1), Rest(es, n));
    }
  }

  lemma {:induction false} NoEntryIds()
    ensures EntryIds([]) == multiset{}
  {
  }

  // ---------------------------------------------------------------------------
  // Replies
  // ---------------------------------------------------------------------------

  /** What the reply to a request does, `impaired` being the gateway's health after it. */
  function Replied(setup: Setup, s: State, r: Request, reply: Reply, impaired: bool): State {
    var received := Received(setup, s, r);
    match r
    case Order(e) => Saying(HealthNote(received, impaired), OrderFeedback(e, reply, reply.order))
    case Batch(es) => SayAll(HealthNote(received, impaired), es, reply, |es|)
    case Cancel(e, exchangeOid) =>
      if Stale(setup, s.responded, r) then received
      else Saying(HealthNote(received, impaired), CancelFeedback(e, exchangeOid, reply))
    case Beat => HealthNote(BeatOutcome(setup, received, reply), impaired)
  }

  lemma {:induction false} CancelReplied(setup: Setup, s: State, r: Request, reply: Reply, impaired: bool)
    requires r.Cancel?
    ensures var came := s.(desk := Receive(s.desk, r));
            Replied(setup, s, r, reply, impaired)
            == if Stale(setup, s.responded, r) then came
               else Saying(HealthNote(came.(responded := Heeded(setup, s.responded, r)), impaired),
                           CancelFeedback(r.target, r.exchangeOid, reply))
  {
    assert r.target.id in s.responded ==> s.responded + {r.target.id} == s.responded;
    hide Saying, HealthNote, CancelFeedback, Receive;
  }

  lemma {:induction false} OrderReplySound(setup: Setup, s: State, e: Entry, reply: Reply, impaired: bool)
    requires AtRest(setup, s) && Order(e) in s.desk.inFlight && setup.clients > 0
    ensures var s' := Replied(setup, s, Order(e), reply, impaired);
            AtRest(setup, s') && s'.desk.hand == s.desk.hand
  {
    var r, ids := Order(e), multiset{e.id};
    ReceiveSound(setup, s, r);
    assert [e][..0] == [] && EntryIds([e]) == EntryIds([e][..0]) + ids == ids;
    assert Due(setup, s.responded, r) == DueOrders(r) == ids;
    hide Sound, EntryIds, Due, DueOrders, HealthNote, OrderFeedback, Terminal, Heeded, Release;
    HealthNoteSound(setup, Received(setup, s, r), impaired, ids, ids);
    OrderFeedbackIsTerminal(e, reply, reply.order);
    AnswerSound(setup, HealthNote(Received(setup, s, r), impaired), OrderFeedback(e, reply, reply.order), ids, ids,
        ids - ids);
    assert ids - ids == NONE;
  }

  lemma {:induction false} BatchReplySound(setup: Setup, s: State, es: seq<Entry>, reply: Reply, impaired: bool)
    requires AtRest(setup, s) && Batch(es) in s.desk.inFlight && setup.clients > 0
    ensures var s' := Replied(setup, s, Batch(es), reply, impaired);
            AtRest(setup, s') && s'.desk.hand == s.desk.hand
  {
    var r, ids := Batch(es), EntryIds(es);
    ReceiveSound(setup, s, r);
    assert es[..|es|] == es;
    assert Rest(es, |es|) == NONE;
    hide Sound, EntryIds, HealthNote, Heeded, SayAll, Rest;
    HealthNoteSound(setup, Received(setup, s, r), impaired, ids, ids);
    SayAllSound(setup, HealthNote(Received(setup, s, r), impaired), es, reply, |es|);
  }

  lemma {:induction false} CancelReplySound(setup: Setup, s: State, r: Request, reply: Reply, impaired: bool)
    requires AtRest(setup, s) && r.Cancel? && r in s.desk.inFlight && setup.clients > 0
    ensures var s' := Replied(setup, s, r, reply, impaired);
            AtRest(setup, s') && s'.desk.hand == s.desk.hand
  {
    ReceiveSound(setup, s, r);
    hide Sound, HealthNote, CancelFeedback, Terminal, Heeded, Release;
    if !Stale(setup, s.responded, r) {
      var ids := multiset{r.target.id};
      HealthNoteSound(setup, Received(setup, s, r), impaired, ids, NONE);
      CancelFeedbackIsTerminal(r.target, r.exchangeOid, reply);
      AnswerSound(setup, HealthNote(Received(setup, s, r), impaired), CancelFeedback(r.target, r.exchangeOid, reply),
                  ids, NONE, NONE);
      assert ids - multiset{r.target.id} == NONE;
    }
  }

  lemma {:induction false} BeatOutcomeSound(setup: Setup, s: State, reply: Reply)
    requires AtRest(setup, s) && setup.clients > 0
    ensures var s' := BeatOutcome(setup, s, reply);
            AtRest(setup, s') && s'.desk.hand == s.desk.hand
  {
    hide AtRest, BeatAnswered, BeatThrottled, Release, Launch;
    SuccessSound(setup, s, Feedback(HeartbeatOk, 0, "", "", reply.status));
    FailureSound(setup, s, Feedback(HeartbeatFailed, 0, "", "", reply.status));
  }

  lemma {:induction false} NothingDue(setup: Setup, responded: set<nat>)
    ensures Due(setup, responded, Beat) == DueOrders(Beat) == NONE
  {
  }

  lemma {:induction false} ReceiveKeepsHand(d: Desk, r: Request)
    ensures Receive(d, r).hand == d.hand
  {
  }

  lemma {:induction false} BeatReplySound(setup: Setup, s: State, reply: Reply, impaired: bool)
    requires AtRest(setup, s) && Beat in s.desk.inFlight && setup.clients > 0
    ensures var s' := Replied(setup, s, Beat, reply, impaired);
            AtRest(setup, s') && s'.desk.hand == s.desk.hand
  {
    hide BeatOutcome, HealthNote, Heeded, Sound, Due, DueOrders, Receive;
    ReceiveSound(setup, s, Beat);
    NothingDue(setup, s.responded);
    assert Received(setup, s, Beat).desk.hand == s.desk.hand by {
      ReceiveKeepsHand(s.desk, Beat);
    }
    BeatOutcomeSound(setup, Received(setup, s, Beat), reply);
    HealthNoteSound(setup, BeatOutcome(setup, Received(setup, s, Beat), reply), impaired, NONE, NONE);
  }

  /** Every reply leaves the desk in order. */
  lemma {:induction false} ReplySound(setup: Setup, s: State, r: Request, reply: Reply, impaired: bool)
    requires AtRest(setup, s) && r in s.desk.inFlight && setup.clients > 0
    ensures var s' := Replied(setup, s, r, reply, impaired);
            AtRest(setup, s') && s'.desk.hand == s.desk.hand
  {
    hide AtRest, Replied;
    match r
    case Order(e) => OrderReplySound(setup, s, e, reply, impaired);
    case Batch(es) => BatchReplySound(setup, s, es, reply, impaired);
    case Cancel(_, _) => CancelReplySound(setup, s, r, reply, impaired);
    case Beat => BeatReplySound(setup, s, reply, impaired);
  }

  // ---------------------------------------------------------------------------
  // Placing and cancelling
  // ---------------------------------------------------------------------------

  /** An intent is answered without having been sent. */
  function Refused(s: State, i: Intent, kind: Kind): State {
    Leave(Saying(s, Note(kind, i)), i)
  }

  /** The rate limiter refuses an intent. */
  function Throttled(s: State, i: Intent): State {
    if i.t.Heartbeat? then Leave(Shedding(s, Note(RateLimited, i)), i) else Refused(s, i, RateLimited)
  }

  /** Placing one order: refused for want of inventory, not built, or sent. */
  function Placed(s: State, i: Intent, position: int, built: bool): State {
    if i.side.Ask? && !Covered(s.ledger, i, position) then Refused(s, i, OrderRejected)
    else
      var b := if i.side.Ask? then Admit(s, i, position) else s;
      if !built then Refused(b, i, OrderRejected)
      else Sending(Saying(b, Note(RequestSent, i)), Order(EntryOf(i)), 1, [i])
  }

  function CancelPlaced(s: State, i: Intent): State {
    if i.exchangeOid == "" then Refused(s, i, OrderRejected)
    else Sending(Saying(s, Note(RequestSent, i)), Cancel(EntryOf(i), i.exchangeOid), 1, [i])
  }

  function Processed(setup: Setup, s: State, i: Intent, position: int, built: bool): State {
    match i.t
    case CancelOrder => CancelPlaced(s, i)
    case CancelAll => Sending(s, CancelAllRequest(i.id), setup.clients, [i])
    case Heartbeat => Sending(s, Beat, 1, [i])
    case _ => Placed(s, i, position, built)
  }

  // ---------------------------------------------------------------------------
  // Batches
  // ---------------------------------------------------------------------------

  /** The first n intents of a batch have been checked, each against what is reserved at the time. */
  function Screened(s: State, batch: seq<Intent>, positions: seq<int>, n: nat): State
    requires n <= |batch| == |positions|
  {
    if n == 0 then s
    else
      var s' := Screened(s, batch, positions, n - 1);
      if Passes(s'.ledger, batch[n - 1], positions[n - 1]) then s' else Refused(s', batch[n - 1], OrderRejected)
  }

  /** Those of them that passed. */
  function Passed(s: State, batch: seq<Intent>, positions: seq<int>, n: nat): seq<Intent>
    requires n <= |batch| == |positions|
  {
    if n == 0 then []
    else
      var passes := Passes(Screened(s, batch, positions, n - 1).ledger, batch[n - 1], positions[n - 1]);
      Passed(s, batch, positions, n - 1) + if passes then [batch[n - 1]] else []
  }

  /** The SELLs among the first n intents have been reserved. */
  function Bookings(s: State, intents: seq<Intent>, n: nat): State
    requires n <= |intents|
  {
    if n == 0 then s
    else
      var s' := Bookings(s, intents, n - 1);
      if intents[n - 1].side.Ask? then Book(s', intents[n - 1]) else s'
  }

  /** The first n intents have been refused. */
  function RefuseAll(s: State, intents: seq<Intent>, n: nat): State
    requires n <= |intents|
  {
    if n == 0 then s else Refused(RefuseAll(s, intents, n - 1), intents[n - 1], OrderRejected)
  }

  /** The first n intents have been said to be sent. */
  function NoteAll(s: State, intents: seq<Intent>, n: nat): State
    requires n <= |intents|
  {
    if n == 0 then s else Saying(NoteAll(s, intents, n - 1), Note(RequestSent, intents[n - 1]))
  }

  /** Placing a batch. */
  function Batched(s: State, batch: seq<Intent>, positions: seq<int>, again: int, built: bool): State
    requires |batch| == |positions|
  {
    var v := Passed(s, batch, positions, |batch|);
    var s1 := Screened(s, batch, positions, |batch|);
    if |v| == 0 then s1
    else if |v| == 1 then Placed(s1, v[0], again, built)
    else
      var s2 := Bookings(s1, v, |v|);
      if !built then RefuseAll(s2, v, |v|)
      else Sending(NoteAll(s2, v, |v|), Batch(EntriesOf(v)), 1, v)
  }
}
