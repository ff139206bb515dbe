/**
 What passes through the execution gateway: intents from the strategy, requests to the exchange and its replies, and
 feedback to the strategy.
 */
module ExecTypes {
  import opened Common
  import opened RateLimits

  datatype Intent = Intent(
    t: IntentType, id: nat, asset: AssetId, side: Side, size: int, clientOid: string, exchangeOid: string)

  predicate IsPlace(t: IntentType) {
    t.PlaceOrder? || t.ReplaceOrder?
  }

  predicate IsSell(i: Intent) {
    IsPlace(i.t) && i.side.Ask?
  }

  // ---------------------------------------------------------------------------
  // Feedback
  // ---------------------------------------------------------------------------

  datatype Kind =
    | RequestSent | OrderAccepted | OrderRejected | CancelConfirmed | RateLimited | ExchangeUnavailable | Timeout
    | HeartbeatOk | HeartbeatFailed | GatewayDegraded | GatewayRecovered

  datatype Feedback = Feedback(kind: Kind, id: nat, clientOid: string, exchangeOid: string, status: int)

  /** Kinds that end the life of an intent. */
  predicate Terminal(k: Kind) {
    k in {OrderAccepted, OrderRejected, CancelConfirmed, RateLimited, ExchangeUnavailable, Timeout}
  }

  predicate Critical(k: Kind) {
    k in {OrderRejected, Timeout, ExchangeUnavailable}
  }

  datatype EventKind = OrderAck | OrderReject

  /** The strategy's event for a feedback. */
  datatype SchedulerEvent = SchedulerEvent(
    kind: EventKind, accepted: bool, id: nat, clientOid: string, orderId: string, feedback: Kind, status: int)

  /** The feedback can be read off its event.  A request that came to nothing is a reject, and an outcome nobody knows
      is neither a reject, which would invite a second attempt, nor accepted. */
  function ToEvent(fb: Feedback): (e: SchedulerEvent)
    ensures Feedback(e.feedback, e.id, e.clientOid, e.orderId, e.status) == fb
    ensures e.kind.OrderReject? <==> fb.kind.OrderRejected? || fb.kind.RateLimited? || fb.kind.ExchangeUnavailable?
    ensures e.accepted <==> e.kind.OrderAck? && !fb.kind.Timeout?
  {
    var (kind, accepted) :=
      match fb.kind
      case OrderRejected | RateLimited | ExchangeUnavailable => (OrderReject, false)
      case Timeout => (OrderAck, false)
      case _ => (OrderAck, true);
    SchedulerEvent(kind, accepted, fb.id, fb.clientOid, fb.exchangeOid, fb.kind, fb.status)
  }

  // ---------------------------------------------------------------------------
  // Requests and replies
  // ---------------------------------------------------------------------------

  datatype Entry = Entry(id: nat, clientOid: string)

  /** A request in flight, as its completion handler knows it.  A cancel-all has no exchange order id. */
  datatype Request =
    | Order(entry: Entry)
    | Batch(entries: seq<Entry>)
    | Cancel(target: Entry, exchangeOid: string)
    | Beat

  function CancelAllRequest(id: nat): Request {
    Cancel(Entry(id, ""), "")
  }

  function Entries(r: Request): seq<Entry> {
    match r
    case Order(e) => [e]
    case Batch(es) => es
    case Cancel(e, _) => [e]
    case Beat => []
  }

  predicate Concerns(r: Request, id: nat) {
    exists e :: e in Entries(r) && e.id == id
  }

  datatype OrderReply = OrderReply(success: bool, orderId: string)

  datatype CancelReply = CancelReply(canceled: seq<string>, notCanceled: seq<(string, string)>)

  /** A transport reply with what its body parses to as each kind of response; None is a parse failure. */
  datatype Reply = Reply(
    status: int, timedOut: bool, latency: int,
    order: Option<OrderReply>, orders: Option<seq<OrderReply>>, cancel: Option<CancelReply>, beat: Option<string>)

  predicate Unanswered(r: Reply) {
    r.timedOut || r.status == 0
  }

  /** Nothing is known about what the exchange did. */
  predicate Ambiguous(r: Reply) {
    Unanswered(r) || r.status in {502, 504}
  }

  /** The kind of feedback a reply deserves, given what its body says if the status is a success. */
  function Verdict(r: Reply, body: Kind): Kind {
    if Ambiguous(r) then Timeout
    else if r.status in {425, 429} then RateLimited
    else if r.status == 503 then ExchangeUnavailable
    else if Success(r.status) then body
    else OrderRejected
  }

  predicate Named(o: Option<OrderReply>) {
    o.Some? && o.value.success && o.value.orderId != ""
  }

  /** Accepted only with an order id: without one the order could not be followed or cancelled. */
  function OrderFeedback(e: Entry, r: Reply, answer: Option<OrderReply>): Feedback {
    var kind := Verdict(r, if Named(answer) then OrderAccepted else OrderRejected);
    var orderId := if kind.OrderAccepted? && Named(answer) then answer.value.orderId else "";
    Feedback(kind, e.id, e.clientOid, orderId, r.status)
  }

  /** The i-th order of a batch is answered by the i-th element of the reply, if there is one. */
  function Item(r: Reply, i: nat): Option<OrderReply> {
    if r.orders.Some? && i < |r.orders.value| then Some(r.orders.value[i]) else None
  }

  predicate Contains(s: string, part: string) {
    exists i :: 0 <= i <= |s| && part <= s[i..]
  }

  /** The exchange refused to cancel because the order is no longer there. */
  predicate Gone(c: CancelReply) {
    c.notCanceled != []
        && (Contains(c.notCanceled[0].1, "already canceled") || Contains(c.notCanceled[0].1, "matched orders"))
  }

  /** The order will not trade again: it was cancelled now, or it had already gone. */
  predicate Cancelled(c: CancelReply, exchangeOid: string) {
    if c.notCanceled != [] then Gone(c) else exchangeOid == "" || exchangeOid in c.canceled
  }

  function CancelFeedback(e: Entry, exchangeOid: string, r: Reply): Feedback {
    var done := r.cancel.Some? && Cancelled(r.cancel.value, exchangeOid);
    var refused := !Unanswered(r) && Success(r.status) && r.cancel.Some? && r.cancel.value.notCanceled != [];
    var kind := Verdict(r, if done then CancelConfirmed else OrderRejected);
    Feedback(kind, e.id, e.clientOid, if refused then exchangeOid else "", r.status)
  }

  /** What is to be said of an order, read off the reply's fields: a timeout is an outcome nobody knows, and only an
      answer that names the order accepts it. */
  ghost predicate OrderOutcome(fb: Feedback, e: Entry, r: Reply, answer: Option<OrderReply>) {
    && fb.id == e.id && fb.clientOid == e.clientOid && fb.status == r.status
    && fb.kind in {Timeout, RateLimited, ExchangeUnavailable, OrderAccepted, OrderRejected}
    && (fb.kind.Timeout? <==> r.timedOut || r.status in {0, 502, 504})
    && (fb.kind.RateLimited? <==> !r.timedOut && r.status in {425, 429})
    && (fb.kind.ExchangeUnavailable? <==> !r.timedOut && r.status == 503)
    && (fb.kind.OrderAccepted? <==>
          !r.timedOut && 200 <= r.status < 300 && answer.Some? && answer.value.success && answer.value.orderId != "")
    && fb.exchangeOid == if fb.kind.OrderAccepted? then answer.value.orderId else ""
  }

  /** An order's feedback is its outcome, and nothing else is. */
  lemma {:induction false} OrderFeedbackIff(fb: Feedback, e: Entry, r: Reply, answer: Option<OrderReply>)
    ensures fb == OrderFeedback(e, r, answer) <==> OrderOutcome(fb, e, r, answer)
  {
  }

  /** What is to be said of a cancel, read off the reply's fields: confirmed when the answer lists the order, or nothing
      in particular was to be cancelled, or the order was refused for having gone before. */
  ghost predicate CancelOutcome(fb: Feedback, e: Entry, exchangeOid: string, r: Reply) {
    var answered := !r.timedOut && 200 <= r.status < 300 && r.cancel.Some?;
    && fb.id == e.id && fb.clientOid == e.clientOid && fb.status == r.status
    && fb.kind in {Timeout, RateLimited, ExchangeUnavailable, CancelConfirmed, OrderRejected}
    && (fb.kind.Timeout? <==> r.timedOut || r.status in {0, 502, 504})
    && (fb.kind.RateLimited? <==> !r.timedOut && r.status in {425, 429})
    && (fb.kind.ExchangeUnavailable? <==> !r.timedOut && r.status == 503)
    && (fb.kind.CancelConfirmed? <==>
          && answered
          && (if r.cancel.value.notCanceled == [] then exchangeOid == "" || exchangeOid in r.cancel.value.canceled
              else
                var reason := r.cancel.value.notCanceled[0].1;
                Contains(reason, "already canceled") || Contains(reason, "matched orders")))
    && fb.exchangeOid == if answered && r.cancel.value.notCanceled != [] then exchangeOid else ""
  }

  lemma {:induction false} CancelFeedbackIff(fb: Feedback, e: Entry, exchangeOid: string, r: Reply)
    ensures fb == CancelFeedback(e, exchangeOid, r) <==> CancelOutcome(fb, e, exchangeOid, r)
  {
    hide Contains;
  }

  predicate BeatAnswered(r: Reply) {
    !Unanswered(r) && Success(r.status) && r.beat.Some? && r.beat.value != ""
  }

  /** Throttling does not count as a heartbeat failure. */
  predicate BeatThrottled(r: Reply) {
    !Unanswered(r) && r.status in {425, 429}
  }
}
