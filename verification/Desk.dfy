/**
 The gateway's history and what is outstanding in it: the trace records what was taken, reserved, sent, replied and
 said, the hand holds the intents taken and not dealt with, and requests are in flight until their replies come.
 Intents are known by their ids, which need not be different; each id has a tally.
 */
module Desk {
  import opened Common
  import opened RateLimits
  import opened ExecTypes
  import opened SellLedger
  import opened Sums

  datatype Setup = Setup(
    batching: bool, batchMax: int, clients: nat, beatInterval: int, maxFailures: int, cancelOnFailure: bool)

  datatype Act =
    | Took(intent: Intent)
    | Booked(sell: Intent, reserved: int, position: int)  // a SELL admitted on the single-order path
    | Sent(request: Request, copies: nat)                 // for an intent, or a heartbeat
    | Alarmed(copies: nat)                                // the cancel-all of failing heartbeats, in the gateway's name
    | Came(answered: Request)                             // a reply
    | Said(fb: Feedback)
    | Shed(fb: Feedback)                                  // said of a heartbeat intent, which is owed no outcome

  datatype Desk = Desk(trace: seq<Act>, hand: multiset<Intent>, inFlight: multiset<Request>)

  const FreshDesk := Desk([], multiset{}, multiset{})

  /** The id is not that of the cancel-all which failing heartbeats trigger. */
  predicate Owned(setup: Setup, id: nat) {
    id != 0 || !setup.cancelOnFailure
  }

  // ---------------------------------------------------------------------------
  // What happens at the desk
  // ---------------------------------------------------------------------------

  function Record(d: Desk, e: Act): Desk {
    d.(trace := d.trace + [e])
  }

  function Take(d: Desk, i: Intent): Desk {
    Record(d, Took(i)).(hand := d.hand + multiset{i})
  }

  /** More copies of a request on the wire. */
  function Launch(inFlight: multiset<Request>, r: Request, copies: nat): multiset<Request> {
    inFlight[r := inFlight[r] + copies]
  }

  function Send(d: Desk, r: Request, copies: nat): Desk {
    Record(d, Sent(r, copies)).(inFlight := Launch(d.inFlight, r, copies))
  }

  function Alarm(d: Desk, copies: nat): Desk {
    Record(d, Alarmed(copies)).(inFlight := Launch(d.inFlight, CancelAllRequest(0), copies))
  }

  function Receive(d: Desk, r: Request): Desk {
    Record(d, Came(r)).(inFlight := d.inFlight - multiset{r})
  }

  // ---------------------------------------------------------------------------
  // Reading the trace
  // ---------------------------------------------------------------------------

  predicate Speaks(e: Act) {
    e.Said? || e.Shed?
  }

  function Spoken(trace: seq<Act>): seq<Feedback> {
    if trace == [] then []
    else
      var e := trace[|trace| - 1];
      Spoken(trace[..|trace| - 1]) + if Speaks(e) then [e.fb] else []
  }

  /** The intents taken so far, in order. */
  function Taken(trace: seq<Act>): seq<Intent> {
    if trace == [] then []
    else
      var e := trace[|trace| - 1];
      Taken(trace[..|trace| - 1]) + if e.Took? then [e.intent] else []
  }

  function HealthEvents(trace: seq<Act>): seq<Kind> {
    if trace == [] then []
    else
      var e := trace[|trace| - 1];
      HealthEvents(trace[..|trace| - 1])
      + if e.Said? && e.fb.kind in {GatewayDegraded, GatewayRecovered} then [e.fb.kind] else []
  }

  /** Heartbeat failures since the last success. */
  function Failures(trace: seq<Act>): nat {
    if trace == [] then 0
    else
      var e := trace[|trace| - 1];
      if e.Said? && e.fb.kind.HeartbeatOk? then 0
      else Failures(trace[..|trace| - 1]) + if e.Said? && e.fb.kind.HeartbeatFailed? then 1 else 0
  }

  /** Cancel-alls sent in the gateway's own name since the last heartbeat success. */
  function Alarms(trace: seq<Act>): nat {
    if trace == [] then 0
    else
      var e := trace[|trace| - 1];
      if e.Said? && e.fb.kind.HeartbeatOk? then 0
      else Alarms(trace[..|trace| - 1]) + if e.Alarmed? then 1 else 0
  }

  lemma {:induction false} SpokenOne(trace: seq<Act>, e: Act)
    ensures Spoken(trace + [e]) == Spoken(trace) + if Speaks(e) then [e.fb] else []
    ensures Taken(trace + [e]) == Taken(trace) + if e.Took? then [e.intent] else []
  {
    assert (trace + [e])[..|trace|] == trace;
  }

  lemma {:induction false} Recorded(trace: seq<Act>, e: Act)
    ensures HealthEvents(trace + [e]) == HealthEvents(trace)
            + if e.Said? && e.fb.kind in {GatewayDegraded, GatewayRecovered} then [e.fb.kind] else []
    ensures Failures(trace + [e])
            == if e.Said? && e.fb.kind.HeartbeatOk? then 0
               else Failures(trace) + if e.Said? && e.fb.kind.HeartbeatFailed? then 1 else 0
    ensures Alarms(trace + [e])
            == if e.Said? && e.fb.kind.HeartbeatOk? then 0 else Alarms(trace) + if e.Alarmed? then 1 else 0
  {
    assert (trace + [e])[..|trace|] == trace;
  }

  // ---------------------------------------------------------------------------
  // The tally of an id
  // ---------------------------------------------------------------------------

  /** What the trace says of an id: how many orders, SELLs among them, cancels and heartbeats were taken with it; how
      often it was given an outcome, or a refusal of a heartbeat; how many cancels with it were sent for intents and in
      the gateway's own name, in how many copies; and how many replies to those have come. */
  datatype Tally = Tally(
    orders: nat, sells: nat, cancels: nat, beats: nat, outcomes: nat, sheds: nat,
    sent: nat, alarms: nat, copies: nat, came: nat)

  const NOTHING := Tally(0, 0, 0, 0, 0, 0, 0, 0, 0, 0)

  function CountTook(t: Tally, i: Intent): Tally {
    if IsPlace(i.t) then t.(orders := t.orders + 1, sells := t.sells + if i.side.Ask? then 1 else 0)
    else if i.t.Heartbeat? then t.(beats := t.beats + 1)
    else t.(cancels := t.cancels + 1)
  }

  predicate CancelsId(r: Request, id: nat) {
    r.Cancel? && r.target.id == id
  }

  function Count(t: Tally, e: Act, id: nat): Tally {
    match e
    case Took(i) => if i.id == id then CountTook(t, i) else t
    case Booked(_, _, _) => t
    case Sent(r, n) => if CancelsId(r, id) then t.(sent := t.sent + 1, copies := t.copies + n) else t
    case Alarmed(n) => if id == 0 then t.(alarms := t.alarms + 1, copies := t.copies + n) else t
    case Came(r) => if CancelsId(r, id) then t.(came := t.came + 1) else t
    case Said(fb) => if Terminal(fb.kind) && fb.id == id then t.(outcomes := t.outcomes + 1) else t
    case Shed(fb) => if fb.id == id then t.(sheds := t.sheds + 1) else t
  }

  function TallyOf(trace: seq<Act>, id: nat): Tally {
    if trace == [] then NOTHING else Count(TallyOf(trace[..|trace| - 1], id), trace[|trace| - 1], id)
  }

  /** How many intents were taken with the id that are owed an outcome, and how many in all. */
  function Takings(t: Tally): nat {
    t.orders + t.cancels
  }

  function Carriers(t: Tally): nat {
    t.orders + t.cancels + t.beats
  }

  /** With redundant cancel connections only the first reply to a cancel with the id is heard. */
  function Heard(setup: Setup, t: Tally): nat {
    if setup.clients > 1 then Min(t.came, 1) else t.came
  }

  lemma {:induction false} TallyOne(trace: seq<Act>, e: Act, id: nat)
    ensures TallyOf(trace + [e], id) == Count(TallyOf(trace, id), e, id)
  {
    assert (trace + [e])[..|trace|] == trace;
  }

  // ---------------------------------------------------------------------------
  // The account of an id
  // ---------------------------------------------------------------------------

  datatype Group = OrderGroup | SellGroup | CancelGroup | BeatGroup

  predicate Belongs(i: Intent, c: Group) {
    match c
    case OrderGroup => IsPlace(i.t)
    case SellGroup => IsSell(i)
    case CancelGroup => i.t.CancelOrder? || i.t.CancelAll?
    case BeatGroup => i.t.Heartbeat?
  }

  function InHand(id: nat, c: Group): Intent -> nat {
    (i: Intent) => if i.id == id && Belongs(i, c) then 1 else 0
  }

  /** How many of the entries have the id. */
  function Mentions(es: seq<Entry>, id: nat): nat {
    if es == [] then 0 else Mentions(es[..|es| - 1], id) + if es[|es| - 1].id == id then 1 else 0
  }

  function EntryOf(i: Intent): Entry {
    Entry(i.id, i.clientOid)
  }

  function EntriesOf(intents: seq<Intent>): seq<Entry> {
    if intents == [] then [] else EntriesOf(intents[..|intents| - 1]) + [EntryOf(intents[|intents| - 1])]
  }

  function EntryIds(es: seq<Entry>): multiset<nat> {
    if es == [] then multiset{} else EntryIds(es[..|es| - 1]) + multiset{es[|es| - 1].id}
  }

  function SellIds(intents: seq<Intent>): multiset<nat> {
    if intents == [] then multiset{}
    else
      var last := intents[|intents| - 1];
      SellIds(intents[..|intents| - 1]) + if IsSell(last) then multiset{last.id} else multiset{}
  }

  predicate AllPlace(intents: seq<Intent>) {
    forall k :: 0 <= k < |intents| ==> IsPlace(intents[k].t)
  }

  lemma {:induction false} EntryIdsCount(es: seq<Entry>, id: nat)
    ensures EntryIds(es)[id] == Mentions(es, id)
  {
    if es != [] {
      EntryIdsCount(es[..|es| - 1], id);
    }
  }

  lemma {:induction false} Weighs(i: Intent, id: nat)
    requires IsPlace(i.t)
    ensures InHand(id, OrderGroup)(i) == if i.id == id then 1 else 0
    ensures InHand(id, SellGroup)(i) == if i.id == id && IsSell(i) then 1 else 0
    ensures InHand(id, CancelGroup)(i) == InHand(id, BeatGroup)(i) == 0
  {
  }

  /** What the orders of a batch weigh in the hand and on the wire. */
  lemma {:induction false} BatchCounts(v: seq<Intent>, id: nat)
    requires AllPlace(v)
    ensures SumOf(v, InHand(id, OrderGroup)) == Mentions(EntriesOf(v), id)
    ensures SumOf(v, InHand(id, SellGroup)) == SellIds(v)[id] <= SumOf(v, InHand(id, OrderGroup))
    ensures SumOf(v, InHand(id, CancelGroup)) == SumOf(v, InHand(id, BeatGroup)) == 0
  {
    if v != [] {
      var n := |v| - 1;
      BatchCounts(v[..n], id);
      var es := EntriesOf(v);
      assert es[..|es| - 1] == EntriesOf(v[..n]) && es[|es| - 1] == EntryOf(v[n]);
      Weighs(v[n], id);
      hide InHand, IsSell;
    }
  }

  function OrdersOn(id: nat): Request -> nat {
    (r: Request) => if r.Cancel? then 0 else Mentions(Entries(r), id)
  }

  function CancelsOn(id: nat): Request -> nat {
    (r: Request) => if CancelsId(r, id) then 1 else 0
  }

  lemma {:induction false} MentionsIff(es: seq<Entry>, id: nat)
    ensures Mentions(es, id) > 0 <==> exists e :: e in es && e.id == id
  {
    if es != [] {
      var front, last := es[..|es| - 1], es[|es| - 1];
      MentionsIff(front, id);
      assert es == front + [last];
    }
  }

  /** No request in flight concerns the id exactly when no order and no cancel with it is counted there. */
  lemma {:induction false} WireIsQuietIff(inFlight: multiset<Request>, id: nat)
    ensures Sum(inFlight, OrdersOn(id)) + Sum(inFlight, CancelsOn(id)) == 0
            <==> forall r :: r in inFlight ==> !Concerns(r, id)
  {
    SumZeroIff(inFlight, OrdersOn(id));
    SumZeroIff(inFlight, CancelsOn(id));
    forall r | r in inFlight
      ensures OrdersOn(id)(r) == 0 && CancelsOn(id)(r) == 0 <==> !Concerns(r, id)
    {
      ConcernsIff(r, id);
    }
    hide Concerns, OrdersOn, CancelsOn;
  }

  lemma {:induction false} ConcernsIff(r: Request, id: nat)
    ensures Concerns(r, id) <==> OrdersOn(id)(r) + CancelsOn(id)(r) > 0
  {
    MentionsIff(Entries(r), id);
    if r.Cancel? {
      assert r.target in Entries(r);
    }
  }
}
