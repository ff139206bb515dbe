/**
 What holds at the gateway's desk after every step: the account of every id balances, reserved SELL quantities belong to
 SELLs on the wire, health events alternate, heartbeat alarms come once per streak and admissions fit the position.
 */
module DeskInvariant {
  import opened Common
  import opened RateLimits
  import opened ExecTypes
  import opened SellLedger
  import opened Sums
  import opened Desk

  /** What the invariant is about: the desk and the gateway's fields that must agree with it. */
  datatype State = State(
    desk: Desk, responded: set<nat>, ledger: Ledger, degraded: bool, failures: int, latched: bool)

  // ---------------------------------------------------------------------------
  // Accounts
  // ---------------------------------------------------------------------------

  /** An id's tally; its orders, SELLs, cancels and heartbeats in hand; its orders and the copies of its cancels on the
      wire; whether a SELL is reserved under it; and whether its cancels are remembered as answered. */
  datatype Account = Account(
    tally: Tally, orders: nat, sells: nat, cancels: nat, beats: nat, wire: nat, copies: nat, reserved: bool,
        heeded: bool)

  ghost function AccountOf(s: State, id: nat): Account {
    Account(
      TallyOf(s.desk.trace, id),
      Sum(s.desk.hand, InHand(id, OrderGroup)), Sum(s.desk.hand, InHand(id, SellGroup)),
      Sum(s.desk.hand, InHand(id, CancelGroup)), Sum(s.desk.hand, InHand(id, BeatGroup)),
      Sum(s.desk.inFlight, OrdersOn(id)), Sum(s.desk.inFlight, CancelsOn(id)),
      id in s.ledger.sells, id in s.responded)
  }

  /** Every intent taken has had an outcome, is in hand or waits for a reply, where cancels with redundant connections
      wait for one reply in all. */
  predicate OutcomesFit(setup: Setup, a: Account, due: int) {
    Takings(a.tally) + Heard(setup, a.tally)
    == a.tally.outcomes + a.orders + a.cancels + a.wire + due + a.tally.sent
  }

  /** The copies of cancels that were sent have been replied to or are on the wire. */
  predicate CopiesFit(setup: Setup, id: nat, a: Account) {
    && a.copies + a.tally.came == a.tally.copies
    && (a.tally.copies > 0 <==> a.tally.sent + a.tally.alarms > 0)
    && (setup.clients <= 1 ==> a.tally.copies == a.tally.sent + a.tally.alarms)
    && (a.tally.alarms > 0 ==> !Owned(setup, id))
    && (a.heeded <==> setup.clients > 1 && a.tally.came > 0)
  }

  /** What is in hand, on the wire, refused or reserved was taken. */
  predicate HandFits(a: Account, orders: int, booked: int) {
    && a.orders + a.wire + orders <= a.tally.orders
    && a.cancels + a.tally.sent <= a.tally.cancels
    && a.beats + a.tally.sheds <= a.tally.beats
    && booked <= a.sells
    && a.sells - booked + (if a.reserved then 1 else 0) <= a.tally.sells
    && a.orders - a.sells <= a.tally.orders - a.tally.sells
  }

  /** A SELL is reserved only while it waits; and if nothing else carries its id, as long as nothing has been said of
      it. */
  predicate ReservationFits(a: Account, orders: int, booked: int) {
    && (a.reserved ==> a.wire + orders + booked > 0)
    && (Carriers(a.tally) == 1 && a.tally.sells == 1 && a.wire + orders + booked > 0 ==>
          a.reserved || a.tally.outcomes + a.tally.sheds > 0)
  }

  /** `due` outcomes are being said of the id, `orders` of them of orders, and `booked` SELLs in hand have been
      reserved. */
  predicate Fits(setup: Setup, id: nat, a: Account, due: int, orders: int, booked: int) {
    OutcomesFit(setup, a, due) && CopiesFit(setup, id, a) && HandFits(a, orders, booked)
        && ReservationFits(a, orders, booked)
  }

  // ---------------------------------------------------------------------------
  // The ledger
  // ---------------------------------------------------------------------------

  /** All SELLs taken so far have different ids and positive sizes. */
  ghost predicate SellsProper(trace: seq<Act>) {
    && (forall id :: TallyOf(trace, id).sells <= 1)
    && (forall i :: Took(i) in trace && IsSell(i) ==> i.size > 0)
  }

  /** Then what is reserved of each token is the sum over the reserved SELLs, and these are SELLs that were taken. */
  ghost predicate LedgerFits(trace: seq<Act>, ledger: Ledger) {
    SellsProper(trace) ==>
      Balanced(ledger) && forall id :: id in ledger.sells ==> IsTaken(trace, id, ledger.sells[id])
  }

  ghost predicate IsTaken(trace: seq<Act>, id: nat, sell: Sell) {
    exists i :: Took(i) in trace && IsSell(i) && i.id == id && sell == Sell(i.asset, i.size)
  }

  // ---------------------------------------------------------------------------
  // The trace
  // ---------------------------------------------------------------------------

  /** Degraded and recovered alternate, beginning with degraded. */
  ghost predicate HealthFits(trace: seq<Act>, degraded: bool) {
    var hs := HealthEvents(trace);
    && (forall i :: 0 <= i < |hs| ==> hs[i] == if i % 2 == 0 then GatewayDegraded else GatewayRecovered)
    && (degraded <==> |hs| % 2 == 1)
  }

  /** Since the last heartbeat success there has been one alarm if the failures reached the threshold and alarms are
      wanted, and none otherwise. */
  ghost predicate BeatsFit(setup: Setup, trace: seq<Act>, failures: int, latched: bool) {
    && failures == Failures(trace)
    && (latched <==> setup.cancelOnFailure && failures > 0 && failures >= setup.maxFailures)
    && Alarms(trace) == if latched then 1 else 0
  }

  /** At no moment of the run had there been two alarms since the last heartbeat success before it. */
  ghost predicate StreaksFit(trace: seq<Act>) {
    forall n :: 0 <= n <= |trace| ==> Alarms(trace[..n]) <= 1
  }

  ghost predicate AdmissionsFit(trace: seq<Act>) {
    forall i :: 0 <= i < |trace| && trace[i].Booked? ==> trace[i].reserved <= trace[i].position
  }

  ghost predicate TraceFits(setup: Setup, trace: seq<Act>, degraded: bool, failures: int, latched: bool) {
    && HealthFits(trace, degraded) && BeatsFit(setup, trace, failures, latched) && StreaksFit(trace)
    && AdmissionsFit(trace)
  }

  // ---------------------------------------------------------------------------
  // The invariant
  // ---------------------------------------------------------------------------

  ghost predicate HandTaken(d: Desk) {
    forall i :: i in d.hand ==> Took(i) in d.trace
  }

  /** The accounts balance while outcomes are still `due`, those of `orders` among them, and while the SELLs `booked`
      are reserved but not sent. */
  ghost predicate Balances(
    setup: Setup, s: State, due: multiset<nat>, orders: multiset<nat>, booked: multiset<nat>)
  {
    forall id {:trigger AccountOf(s, id)} :: Fits(setup, id, AccountOf(s, id), due[id], orders[id], booked[id])
  }

  ghost predicate Regular(setup: Setup, s: State) {
    && HandTaken(s.desk) && LedgerFits(s.desk.trace, s.ledger)
    && TraceFits(setup, s.desk.trace, s.degraded, s.failures, s.latched)
  }

  ghost predicate Sound(
    setup: Setup, s: State, due: multiset<nat>, orders: multiset<nat>, booked: multiset<nat>)
  {
    Balances(setup, s, due, orders, booked) && Regular(setup, s)
  }

  const NONE: multiset<nat> := multiset{}

  lemma {:induction false} BalancesAt(setup: Setup, s: State, booked: multiset<nat>, id: nat)
    requires Balances(setup, s, NONE, NONE, booked)
    ensures Fits(setup, id, AccountOf(s, id), 0, 0, booked[id])
    ensures booked == NONE ==> Fits(setup, id, AccountOf(s, id), 0, 0, 0)
  {
    hide Fits, AccountOf;
    assert Fits(setup, id, AccountOf(s, id), NONE[id], NONE[id], booked[id]);
  }

  /** Nothing is being answered or placed. */
  ghost predicate AtRest(setup: Setup, s: State) {
    Sound(setup, s, NONE, NONE, NONE)
  }

  const HEALTH := {GatewayDegraded, GatewayRecovered}
  const BEATS := {HeartbeatOk, HeartbeatFailed}

  // ---------------------------------------------------------------------------
  // What steps do to accounts
  // ---------------------------------------------------------------------------

  /** Publishing a terminal feedback gives back what is reserved under its id. */
  function Saying(s: State, fb: Feedback): State {
    s.(desk := Record(s.desk, Said(fb)), ledger := if Terminal(fb.kind) then Release(s.ledger, fb.id) else s.ledger)
  }

  function Shedding(s: State, fb: Feedback): State {
    s.(desk := Record(s.desk, Shed(fb)), ledger := Release(s.ledger, fb.id))
  }

  function Leave(s: State, i: Intent): State {
    s.(desk := s.desk.(hand := s.desk.hand - multiset{i}))
  }

  /** One more intent in hand. */
  function Holding(a: Account, i: Intent, id: nat): Account {
    if i.id != id then a
    else if IsPlace(i.t) then a.(orders := a.orders + 1, sells := a.sells + if i.side.Ask? then 1 else 0)
    else if i.t.Heartbeat? then a.(beats := a.beats + 1)
    else a.(cancels := a.cancels + 1)
  }

  lemma {:induction false} RecordAccount(s: State, e: Act, id: nat)
    ensures AccountOf(s.(desk := Record(s.desk, e)), id)
            == AccountOf(s, id).(tally := Count(TallyOf(s.desk.trace, id), e, id))
  {
    TallyOne(s.desk.trace, e, id);
    hide TallyOf, Count, InHand, OrdersOn, CancelsOn;
  }

  /** One more outcome, and what was reserved given back. */
  function Ended(a: Account): Account {
    a.(tally := a.tally.(outcomes := a.tally.outcomes + 1), reserved := false)
  }

  lemma {:induction false} SayAccount(s: State, fb: Feedback, id: nat)
    ensures AccountOf(Saying(s, fb), id)
            == if Terminal(fb.kind) && fb.id == id then Ended(AccountOf(s, id)) else AccountOf(s, id)
  {
    RecordAccount(s, Said(fb), id);
    hide TallyOf, InHand, OrdersOn, CancelsOn, Terminal;
  }

  lemma {:induction false} ShedAccount(s: State, fb: Feedback, id: nat)
    ensures var a := AccountOf(s, id);
            AccountOf(Shedding(s, fb), id)
            == if fb.id == id then a.(tally := a.tally.(sheds := a.tally.sheds + 1), reserved := false) else a
  {
    RecordAccount(s, Shed(fb), id);
    hide TallyOf, InHand, OrdersOn, CancelsOn;
  }

  lemma {:induction false} HandWith(hand: multiset<Intent>, i: Intent, id: nat, c: Group)
    ensures Sum(hand + multiset{i}, InHand(id, c))
            == Sum(hand, InHand(id, c)) + if i.id == id && Belongs(i, c) then 1 else 0
  {
    SumWith(hand, i, InHand(id, c));
    hide Sum, Belongs;
  }

  lemma {:induction false} Groups(i: Intent)
    ensures Belongs(i, CancelGroup) <==> !IsPlace(i.t) && !i.t.Heartbeat?
    ensures Belongs(i, SellGroup) <==> IsPlace(i.t) && i.side.Ask?
    ensures Belongs(i, OrderGroup) <==> IsPlace(i.t)
    ensures Belongs(i, BeatGroup) <==> i.t.Heartbeat?
    ensures IsPlace(i.t) ==> !i.t.Heartbeat?
  {
  }

  lemma {:induction false} HandAccount(s: State, s': State, i: Intent, id: nat)
    requires s'.desk.hand == s.desk.hand + multiset{i}
    requires s'.desk.inFlight == s.desk.inFlight && s'.ledger == s.ledger && s'.responded == s.responded
    ensures AccountOf(s', id) == Holding(AccountOf(s, id), i, id).(tally := TallyOf(s'.desk.trace, id))
  {
    hide TallyOf, InHand, OrdersOn, CancelsOn, Sum, Belongs, IsPlace;
    HandWith(s.desk.hand, i, id, OrderGroup);
    HandWith(s.desk.hand, i, id, SellGroup);
    HandWith(s.desk.hand, i, id, CancelGroup);
    HandWith(s.desk.hand, i, id, BeatGroup);
    Groups(i);
  }

  lemma {:induction false} LeaveAccount(s: State, i: Intent, id: nat)
    requires i in s.desk.hand
    ensures AccountOf(s, id) == Holding(AccountOf(Leave(s, i), id), i, id)
    ensures i.id != id ==> AccountOf(s, id) == AccountOf(Leave(s, i), id)
  {
    hide AccountOf, TallyOf;
    assert s.desk.hand == Leave(s, i).desk.hand + multiset{i};
    HandAccount(Leave(s, i), s, i, id);
    TallyIs(Leave(s, i), id);
  }

  lemma {:induction false} TakeAccount(s: State, i: Intent, id: nat)
    ensures var a := AccountOf(s, id);
            AccountOf(s.(desk := Take(s.desk, i)), id)
            == if i.id == id then Holding(a, i, id).(tally := CountTook(a.tally, i)) else a
  {
    TallyOne(s.desk.trace, Took(i), id);
    HandAccount(s, s.(desk := Take(s.desk, i)), i, id);
    assert AccountOf(s, id).tally == TallyOf(s.desk.trace, id);
    hide AccountOf, TallyOf, CountTook;
  }

  lemma {:induction false} LaunchAccount(s: State, e: Act, r: Request, copies: nat, id: nat)
    requires copies == 1 || r.Cancel?
    ensures var s' := s.(desk := Record(s.desk, e).(inFlight := Launch(s.desk.inFlight, r, copies)));
            var a := AccountOf(s, id);
            AccountOf(s', id)
            == a.(tally := Count(a.tally, e, id),
                  wire := a.wire + (if r.Cancel? then 0 else Mentions(Entries(r), id)),
                  copies := a.copies + (if CancelsId(r, id) then copies else 0))
  {
    TallyOne(s.desk.trace, e, id);
    SumCopies(s.desk.inFlight, r, copies, OrdersOn(id));
    SumCopies(s.desk.inFlight, r, copies, CancelsOn(id));
    hide TallyOf, InHand, Sum, Count, Mentions;
  }

  lemma {:induction false} ReceiveAccount(s: State, r: Request, id: nat)
    requires r in s.desk.inFlight
    ensures var a, b := AccountOf(s, id), AccountOf(s.(desk := Receive(s.desk, r)), id);
            && a.wire == b.wire + (if r.Cancel? then 0 else Mentions(Entries(r), id))
            && a.copies == b.copies + (if CancelsId(r, id) then 1 else 0)
            && b == a.(tally := if CancelsId(r, id) then a.tally.(came := a.tally.came + 1) else a.tally,
                       wire := b.wire, copies := b.copies)
  {
    TallyOne(s.desk.trace, Came(r), id);
    SumWithout(s.desk.inFlight, r, OrdersOn(id));
    SumWithout(s.desk.inFlight, r, CancelsOn(id));
    hide TallyOf, InHand, Sum, Mentions;
  }

  // ---------------------------------------------------------------------------
  // What steps do to the trace and the ledger
  // ---------------------------------------------------------------------------

  /** An event that is neither about health nor about heartbeats, and no admission beyond the position. */
  ghost predicate Plain(e: Act) {
    && (e.Said? ==> e.fb.kind !in HEALTH && e.fb.kind !in BEATS)
    && (e.Booked? ==> e.reserved <= e.position)
    && !e.Alarmed?
  }

  lemma {:induction false} QuietAct(trace: seq<Act>, e: Act, degraded: bool)
    requires HealthFits(trace, degraded) && AdmissionsFit(trace)
    requires (e.Said? ==> e.fb.kind !in HEALTH) && (e.Booked? ==> e.reserved <= e.position)
    ensures HealthFits(trace + [e], degraded) && AdmissionsFit(trace + [e])
  {
    Recorded(trace, e);
    hide HealthEvents;
  }

  lemma {:induction false} StreakStep(trace: seq<Act>, e: Act)
    requires StreaksFit(trace) && Alarms(trace + [e]) <= 1
    ensures StreaksFit(trace + [e])
  {
    hide Alarms;
    var more := trace + [e];
    forall n | 0 <= n <= |more|
      ensures more[..n] == if n <= |trace| then trace[..n] else more
    {
    }
  }

  lemma {:induction false} PlainKeepsTrace(setup: Setup, trace: seq<Act>, e: Act, degraded: bool, failures: int,
      latched: bool)
    requires TraceFits(setup, trace, degraded, failures, latched) && Plain(e)
    ensures TraceFits(setup, trace + [e], degraded, failures, latched)
  {
    QuietAct(trace, e, degraded);
    Recorded(trace, e);
    hide HealthFits, AdmissionsFit, StreaksFit, Failures, Alarms;
    StreakStep(trace, e);
  }

  lemma {:induction false} HealthKeepsTrace(setup: Setup, trace: seq<Act>, fb: Feedback, degraded: bool,
      failures: int, latched: bool)
    requires TraceFits(setup, trace, degraded, failures, latched)
    requires fb.kind == if degraded then GatewayRecovered else GatewayDegraded
    ensures TraceFits(setup, trace + [Said(fb)], !degraded, failures, latched)
  {
    Recorded(trace, Said(fb));
    hide HealthEvents, StreaksFit, Failures, Alarms;
    StreakStep(trace, Said(fb));
  }

  lemma {:induction false} SuccessKeepsTrace(setup: Setup, trace: seq<Act>, fb: Feedback, degraded: bool,
      failures: int, latched: bool)
    requires TraceFits(setup, trace, degraded, failures, latched) && fb.kind.HeartbeatOk?
    ensures TraceFits(setup, trace + [Said(fb)], degraded, 0, false)
  {
    Recorded(trace, Said(fb));
    hide HealthEvents, StreaksFit, Failures, Alarms;
    StreakStep(trace, Said(fb));
  }

  /** One more failure raises the alarm if the threshold is reached and it has not been raised. */
  lemma {:induction false} FailureKeepsTrace(setup: Setup, trace: seq<Act>, fb: Feedback, degraded: bool,
      failures: int, latched: bool, copies: nat)
    requires TraceFits(setup, trace, degraded, failures, latched) && fb.kind.HeartbeatFailed?
    ensures var said := trace + [Said(fb)];
            if setup.cancelOnFailure && failures + 1 >= setup.maxFailures && !latched then
              TraceFits(setup, said + [Alarmed(copies)], degraded, failures + 1, true)
            else
              TraceFits(setup, said, degraded, failures + 1, latched)
  {
    var said, sent := Said(fb), Alarmed(copies);
    QuietAct(trace, said, degraded);
    QuietAct(trace + [said], sent, degraded);
    Recorded(trace, said);
    Recorded(trace + [said], sent);
    hide HealthFits, AdmissionsFit, StreaksFit, Failures, Alarms;
    StreakStep(trace, said);
    if setup.cancelOnFailure && failures + 1 >= setup.maxFailures && !latched {
      StreakStep(trace + [said], sent);
    }
  }

  lemma {:induction false} ProperBefore(trace: seq<Act>, e: Act)
    requires SellsProper(trace + [e])
    ensures SellsProper(trace)
  {
    forall id
      ensures TallyOf(trace, id).sells <= TallyOf(trace + [e], id).sells
    {
      TallyOne(trace, e, id);
    }
    hide TallyOf;
    assert forall i :: Took(i) in trace ==> Took(i) in trace + [e];
  }

  lemma {:induction false} LedgerKept(trace: seq<Act>, e: Act, ledger: Ledger)
    requires LedgerFits(trace, ledger)
    ensures LedgerFits(trace + [e], ledger)
  {
    hide Balanced, SellsProper;
    if SellsProper(trace + [e]) {
      ProperBefore(trace, e);
      forall id | id in ledger.sells
        ensures IsTaken(trace + [e], id, ledger.sells[id])
      {
        var i :| Took(i) in trace && IsSell(i) && i.id == id && ledger.sells[id] == Sell(i.asset, i.size);
        assert Took(i) in trace + [e];
      }
    }
  }

  lemma {:induction false} LedgerReleased(trace: seq<Act>, ledger: Ledger, id: nat)
    requires LedgerFits(trace, ledger)
    ensures LedgerFits(trace, Release(ledger, id))
  {
    if SellsProper(trace) {
      ReleaseBalanced(ledger, id);
    }
    hide Balanced, SellsProper, IsTaken;
  }

  lemma {:induction false} LedgerBooked(trace: seq<Act>, ledger: Ledger, i: Intent)
    requires LedgerFits(trace, ledger) && Took(i) in trace && IsSell(i)
    requires SellsProper(trace) ==> i.id !in ledger.sells
    ensures LedgerFits(trace, Reserve(ledger, i))
  {
    if SellsProper(trace) {
      ReserveBalanced(ledger, i);
      assert IsTaken(trace, i.id, Sell(i.asset, i.size));
    }
    hide Balanced, SellsProper, IsTaken;
  }

  /** The same after an event: nothing has come into the hand, and at most a reservation was given back. */
  ghost predicate Follows(s: State, s': State, e: Act) {
    && s'.desk.trace == s.desk.trace + [e] && s'.desk.hand <= s.desk.hand
    && (s'.ledger == s.ledger || (Speaks(e) && s'.ledger == Release(s.ledger, e.fb.id)))
  }

  lemma {:induction false} FollowingRegular(setup: Setup, s: State, s': State, e: Act)
    requires Regular(setup, s) && Follows(s, s', e)
    ensures HandTaken(s'.desk) && LedgerFits(s'.desk.trace, s'.ledger)
  {
    LedgerKept(s.desk.trace, e, s.ledger);
    if Speaks(e) {
      LedgerReleased(s.desk.trace + [e], s.ledger, e.fb.id);
    }
    hide LedgerFits, TraceFits, Release;
    assert forall i :: i in s'.desk.hand ==> i in s.desk.hand;
  }

  lemma {:induction false} PlainRegular(setup: Setup, s: State, s': State, e: Act)
    requires Regular(setup, s) && Follows(s, s', e) && Plain(e)
    requires s'.degraded == s.degraded && s'.failures == s.failures && s'.latched == s.latched
    ensures Regular(setup, s')
  {
    FollowingRegular(setup, s, s', e);
    PlainKeepsTrace(setup, s.desk.trace, e, s.degraded, s.failures, s.latched);
    hide HandTaken, LedgerFits, TraceFits;
  }

  // ---------------------------------------------------------------------------
  // Steps
  // ---------------------------------------------------------------------------

  lemma {:induction false} TookOrderFits(setup: Setup, id: nat, a: Account, sell: bool)
    requires Fits(setup, id, a, 0, 0, 0)
    ensures var n, t := if sell then 1 else 0, a.tally;
            Fits(setup, id, a.(orders := a.orders + 1, sells := a.sells + n,
                               tally := t.(orders := t.orders + 1, sells := t.sells + n)), 0, 0, 0)
  {
  }

  lemma {:induction false} TookOtherFits(setup: Setup, id: nat, a: Account)
    requires Fits(setup, id, a, 0, 0, 0)
    ensures var t := a.tally;
            && Fits(setup, id, a.(cancels := a.cancels + 1, tally := t.(cancels := t.cancels + 1)), 0, 0, 0)
            && Fits(setup, id, a.(beats := a.beats + 1, tally := t.(beats := t.beats + 1)), 0, 0, 0)
  {
  }

  lemma {:induction false} TookFits(setup: Setup, id: nat, a: Account, i: Intent)
    requires Fits(setup, id, a, 0, 0, 0) && i.id == id
    ensures Fits(setup, id, Holding(a, i, id).(tally := CountTook(a.tally, i)), 0, 0, 0)
  {
    hide Fits, IsPlace;
    TookOrderFits(setup, id, a, i.side.Ask?);
    TookOtherFits(setup, id, a);
  }

  lemma {:induction false} TakeSound(setup: Setup, s: State, i: Intent)
    requires AtRest(setup, s)
    ensures AtRest(setup, s.(desk := Take(s.desk, i)))
  {
    var s' := s.(desk := Take(s.desk, i));
    hide Fits, AccountOf, LedgerFits, TraceFits;
    forall id
      ensures Fits(setup, id, AccountOf(s', id), NONE[id], NONE[id], NONE[id])
    {
      TakeAccount(s, i, id);
      assert Fits(setup, id, AccountOf(s, id), NONE[id], NONE[id], NONE[id]);
      if i.id == id {
        TookFits(setup, id, AccountOf(s, id), i);
      }
    }
    LedgerKept(s.desk.trace, Took(i), s.ledger);
    PlainKeepsTrace(setup, s.desk.trace, Took(i), s.degraded, s.failures, s.latched);
    assert forall j :: j in s'.desk.hand ==> j == i || j in s.desk.hand;
  }

  lemma {:induction false} EndedFits(setup: Setup, id: nat, a: Account, due: int, orders: int, order: bool)
    requires Fits(setup, id, a, due, orders, 0) && due > 0 && (order ==> orders > 0)
    ensures Fits(setup, id, Ended(a), due - 1, if order then orders - 1 else orders, 0)
  {
  }

  lemma {:induction false} AnswerAt(setup: Setup, s: State, fb: Feedback, due: multiset<nat>, orders: multiset<nat>,
      left: multiset<nat>, id: nat)
    requires Balances(setup, s, due, orders, NONE) && Terminal(fb.kind) && fb.id in due
    requires left == orders || (fb.id in orders && left == orders - multiset{fb.id})
    ensures Fits(setup, id, AccountOf(Saying(s, fb), id), (due - multiset{fb.id})[id], left[id], 0)
  {
    hide Fits, AccountOf, Terminal, Saying, Ended;
    SayAccount(s, fb, id);
    assert Fits(setup, id, AccountOf(s, id), due[id], orders[id], NONE[id]);
    hide Balances;
    if fb.id == id {
      EndedFits(setup, id, AccountOf(s, id), due[id], orders[id], left[id] < orders[id]);
    }
  }

  /** An outcome that a reply brings, of an order or of a cancel. */
  lemma {:induction false} AnswerSound(setup: Setup, s: State, fb: Feedback, due: multiset<nat>,
      orders: multiset<nat>, left: multiset<nat>)
    requires Sound(setup, s, due, orders, NONE) && Terminal(fb.kind) && fb.id in due
    requires left == orders || (fb.id in orders && left == orders - multiset{fb.id})
    ensures Sound(setup, Saying(s, fb), due - multiset{fb.id}, left, NONE)
  {
    assert fb.kind !in HEALTH && fb.kind !in BEATS;
    hide Fits, AccountOf, Regular, Terminal, Release;
    PlainRegular(setup, s, Saying(s, fb), Said(fb));
    hide Saying;
    forall id {
      AnswerAt(setup, s, fb, due, orders, left, id);
    }
  }

  lemma {:induction false} SayBalances(
    setup: Setup, s: State, fb: Feedback, due: multiset<nat>, orders: multiset<nat>, booked: multiset<nat>)
    requires Balances(setup, s, due, orders, booked) && !Terminal(fb.kind)
    ensures Balances(setup, Saying(s, fb), due, orders, booked)
  {
    hide Fits, AccountOf, Terminal, Release;
    forall id
      ensures Fits(setup, id, AccountOf(Saying(s, fb), id), due[id], orders[id], booked[id])
    {
      SayAccount(s, fb, id);
      assert Fits(setup, id, AccountOf(s, id), due[id], orders[id], booked[id]);
    }
  }

  /** A feedback that ends nothing. */
  lemma {:induction false} NoteSound(
    setup: Setup, s: State, fb: Feedback, due: multiset<nat>, orders: multiset<nat>, booked: multiset<nat>)
    requires Sound(setup, s, due, orders, booked) && fb.kind !in HEALTH && fb.kind !in BEATS && !Terminal(fb.kind)
    ensures Sound(setup, Saying(s, fb), due, orders, booked)
  {
    hide Balances, Regular, Terminal;
    SayBalances(setup, s, fb, due, orders, booked);
    PlainRegular(setup, s, Saying(s, fb), Said(fb));
  }

  lemma {:induction false} HealthSound(
    setup: Setup, s: State, fb: Feedback, due: multiset<nat>, orders: multiset<nat>, booked: multiset<nat>)
    requires Sound(setup, s, due, orders, booked) && fb.kind == if s.degraded then GatewayRecovered else GatewayDegraded
    ensures Sound(setup, Saying(s, fb).(degraded := !s.degraded), due, orders, booked)
  {
    var s' := Saying(s, fb);
    SayBalances(setup, s, fb, due, orders, booked);
    assert Balances(setup, s'.(degraded := !s.degraded), due, orders, booked) by {
      SameAccounts(s', s'.(degraded := !s.degraded));
    }
    hide Balances, HandTaken, LedgerFits, TraceFits;
    FollowingRegular(setup, s, s', Said(fb));
    HealthKeepsTrace(setup, s.desk.trace, fb, s.degraded, s.failures, s.latched);
  }

  /** Accounts depend on the desk, the ledger and the ids remembered as answered alone. */
  lemma {:induction false} SameAccounts(s: State, s': State)
    requires s'.desk == s.desk && s'.ledger == s.ledger && s'.responded == s.responded
    ensures forall id :: AccountOf(s', id) == AccountOf(s, id)
  {
    hide TallyOf, InHand, OrdersOn, CancelsOn, Sum;
  }

  lemma {:induction false} SuccessSound(setup: Setup, s: State, fb: Feedback)
    requires AtRest(setup, s) && fb.kind.HeartbeatOk?
    ensures AtRest(setup, Saying(s, fb).(failures := 0, latched := false))
  {
    var s' := Saying(s, fb);
    SayBalances(setup, s, fb, NONE, NONE, NONE);
    assert Balances(setup, s'.(failures := 0, latched := false), NONE, NONE, NONE) by {
      SameAccounts(s', s'.(failures := 0, latched := false));
    }
    hide Balances, HandTaken, LedgerFits, TraceFits;
    FollowingRegular(setup, s, s', Said(fb));
    SuccessKeepsTrace(setup, s.desk.trace, fb, s.degraded, s.failures, s.latched);
  }

  // ---------------------------------------------------------------------------
  // Refusing
  // ---------------------------------------------------------------------------

  lemma {:induction false} RefusedFits(setup: Setup, id: nat, a: Account, i: Intent, booked: int)
    requires Fits(setup, id, Holding(a, i, id), 0, 0, booked) && i.id == id && !i.t.Heartbeat? && booked >= 0
    ensures Fits(setup, id, Ended(a), 0, 0, if IsSell(i) && booked > 0 then booked - 1 else booked)
  {
  }

  /** What is left of the booked SELLs without this one. */
  function Without(booked: multiset<nat>, i: Intent): multiset<nat> {
    if IsSell(i) then booked - multiset{i.id} else booked
  }

  lemma {:induction false} WithoutAt(booked: multiset<nat>, i: Intent, id: nat)
    ensures Without(booked, i)[id]
            == if i.id == id && IsSell(i) && booked[id] > 0 then booked[id] - 1 else booked[id]
  {
  }

  lemma {:induction false} RefuseAt(setup: Setup, s: State, i: Intent, fb: Feedback, booked: multiset<nat>, id: nat)
    requires Balances(setup, s, NONE, NONE, booked) && i in s.desk.hand && !i.t.Heartbeat?
    requires Terminal(fb.kind) && fb.id == i.id
    ensures Fits(setup, id, AccountOf(Leave(Saying(s, fb), i), id), 0, 0, Without(booked, i)[id])
  {
    assert Saying(Leave(s, i), fb) == Leave(Saying(s, fb), i);
    hide Fits, AccountOf, Terminal, Saying, Without, Leave, IsSell, Holding, Ended;
    SayAccount(Leave(s, i), fb, id);
    LeaveAccount(s, i, id);
    WithoutAt(booked, i, id);
    assert Fits(setup, id, AccountOf(s, id), NONE[id], NONE[id], booked[id]);
    if i.id == id {
      RefusedFits(setup, id, AccountOf(Leave(s, i), id), i, booked[id]);
    }
  }

  /** An intent in hand is answered without having been sent. */
  lemma {:induction false} RefuseSound(setup: Setup, s: State, i: Intent, fb: Feedback, booked: multiset<nat>)
    requires Sound(setup, s, NONE, NONE, booked) && i in s.desk.hand && !i.t.Heartbeat?
    requires Terminal(fb.kind) && fb.id == i.id
    ensures Sound(setup, Leave(Saying(s, fb), i), NONE, NONE, Without(booked, i))
  {
    assert fb.kind !in HEALTH && fb.kind !in BEATS;
    hide Regular, Terminal, Fits, AccountOf, Without, Release, IsSell;
    PlainRegular(setup, s, Leave(Saying(s, fb), i), Said(fb));
    hide Saying, Leave;
    forall id {
      RefuseAt(setup, s, i, fb, booked, id);
    }
  }

  lemma {:induction false} ShedFits(setup: Setup, id: nat, a: Account, i: Intent)
    requires Fits(setup, id, Holding(a, i, id), 0, 0, 0) && i.id == id && i.t.Heartbeat?
    ensures Fits(setup, id, a.(tally := a.tally.(sheds := a.tally.sheds + 1), reserved := false), 0, 0, 0)
  {
  }

  lemma {:induction false} ShedAt(setup: Setup, s: State, i: Intent, fb: Feedback, id: nat)
    requires Balances(setup, s, NONE, NONE, NONE) && i in s.desk.hand && i.t.Heartbeat? && fb.id == i.id
    ensures Fits(setup, id, AccountOf(Leave(Shedding(s, fb), i), id), 0, 0, 0)
  {
    assert Shedding(Leave(s, i), fb) == Leave(Shedding(s, fb), i);
    hide Fits, AccountOf, Balances, Leave, Shedding, Holding;
    ShedAccount(Leave(s, i), fb, id);
    LeaveAccount(s, i, id);
    BalancesAt(setup, s, NONE, id);
    if i.id == id {
      ShedFits(setup, id, AccountOf(Leave(s, i), id), i);
    }
  }

  /** A heartbeat intent is refused. */
  lemma {:induction false} ShedSound(setup: Setup, s: State, i: Intent, fb: Feedback)
    requires AtRest(setup, s) && i in s.desk.hand && i.t.Heartbeat? && fb.id == i.id
    ensures AtRest(setup, Leave(Shedding(s, fb), i))
  {
    hide Fits, AccountOf, Regular, Release;
    PlainRegular(setup, s, Leave(Shedding(s, fb), i), Shed(fb));
    hide Leave, Shedding;
    forall id {
      ShedAt(setup, s, i, fb, id);
    }
  }

  // ---------------------------------------------------------------------------
  // Reserving
  // ---------------------------------------------------------------------------

  function Book(s: State, i: Intent): State {
    s.(ledger := Reserve(s.ledger, i))
  }

  /** Reserving a SELL; on the single-order path the admission is recorded. */
  function Admit(s: State, i: Intent, position: int): State {
    var b := Book(s, i);
    b.(desk := Record(b.desk, Act.Booked(i, Reserved(b.ledger, i.asset), position)))
  }

  lemma {:induction false} BookAccount(s: State, i: Intent, id: nat)
    ensures AccountOf(Book(s, i), id) == if i.id == id then AccountOf(s, id).(reserved := true) else AccountOf(s, id)
  {
    hide TallyOf, InHand, OrdersOn, CancelsOn, Sum;
  }

  lemma {:induction false} BookedFits(setup: Setup, id: nat, a: Account, booked: int)
    requires Fits(setup, id, a, 0, 0, booked) && 0 <= booked < a.sells
    ensures Fits(setup, id, a.(reserved := true), 0, 0, booked + 1)
    ensures a.tally.sells <= 1 ==> !a.reserved
  {
  }

  /** There is a SELL with the id in hand that is not booked. */
  ghost predicate Unbooked(s: State, i: Intent, booked: multiset<nat>) {
    i in s.desk.hand && IsSell(i) && booked[i.id] < Sum(s.desk.hand, InHand(i.id, SellGroup))
  }

  lemma {:induction false} AccountIs(s: State, id: nat)
    ensures var a := AccountOf(s, id);
            && a.sells == Sum(s.desk.hand, InHand(id, SellGroup)) && (a.reserved <==> id in s.ledger.sells)
            && a.tally == TallyOf(s.desk.trace, id)
  {
    hide TallyOf, Sum, InHand, OrdersOn, CancelsOn;
  }

  lemma {:induction false} BookAt(setup: Setup, s: State, i: Intent, booked: multiset<nat>, id: nat)
    requires Balances(setup, s, NONE, NONE, booked) && Unbooked(s, i, booked)
    ensures Fits(setup, id, AccountOf(Book(s, i), id), 0, 0, (booked + multiset{i.id})[id])
    ensures id == i.id && TallyOf(s.desk.trace, id).sells <= 1 ==> id !in s.ledger.sells
  {
    hide Fits, AccountOf, Balances, TallyOf, Sum, InHand, Book, IsSell;
    var a := AccountOf(s, id);
    AccountIs(s, id);
    BookAccount(s, i, id);
    BalancesAt(setup, s, booked, id);
    if i.id == id {
      BookedFits(setup, id, a, booked[id]);
    }
  }

  lemma {:induction false} BookSound(setup: Setup, s: State, i: Intent, booked: multiset<nat>)
    requires Sound(setup, s, NONE, NONE, booked) && Unbooked(s, i, booked)
    ensures Sound(setup, Book(s, i), NONE, NONE, booked + multiset{i.id})
  {
    hide Fits, AccountOf, LedgerFits, TraceFits, Reserve, TallyOf, Sum, InHand;
    BookAt(setup, s, i, booked, i.id);
    assert SellsProper(s.desk.trace) ==> i.id !in s.ledger.sells;
    hide SellsProper;
    LedgerBooked(s.desk.trace, s.ledger, i);
    forall id {
      BookAt(setup, s, i, booked, id);
    }
  }

  lemma {:induction false} AdmitSound(setup: Setup, s: State, i: Intent, position: int)
    requires AtRest(setup, s) && Unbooked(s, i, NONE) && Covered(s.ledger, i, position)
    ensures Sound(setup, Admit(s, i, position), NONE, NONE, multiset{i.id})
    ensures Reserved(Admit(s, i, position).ledger, i.asset) == Reserved(s.ledger, i.asset) + i.size <= position
  {
    AdmissionBound(s.ledger, i, position);
    BookSound(setup, s, i, NONE);
    var b, e := Book(s, i), Act.Booked(i, Reserved(Book(s, i).ledger, i.asset), position);
    var s' := b.(desk := Record(b.desk, e));
    hide Fits, AccountOf, Regular, Reserve;
    forall id
      ensures Fits(setup, id, AccountOf(s', id), NONE[id], NONE[id], multiset{i.id}[id])
    {
      RecordAccount(b, e, id);
      assert AccountOf(b, id).tally == TallyOf(b.desk.trace, id) by {
        TallyIs(b, id);
      }
      assert Fits(setup, id, AccountOf(b, id), NONE[id], NONE[id], (NONE + multiset{i.id})[id]);
    }
    PlainRegular(setup, b, s', e);
  }

  lemma {:induction false} TallyIs(s: State, id: nat)
    ensures AccountOf(s, id).tally == TallyOf(s.desk.trace, id)
  {
  }

  // ---------------------------------------------------------------------------
  // Sending
  // ---------------------------------------------------------------------------

  function LeaveAll(s: State, v: seq<Intent>): State {
    s.(desk := s.desk.(hand := s.desk.hand - multiset(v)))
  }

  /** A request goes on the wire for these intents, which leave the hand. */
  function Sending(s: State, r: Request, copies: nat, v: seq<Intent>): State {
    var left := LeaveAll(s, v);
    left.(desk := Send(left.desk, r, copies))
  }

  lemma {:induction false} LeaveAllOne(s: State, i: Intent)
    ensures LeaveAll(s, [i]) == Leave(s, i)
  {
    assert multiset([i]) == multiset{i};
  }

  lemma {:induction false} LeaveAllSums(hand: multiset<Intent>, rest: multiset<Intent>, v: seq<Intent>, id: nat)
    requires multiset(v) <= hand && rest == hand - multiset(v) && AllPlace(v)
    ensures Sum(hand, InHand(id, OrderGroup)) == Sum(rest, InHand(id, OrderGroup)) + Mentions(EntriesOf(v), id)
    ensures Sum(hand, InHand(id, SellGroup)) == Sum(rest, InHand(id, SellGroup)) + SellIds(v)[id]
    ensures Sum(hand, InHand(id, CancelGroup)) == Sum(rest, InHand(id, CancelGroup))
    ensures Sum(hand, InHand(id, BeatGroup)) == Sum(rest, InHand(id, BeatGroup))
    ensures SellIds(v)[id] <= Mentions(EntriesOf(v), id)
  {
    hide Sum, SumOf, InHand, Mentions, EntriesOf, SellIds, AllPlace;
    BatchCounts(v, id);
    SumLess(hand, v, InHand(id, OrderGroup));
    SumLess(hand, v, InHand(id, SellGroup));
    SumLess(hand, v, InHand(id, CancelGroup));
    SumLess(hand, v, InHand(id, BeatGroup));
  }

  lemma {:induction false} SellsAreOrders(hand: multiset<Intent>, id: nat)
    ensures Sum(hand, InHand(id, SellGroup)) <= Sum(hand, InHand(id, OrderGroup))
  {
    SumLe(hand, InHand(id, SellGroup), InHand(id, OrderGroup));
    hide Sum;
  }

  lemma {:induction false} LeaveAllAccount(s: State, v: seq<Intent>, id: nat)
    requires multiset(v) <= s.desk.hand && AllPlace(v)
    ensures var a, b := AccountOf(s, id), AccountOf(LeaveAll(s, v), id);
            && a == b.(orders := b.orders + Mentions(EntriesOf(v), id), sells := b.sells + SellIds(v)[id])
            && SellIds(v)[id] <= Mentions(EntriesOf(v), id) && b.sells <= b.orders
  {
    hide TallyOf, InHand, OrdersOn, CancelsOn, Sum, Mentions, EntriesOf, SellIds, AllPlace;
    LeaveAllSums(s.desk.hand, LeaveAll(s, v).desk.hand, v, id);
    SellsAreOrders(LeaveAll(s, v).desk.hand, id);
  }

  lemma {:induction false} OrdersSentFits(setup: Setup, id: nat, b: Account, m: nat, k: nat)
    requires Fits(setup, id, b.(orders := b.orders + m, sells := b.sells + k), 0, 0, k) && k <= m && b.sells <= b.orders
    ensures Fits(setup, id, b.(wire := b.wire + m), 0, 0, 0)
  {
  }

  /** A cancel with the id is sent for an intent, or in the gateway's own name. */
  function WithCancel(a: Account, n: nat): Account {
    a.(tally := a.tally.(sent := a.tally.sent + 1, copies := a.tally.copies + n), copies := a.copies + n)
  }

  function WithAlarm(a: Account, n: nat): Account {
    a.(tally := a.tally.(alarms := a.tally.alarms + 1, copies := a.tally.copies + n), copies := a.copies + n)
  }

  lemma {:induction false} OrderLaunchAccount(s: State, r: Request, id: nat)
    requires !r.Cancel?
    ensures var a := AccountOf(s, id);
            AccountOf(s.(desk := Send(s.desk, r, 1)), id) == a.(wire := a.wire + Mentions(Entries(r), id))
  {
    LaunchAccount(s, Sent(r, 1), r, 1, id);
    TallyIs(s, id);
    hide AccountOf, TallyOf, Launch, Mentions, Entries;
  }

  lemma {:induction false} CancelLaunchAccount(s: State, r: Request, n: nat, id: nat)
    requires r.Cancel?
    ensures var a := AccountOf(s, id);
            AccountOf(s.(desk := Send(s.desk, r, n)), id)
            == if r.target.id == id then WithCancel(a, n) else a
  {
    LaunchAccount(s, Sent(r, n), r, n, id);
    TallyIs(s, id);
    hide AccountOf, TallyOf, Launch, Mentions, Entries;
  }

  lemma {:induction false} OrdersSentAt(setup: Setup, s: State, r: Request, v: seq<Intent>, id: nat)
    requires Balances(setup, s, NONE, NONE, SellIds(v)) && multiset(v) <= s.desk.hand && AllPlace(v)
    requires !r.Cancel? && Entries(r) == EntriesOf(v)
    ensures Fits(setup, id, AccountOf(Sending(s, r, 1, v), id), 0, 0, 0)
  {
    hide Fits, AccountOf, Send, LeaveAll, Mentions, EntriesOf, Entries, SellIds, Balances, AllPlace;
    var left := LeaveAll(s, v);
    BalancesAt(setup, s, SellIds(v), id);
    LeaveAllAccount(s, v, id);
    OrderLaunchAccount(left, r, id);
    OrdersSentFits(setup, id, AccountOf(left, id), Mentions(EntriesOf(v), id), SellIds(v)[id]);
  }

  /** Orders whose SELLs are all booked go on the wire. */
  lemma {:induction false} OrdersSentSound(setup: Setup, s: State, r: Request, v: seq<Intent>)
    requires Sound(setup, s, NONE, NONE, SellIds(v)) && multiset(v) <= s.desk.hand && AllPlace(v)
    requires !r.Cancel? && Entries(r) == EntriesOf(v)
    ensures AtRest(setup, Sending(s, r, 1, v))
  {
    hide Regular, Fits, AccountOf, SellIds, AllPlace, EntriesOf, Entries, Launch;
    PlainRegular(setup, s, Sending(s, r, 1, v), Sent(r, 1));
    hide Sending;
    forall id {
      OrdersSentAt(setup, s, r, v, id);
    }
  }

  lemma {:induction false} CancelSentFits(setup: Setup, id: nat, a: Account, i: Intent, n: nat)
    requires Fits(setup, id, Holding(a, i, id), 0, 0, 0) && i.id == id && Belongs(i, CancelGroup)
    requires n > 0 && (setup.clients <= 1 ==> n == 1)
    ensures Fits(setup, id, WithCancel(a, n), 0, 0, 0)
  {
  }

  lemma {:induction false} CancelSentAt(setup: Setup, s: State, i: Intent, r: Request, copies: nat, id: nat)
    requires Balances(setup, s, NONE, NONE, NONE) && i in s.desk.hand && Belongs(i, CancelGroup)
    requires CancelsId(r, i.id) && copies > 0 && (setup.clients <= 1 ==> copies == 1)
    ensures Fits(setup, id, AccountOf(Sending(s, r, copies, [i]), id), 0, 0, 0)
  {
    hide Fits, AccountOf, Leave, LeaveAll, Send, Holding, Belongs, Balances;
    var left := Leave(s, i);
    BalancesAt(setup, s, NONE, id);
    LeaveAllOne(s, i);
    LeaveAccount(s, i, id);
    CancelLaunchAccount(left, r, copies, id);
    if i.id == id {
      CancelSentFits(setup, id, AccountOf(left, id), i, copies);
    }
  }

  /** A cancel or a cancel-all goes on the wire. */
  lemma {:induction false} CancelSentSound(setup: Setup, s: State, i: Intent, r: Request, copies: nat)
    requires AtRest(setup, s) && i in s.desk.hand && Belongs(i, CancelGroup)
    requires CancelsId(r, i.id) && copies > 0 && (setup.clients <= 1 ==> copies == 1)
    ensures AtRest(setup, Sending(s, r, copies, [i]))
  {
    hide Regular, Fits, AccountOf, Launch, Belongs, CancelsId;
    PlainRegular(setup, s, Sending(s, r, copies, [i]), Sent(r, copies));
    hide Sending;
    forall id {
      CancelSentAt(setup, s, i, r, copies, id);
    }
  }

  lemma {:induction false} BeatAccount(s: State, id: nat)
    ensures AccountOf(s.(desk := Send(s.desk, Beat, 1)), id) == AccountOf(s, id)
  {
    LaunchAccount(s, Sent(Beat, 1), Beat, 1, id);
    TallyIs(s, id);
    assert Mentions(Entries(Beat), id) == 0;
    hide AccountOf, TallyOf, Launch;
  }

  /** A heartbeat goes on the wire. */
  lemma {:induction false} BeatSound(setup: Setup, s: State)
    requires AtRest(setup, s)
    ensures AtRest(setup, s.(desk := Send(s.desk, Beat, 1)))
  {
    var s' := s.(desk := Send(s.desk, Beat, 1));
    hide Regular, Fits, AccountOf, Launch;
    PlainRegular(setup, s, s', Sent(Beat, 1));
    forall id
      ensures AccountOf(s', id) == AccountOf(s, id)
    {
      BeatAccount(s, id);
    }
  }

  lemma {:induction false} BeatLeftFits(setup: Setup, id: nat, a: Account, i: Intent)
    requires Fits(setup, id, Holding(a, i, id), 0, 0, 0) && i.t.Heartbeat?
    ensures Fits(setup, id, a, 0, 0, 0)
  {
  }

  /** The same for a heartbeat intent, which leaves the hand. */
  lemma {:induction false} BeatSentSound(setup: Setup, s: State, i: Intent)
    requires AtRest(setup, s) && i in s.desk.hand && i.t.Heartbeat?
    ensures AtRest(setup, Sending(s, Beat, 1, [i]))
  {
    var left := Leave(s, i);
    LeaveAllOne(s, i);
    hide Regular, Fits, AccountOf, Launch, Holding;
    forall id
      ensures Fits(setup, id, AccountOf(left, id), NONE[id], NONE[id], NONE[id])
    {
      LeaveAccount(s, i, id);
      assert Fits(setup, id, AccountOf(s, id), NONE[id], NONE[id], NONE[id]);
      BeatLeftFits(setup, id, AccountOf(left, id), i);
    }
    LeaveRegular(setup, s, i);
    BeatSound(setup, left);
  }

  lemma {:induction false} LeaveRegular(setup: Setup, s: State, i: Intent)
    requires Regular(setup, s)
    ensures Regular(setup, Leave(s, i))
  {
    hide LedgerFits, TraceFits;
    assert forall j :: j in Leave(s, i).desk.hand ==> j in s.desk.hand;
  }

  // ---------------------------------------------------------------------------
  // Replies
  // ---------------------------------------------------------------------------

  /** With redundant cancel connections the ids of cancels are remembered as answered. */
  function Heeded(setup: Setup, responded: set<nat>, r: Request): set<nat> {
    if r.Cancel? && setup.clients > 1 then responded + {r.target.id} else responded
  }

  /** A reply comes off the wire. */
  function Received(setup: Setup, s: State, r: Request): State {
    s.(desk := Receive(s.desk, r), responded := Heeded(setup, s.responded, r))
  }

  /** A redundant copy of a cancel that has been answered. */
  predicate Stale(setup: Setup, responded: set<nat>, r: Request) {
    r.Cancel? && setup.clients > 1 && r.target.id in responded
  }

  /** The outcomes that a reply brings: one for each order, and one for a cancel unless the reply is a redundant one. */
  function Due(setup: Setup, responded: set<nat>, r: Request): multiset<nat> {
    if !r.Cancel? then EntryIds(Entries(r)) else if Stale(setup, responded, r) then NONE else multiset{r.target.id}
  }

  function DueOrders(r: Request): multiset<nat> {
    if r.Cancel? then NONE else EntryIds(Entries(r))
  }

  lemma {:induction false} OrderCameFits(setup: Setup, id: nat, b: Account, m: nat)
    requires Fits(setup, id, b.(wire := b.wire + m), 0, 0, 0)
    ensures Fits(setup, id, b, m, m, 0)
  {
  }

  lemma {:induction false} CancelCameFits(setup: Setup, id: nat, a: Account, copies: nat)
    requires Fits(setup, id, a, 0, 0, 0) && a.copies == copies + 1 && setup.clients > 0
    ensures var t := a.tally.(came := a.tally.came + 1);
            var b := a.(tally := t, copies := copies, heeded := a.heeded || setup.clients > 1);
            Fits(setup, id, b, if setup.clients > 1 && a.heeded then 0 else 1, 0, 0)
  {
  }

  lemma {:induction false} HeededAccount(setup: Setup, s: State, r: Request, id: nat)
    ensures var a := AccountOf(s, id);
            AccountOf(s.(responded := Heeded(setup, s.responded, r)), id)
            == if CancelsId(r, id) then a.(heeded := a.heeded || setup.clients > 1) else a
  {
    hide TallyOf, InHand, OrdersOn, CancelsOn, Sum;
  }

  lemma {:induction false} OrderCameAccount(setup: Setup, s: State, r: Request, id: nat)
    requires r in s.desk.inFlight && !r.Cancel?
    ensures var b := AccountOf(Received(setup, s, r), id);
            AccountOf(s, id) == b.(wire := b.wire + Mentions(Entries(r), id))
  {
    var came := s.(desk := Receive(s.desk, r));
    ReceiveAccount(s, r, id);
    assert Received(setup, s, r) == came;
    hide AccountOf, Mentions, Entries, Receive, Received;
  }

  lemma {:induction false} CancelCameAccount(setup: Setup, s: State, r: Request, id: nat)
    requires r in s.desk.inFlight && r.Cancel?
    ensures var a := AccountOf(s, id);
            var b := AccountOf(Received(setup, s, r), id);
            if r.target.id == id then
              && a.copies == b.copies + 1
              && b == a.(tally := a.tally.(came := a.tally.came + 1), copies := b.copies,
                         heeded := a.heeded || setup.clients > 1)
            else b == a
  {
    var came := s.(desk := Receive(s.desk, r));
    ReceiveAccount(s, r, id);
    HeededAccount(setup, came, r, id);
    assert Received(setup, s, r) == came.(responded := Heeded(setup, came.responded, r));
    hide AccountOf, Mentions, Entries, Receive, Received, Heeded;
  }

  lemma {:induction false} HeededIs(s: State, id: nat)
    ensures AccountOf(s, id).heeded <==> id in s.responded
  {
  }

  lemma {:induction false} ReceiveAt(setup: Setup, s: State, r: Request, id: nat)
    requires Balances(setup, s, NONE, NONE, NONE) && r in s.desk.inFlight && setup.clients > 0
    ensures Fits(setup, id, AccountOf(Received(setup, s, r), id),
                 Due(setup, s.responded, r)[id], DueOrders(r)[id], 0)
  {
    hide Fits, AccountOf, EntryIds, Mentions, Entries, Received, Balances;
    var a, b := AccountOf(s, id), AccountOf(Received(setup, s, r), id);
    EntryIdsCount(Entries(r), id);
    HeededIs(s, id);
    BalancesAt(setup, s, NONE, id);
    if !r.Cancel? {
      OrderCameAccount(setup, s, r, id);
      OrderCameFits(setup, id, b, Mentions(Entries(r), id));
    } else {
      CancelCameAccount(setup, s, r, id);
      if r.target.id == id {
        CancelCameFits(setup, id, a, b.copies);
      }
    }
  }

  /** A reply leaves the outcomes it brings to be said. */
  lemma {:induction false} ReceiveSound(setup: Setup, s: State, r: Request)
    requires AtRest(setup, s) && r in s.desk.inFlight && setup.clients > 0
    ensures Sound(setup, Received(setup, s, r), Due(setup, s.responded, r), DueOrders(r), NONE)
  {
    hide Regular, Fits, AccountOf, Due, DueOrders, Heeded;
    PlainRegular(setup, s, Received(setup, s, r), Came(r));
    hide Received;
    forall id {
      ReceiveAt(setup, s, r, id);
    }
  }

  // ---------------------------------------------------------------------------
  // Heartbeat failures
  // ---------------------------------------------------------------------------

  /** A heartbeat failure, and the cancel-all it triggers when the threshold is reached. */
  function Failing(setup: Setup, s: State, fb: Feedback): State {
    var s1 := Saying(s, fb).(failures := s.failures + 1);
    if setup.cancelOnFailure && s1.failures >= setup.maxFailures && !s.latched then
      s1.(desk := Alarm(s1.desk, setup.clients), latched := true)
    else s1
  }

  lemma {:induction false} AlarmedFits(setup: Setup, a: Account, n: nat)
    requires Fits(setup, 0, a, 0, 0, 0) && setup.cancelOnFailure && n > 0 && (setup.clients <= 1 ==> n == 1)
    ensures Fits(setup, 0, WithAlarm(a, n), 0, 0, 0)
  {
  }

  lemma {:induction false} AlarmBalances(setup: Setup, s: State)
    requires Balances(setup, s, NONE, NONE, NONE) && setup.cancelOnFailure && setup.clients > 0
    ensures Balances(setup, s.(desk := Alarm(s.desk, setup.clients)), NONE, NONE, NONE)
  {
    var s' := s.(desk := Alarm(s.desk, setup.clients));
    hide Fits, AccountOf, TallyOf, Launch;
    forall id
      ensures Fits(setup, id, AccountOf(s', id), NONE[id], NONE[id], NONE[id])
    {
      LaunchAccount(s, Alarmed(setup.clients), CancelAllRequest(0), setup.clients, id);
      TallyIs(s, id);
      assert Fits(setup, id, AccountOf(s, id), NONE[id], NONE[id], NONE[id]);
      if id == 0 {
        AlarmedFits(setup, AccountOf(s, id), setup.clients);
      }
    }
  }

  lemma {:induction false} FailingRegular(setup: Setup, s: State, fb: Feedback)
    requires Regular(setup, s) && fb.kind.HeartbeatFailed?
    ensures Regular(setup, Failing(setup, s, fb))
  {
    FailureKeepsTrace(setup, s.desk.trace, fb, s.degraded, s.failures, s.latched, setup.clients);
    LedgerKept(s.desk.trace, Said(fb), s.ledger);
    LedgerKept(s.desk.trace + [Said(fb)], Alarmed(setup.clients), s.ledger);
    hide LedgerFits, TraceFits, Launch;
  }

  lemma {:induction false} FailureSound(setup: Setup, s: State, fb: Feedback)
    requires AtRest(setup, s) && fb.kind.HeartbeatFailed? && setup.clients > 0
    ensures AtRest(setup, Failing(setup, s, fb))
  {
    FailingRegular(setup, s, fb);
    assert !Terminal(fb.kind);
    hide Regular, Terminal;
    SayBalances(setup, s, fb, NONE, NONE, NONE);
    var said, s' := Saying(s, fb), Failing(setup, s, fb);
    if setup.cancelOnFailure {
      AlarmBalances(setup, said);
    }
    var alarmed := said.(desk := Alarm(said.desk, setup.clients));
    hide AccountOf, Fits, Alarm;
    if s'.latched && !s.latched {
      SameAccounts(alarmed, s');
    } else {
      SameAccounts(said, s');
    }
  }

  const START := State(FreshDesk, {}, Ledger(map[], map[]), false, 0, false)

  lemma {:induction false} FreshAccount(setup: Setup, id: nat)
    ensures Fits(setup, id, AccountOf(START, id), 0, 0, 0)
  {
    hide InHand, OrdersOn, CancelsOn, Fits;
    EmptyFits(setup, id, AccountOf(START, id));
  }

  lemma {:induction false} EmptyFits(setup: Setup, id: nat, a: Account)
    requires a.orders <= 0 && a.sells <= 0 && a.cancels <= 0 && a.beats <= 0 && a.wire <= 0 && a.copies <= 0
    requires var t := a.tally;
             && t.orders <= 0 && t.sells <= 0 && t.cancels <= 0 && t.beats <= 0 && t.outcomes <= 0 && t.sheds <= 0
             && t.sent <= 0 && t.alarms <= 0 && t.copies <= 0 && t.came <= 0
    requires !a.reserved && !a.heeded
    ensures Fits(setup, id, a, 0, 0, 0)
  {
  }

  /** A gateway starts with nothing taken, sent or said. */
  lemma {:induction false} FreshSound(setup: Setup)
    ensures AtRest(setup, START)
  {
    hide Fits, AccountOf, Regular;
    FreshRegular(setup);
    forall id {
      FreshAccount(setup, id);
    }
  }

  lemma {:induction false} FreshRegular(setup: Setup)
    ensures Regular(setup, START)
  {
    assert forall a :: Total(map[], a) == 0;
    assert LedgerFits([], Ledger(map[], map[])) by {
      hide SellsProper;
    }
    hide SellsProper, LedgerFits;
  }
}
