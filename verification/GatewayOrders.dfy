/**
 Dealing with intents keeps the desk in order: placing one order or a batch, cancelling, and refusing.
 */
module GatewayOrders {
  import opened Common
  import opened RateLimits
  import opened ExecTypes
  import opened SellLedger
  import opened Sums
  import opened Desk
  import opened DeskInvariant
  import opened GatewaySteps

  // ---------------------------------------------------------------------------
  // One intent
  // ---------------------------------------------------------------------------

  /** A SELL in hand that nothing is booked for. */
  lemma {:induction false} HandIsUnbooked(s: State, i: Intent)
    requires i in s.desk.hand && IsSell(i)
    ensures Unbooked(s, i, NONE)
  {
    SumWithout(s.desk.hand, i, InHand(i.id, SellGroup));
    hide Sum;
  }

  lemma {:induction false} NotedSound(setup: Setup, s: State, i: Intent, booked: multiset<nat>)
    requires Sound(setup, s, NONE, NONE, booked)
    ensures var said := Saying(s, Note(RequestSent, i));
            Sound(setup, said, NONE, NONE, booked) && said.desk.hand == s.desk.hand && said.ledger == s.ledger
  {
    hide Sound;
    NoteSound(setup, s, Note(RequestSent, i), NONE, NONE, booked);
  }

  lemma {:induction false} RefusedSound(setup: Setup, s: State, i: Intent, kind: Kind, booked: multiset<nat>)
    requires Sound(setup, s, NONE, NONE, booked) && i in s.desk.hand && !i.t.Heartbeat? && Terminal(kind)
    ensures Sound(setup, Refused(s, i, kind), NONE, NONE, Without(booked, i))
    ensures Refused(s, i, kind).desk.hand == s.desk.hand - multiset{i}
  {
    hide Sound, Terminal, Without, Release;
    RefuseSound(setup, s, i, Note(kind, i), booked);
  }

  lemma {:induction false} OneSell(i: Intent)
    ensures SellIds([i]) == if IsSell(i) then multiset{i.id} else multiset{}
    ensures EntriesOf([i]) == [EntryOf(i)]
  {
    assert [i][..0] == [] && SellIds([i][..0]) == multiset{} && EntriesOf([i][..0]) == [];
  }

  /** What is ready to be sent is refused if it could not be built, and sent otherwise. */
  lemma {:induction false} LastStepSound(setup: Setup, s: State, i: Intent, built: bool)
    requires Sound(setup, s, NONE, NONE, SellIds([i])) && i in s.desk.hand && IsPlace(i.t)
    ensures var s' := if built then Sending(Saying(s, Note(RequestSent, i)), Order(EntryOf(i)), 1, [i])
                      else Refused(s, i, OrderRejected);
            AtRest(setup, s') && s'.desk.hand == s.desk.hand - multiset{i}
  {
    OneSell(i);
    assert multiset([i]) == multiset{i};
    hide Sound, SellIds, EntriesOf;
    if built {
      NotedSound(setup, s, i, SellIds([i]));
      OrdersSentSound(setup, Saying(s, Note(RequestSent, i)), Order(EntryOf(i)), [i]);
    } else {
      RefusedSound(setup, s, i, OrderRejected, SellIds([i]));
      assert Without(SellIds([i]), i) == NONE;
    }
  }

  /** Placing one order keeps the desk in order, and the order, no other intent, leaves the hand. */
  lemma {:induction false} PlacedSound(setup: Setup, s: State, i: Intent, position: int, built: bool)
    requires AtRest(setup, s) && i in s.desk.hand && IsPlace(i.t)
    ensures var s' := Placed(s, i, position, built);
            AtRest(setup, s') && s'.desk.hand == s.desk.hand - multiset{i}
  {
    OneSell(i);
    hide Sound, SellIds, Sending, Refused, Covered;
    if i.side.Ask? && !Covered(s.ledger, i, position) {
      RefusedSound(setup, s, i, OrderRejected, NONE);
      assert Without(NONE, i) == NONE;
    } else {
      if i.side.Ask? {
        HandIsUnbooked(s, i);
        AdmitSound(setup, s, i, position);
      }
      LastStepSound(setup, if i.side.Ask? then Admit(s, i, position) else s, i, built);
    }
  }

  /** What is sent of one order: nothing unless it is built and covered, and then its SELL quantity is reserved, on top
      of what was and within the position.  An order that is not sent is given its outcome instead. */
  lemma {:induction false} PlacedProgress(setup: Setup, s: State, i: Intent, position: int, built: bool)
    requires AtRest(setup, s) && i in s.desk.hand && IsPlace(i.t)
    ensures var s' := Placed(s, i, position, built);
            var a, b := AccountOf(s, i.id), AccountOf(s', i.id);
            var sent := built && (i.side.Ask? ==> Covered(s.ledger, i, position));
            && b.wire == a.wire + (if sent then 1 else 0)
            && b.tally.outcomes == a.tally.outcomes + (if sent then 0 else 1)
            && (sent && i.side.Ask? ==>
                  b.reserved && Reserved(s'.ledger, i.asset) == Reserved(s.ledger, i.asset) + i.size <= position)
            && (sent && i.side.Bid? ==> s'.ledger == s.ledger)
            && (!sent ==> !b.reserved)
  {
    hide AtRest, Sending, Refused, AccountOf, Covered;
    if i.side.Ask? && !Covered(s.ledger, i, position) {
      RefusedAccount(s, i);
    } else {
      var b := if i.side.Ask? then Admit(s, i, position) else s;
      if i.side.Ask? {
        HandIsUnbooked(s, i);
        AdmitSound(setup, s, i, position);
        AdmitAccount(s, i, position);
      }
      if built {
        SentAccount(b, i);
      } else {
        RefusedAccount(b, i);
      }
    }
  }

  lemma {:induction false} RefusedAccount(s: State, i: Intent)
    requires i in s.desk.hand && IsPlace(i.t)
    ensures var a, b := AccountOf(s, i.id), AccountOf(Refused(s, i, OrderRejected), i.id);
            b.wire == a.wire && b.tally.outcomes == a.tally.outcomes + 1 && !b.reserved
  {
    var said := Saying(s, Note(OrderRejected, i));
    SayAccount(s, Note(OrderRejected, i), i.id);
    LeaveAccount(said, i, i.id);
    hide AccountOf;
  }

  lemma {:induction false} AdmitAccount(s: State, i: Intent, position: int)
    ensures AccountOf(Admit(s, i, position), i.id) == AccountOf(s, i.id).(reserved := true)
    ensures Admit(s, i, position).desk.hand == s.desk.hand
  {
    var b := Book(s, i);
    BookAccount(s, i, i.id);
    TallyIs(b, i.id);
    RecordAccount(b, Act.Booked(i, Reserved(b.ledger, i.asset), position), i.id);
    hide AccountOf, TallyOf;
  }

  lemma {:induction false} SentAccount(s: State, i: Intent)
    requires i in s.desk.hand && IsPlace(i.t)
    ensures var s' := Sending(Saying(s, Note(RequestSent, i)), Order(EntryOf(i)), 1, [i]);
            var a, b := AccountOf(s, i.id), AccountOf(s', i.id);
            && b.wire == a.wire + 1 && b.tally.outcomes == a.tally.outcomes && b.reserved == a.reserved
            && s'.ledger == s.ledger
  {
    var said := Saying(s, Note(RequestSent, i));
    SayAccount(s, Note(RequestSent, i), i.id);
    LeaveAllOne(said, i);
    LeaveAccount(said, i, i.id);
    OrderLaunchAccount(Leave(said, i), Order(EntryOf(i)), i.id);
    assert [EntryOf(i)][..0] == [] && Mentions([EntryOf(i)][..0], i.id) == 0 && Mentions([EntryOf(i)], i.id) == 1;
    hide AccountOf, Launch;
  }

  lemma {:induction false} CancelPlacedSound(setup: Setup, s: State, i: Intent)
    requires AtRest(setup, s) && i in s.desk.hand && i.t.CancelOrder?
    ensures var s' := CancelPlaced(s, i);
            AtRest(setup, s') && s'.desk.hand == s.desk.hand - multiset{i}
  {
    assert multiset([i]) == multiset{i} && Without(NONE, i) == NONE;
    hide Sound, Refused;
    if i.exchangeOid == "" {
      RefusedSound(setup, s, i, OrderRejected, NONE);
    } else {
      NotedSound(setup, s, i, NONE);
      CancelSentSound(setup, Saying(s, Note(RequestSent, i)), i, Cancel(EntryOf(i), i.exchangeOid), 1);
    }
  }

  /** Dealing with one intent outside a batch: the intent, no other, leaves the hand. */
  lemma {:induction false} ProcessedSound(setup: Setup, s: State, i: Intent, position: int, built: bool)
    requires AtRest(setup, s) && i in s.desk.hand && setup.clients > 0
    ensures var s' := Processed(setup, s, i, position, built);
            AtRest(setup, s') && s'.desk.hand == s.desk.hand - multiset{i}
  {
    assert multiset([i]) == multiset{i};
    hide Sound, Placed, CancelPlaced;
    match i.t
    case PlaceOrder => PlacedSound(setup, s, i, position, built);
    case ReplaceOrder => PlacedSound(setup, s, i, position, built);
    case CancelOrder => CancelPlacedSound(setup, s, i);
    case CancelAll => CancelSentSound(setup, s, i, CancelAllRequest(i.id), setup.clients);
    case Heartbeat => BeatSentSound(setup, s, i);
  }

  /** One intent is refused by the rate limiter. */
  lemma {:induction false} ThrottledSound(setup: Setup, s: State, i: Intent)
    requires AtRest(setup, s) && i in s.desk.hand
    ensures AtRest(setup, Throttled(s, i)) && Throttled(s, i).desk.hand == s.desk.hand - multiset{i}
  {
    assert Without(NONE, i) == NONE;
    hide Sound, Release;
    if i.t.Heartbeat? {
      ShedSound(setup, s, i, Note(RateLimited, i));
    } else {
      RefusedSound(setup, s, i, RateLimited, NONE);
    }
  }

  // ---------------------------------------------------------------------------
  // A batch
  // ---------------------------------------------------------------------------

  /** What is in hand when the first n intents of a batch have been checked and these have passed. */
  function HandAfter(hand: multiset<Intent>, batch: seq<Intent>, n: nat, passed: seq<Intent>): multiset<Intent>
    requires n <= |batch|
  {
    hand - multiset(batch[..n]) + multiset(passed)
  }

  /** The next intent of a batch is still in hand. */
  lemma {:induction false} HandStep(hand: multiset<Intent>, batch: seq<Intent>, n: nat, v: seq<Intent>)
    requires n < |batch| && multiset(batch) <= hand
    ensures batch[n] in HandAfter(hand, batch, n, v)
    ensures HandAfter(hand, batch, n + 1, v + [batch[n]]) == HandAfter(hand, batch, n, v)
    ensures HandAfter(hand, batch, n + 1, v) == HandAfter(hand, batch, n, v) - multiset{batch[n]}
  {
    assert batch == batch[..n] + [batch[n]] + batch[n + 1..];
    assert multiset(batch) == multiset(batch[..n]) + multiset{batch[n]} + multiset(batch[n + 1..]);
    assert batch[..n + 1] == batch[..n] + [batch[n]];
  }

  lemma {:induction false} HandStart(hand: multiset<Intent>, batch: seq<Intent>)
    ensures HandAfter(hand, batch, 0, []) == hand
  {
    assert batch[..0] == [];
  }

  lemma {:induction false} HandEnd(hand: multiset<Intent>, batch: seq<Intent>, v: seq<Intent>)
    requires multiset(batch) <= hand
    ensures multiset(v) <= HandAfter(hand, batch, |batch|, v)
    ensures HandAfter(hand, batch, |batch|, v) - multiset(v) == hand - multiset(batch)
  {
    assert batch[..|batch|] == batch;
  }

  /** The inventory check of a batch answers some and keeps the others in hand. */
  lemma {:induction false} ScreenedSound(setup: Setup, s: State, batch: seq<Intent>, positions: seq<int>, n: nat)
    requires AtRest(setup, s) && multiset(batch) <= s.desk.hand && AllPlace(batch) && n <= |batch| == |positions|
    ensures var s' := Screened(s, batch, positions, n);
            var v := Passed(s, batch, positions, n);
            AtRest(setup, s') && AllPlace(v) && s'.desk.hand == HandAfter(s.desk.hand, batch, n, v)
  {
    hide Sound, Refused, Passes, HandAfter, Without;
    if n == 0 {
      HandStart(s.desk.hand, batch);
    } else {
      ScreenedSound(setup, s, batch, positions, n - 1);
      var before, v, i := Screened(s, batch, positions, n - 1), Passed(s, batch, positions, n - 1), batch[n - 1];
      HandStep(s.desk.hand, batch, n - 1, v);
      if !Passes(before.ledger, i, positions[n - 1]) {
        NothingLess(i);
        RefusedSound(setup, before, i, OrderRejected, NONE);
        assert v + [] == v;
      }
    }
  }

  lemma {:induction false} NothingLess(i: Intent)
    ensures Without(NONE, i) == NONE
  {
  }

  lemma {:induction false} SellIdsStep(v: seq<Intent>, n: nat)
    requires n < |v|
    ensures SellIds(v[..n + 1]) == SellIds(v[..n]) + if IsSell(v[n]) then multiset{v[n].id} else multiset{}
  {
    assert v[..n + 1][..n] == v[..n] && v[..n + 1][n] == v[n];
  }

  lemma {:induction false} NextIsUnbooked(s: State, v: seq<Intent>, n: nat)
    requires n < |v| && multiset(v) <= s.desk.hand && AllPlace(v) && IsSell(v[n])
    ensures Unbooked(s, v[n], SellIds(v[..n]))
  {
    var id, more := v[n].id, v[..n + 1];
    assert v == more + v[n + 1..];
    assert multiset(more) <= multiset(v);
    BatchCounts(more, id);
    SumLess(s.desk.hand, more, InHand(id, SellGroup));
    SellIdsStep(v, n);
    assert v[n] in multiset(v);
    hide Sum, SumOf, InHand, SellIds;
  }

  lemma {:induction false} BookingsSound(setup: Setup, s: State, v: seq<Intent>, n: nat)
    requires AtRest(setup, s) && multiset(v) <= s.desk.hand && AllPlace(v) && n <= |v|
    ensures var b := Bookings(s, v, n);
            Sound(setup, b, NONE, NONE, SellIds(v[..n])) && b.desk == s.desk
  {
    hide Sound, SellIds, Book, Unbooked;
    if n == 0 {
      assert v[..0] == [] && SellIds([]) == NONE by {
        NoSellIds();
      }
    } else {
      BookingsSound(setup, s, v, n - 1);
      SellIdsStep(v, n - 1);
      var b := Bookings(s, v, n - 1);
      if v[n - 1].side.Ask? {
        NextIsUnbooked(b, v, n - 1);
        BookSound(setup, b, v[n - 1], SellIds(v[..n - 1]));
        BookKeepsDesk(b, v[n - 1]);
      } else {
        assert SellIds(v[..n - 1]) + multiset{} == SellIds(v[..n - 1]);
      }
    }
  }

  lemma {:induction false} NoSellIds()
    ensures SellIds([]) == multiset{}
  {
  }

  lemma {:induction false} BookKeepsDesk(s: State, i: Intent)
    ensures Book(s, i).desk == s.desk
  {
  }

  /** A batch that could not be built is refused intent by intent. */
  lemma {:induction false} RefuseAllSound(setup: Setup, s: State, v: seq<Intent>, n: nat)
    requires Sound(setup, s, NONE, NONE, SellIds(v)) && multiset(v) <= s.desk.hand && AllPlace(v) && n <= |v|
    ensures Sound(setup, RefuseAll(s, v, n), NONE, NONE, SellIds(v) - SellIds(v[..n]))
    ensures RefuseAll(s, v, n).desk.hand == HandAfter(s.desk.hand, v, n, [])
  {
    hide Sound, Refused, SellIds, HandAfter, Without;
    if n == 0 {
      HandStart(s.desk.hand, v);
      assert v[..0] == [] && SellIds(v) - SellIds([]) == SellIds(v) by {
        NoSellIds();
      }
    } else {
      RefuseAllSound(setup, s, v, n - 1);
      HandStep(s.desk.hand, v, n - 1, []);
      SellIdsStep(v, n - 1);
      RefusedSound(setup, RefuseAll(s, v, n - 1), v[n - 1], OrderRejected, SellIds(v) - SellIds(v[..n - 1]));
      LessInTwo(SellIds(v), SellIds(v[..n - 1]), v[n - 1]);
    }
  }

  lemma {:induction false} LessInTwo(all: multiset<nat>, front: multiset<nat>, i: Intent)
    ensures Without(all - front, i) == all - (front + if IsSell(i) then multiset{i.id} else multiset{})
  {
  }

  lemma {:induction false} NoteAllSound(setup: Setup, s: State, v: seq<Intent>, n: nat, booked: multiset<nat>)
    requires Sound(setup, s, NONE, NONE, booked) && n <= |v|
    ensures var s' := NoteAll(s, v, n);
            Sound(setup, s', NONE, NONE, booked) && s'.desk.hand == s.desk.hand && s'.ledger == s.ledger
  {
    hide Sound, Saying;
    if n > 0 {
      NoteAllSound(setup, s, v, n - 1, booked);
      NotedSound(setup, NoteAll(s, v, n - 1), v[n - 1], booked);
    }
  }

  lemma {:induction false} BookingsReserve(s: State, v: seq<Intent>, n: nat)
    requires n <= |v|
    ensures Bookings(s, v, n).ledger == ReserveAll(s.ledger, v[..n])
  {
    if n > 0 {
      BookingsReserve(s, v, n - 1);
      assert v[..n][..n - 1] == v[..n - 1];
    }
  }

  /** What is left of a batch, more than one: all its SELLs are booked, then it goes out or is refused. */
  lemma {:induction false} ManySound(setup: Setup, s: State, v: seq<Intent>, built: bool)
    requires AtRest(setup, s) && multiset(v) <= s.desk.hand && AllPlace(v)
    ensures var b := Bookings(s, v, |v|);
            var s' := if built then Sending(NoteAll(b, v, |v|), Batch(EntriesOf(v)), 1, v) else RefuseAll(b, v, |v|);
            && AtRest(setup, s') && s'.desk.hand == s.desk.hand - multiset(v)
            && (built ==> s'.ledger == ReserveAll(s.ledger, v))
  {
    assert v[..|v|] == v;
    assert SellIds(v) - SellIds(v) == NONE;
    assert HandAfter(s.desk.hand, v, |v|, []) == s.desk.hand - multiset(v);
    hide Sound, SellIds, Bookings, NoteAll, RefuseAll, EntriesOf, HandAfter, ReserveAll;
    BookingsSound(setup, s, v, |v|);
    BookingsReserve(s, v, |v|);
    var b := Bookings(s, v, |v|);
    if built {
      NoteAllSound(setup, b, v, |v|, SellIds(v));
      OrdersSentSound(setup, NoteAll(b, v, |v|), Batch(EntriesOf(v)), v);
    } else {
      RefuseAllSound(setup, b, v, |v|);
    }
  }

  /** Placing a batch keeps the desk in order, all of it leaves the hand, and what goes out as a batch has its SELLs
      reserved. */
  lemma {:induction false} BatchedSound(setup: Setup, s: State, batch: seq<Intent>, positions: seq<int>, again: int,
      built: bool)
    requires AtRest(setup, s) && multiset(batch) <= s.desk.hand && AllPlace(batch) && |batch| == |positions|
    ensures var s' := Batched(s, batch, positions, again, built);
            var s1, v := Screened(s, batch, positions, |batch|), Passed(s, batch, positions, |batch|);
            && AtRest(setup, s') && s'.desk.hand == s.desk.hand - multiset(batch)
            && (built && |v| > 1 ==> s'.ledger == ReserveAll(s1.ledger, v))
  {
    hide Sound, HandAfter, Screened, Passed, Bookings, RefuseAll, NoteAll, Placed, Sending, ReserveAll, EntriesOf;
    ScreenedSound(setup, s, batch, positions, |batch|);
    var s1, v := Screened(s, batch, positions, |batch|), Passed(s, batch, positions, |batch|);
    HandEnd(s.desk.hand, batch, v);
    if |v| == 0 {
      assert multiset(v) == multiset{};
    } else if |v| == 1 {
      assert v == [v[0]] && multiset(v) == multiset{v[0]};
      PlacedSound(setup, s1, v[0], again, built);
    } else {
      ManySound(setup, s1, v, built);
    }
  }

  // ---------------------------------------------------------------------------
  // What the inventory check of a batch admits
  // ---------------------------------------------------------------------------

  /** SELLs in hand have nothing reserved under their ids, if no two SELLs share an id. */
  lemma {:induction false} HandIsNotReserved(setup: Setup, s: State, i: Intent)
    requires AtRest(setup, s) && i in s.desk.hand && IsSell(i) && SellsProper(s.desk.trace)
    ensures i.id !in s.ledger.sells
  {
    HandIsUnbooked(s, i);
    var a := AccountOf(s, i.id);
    BalancesAt(setup, s, NONE, i.id);
    assert a.tally == TallyOf(s.desk.trace, i.id) && a.sells == Sum(s.desk.hand, InHand(i.id, SellGroup));
    assert a.reserved <==> i.id in s.ledger.sells;
    hide Sum, InHand, AccountOf, TallyOf, Regular;
    BookedFits(setup, i.id, a, 0);
  }

  /** Then nothing is released while a batch is checked, so each SELL is checked against the same reserved quantities.
      */
  lemma {:induction false} PassedIsAdmitted(s: State, batch: seq<Intent>, positions: seq<int>, n: nat)
    requires n <= |batch| == |positions|
    requires forall k :: 0 <= k < |batch| && batch[k].side.Ask? ==> batch[k].id !in s.ledger.sells
    ensures Screened(s, batch, positions, n).ledger == s.ledger
    ensures Passed(s, batch, positions, n) == Admitted(s.ledger, batch[..n], positions[..n])
  {
    if n > 0 {
      PassedIsAdmitted(s, batch, positions, n - 1);
      assert batch[..n][..n - 1] == batch[..n - 1] && positions[..n][..n - 1] == positions[..n - 1];
    }
  }

  /** With SELLs under ids of their own the batch admits what the ledger from before the batch admits. */
  lemma {:induction false} BatchAdmits(setup: Setup, s: State, batch: seq<Intent>, positions: seq<int>)
    requires AtRest(setup, s) && multiset(batch) <= s.desk.hand && AllPlace(batch) && |batch| == |positions|
    requires SellsProper(s.desk.trace)
    ensures Passed(s, batch, positions, |batch|) == Admitted(s.ledger, batch, positions)
    ensures Screened(s, batch, positions, |batch|).ledger == s.ledger
  {
    hide AtRest, SellsProper, Admitted, Screened, Passed;
    forall k | 0 <= k < |batch| && batch[k].side.Ask?
      ensures batch[k].id !in s.ledger.sells
    {
      assert batch[k] in multiset(batch);
      HandIsNotReserved(setup, s, batch[k]);
    }
    PassedIsAdmitted(s, batch, positions, |batch|);
    assert batch[..|batch|] == batch && positions[..|batch|] == positions;
  }
}
