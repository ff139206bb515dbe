/**
 Delivery of feedback to the strategy's queue.  The queue is bounded and drained by another thread, so a push may fail;
 which pushes fail is up to the environment.
 */
module FeedbackSink {
  import opened Common
  import opened ExecTypes

  const CRITICAL_SPIN_LIMIT: nat := 1024
  const OVERFLOW_FATAL_THRESHOLD: nat := 1000

  /** The feedbacks whose flag is set, in order, as the strategy sees them. */
  function Delivered(fs: seq<Feedback>, kept: seq<bool>): seq<SchedulerEvent>
    requires |fs| == |kept|
  {
    if fs == [] then []
    else
      var n := |fs| - 1;
      Delivered(fs[..n], kept[..n]) + if kept[n] then [ToEvent(fs[n])] else []
  }

  function Drops(kept: seq<bool>): nat {
    if kept == [] then 0 else Drops(kept[..|kept| - 1]) + if kept[|kept| - 1] then 0 else 1
  }

  predicate Lost(fs: seq<Feedback>, kept: seq<bool>)
    requires |fs| == |kept|
  {
    exists i :: 0 <= i < |fs| && Critical(fs[i].kind) && !kept[i]
  }

  /** `queue` received exactly the feedbacks with their flag set, in order; the rest were counted as overflow; and the
      fatal flag, if there is one, is up exactly when someone raised it, a critical feedback was lost or the overflow
      reached its threshold. */
  ghost predicate Accounted(
    fs: seq<Feedback>, kept: seq<bool>, queue: seq<SchedulerEvent>, overflow: nat, hasFlag: bool, raised: bool,
        fatal: bool)
  {
    && |fs| == |kept|
    && queue == Delivered(fs, kept)
    && overflow == Drops(kept)
    && (fatal <==> hasFlag && (raised || Lost(fs, kept) || overflow >= OVERFLOW_FATAL_THRESHOLD))
  }

  lemma {:induction false} Extend(fs: seq<Feedback>, kept: seq<bool>, fb: Feedback, ok: bool)
    requires |fs| == |kept|
    ensures Delivered(fs + [fb], kept + [ok]) == Delivered(fs, kept) + if ok then [ToEvent(fb)] else []
    ensures Drops(kept + [ok]) == Drops(kept) + if ok then 0 else 1
    ensures Lost(fs + [fb], kept + [ok]) <==> Lost(fs, kept) || (Critical(fb.kind) && !ok)
  {
    assert (fs + [fb])[..|fs|] == fs && (kept + [ok])[..|kept|] == kept;
    var fs', kept' := fs + [fb], kept + [ok];
    hide Delivered, Drops;
    if Lost(fs, kept) {
      var i :| 0 <= i < |fs| && Critical(fs[i].kind) && !kept[i];
      assert Critical(fs'[i].kind) && !kept'[i];
    }
    if Critical(fb.kind) && !ok {
      assert Critical(fs'[|fs|].kind) && !kept'[|fs|];
    }
  }

  class FeedbackSink {
    const hasFlag: bool  // whether there is a fatal flag to raise
    var fatal: bool
    var overflow: nat
    var overflowFatal: bool
    ghost var queue: seq<SchedulerEvent>  // everything ever pushed
    ghost var tries: nat  // attempts to push
    ghost var published: seq<Feedback>
    ghost var kept: seq<bool>
    ghost var raised: bool

    ghost predicate Valid()
      reads this
    {
      && Accounted(published, kept, queue, overflow, hasFlag, raised, fatal)
      && (overflowFatal ==> fatal)
    }

    constructor (hasFlag: bool)
      ensures Valid() && this.hasFlag == hasFlag && published == [] && queue == [] && !fatal && !raised
    {
      this.hasFlag := hasFlag;
      fatal, overflow, overflowFatal := false, 0, false;
      queue, tries, published, kept, raised := [], 0, [], [], false;
    }

    /** Any thread may raise the fatal flag; nobody lowers it. */
    method Raise()
      requires Valid()
      modifies this
      ensures Valid() && fatal == hasFlag
      ensures published == old(published) && kept == old(kept) && queue == old(queue) && overflow == old(overflow)
    {
      raised := true;
      if hasFlag {
        fatal := true;
      }
    }

    /** One attempt: the queue may be full. */
    method TryPush(ev: SchedulerEvent) returns (pushed: bool)
      modifies `queue, `tries
      ensures queue == old(queue) + (if pushed then [ev] else []) && tries == old(tries) + 1
    {
      pushed := *;
      queue, tries := queue + if pushed then [ev] else [], tries + 1;
    }

    /** Up to 1024 attempts for a feedback the strategy must see. */
    method PushCritical(ev: SchedulerEvent) returns (pushed: bool)
      modifies `queue, `tries
      ensures queue == old(queue) + if pushed then [ev] else []
      ensures old(tries) < tries <= old(tries) + 1024 && (!pushed ==> tries == old(tries) + 1024)
    {
      pushed := false;
      var attempt := 0;
      while attempt < CRITICAL_SPIN_LIMIT
        invariant !pushed && queue == old(queue) && attempt <= CRITICAL_SPIN_LIMIT && tries == old(tries) + attempt
      {
        pushed := TryPush(ev);
        if pushed {
          return;
        }
        attempt := attempt + 1;
      }
    }

    /** Publishes a feedback; a reject, a timeout or an unavailable exchange is tried 1024 times before it is lost. */
    method Publish(fb: Feedback)
      requires Valid()
      modifies this
      ensures Valid() && published == old(published) + [fb]
      ensures |kept| == |old(kept)| + 1 && old(kept) == kept[..|old(kept)|]
      ensures raised == old(raised) && (old(fatal) ==> fatal)
      ensures var most := if fb.kind in {OrderRejected, Timeout, ExchangeUnavailable} then 1024 else 1;
              old(tries) < tries <= old(tries) + most && (!kept[|kept| - 1] ==> tries == old(tries) + most)
    {
      hide Delivered, Drops, Lost, ToEvent;
      var pushed: bool;
      if Critical(fb.kind) {
        pushed := PushCritical(ToEvent(fb));
        if !pushed {
          overflow := overflow + 1;
          if hasFlag {
            fatal := true;
          }
        }
      } else {
        pushed := TryPush(ToEvent(fb));
        if !pushed {
          overflow := overflow + 1;
          if !overflowFatal && hasFlag && overflow >= OVERFLOW_FATAL_THRESHOLD {
            overflowFatal, fatal := true, true;
          }
        }
      }
      Extend(published, kept, fb, pushed);
      published, kept := published + [fb], kept + [pushed];
    }
  }

  // ---------------------------------------------------------------------------
  // What a run without the fatal flag has delivered
  // ---------------------------------------------------------------------------

  lemma {:induction false} DeliveredLength(fs: seq<Feedback>, kept: seq<bool>)
    requires |fs| == |kept|
    ensures |Delivered(fs, kept)| + Drops(kept) == |fs|
  {
    if fs != [] {
      DeliveredLength(fs[..|fs| - 1], kept[..|kept| - 1]);
    }
  }

  /** Where the i-th published feedback went: after the kept ones before it. */
  lemma {:induction false} DeliveredAt(fs: seq<Feedback>, kept: seq<bool>, i: nat)
    requires |fs| == |kept| && i < |fs| && kept[i]
    ensures var k := |Delivered(fs[..i], kept[..i])|;
            k < |Delivered(fs, kept)| && Delivered(fs, kept)[k] == ToEvent(fs[i])
  {
    var n := |fs| - 1;
    if i < n {
      DeliveredAt(fs[..n], kept[..n], i);
      assert fs[..n][..i] == fs[..i] && kept[..n][..i] == kept[..i];
    }
  }

  /** The strategy has been told of a failure: of a reject or an unavailable exchange by a reject, of a timeout by an
      acknowledgement, neither of them accepted. */
  ghost predicate Told(queue: seq<SchedulerEvent>, fb: Feedback) {
    && (fb.kind in {OrderRejected, ExchangeUnavailable} ==>
          SchedulerEvent(OrderReject, false, fb.id, fb.clientOid, fb.exchangeOid, fb.kind, fb.status) in queue)
    && (fb.kind.Timeout? ==>
          SchedulerEvent(OrderAck, false, fb.id, fb.clientOid, fb.exchangeOid, fb.kind, fb.status) in queue)
  }

  /** No silent loss: while the fatal flag of a gateway that has one is down, every reject and unavailability is in the
      queue as a reject, every timeout as an acknowledgement that is not accepted, fewer than 1000 other feedbacks were
      dropped, and what was queued and what was dropped make up what was published. */
  lemma {:induction false} NoSilentLoss(fs: seq<Feedback>, kept: seq<bool>, queue: seq<SchedulerEvent>,
      overflow: nat, raised: bool)
    requires Accounted(fs, kept, queue, overflow, true, raised, false)
    ensures |queue| + overflow == |fs| && overflow < OVERFLOW_FATAL_THRESHOLD
    ensures forall i :: 0 <= i < |fs| ==> Told(queue, fs[i])
  {
    DeliveredLength(fs, kept);
    forall i | 0 <= i < |fs| && Critical(fs[i].kind)
      ensures ToEvent(fs[i]) in queue
    {
      DeliveredAt(fs, kept, i);
    }
  }

  /** Later feedback is queued after earlier feedback. */
  lemma {:induction false} QueueKeepsOrder(fs: seq<Feedback>, kept: seq<bool>, i: nat, j: nat)
    requires |fs| == |kept| && i < j < |fs| && kept[i] && kept[j]
    ensures |Delivered(fs[..i], kept[..i])| < |Delivered(fs[..j], kept[..j])|
  {
    assert fs[..j][..i] == fs[..i] && kept[..j][..i] == kept[..i];
    DeliveredAt(fs[..j], kept[..j], i);
  }
}
