/**
 The binary recording of raw WebSocket messages: the writer's framing, the reader of the conversion tool, and what
 the reader makes of a file that was cut off anywhere.
 */
module Recorder {
  import opened Bytes
  import opened Common

  const TWO_63: int := 0x8000_0000_0000_0000
  const TWO_32: int := 0x1_0000_0000
  const HEADER_SIZE: nat := 16
  const FRAME_HEADER_SIZE: nat := 24

  /** A queued message; the queue's types bound every field. */
  datatype Message = Message(recvTs: int, wallMs: int, payload: seq<byte>, flags: nat)

  ghost predicate Typed(m: Message) {
    -TWO_63 <= m.recvTs < TWO_63 && -TWO_63 <= m.wallMs < TWO_63 && |m.payload| < TWO_32 && m.flags < TWO_32
  }

  ghost predicate AllTyped(ms: seq<Message>) {
    forall i :: 0 <= i < |ms| ==> Typed(ms[i])
  }

  // ---------------------------------------------------------------------------
  // Little-endian integers
  // ---------------------------------------------------------------------------

  function Le(n: nat, width: nat): (bs: seq<byte>)
    ensures |bs| == width
  {
    if width == 0 then [] else [n % 256] + Le(n / 256, width - 1)
  }

  function LeValue(bs: seq<byte>): nat {
    if bs == [] then 0 else bs[0] + 256 * LeValue(bs[1..])
  }

  lemma {:induction false} LeRoundTrip(n: nat, width: nat)
    requires n < Pow256(width)
    ensures LeValue(Le(n, width)) == n
  {
    if width > 0 {
      LeRoundTrip(n / 256, width - 1);
      assert Le(n, width)[1..] == Le(n / 256, width - 1);
    }
  }

  /** A signed 64-bit integer in two's complement. */
  function LeSigned(x: int): (bs: seq<byte>)
    ensures |bs| == 8
  {
    Le(x % TWO_64, 8)
  }

  function SignedValue(bs: seq<byte>): int {
    var v := LeValue(bs);
    if v >= TWO_63 then v - TWO_64 else v
  }

  lemma {:induction false} SignedRoundTrip(x: int)
    requires -TWO_63 <= x < TWO_63
    ensures SignedValue(LeSigned(x)) == x
  {
    Pow256Eight();
    LeRoundTrip(x % TWO_64, 8);
  }

  lemma {:induction false} UnsignedRoundTrip(n: nat)
    requires n < TWO_32
    ensures LeValue(Le(n, 4)) == n
  {
    assert Pow256(4) == TWO_32;
    LeRoundTrip(n, 4);
  }

  // ---------------------------------------------------------------------------
  // Writing
  // ---------------------------------------------------------------------------

  /** "LTRB", version 1, the source, and a record size of zero for variable-length records. */
  function FileHeader(source: byte): (bs: seq<byte>)
    ensures |bs| == HEADER_SIZE
    ensures bs == [0x4c, 0x54, 0x52, 0x42, 1, 0, source, 0, 0, 0, 0, 0, 0, 0, 0, 0]
  {
    [0x4c, 0x54, 0x52, 0x42] + Le(1, 2) + [source, 0] + Le(0, 4) + Le(0, 4)
  }

  function FrameHeader(m: Message): (bs: seq<byte>)
    ensures |bs| == FRAME_HEADER_SIZE
  {
    LeSigned(m.recvTs) + LeSigned(m.wallMs) + Le(|m.payload|, 4) + Le(m.flags, 4)
  }

  function Frame(m: Message): seq<byte> {
    FrameHeader(m) + m.payload
  }

  function Frames(ms: seq<Message>): seq<byte> {
    if ms == [] then [] else Frame(ms[0]) + Frames(ms[1..])
  }

  /** The whole file that clean sessions have produced. */
  function FileOf(source: byte, ms: seq<Message>): seq<byte> {
    FileHeader(source) + Frames(ms)
  }

  lemma {:induction false} FramesAppend(xs: seq<Message>, ys: seq<Message>)
    ensures Frames(xs + ys) == Frames(xs) + Frames(ys)
  {
    if xs == [] {
      assert xs + ys == ys;
    } else {
      assert (xs + ys)[1..] == xs[1..] + ys;
      FramesAppend(xs[1..], ys);
    }
  }

  /** A recording file, appended to in place.  Writes are buffered: when one fails the file is closed, and what reached
      the disk ends anywhere after the `durable` bytes that were there when it was opened. */
  class RecordFile {
    var bytes: seq<byte>
    var open: bool
    const durable: nat

    ghost predicate Valid()
      reads this
    {
      durable <= |bytes|
    }

    /** Opens a file for appending: a missing or empty one gets the header first. */
    constructor (existing: seq<byte>, source: byte)
      ensures bytes == (if existing == [] then FileHeader(source) else existing) && open && durable == |bytes|
              && Valid()
    {
      var content := existing;
      if |existing| == 0 {
        content := content + FileHeader(source);
      }
      bytes, open, durable := content, true, |content|;
    }

    /** One buffered write. */
    method Put(data: seq<byte>) returns (ok: bool)
      requires Valid()
      modifies this`bytes
      ensures Valid() && if ok then bytes == old(bytes) + data else bytes < old(bytes) + data
    {
      var all := bytes + data;
      ok := *;
      if ok || durable == |all| {
        ok, bytes := true, all;
      } else {
        var n: nat :| durable <= n < |all|;
        bytes := all[..n];
      }
    }

    /** Writes the 24-byte header and then the payload, if there is one; a failed write closes the file. */
    method WriteFrame(m: Message)
      requires Valid() && open
      modifies this
      ensures Valid() && if open then bytes == old(bytes) + Frame(m) else bytes < old(bytes) + Frame(m)
    {
      var ok := Put(FrameHeader(m));
      if ok && |m.payload| > 0 {
        ok := Put(m.payload);
      }
      if !ok {
        open := false;
      }
    }

    /** Drains the queue: messages are written frame by frame while the file is open and the disk is not low, and
        counted either way.  What is in the file afterwards is what a flawless drain leaves, cut somewhere if a write
        failed. */
    method DrainRaw(queue: seq<Message>, diskLow: bool) returns (count: nat)
      requires Valid()
      modifies this
      ensures Valid() && count == |queue| && (open ==> old(open))
      ensures diskLow || !old(open) ==> bytes == old(bytes) && open == old(open)
      ensures !diskLow && old(open) ==>
              if open then bytes == old(bytes) + Frames(queue) else bytes < old(bytes) + Frames(queue)
    {
      count := 0;
      assert Frames(queue[..0]) == [];
      hide Frames, Frame;
      while count < |queue|
        invariant 0 <= count <= |queue| && Valid() && (open ==> old(open))
        invariant diskLow || !old(open) ==> bytes == old(bytes) && open == old(open)
        invariant !diskLow && old(open) ==>
                    if open then bytes == old(bytes) + Frames(queue[..count])
                        else bytes < old(bytes) + Frames(queue[..count])
      {
        NextFrame(queue, count);
        if open && !diskLow {
          WriteFrame(queue[count]);
        }
        assert old(bytes) + Frames(queue[..count + 1]) == old(bytes) + Frames(queue[..count]) + Frame(queue[count]);
        count := count + 1;
      }
      assert queue[..count] == queue;
    }
  }

  lemma {:induction false} NextFrame(queue: seq<Message>, count: nat)
    requires count < |queue|
    ensures Frames(queue[..count + 1]) == Frames(queue[..count]) + Frame(queue[count])
  {
    var m := queue[count];
    assert queue[..count + 1] == queue[..count] + [m] && [m][1..] == [];
    FramesAppend(queue[..count], [m]);
  }

  /** The file a session leaves behind when it opens the file, drains a queue and closes it cleanly. */
  function SessionFile(existing: seq<byte>, source: byte, queue: seq<Message>): seq<byte> {
    (if existing == [] then FileHeader(source) else existing) + Frames(queue)
  }

  /** A session in which no write failed leaves that file; one with a failed write leaves it cut, but not before the end
      of what was there. */
  method Session(existing: seq<byte>, source: byte, queue: seq<Message>) returns (file: seq<byte>, clean: bool)
    ensures clean ==> file == SessionFile(existing, source, queue)
    ensures existing <= file <= SessionFile(existing, source, queue)
  {
    var f := new RecordFile(existing, source);
    ghost var start := f.bytes;
    var n := f.DrainRaw(queue, false);
    file, clean := f.bytes, f.open;
    assert start <= file by {
      assert file <= start + Frames(queue) && |start| <= |file|;
    }
  }

  function AfterSessions(source: byte, queues: seq<seq<Message>>): seq<byte> {
    if queues == [] then []
        else SessionFile(AfterSessions(source, queues[..|queues| - 1]), source, queues[|queues| - 1])
  }

  function AllMessages(queues: seq<seq<Message>>): seq<Message> {
    if queues == [] then [] else AllMessages(queues[..|queues| - 1]) + queues[|queues| - 1]
  }

  /** However many sessions wrote the file, it has one header and every message once, in order. */
  lemma {:induction false} SessionsMakeOneFile(source: byte, queues: seq<seq<Message>>)
    requires queues != []
    ensures AfterSessions(source, queues) == FileOf(source, AllMessages(queues))
  {
    var front, last := queues[..|queues| - 1], queues[|queues| - 1];
    FramesAppend(AllMessages(front), last);
    if front != [] {
      SessionsMakeOneFile(source, front);
    } else {
      assert AllMessages(front) + last == last;
    }
  }

  // ---------------------------------------------------------------------------
  // Reading
  // ---------------------------------------------------------------------------

  datatype Row = Row(recvTs: int, wallMs: int, payload: seq<byte>, truncated: bool)

  function RowOf(m: Message): Row {
    Row(m.recvTs, m.wallMs, m.payload, m.flags % 2 == 1)
  }

  function RowsOf(ms: seq<Message>): seq<Row> {
    seq(|ms|, i requires 0 <= i < |ms| => RowOf(ms[i]))
  }

  /** Reads frames until one is incomplete. */
  function ReadFrames(bs: seq<byte>): seq<Row>
    decreases |bs|
  {
    if |bs| < FRAME_HEADER_SIZE then []
    else
      var len := LeValue(bs[16..20]);
      if |bs| < FRAME_HEADER_SIZE + len then []
      else
        [Row(SignedValue(bs[..8]), SignedValue(bs[8..16]), bs[FRAME_HEADER_SIZE..FRAME_HEADER_SIZE + len],
            LeValue(bs[20..24]) % 2 == 1)]
        + ReadFrames(bs[FRAME_HEADER_SIZE + len..])
  }

  /** The rows of a file of the expected source; nothing at all without a whole header of that source. */
  function ReadFile(bs: seq<byte>, source: byte): Option<seq<Row>> {
    if |bs| < HEADER_SIZE || bs[..4] != [0x4c, 0x54, 0x52, 0x42] || bs[6] != source then None
    else Some(ReadFrames(bs[HEADER_SIZE..]))
  }

  /** One round of the reader: a row and its size on disk, or nothing at an incomplete frame. */
  method ReadRow(rest: seq<byte>) returns (r: Option<(Row, nat)>)
    ensures r.None? ==> ReadFrames(rest) == []
    ensures r.Some? ==> 0 < r.value.1 <= |rest| && ReadFrames(rest) == [r.value.0] + ReadFrames(rest[r.value.1..])
  {
    if |rest| < FRAME_HEADER_SIZE {
      return None;
    }
    var len := LeValue(rest[16..20]);
    var payload := [];
    if len > 0 {
      if |rest| < FRAME_HEADER_SIZE + len {
        return None;
      }
      payload := rest[FRAME_HEADER_SIZE..FRAME_HEADER_SIZE + len];
    }
    assert payload == rest[FRAME_HEADER_SIZE..FRAME_HEADER_SIZE + len];
    r := Some((Row(SignedValue(rest[..8]), SignedValue(rest[8..16]), payload, LeValue(rest[20..24]) % 2 == 1),
               FRAME_HEADER_SIZE + len));
  }

  /** The reader's loop over what is left of the file. */
  method ConvertRaw(file: seq<byte>, source: byte) returns (rows: Option<seq<Row>>)
    ensures rows == ReadFile(file, source)
  {
    if |file| < HEADER_SIZE || file[..4] != [0x4c, 0x54, 0x52, 0x42] || file[6] != source {
      return None;
    }
    hide ReadFrames;
    var rest, out := file[HEADER_SIZE..], [];
    while true
      invariant out + ReadFrames(rest) == ReadFrames(file[HEADER_SIZE..])
      decreases |rest|
    {
      var r := ReadRow(rest);
      if r.None? {
        break;
      }
      out, rest := out + [r.value.0], rest[r.value.1..];
    }
    assert out + [] == out;
    rows := Some(out);
  }

  // ---------------------------------------------------------------------------
  // Truncation
  // ---------------------------------------------------------------------------

  lemma {:induction false} FrameFields(m: Message, rest: seq<byte>)
    requires Typed(m)
    ensures var bs := Frame(m) + rest;
            && SignedValue(bs[..8]) == m.recvTs && SignedValue(bs[8..16]) == m.wallMs
            && LeValue(bs[16..20]) == |m.payload| && LeValue(bs[20..24]) == m.flags
            && bs[FRAME_HEADER_SIZE..FRAME_HEADER_SIZE + |m.payload|] == m.payload
            && bs[FRAME_HEADER_SIZE + |m.payload|..] == rest
  {
    SignedRoundTrip(m.recvTs);
    SignedRoundTrip(m.wallMs);
    UnsignedRoundTrip(|m.payload|);
    UnsignedRoundTrip(m.flags);
    hide LeSigned, SignedValue, LeValue, Le;
    var bs := Frame(m) + rest;
    assert bs[..8] == LeSigned(m.recvTs) && bs[8..16] == LeSigned(m.wallMs);
    assert bs[16..20] == Le(|m.payload|, 4) && bs[20..24] == Le(m.flags, 4);
  }

  /** The number of whole frames within the first `n` bytes. */
  function WholeFrames(ms: seq<Message>, n: nat): (k: nat)
    ensures k <= |ms|
  {
    if ms == [] || n < |Frame(ms[0])| then 0 else 1 + WholeFrames(ms[1..], n - |Frame(ms[0])|)
  }

  /** It is the largest number of frames that fit. */
  lemma {:induction false} WholeFramesFit(ms: seq<Message>, n: nat)
    ensures var k := WholeFrames(ms, n);
            |Frames(ms[..k])| <= n && (k < |ms| ==> n < |Frames(ms[..k + 1])|)
  {
    var k := WholeFrames(ms, n);
    if ms == [] || n < |Frame(ms[0])| {
      assert ms[..0] == [];
      if ms != [] {
        assert ms[..1] == [ms[0]] && [ms[0]][1..] == [];
      }
    } else {
      WholeFramesFit(ms[1..], n - |Frame(ms[0])|);
      assert ms[..k][1..] == ms[1..][..k - 1];
      if k < |ms| {
        assert ms[..k + 1][1..] == ms[1..][..k];
      }
    }
  }

  lemma {:induction false} ReadCutFrames(ms: seq<Message>, n: nat)
    requires AllTyped(ms) && n <= |Frames(ms)|
    ensures ReadFrames(Frames(ms)[..n]) == RowsOf(ms[..WholeFrames(ms, n)])
  {
    if ms == [] {
      assert Frames(ms)[..n] == [] && ms[..0] == [];
    } else {
      var m, size, k := ms[0], |Frame(ms[0])|, WholeFrames(ms, n);
      assert Frames(ms) == Frame(m) + Frames(ms[1..]);
      assert if n < size then k == 0 else k == 1 + WholeFrames(ms[1..], n - size);
      hide ReadFrames, Frame, Frames, RowsOf, WholeFrames;
      CutBehind(Frame(m), Frames(ms[1..]), n);
      if n < size {
        assert ms[..0] == [];
        CutFrame(m, n);
      } else {
        ReadCutFrames(ms[1..], n - size);
        ReadOne(m, Frames(ms[1..])[..n - size]);
        RowsCons(ms, k);
      }
    }
  }

  lemma {:induction false} CutBehind(a: seq<byte>, b: seq<byte>, n: nat)
    requires n <= |a| + |b|
    ensures (a + b)[..n] == if n < |a| then a[..n] else a + b[..n - |a|]
  {
  }

  lemma {:induction false} RowsCons(ms: seq<Message>, k: nat)
    requires 0 < k <= |ms|
    ensures RowsOf(ms[..k]) == [RowOf(ms[0])] + RowsOf(ms[1..][..k - 1])
  {
    assert ms[..k] == [ms[0]] + ms[1..][..k - 1];
  }

  lemma {:induction false} ReadOne(m: Message, rest: seq<byte>)
    requires Typed(m)
    ensures ReadFrames(Frame(m) + rest) == [RowOf(m)] + ReadFrames(rest)
  {
    FrameFields(m, rest);
    hide Frame, SignedValue, LeValue;
  }

  /** A frame that is cut anywhere yields nothing. */
  lemma {:induction false} CutFrame(m: Message, n: nat)
    requires Typed(m) && n < |Frame(m)|
    ensures ReadFrames(Frame(m)[..n]) == []
  {
    if n >= FRAME_HEADER_SIZE {
      FrameFields(m, []);
      assert Frame(m) + [] == Frame(m);
      assert Frame(m)[..n][16..20] == Frame(m)[16..20];
    }
  }

  lemma {:induction false} ReadWith(source: byte, rest: seq<byte>)
    ensures ReadFile(FileHeader(source) + rest, source) == Some(ReadFrames(rest))
  {
    var bs := FileHeader(source) + rest;
    assert bs[..4] == FileHeader(source)[..4] && bs[6] == FileHeader(source)[6] && bs[HEADER_SIZE..] == rest;
  }

  /** Cut a cleanly written file anywhere: without its whole header the reader returns nothing, otherwise exactly the
      messages whose frames are complete, unchanged and in order. */
  lemma {:induction false} CutFileReadsPrefix(source: byte, ms: seq<Message>, n: nat)
    requires AllTyped(ms) && n <= |FileOf(source, ms)|
    ensures ReadFile(FileOf(source, ms)[..n], source)
              == if n < HEADER_SIZE then None else Some(RowsOf(ms[..WholeFrames(ms, n - HEADER_SIZE)]))
  {
    if n >= HEADER_SIZE {
      hide ReadFrames, Frames, WholeFrames, FileHeader, ReadFile, RowsOf;
      CutBehind(FileHeader(source), Frames(ms), n);
      ReadWith(source, Frames(ms)[..n - HEADER_SIZE]);
      ReadCutFrames(ms, n - HEADER_SIZE);
    }
  }

  // ---------------------------------------------------------------------------
  // Appending to a file that was cut
  // ---------------------------------------------------------------------------

  lemma {:induction false} Regroup<T>(a: seq<T>, b: seq<T>, c: seq<T>)
    ensures a + b + c == a + (b + c)
  {
  }

  lemma {:induction false} ReadAll(ms: seq<Message>, rest: seq<byte>)
    requires AllTyped(ms)
    ensures ReadFrames(Frames(ms) + rest) == RowsOf(ms) + ReadFrames(rest)
  {
    if ms == [] {
      assert Frames(ms) + rest == rest && RowsOf(ms) + ReadFrames(rest) == ReadFrames(rest);
    } else {
      var first, others := Frame(ms[0]), Frames(ms[1..]);
      assert Frames(ms) == first + others;
      RowsCons(ms, |ms|);
      assert ms[..|ms|] == ms && ms[1..][..|ms| - 1] == ms[1..];
      hide ReadFrames, Frames, Frame, RowsOf, RowOf;
      Regroup(first, others, rest);
      ReadAll(ms[1..], rest);
      ReadOne(ms[0], others + rest);
      Regroup([RowOf(ms[0])], RowsOf(ms[1..]), ReadFrames(rest));
    }
  }

  lemma {:induction false} CutParts(a: seq<byte>, b: seq<byte>, c: seq<byte>, n: nat)
    requires |a| + |b| <= n <= |a| + |b| + |c|
    ensures (a + (b + c))[..n] == a + b + c[..n - |a| - |b|]
  {
  }

  lemma {:induction false} CutThenAppended(a: seq<byte>, b: seq<byte>, c: seq<byte>, n: nat, more: seq<byte>)
    requires |a| + |b| <= n <= |a| + |b| + |c|
    ensures (a + (b + c))[..n] + more == a + (b + (c[..n - |a| - |b|] + more))
  {
    CutParts(a, b, c, n);
    Regroup(a + b, c[..n - |a| - |b|], more);
    Regroup(a, b, c[..n - |a| - |b|] + more);
  }

  lemma {:induction false} ReadsWhole(source: byte, ms: seq<Message>, rest: seq<byte>)
    requires AllTyped(ms)
    ensures var r := ReadFile(FileHeader(source) + (Frames(ms) + rest), source);
            r == Some(RowsOf(ms) + ReadFrames(rest))
  {
    hide Frames, ReadFrames, RowsOf, ReadFile, FileHeader;
    ReadWith(source, Frames(ms) + rest);
    ReadAll(ms, rest);
  }

  lemma {:induction false} ReadExactly(ms: seq<Message>)
    requires AllTyped(ms)
    ensures ReadFrames(Frames(ms)) == RowsOf(ms)
  {
    ReadAll(ms, []);
    assert ReadFrames([]) == [];
    hide Frames, ReadFrames, RowsOf;
    assert Frames(ms) + [] == Frames(ms) && RowsOf(ms) + [] == RowsOf(ms);
  }

  /** What a cut behind the header leaves of a file, with more appended. */
  lemma {:induction false} CutFile(source: byte, ms: seq<Message>, n: nat, k: nat, more: seq<Message>)
    returns (rest: seq<byte>)
    requires k <= |ms| && |Frames(ms[..k])| <= n - HEADER_SIZE && n <= |FileOf(source, ms)|
    ensures SessionFile(FileOf(source, ms)[..n], source, more) == FileHeader(source) + (Frames(ms[..k]) + rest)
    ensures var whole := HEADER_SIZE + |Frames(ms[..k])|;
            if n == whole then rest == Frames(more) else rest != [] && rest[0] == FileOf(source, ms)[whole]
  {
    hide Frames;
    FramesAppend(ms[..k], ms[k..]);
    assert ms == ms[..k] + ms[k..];
    var whole, tail := Frames(ms[..k]), Frames(ms[k..]);
    CutThenAppended(FileHeader(source), whole, tail, n, Frames(more));
    rest := tail[..n - HEADER_SIZE - |whole|] + Frames(more);
  }

  /** After a cut at a frame boundary, or of everything, a later session appends as if nothing had happened: the reader
      returns all whole old records and all new ones. */
  lemma {:induction false} AppendAtBoundary(source: byte, ms: seq<Message>, k: nat, more: seq<Message>)
    requires AllTyped(ms) && AllTyped(more) && k <= |ms|
    ensures var n := HEADER_SIZE + |Frames(ms[..k])|;
            && n <= |FileOf(source, ms)|
            && ReadFile(SessionFile(FileOf(source, ms)[..n], source, more), source)
                == Some(RowsOf(ms[..k]) + RowsOf(more))
    ensures ReadFile(SessionFile([], source, more), source) == Some(RowsOf(more))
  {
    FramesAppend(ms[..k], ms[k..]);
    assert ms == ms[..k] + ms[k..];
    assert SessionFile([], source, more) == FileHeader(source) + Frames(more);
    assert |FileOf(source, ms)| == HEADER_SIZE + |Frames(ms)|;
    hide Frames, ReadFrames, RowsOf, ReadFile, FileHeader, FileOf, SessionFile;
    var rest := CutFile(source, ms, HEADER_SIZE + |Frames(ms[..k])|, k, more);
    ReadsWhole(source, ms[..k], Frames(more));
    ReadExactly(more);
    ReadWith(source, Frames(more));
  }

  /** The bytes that rows took on disk. */
  function Consumed(rows: seq<Row>): nat {
    if rows == [] then 0 else FRAME_HEADER_SIZE + |rows[0].payload| + Consumed(rows[1..])
  }

  lemma {:induction false} ReadConsumes(bs: seq<byte>)
    ensures Consumed(ReadFrames(bs)) <= |bs|
    decreases |bs|
  {
    if |bs| >= FRAME_HEADER_SIZE {
      var len := LeValue(bs[16..20]);
      if |bs| >= FRAME_HEADER_SIZE + len {
        ReadConsumes(bs[FRAME_HEADER_SIZE + len..]);
        assert ReadFrames(bs)[1..] == ReadFrames(bs[FRAME_HEADER_SIZE + len..]);
      }
    }
  }

  lemma {:induction false} RowsConsume(ms: seq<Message>)
    ensures Consumed(RowsOf(ms)) == |Frames(ms)|
  {
    if ms != [] {
      assert RowsOf(ms)[1..] == RowsOf(ms[1..]);
      RowsConsume(ms[1..]);
    }
  }

  /** After a cut inside the file header the header is never repaired: the records of a later session are read back
      exactly when the cut left nothing at all. */
  lemma {:induction false} CutHeaderLosesIff(source: byte, ms: seq<Message>, n: nat, more: seq<Message>)
    requires AllTyped(ms) && AllTyped(more) && n < HEADER_SIZE
    ensures ReadFile(SessionFile(FileOf(source, ms)[..n], source, more), source) == Some(RowsOf(more)) <==> n == 0
  {
    var cut := FileOf(source, ms)[..n];
    var file := SessionFile(cut, source, more);
    if n == 0 {
      AppendAtBoundary(source, ms, 0, more);
    } else if |file| >= HEADER_SIZE {
      ReadConsumes(file[HEADER_SIZE..]);
      RowsConsume(more);
      hide ReadFrames, Frames, RowsOf, Consumed;
      assert |file[HEADER_SIZE..]| < |Frames(more)|;
    }
  }

  /** Wherever the file is cut behind its header, the whole old records are read back first, whatever is appended. */
  lemma {:induction false} OldRecordsStay(source: byte, ms: seq<Message>, n: nat, more: seq<Message>)
    requires AllTyped(ms) && HEADER_SIZE <= n <= |FileOf(source, ms)|
    ensures var r := ReadFile(SessionFile(FileOf(source, ms)[..n], source, more), source);
            r.Some? && RowsOf(ms[..WholeFrames(ms, n - HEADER_SIZE)]) <= r.value
  {
    hide Frames, WholeFrames, ReadFrames, RowsOf, ReadFile, FileHeader, FileOf, SessionFile;
    var k := WholeFrames(ms, n - HEADER_SIZE);
    WholeFramesFit(ms, n - HEADER_SIZE);
    var rest := CutFile(source, ms, n, k, more);
    ReadsWhole(source, ms[..k], rest);
  }

  /** A cut inside a frame may lose the new records: cut behind its header, a frame swallows a shorter one. */
  lemma {:induction false} CutFrameSwallows(source: byte, m: Message, next: Message)
    requires Typed(m) && Typed(next) && |Frame(next)| < |m.payload|
    ensures var n := HEADER_SIZE + FRAME_HEADER_SIZE;
            && n <= |FileOf(source, [m])|
            && ReadFile(SessionFile(FileOf(source, [m])[..n], source, [next]), source) == Some([])
  {
    var n := HEADER_SIZE + FRAME_HEADER_SIZE;
    assert [m][1..] == [] && [next][1..] == [];
    assert Frames([m]) == Frame(m) + [] == Frame(m) && Frames([next]) == Frame(next) + [] == Frame(next);
    var rest := FrameHeader(m) + Frame(next);
    assert SessionFile(FileOf(source, [m])[..n], source, [next]) == FileHeader(source) + rest;
    ReadWith(source, rest);
    FrameFields(m, []);
    assert Frame(m) + [] == Frame(m);
    hide LeSigned, Le, SignedValue, LeValue, FileHeader;
    assert rest[16..20] == Frame(m)[16..20];
  }

  // ---------------------------------------------------------------------------
  // Continuing a cut recording
  // ---------------------------------------------------------------------------

  /** The messages whose frames a cut at byte n leaves whole. */
  function Whole(ms: seq<Message>, n: nat): seq<Message> {
    if n < HEADER_SIZE then [] else ms[..WholeFrames(ms, n - HEADER_SIZE)]
  }

  /** Whatever a later session appends to the cut file is read back behind the whole old records. */
  ghost predicate Continues(source: byte, ms: seq<Message>, n: nat) {
    n <= |FileOf(source, ms)| &&
    forall more :: AllTyped(more) ==>
      ReadFile(SessionFile(FileOf(source, ms)[..n], source, more), source) == Some(RowsOf(Whole(ms, n)) + RowsOf(more))
  }

  lemma {:induction false} FirstByte(bs: seq<byte>)
    requires ReadFrames(bs) != []
    ensures ReadFrames(bs)[0].recvTs % 256 == bs[0]
  {
    var ts := bs[..8];
    var v := LeValue(ts);
    assert v == ts[0] + 256 * LeValue(ts[1..]);
    assert TWO_64 == 256 * 0x100_0000_0000_0000;
    hide LeValue;
  }

  /** A message whose frame does not begin with this byte. */
  function Other(b: byte): Message {
    Message(if b == 0 then 1 else 0, 0, [], 0)
  }

  lemma {:induction false} OtherRow(b: byte)
    ensures AllTyped([Other(b)]) && RowsOf([Other(b)]) != [] && RowsOf([Other(b)])[0].recvTs % 256 != b
  {
  }

  lemma {:induction false} LeftOverLoses(source: byte, ms: seq<Message>, n: nat)
    requires AllTyped(ms) && HEADER_SIZE <= n <= |FileOf(source, ms)|
    requires n != HEADER_SIZE + |Frames(ms[..WholeFrames(ms, n - HEADER_SIZE)])|
    ensures !Continues(source, ms, n)
  {
    hide Frames, ReadFrames, RowsOf, ReadFile, FileHeader, FileOf, SessionFile, WholeFrames, Other;
    var k := WholeFrames(ms, n - HEADER_SIZE);
    WholeFramesFit(ms, n - HEADER_SIZE);
    var whole := HEADER_SIZE + |Frames(ms[..k])|;
    var m := Other(FileOf(source, ms)[whole]);
    OtherRow(FileOf(source, ms)[whole]);
    var rest := CutFile(source, ms, n, k, [m]);
    ReadsWhole(source, ms[..k], rest);
    if ReadFrames(rest) != [] {
      FirstByte(rest);
    }
    SamePrefix(RowsOf(ms[..k]), ReadFrames(rest), RowsOf([m]));
  }

  lemma {:induction false} SamePrefix(a: seq<Row>, b: seq<Row>, c: seq<Row>)
    requires c != [] && (b == [] || b[0] != c[0])
    ensures a + b != a + c
  {
    assert (a + c)[|a|] == c[0];
    if b != [] {
      assert (a + b)[|a|] == b[0];
    }
  }

  /** A recording that is cut off at byte n can be continued without loss, whatever comes next, if and only if the cut
      left nothing, or fell on the boundary of a frame behind the file header. */
  lemma {:induction false} ContinuesIff(source: byte, ms: seq<Message>, n: nat)
    requires AllTyped(ms) && n <= |FileOf(source, ms)|
    ensures Continues(source, ms, n) <==> n == 0 || n == HEADER_SIZE + |Frames(Whole(ms, n))|
  {
    if n < HEADER_SIZE {
      assert AllTyped([]) && RowsOf([]) == [];
      forall more | AllTyped(more)
        ensures ReadFile(SessionFile(FileOf(source, ms)[..n], source, more), source) == Some(RowsOf(more)) <==> n == 0
        ensures RowsOf([]) + RowsOf(more) == RowsOf(more)
      {
        CutHeaderLosesIff(source, ms, n, more);
      }
      hide ReadFile, SessionFile, FileOf, AllTyped, RowsOf;
    } else if n == HEADER_SIZE + |Frames(Whole(ms, n))| {
      hide ReadFile, SessionFile, FileOf, AllTyped, RowsOf, Frames, WholeFrames;
      WholeFramesFit(ms, n - HEADER_SIZE);
      forall more | AllTyped(more)
        ensures ReadFile(SessionFile(FileOf(source, ms)[..n], source, more), source)
             == Some(RowsOf(Whole(ms, n)) + RowsOf(more))
      {
        AppendAtBoundary(source, ms, WholeFrames(ms, n - HEADER_SIZE), more);
      }
    } else {
      hide Continues, FileOf, Frames, WholeFrames;
      LeftOverLoses(source, ms, n);
    }
  }
}
