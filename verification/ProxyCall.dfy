/**
 The calldata that wraps one inner contract call for the proxy wallet, and the message whose hash authorizes it.
 The decoder follows the offsets as "Formal Specification of the Encoding" in the Solidity Contract ABI
 Specification lays them out for `proxy((uint8,address,uint256,bytes)[])`.
 */
module ProxyCall {
  import opened Bytes
  import opened Common
  import opened Rlp

  datatype Call = Call(typeCode: nat, to: seq<byte>, value: nat, data: seq<byte>)

  // ---------------------------------------------------------------------------
  // Encoding
  // ---------------------------------------------------------------------------

  function PaddedLength(n: nat): (r: nat)
    ensures n <= r < n + 32 && r % 32 == 0
  {
    ((n + 31) / 32) * 32
  }

  /** The eight words before the inner bytes. */
  function HeadWords(target: seq<byte>, len: nat): seq<seq<byte>> {
    [Fixed(32, 32), Fixed(1, 32), Fixed(32, 32), Fixed(1, 32),
     Zeros(12) + target, Fixed(0, 32), Fixed(128, 32), Fixed(len, 32)]
  }

  function Flatten(words: seq<seq<byte>>): seq<byte> {
    if words == [] then [] else Flatten(words[..|words| - 1]) + words[|words| - 1]
  }

  function Head(target: seq<byte>, len: nat): seq<byte> {
    Flatten(HeadWords(target, len))
  }

  function Calldata(selector: seq<byte>, target: seq<byte>, inner: seq<byte>): seq<byte> {
    selector + (Head(target, |inner|) + (inner + Zeros(PaddedLength(|inner|) - |inner|)))
  }

  /** A 64-bit value as 32 bytes: the last eight are written, the rest stay zero. */
  method Uint64ToUint256(val: nat) returns (bytes: seq<byte>)
    requires val < TWO_64
    ensures bytes == Fixed(val, 32)
  {
    var out := new byte[32](_ => 0);
    var i: nat, v: nat := 0, val;
    while i < 8
      invariant 0 <= i <= 8
      invariant forall k :: 0 <= k < 32 - i ==> out[k] == 0
      invariant Fixed(v, 32 - i) + out[32 - i..] == Fixed(val, 32)
      invariant v * Pow256(i) <= val
    {
      ghost var tail := out[32 - i..];
      out[31 - i] := v % 256;
      assert out[31 - i..] == [v % 256] + tail;
      assert Fixed(v, 32 - i) == Fixed(v / 256, 31 - i) + [v % 256];
      ShiftDown(v, i);
      v := v / 256;
      i := i + 1;
    }
    Pow256Eight();
    assert v * TWO_64 < TWO_64;
    assert v == 0;
    FixedZero(24);
    bytes := out[..];
    assert bytes == Zeros(24) + out[24..];
  }

  lemma {:induction false} ShiftDown(v: nat, i: nat)
    ensures v / 256 * Pow256(i + 1) <= v * Pow256(i)
  {
    var p := Pow256(i);
    assert v / 256 * 256 <= v;
    assert v / 256 * (256 * p) == (v / 256 * 256) * p;
  }

  lemma {:induction false} FixedZero(n: nat)
    ensures Fixed(0, n) == Zeros(n)
  {
    if n > 0 {
      FixedZero(n - 1);
    }
  }

  ghost predicate Words(ws: seq<seq<byte>>) {
    forall i :: 0 <= i < |ws| ==> |ws[i]| == 32
  }

  /** The buffer after the selector and the first `i` words. */
  ghost function UpTo(selector: seq<byte>, ws: seq<seq<byte>>, i: nat): seq<byte>
    requires i <= |ws|
  {
    selector + Flatten(ws[..i])
  }

  method AppendUint256(out: seq<byte>, val: nat, ghost selector: seq<byte>, ghost ws: seq<seq<byte>>,
      ghost i: nat) returns (r: seq<byte>)
    requires val < TWO_64 && i < |ws| && ws[i] == Fixed(val, 32) && out == UpTo(selector, ws, i)
    ensures r == UpTo(selector, ws, i + 1)
  {
    var word := Uint64ToUint256(val);
    assert ws[..i + 1][..i] == ws[..i];
    r := out + word;
  }

  method AppendAddress(out: seq<byte>, addr: seq<byte>, ghost selector: seq<byte>, ghost ws: seq<seq<byte>>,
      ghost i: nat) returns (r: seq<byte>)
    requires i < |ws| && ws[i] == Zeros(12) + addr && out == UpTo(selector, ws, i)
    ensures r == UpTo(selector, ws, i + 1)
  {
    assert ws[..i + 1][..i] == ws[..i];
    r := out + (Zeros(12) + addr);
  }

  lemma {:induction false} HeadWordAt(target: seq<byte>, len: nat)
    ensures var ws := HeadWords(target, len);
            && |ws| == 8 && ws[0] == Fixed(32, 32) && ws[1] == Fixed(1, 32) && ws[2] == Fixed(32, 32)
                && ws[3] == Fixed(1, 32)
            && ws[4] == Zeros(12) + target && ws[5] == Fixed(0, 32) && ws[6] == Fixed(128, 32)
                && ws[7] == Fixed(len, 32)
            && ws[..8] == ws
  {
  }

  method EncodeProxyCallData(selector: seq<byte>, target: seq<byte>, inner: seq<byte>) returns (out: seq<byte>)
    requires |selector| == 4 && |target| == 20 && Sized(inner)
    ensures out == Calldata(selector, target, inner)
  {
    ghost var ws := HeadWords(target, |inner|);
    HeadWordAt(target, |inner|);
    assert selector == UpTo(selector, ws, 0);
    hide HeadWords, UpTo, Flatten, Fixed;
    out := selector;
    out := AppendUint256(out, 32, selector, ws, 0);
    out := AppendUint256(out, 1, selector, ws, 1);
    out := AppendUint256(out, 32, selector, ws, 2);
    out := AppendUint256(out, 1, selector, ws, 3);
    out := AppendAddress(out, target, selector, ws, 4);
    out := AppendUint256(out, 0, selector, ws, 5);
    out := AppendUint256(out, 128, selector, ws, 6);
    out := AppendUint256(out, |inner|, selector, ws, 7);
    out := Finish(out, selector, target, inner);
  }

  /** The inner bytes and their padding. */
  method Finish(out0: seq<byte>, ghost selector: seq<byte>, ghost target: seq<byte>,
      inner: seq<byte>) returns (out: seq<byte>)
    requires out0 == UpTo(selector, HeadWords(target, |inner|), 8)
    ensures out == Calldata(selector, target, inner)
  {
    UpToAll(selector, target, |inner|);
    hide UpTo, HeadWords, Head, PaddedLength;
    var pad := PaddedLength(|inner|) - |inner|;
    out := out0 + inner;
    if pad > 0 {
      out := out + Zeros(pad);
    }
    Regroup(selector, Head(target, |inner|), inner, Zeros(pad));
  }

  lemma {:induction false} UpToAll(selector: seq<byte>, target: seq<byte>, len: nat)
    ensures |HeadWords(target, len)| == 8 && UpTo(selector, HeadWords(target, len), 8) == selector + Head(target, len)
  {
    HeadWordAt(target, len);
  }

  lemma {:induction false} Regroup(a: seq<byte>, b: seq<byte>, c: seq<byte>, d: seq<byte>)
    ensures a + (b + (c + d)) == a + b + c + d
    ensures d == [] ==> a + (b + (c + d)) == a + b + c
  {
  }

  // ---------------------------------------------------------------------------
  // Decoding
  // ---------------------------------------------------------------------------

  function Word(bs: seq<byte>, at: nat): Option<nat> {
    if at + 32 <= |bs| then Some(Value(bs[at..at + 32])) else None
  }

  function Slice(bs: seq<byte>, at: nat, len: nat): Option<seq<byte>> {
    if at + len <= |bs| then Some(bs[at..at + len]) else None
  }

  /** The single element of an array of calls whose elements start at `base`. */
  function DecodeElement(args: seq<byte>, base: nat): Option<Call> {
    var off := Word(args, base);
    if off.None? then None
    else
      var t := base + off.value;
      var kind, high, to := Word(args, t), Slice(args, t + 32, 12), Slice(args, t + 44, 20);
      var value, dataOff := Word(args, t + 64), Word(args, t + 96);
      if kind.None? || to.None? || high != Some(Zeros(12)) || value.None? || dataOff.None? then None
      else
        var d := t + dataOff.value;
        var len := Word(args, d);
        if len.None? then None
        else
          var data := Slice(args, d + 32, len.value);
          if data.None? then None else Some(Call(kind.value, to.value, value.value, data.value))
  }

  /** Follows the array offset, checks that the array has one element, and reads it. */
  function DecodeCalls(calldata: seq<byte>): Option<Call> {
    if |calldata| < 4 then None
    else
      var args := calldata[4..];
      var arr := Word(args, 0);
      if arr.None? || Word(args, arr.value) != Some(1) then None
      else DecodeElement(args, arr.value + 32)
  }

  lemma {:induction false} FlattenAt(ws: seq<seq<byte>>, i: nat, rest: seq<byte>)
    requires Words(ws) && i < |ws|
    ensures |Flatten(ws)| == 32 * |ws|
    ensures (Flatten(ws) + rest)[32 * i..32 * i + 32] == ws[i]
  {
    var front, last := ws[..|ws| - 1], ws[|ws| - 1];
    FlattenLength(front);
    if i < |front| {
      FlattenAt(front, i, last + rest);
      assert Flatten(ws) + rest == Flatten(front) + (last + rest);
    } else {
      assert (Flatten(front) + last + rest)[32 * i..32 * i + 32] == last;
    }
  }

  lemma {:induction false} FlattenLength(ws: seq<seq<byte>>)
    requires Words(ws)
    ensures |Flatten(ws)| == 32 * |ws|
  {
    if ws != [] {
      FlattenLength(ws[..|ws| - 1]);
    }
  }

  /** The value read from word `i` of the arguments. */
  lemma {:induction false} WordAt(target: seq<byte>, inner: seq<byte>, rest: seq<byte>, i: nat, val: nat)
    requires |target| == 20 && i < 8 && val < TWO_64 && HeadWords(target, |inner|)[i] == Fixed(val, 32)
    ensures Word(Head(target, |inner|) + rest, 32 * i) == Some(val)
  {
    FlattenAt(HeadWords(target, |inner|), i, rest);
    WordValue(val);
  }

  /** Following the offsets of the calldata recovers the call: type 1, the target, no value, and exactly the inner
      bytes. */
  lemma {:induction false} CalldataDecodes(selector: seq<byte>, target: seq<byte>, inner: seq<byte>)
    requires |selector| == 4 && |target| == 20 && Sized(inner)
    ensures DecodeCalls(Calldata(selector, target, inner)) == Some(Call(1, target, 0, inner))
  {
    var rest := inner + Zeros(PaddedLength(|inner|) - |inner|);
    var args := Head(target, |inner|) + rest;
    assert Calldata(selector, target, inner)[4..] == args;
    HeadLength(target, |inner|);
    AddressAt(target, |inner|, rest);
    HeadWordAt(target, |inner|);
    hide Head, HeadWords, Word, Calldata, Value, Fixed, Zeros, PaddedLength;
    WordAt(target, inner, rest, 0, 32);
    WordAt(target, inner, rest, 1, 1);
    WordAt(target, inner, rest, 2, 32);
    WordAt(target, inner, rest, 3, 1);
    WordAt(target, inner, rest, 5, 0);
    WordAt(target, inner, rest, 6, 128);
    WordAt(target, inner, rest, 7, |inner|);
    assert args[256..256 + |inner|] == inner;
  }

  lemma {:induction false} AddressAt(target: seq<byte>, len: nat, rest: seq<byte>)
    requires |target| == 20
    ensures var args := Head(target, len) + rest;
            |args| >= 256 && args[128..140] == Zeros(12) && args[140..160] == target
  {
    HeadLength(target, len);
    HeadWordAt(target, len);
    FlattenAt(HeadWords(target, len), 4, rest);
    hide Flatten, HeadWords, Fixed;
    var args := Head(target, len) + rest;
    assert args[128..160] == Zeros(12) + target;
    assert args[128..140] == args[128..160][..12] && args[140..160] == args[128..160][12..];
  }

  /** The calldata is the selector and whole words, and the padding is zero. */
  lemma {:induction false} CalldataShape(selector: seq<byte>, target: seq<byte>, inner: seq<byte>)
    requires |selector| == 4 && |target| == 20
    ensures var cd := Calldata(selector, target, inner);
            && |cd| == 260 + PaddedLength(|inner|) && (|cd| - 4) % 32 == 0 && 0 <= PaddedLength(|inner|) - |inner| < 32
            && cd[..4] == selector
            && forall k :: 260 + |inner| <= k < |cd| ==> cd[k] == 0
  {
    HeadLength(target, |inner|);
    WholeWords(|inner|);
    var pad := PaddedLength(|inner|) - |inner|;
    hide Head, PaddedLength, Zeros;
    var head := selector + Head(target, |inner|) + inner;
    Regroup(selector, Head(target, |inner|), inner, Zeros(pad));
    assert Calldata(selector, target, inner) == head + Zeros(pad);
    hide Calldata;
    ZeroTail(head, pad);
    assert head[..4] == selector;
  }

  lemma {:induction false} HeadLength(target: seq<byte>, len: nat)
    requires |target| == 20
    ensures |Head(target, len)| == 256
  {
    FlattenLength(HeadWords(target, len));
  }

  lemma {:induction false} WholeWords(len: nat)
    ensures 0 <= PaddedLength(len) - len < 32 && (256 + PaddedLength(len)) % 32 == 0
  {
  }

  lemma {:induction false} ZeroTail(s: seq<byte>, n: nat)
    ensures |Zeros(n)| == n && forall k :: |s| <= k < |s + Zeros(n)| ==> (s + Zeros(n))[k] == 0
  {
  }

  // ---------------------------------------------------------------------------
  // The authorizing message
  // ---------------------------------------------------------------------------

  datatype ProxyTx = ProxyTx(
    from: seq<byte>, to: seq<byte>, data: seq<byte>, fee: nat, gasPrice: nat, gasLimit: nat, nonce: nat,
    relayHub: seq<byte>, relay: seq<byte>)

  ghost predicate TypedTx(t: ProxyTx) {
    && |t.from| == 20 && |t.to| == 20 && |t.relayHub| == 20 && |t.relay| == 20
    && t.fee < TWO_64 && t.gasPrice < TWO_64 && t.gasLimit < TWO_64 && t.nonce < TWO_64
  }

  /** "rlx:" */
  const TAG: seq<byte> := [0x72, 0x6c, 0x78, 0x3a]

  /** The fixed-length fields after the data. */
  function Tail(t: ProxyTx): seq<byte> {
    Fixed(t.fee, 32) + Fixed(t.gasPrice, 32) + Fixed(t.gasLimit, 32) + Fixed(t.nonce, 32) + t.relayHub + t.relay
  }

  /** The bytes that are hashed: one field of variable length between fields of fixed length. */
  function Preimage(t: ProxyTx): seq<byte> {
    TAG + t.from + t.to + t.data + Tail(t)
  }

  function DecodePreimage(m: seq<byte>): Option<ProxyTx> {
    var n := |m|;
    if n < 212 || m[..4] != TAG then None
    else
      var tail := m[n - 168..];
      Some(ProxyTx(m[4..24], m[24..44], m[44..n - 168],
                   Value(tail[..32]), Value(tail[32..64]), Value(tail[64..96]), Value(tail[96..128]),
                   tail[128..148], tail[148..]))
  }

  lemma {:induction false} TailParts(t: ProxyTx)
    requires TypedTx(t)
    ensures var tail := Tail(t);
            && |tail| == 168 && tail[..32] == Fixed(t.fee, 32) && tail[32..64] == Fixed(t.gasPrice, 32)
            && tail[64..96] == Fixed(t.gasLimit, 32) && tail[96..128] == Fixed(t.nonce, 32)
            && tail[128..148] == t.relayHub && tail[148..] == t.relay
  {
    hide Fixed;
  }

  lemma {:induction false} WordValue(n: nat)
    requires n < TWO_64
    ensures Value(Fixed(n, 32)) == n
  {
    Pow256Eight();
    Pow256Monotone(8, 32);
    FixedValue(n, 32);
  }

  /** Every field can be read back from the message, so no two transactions share one. */
  lemma {:induction false} PreimageDecodes(t: ProxyTx)
    requires TypedTx(t)
    ensures DecodePreimage(Preimage(t)) == Some(t)
  {
    TailParts(t);
    WordValue(t.fee);
    WordValue(t.gasPrice);
    WordValue(t.gasLimit);
    WordValue(t.nonce);
    hide Tail, Fixed, Value;
    var m, n := Preimage(t), |Preimage(t)|;
    assert m[..4] == TAG && m[4..24] == t.from && m[24..44] == t.to;
    assert m[44..n - 168] == t.data && m[n - 168..] == Tail(t);
    hide Preimage;
  }
}
