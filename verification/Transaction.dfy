/**
 Legacy Ethereum transactions with EIP-155 replay protection: the byte-level encoders, the payload that is
 signed, the signed transaction, and the recovery of every field from them.
 */
module Transaction {
  import opened Bytes
  import opened Common
  import opened Rlp

  // ---------------------------------------------------------------------------
  // The encoders, as they run
  // ---------------------------------------------------------------------------

  method EncodeLengthBytes(out: seq<byte>, len: nat) returns (r: seq<byte>)
    requires len < TWO_64
    ensures r == out + Minimal(len)
  {
    hide Value;
    var buf := new byte[8](_ => 0);
    var n, tmp := 0, len;
    MinimalLength(len);
    while tmp > 0
      invariant 0 <= n <= 8 && n + |Minimal(tmp)| <= 8
      invariant Minimal(tmp) + buf[8 - n..] == Minimal(len)
    {
      ghost var tail := buf[8 - n..];
      MinimalStep(tmp);
      hide Minimal;
      buf[7 - n] := tmp % 256;
      assert buf[8 - n..] == tail;
      assert buf[7 - n..] == [tmp % 256] + tail;
      assert Minimal(tmp / 256) + [tmp % 256] + tail == Minimal(tmp / 256) + ([tmp % 256] + tail);
      tmp := tmp / 256;
      n := n + 1;
    }
    r := out + buf[8 - n..];
  }

  lemma {:induction false} MinimalStep(n: nat)
    requires n > 0
    ensures Minimal(n) == Minimal(n / 256) + [n % 256]
  {
  }

  method CountLengthBytes(len: nat) returns (n: nat)
    ensures n == |Minimal(len)|
  {
    n := 0;
    var tmp := len;
    while tmp > 0
      invariant n + |Minimal(tmp)| == |Minimal(len)|
    {
      tmp := tmp / 256;
      n := n + 1;
    }
  }

  method EncodeString(out: seq<byte>, data: seq<byte>) returns (r: seq<byte>)
    requires Sized(data)
    ensures r == out + EncodeText(data)
  {
    if |data| == 1 && data[0] <= 0x7f {
      r := out + [data[0]];
    } else if |data| <= 55 {
      r := out + [0x80 + |data|] + data;
    } else {
      var lenBytes := CountLengthBytes(|data|);
      MinimalLength(|data|);
      r := out + [0xb7 + lenBytes];
      r := EncodeLengthBytes(r, |data|);
      r := r + data;
    }
  }

  /** The position of the first byte that is not zero. */
  method SkipZeros(buf: seq<byte>) returns (start: nat)
    ensures start <= |buf| && buf[..start] == Zeros(start)
    ensures start < |buf| ==> buf[start] != 0
  {
    start := 0;
    while start < |buf| && buf[start] == 0
      invariant start <= |buf| && buf[..start] == Zeros(start)
    {
      start := start + 1;
    }
  }

  lemma {:induction false} StrippedIsMinimal(buf: seq<byte>, start: nat)
    requires start <= |buf| && buf[..start] == Zeros(start) && (start < |buf| ==> buf[start] != 0)
    ensures buf[start..] == Minimal(Value(buf))
  {
    assert buf == Zeros(start) + buf[start..];
    ValueStripped(start, buf[start..]);
    MinimalUnique(buf[start..]);
  }

  method EncodeUint64(out: seq<byte>, value: nat) returns (r: seq<byte>)
    requires value < TWO_64
    ensures |Minimal(value)| <= 8 && r == out + EncodeUint(value)
  {
    MinimalLength(value);
    if value == 0 {
      return out + [0x80];
    }
    var buf := BigEndian8(value);
    Pow256Eight();
    FixedValue(value, 8);
    var start := SkipZeros(buf);
    StrippedIsMinimal(buf, start);
    r := EncodeString(out, buf[start..]);
  }

  /** The eight bytes of a 64-bit value, most significant first. */
  method BigEndian8(value: nat) returns (bytes: seq<byte>)
    ensures bytes == Fixed(value, 8)
  {
    var buf := new byte[8](_ => 0);
    var i, v := 7, value;
    while i >= 0
      invariant -1 <= i <= 7
      invariant Fixed(v, i + 1) + buf[i + 1..] == Fixed(value, 8)
    {
      ghost var tail := buf[i + 1..];
      buf[i] := v % 256;
      assert buf[i..] == [v % 256] + tail;
      assert Fixed(v, i + 1) == Fixed(v / 256, i) + [v % 256];
      v := v / 256;
      i := i - 1;
    }
    bytes := buf[..];
  }

  method EncodeUint256(out: seq<byte>, value: seq<byte>) returns (r: seq<byte>)
    requires |value| == 32
    ensures Sized(Minimal(Value(value))) && r == out + EncodeUint(Value(value))
  {
    var start := SkipZeros(value);
    StrippedIsMinimal(value, start);
    if start == 32 {
      return out + [0x80];
    }
    r := EncodeString(out, value[start..]);
  }

  method WrapList(out: seq<byte>, items: seq<byte>) returns (r: seq<byte>)
    requires Sized(items)
    ensures r == out + Encode(List(items))
  {
    var prefix := ListPrefix(|items|);
    hide Prefix;
    r := out + prefix + items;
  }

  method ListPrefix(len: nat) returns (prefix: seq<byte>)
    requires len < TWO_64
    ensures prefix == Prefix(0xc0, len)
  {
    if len <= 55 {
      prefix := [0xc0 + len];
    } else {
      var lenBytes := CountLengthBytes(len);
      MinimalLength(len);
      prefix := EncodeLengthBytes([0xf7 + lenBytes], len);
    }
  }

  // ---------------------------------------------------------------------------
  // Transactions
  // ---------------------------------------------------------------------------

  datatype TxParams = TxParams(
    nonce: nat, gasPrice: nat, gasLimit: nat, to: seq<byte>, value: nat, data: seq<byte>, chainId: nat)

  /** The machine types of the parameters. */
  ghost predicate Typed(p: TxParams) {
    && p.nonce < TWO_64 && p.gasPrice < TWO_64 && p.gasLimit < TWO_64 && p.value < TWO_64 && p.chainId < TWO_64
    && |p.to| == 20 && Sized(p.data)
  }

  /** The nine strings of a transaction: six common fields and three more. */
  function Fields(p: TxParams, x: seq<byte>, y: seq<byte>, z: seq<byte>): seq<seq<byte>> {
    [Minimal(p.nonce), Minimal(p.gasPrice), Minimal(p.gasLimit), p.to, Minimal(p.value), p.data, x, y, z]
  }

  lemma {:induction false} FieldAt(p: TxParams, x: seq<byte>, y: seq<byte>, z: seq<byte>)
    ensures var f := Fields(p, x, y, z);
            && |f| == 9 && f[0] == Minimal(p.nonce) && f[1] == Minimal(p.gasPrice) && f[2] == Minimal(p.gasLimit)
            && f[3] == p.to && f[4] == Minimal(p.value) && f[5] == p.data && f[6] == x && f[7] == y && f[8] == z
  {
  }

  lemma {:induction false} FieldsSized(p: TxParams, x: seq<byte>, y: seq<byte>, z: seq<byte>)
    requires Typed(p) && Sized(x) && Sized(y) && Sized(z)
    ensures forall i :: 0 <= i < 9 ==> Sized(Fields(p, x, y, z)[i])
  {
    MinimalLength(p.nonce);
    MinimalLength(p.gasPrice);
    MinimalLength(p.gasLimit);
    MinimalLength(p.value);
  }

  /** The codes of all nine fields. */
  ghost function Payload(p: TxParams, x: seq<byte>, y: seq<byte>, z: seq<byte>): seq<byte>
    requires Typed(p) && Sized(x) && Sized(y) && Sized(z)
  {
    FieldsSized(p, x, y, z);
    EncodeTexts(Fields(p, x, y, z))
  }

  /** The whole list fits in memory. */
  ghost predicate Fits(p: TxParams, x: seq<byte>, y: seq<byte>, z: seq<byte>) {
    Typed(p) && Sized(x) && Sized(y) && Sized(z) && Sized(Payload(p, x, y, z))
  }

  ghost function Listed(p: TxParams, x: seq<byte>, y: seq<byte>, z: seq<byte>): seq<byte>
    requires Fits(p, x, y, z)
  {
    Encode(List(Payload(p, x, y, z)))
  }

  /** The strings of a list that is the whole input. */
  function DecodeList(bs: seq<byte>): Option<seq<seq<byte>>> {
    match Decode(bs)
    case None => None
    case Some(d) => if d.item.Text? || d.rest != [] then None else DecodeTexts(d.item.payload)
  }

  /** Reads a signing payload: nine strings, the seventh the chain id, the last two empty. */
  function DecodeSigning(bs: seq<byte>): Option<TxParams> {
    match DecodeList(bs)
    case None => None
    case Some(f) =>
      if |f| == 9 && f[7] == [] && f[8] == []
      then Some(TxParams(Value(f[0]), Value(f[1]), Value(f[2]), f[3], Value(f[4]), f[5], Value(f[6])))
      else None
  }

  lemma {:induction false} DecodeListed(p: TxParams, x: seq<byte>, y: seq<byte>, z: seq<byte>)
    requires Fits(p, x, y, z)
    ensures DecodeList(Listed(p, x, y, z)) == Some(Fields(p, x, y, z))
  {
    FieldsSized(p, x, y, z);
    var payload := Payload(p, x, y, z);
    DecodeEncode(List(payload), []);
    assert Encode(List(payload)) + [] == Encode(List(payload));
    DecodeTextsEncode(Fields(p, x, y, z));
  }

  /** What EIP-155 signs: the six fields, the chain id, and two empty strings. */
  ghost function SigningPayload(p: TxParams): seq<byte>
    requires Fits(p, Minimal(p.chainId), [], [])
  {
    Listed(p, Minimal(p.chainId), [], [])
  }

  /** Every parameter can be read back from the signing payload. */
  lemma {:induction false} SigningPayloadDecodes(p: TxParams)
    requires Fits(p, Minimal(p.chainId), [], [])
    ensures DecodeSigning(SigningPayload(p)) == Some(p)
  {
    DecodeListed(p, Minimal(p.chainId), [], []);
  }

  /** Two transactions with one signing payload are the same transaction on the same chain. */
  lemma {:induction false} SigningPayloadInjective(p: TxParams, q: TxParams)
    requires Fits(p, Minimal(p.chainId), [], []) && Fits(q, Minimal(q.chainId), [], [])
    requires SigningPayload(p) == SigningPayload(q)
    ensures p == q
  {
    SigningPayloadDecodes(p);
    SigningPayloadDecodes(q);
  }

  /** The `v` of EIP-155 in 64-bit arithmetic, from the last byte of a 65-byte signature. */
  function EipV(chainId: nat, last: byte): nat {
    (chainId * 2 + 35 + (last - 27) % 256) % TWO_64
  }

  /** The chain id and the recovery id are read back from `v` exactly when the sum does not overflow 64 bits. */
  lemma {:induction false} EipVIff(chainId: nat, recid: nat)
    requires chainId < TWO_64 && recid <= 1
    ensures EipV(chainId, 27 + recid) - 35 == 2 * chainId + recid <==> 2 * chainId + 35 + recid < TWO_64
  {
  }

  /** A transaction with the three numbers of its signature. */
  ghost function WithSignature(p: TxParams, v: nat, r: nat, s: nat): seq<byte>
    requires Fits(p, Minimal(v), Minimal(r), Minimal(s))
  {
    Listed(p, Minimal(v), Minimal(r), Minimal(s))
  }

  ghost predicate SignedFits(p: TxParams, sig: seq<byte>) {
    && |sig| == 65
    && Fits(p, Minimal(EipV(p.chainId, sig[64])), Minimal(Value(sig[..32])), Minimal(Value(sig[32..64])))
  }

  /** The signed transaction: `r` and `s` are the two halves of the signature. */
  ghost function SignedTx(p: TxParams, sig: seq<byte>): seq<byte>
    requires SignedFits(p, sig)
  {
    WithSignature(p, EipV(p.chainId, sig[64]), Value(sig[..32]), Value(sig[32..64]))
  }

  datatype Signed = Signed(p: TxParams, v: nat, r: nat, s: nat)

  /** Reads a signed transaction, taking the chain id from `v` as EIP-155 says. */
  function DecodeSigned(bs: seq<byte>): Option<Signed> {
    match DecodeList(bs)
    case None => None
    case Some(f) =>
      if |f| != 9 || Value(f[6]) < 35 then None
      else
        var v := Value(f[6]);
        Some(Signed(TxParams(Value(f[0]), Value(f[1]), Value(f[2]), f[3], Value(f[4]), f[5], (v - 35) / 2),
                    v, Value(f[7]), Value(f[8])))
  }

  lemma {:induction false} DecodesTo(p: TxParams, v: nat, r: nat, s: nat)
    requires Fits(p, Minimal(v), Minimal(r), Minimal(s)) && v >= 35
    ensures DecodeSigned(WithSignature(p, v, r, s))
              == Some(Signed(p.(chainId := (v - 35) / 2), v, r, s))
  {
    DecodeListed(p, Minimal(v), Minimal(r), Minimal(s));
    FieldAt(p, Minimal(v), Minimal(r), Minimal(s));
    hide Fields, DecodeList, Encode, Payload, Typed, Minimal, Value;
  }

  /** The signed transaction carries the same parameters and the signature's two numbers; the chain id survives
      because it is small enough for `v`. */
  lemma {:induction false} SignedTxDecodes(p: TxParams, sig: seq<byte>)
    requires SignedFits(p, sig) && 27 <= sig[64] <= 28 && 2 * p.chainId + 36 < TWO_64
    ensures DecodeSigned(SignedTx(p, sig))
              == Some(Signed(p, 2 * p.chainId + sig[64] + 8, Value(sig[..32]), Value(sig[32..64])))
  {
    var last: int := sig[64];
    EipVIff(p.chainId, last - 27);
    var v, r, s := EipV(p.chainId, sig[64]), Value(sig[..32]), Value(sig[32..64]);
    assert v == 2 * p.chainId + last + 8;
    hide Fits, DecodeSigned, EipV, Value, Minimal, WithSignature;
    DecodesTo(p, v, r, s);
  }

  // ---------------------------------------------------------------------------
  // The builder
  // ---------------------------------------------------------------------------

  ghost predicate AllSized(f: seq<seq<byte>>) {
    forall i :: 0 <= i < |f| ==> Sized(f[i])
  }

  /** The buffer after the codes of the first `i` fields were appended to `out`. */
  ghost function UpTo(out: seq<byte>, f: seq<seq<byte>>, i: nat): seq<byte>
    requires i <= |f| && AllSized(f)
  {
    out + EncodeTexts(f[..i])
  }

  lemma {:induction false} NextField(out: seq<byte>, f: seq<seq<byte>>, i: nat)
    requires i < |f| && AllSized(f)
    ensures UpTo(out, f, i) + EncodeText(f[i]) == UpTo(out, f, i + 1)
  {
    hide Encode;
    assert f[..i + 1][..i] == f[..i];
  }

  method AppendUint64(r0: seq<byte>, n: nat, ghost out: seq<byte>, ghost f: seq<seq<byte>>,
      ghost i: nat) returns (r: seq<byte>)
    requires i < |f| && AllSized(f) && n < TWO_64 && f[i] == Minimal(n) && r0 == UpTo(out, f, i)
    ensures r == UpTo(out, f, i + 1)
  {
    NextField(out, f, i);
    r := EncodeUint64(r0, n);
  }

  method AppendString(r0: seq<byte>, data: seq<byte>, ghost out: seq<byte>, ghost f: seq<seq<byte>>,
      ghost i: nat) returns (r: seq<byte>)
    requires i < |f| && AllSized(f) && f[i] == data && r0 == UpTo(out, f, i)
    ensures r == UpTo(out, f, i + 1)
  {
    NextField(out, f, i);
    r := EncodeString(r0, data);
  }

  method AppendUint256(r0: seq<byte>, value: seq<byte>, ghost out: seq<byte>, ghost f: seq<seq<byte>>,
      ghost i: nat) returns (r: seq<byte>)
    requires i < |f| && AllSized(f) && |value| == 32 && f[i] == Minimal(Value(value)) && r0 == UpTo(out, f, i)
    ensures r == UpTo(out, f, i + 1)
  {
    NextField(out, f, i);
    r := EncodeUint256(r0, value);
  }

  lemma {:induction false} NoFields(items: seq<byte>, p: TxParams, x: seq<byte>, y: seq<byte>, z: seq<byte>)
    requires Typed(p) && Sized(x) && Sized(y) && Sized(z)
    ensures AllSized(Fields(p, x, y, z)) && UpTo(items, Fields(p, x, y, z), 0) == items
  {
    FieldsSized(p, x, y, z);
  }

  method EncodeGas(items: seq<byte>, p: TxParams, ghost f: seq<seq<byte>>) returns (r: seq<byte>)
    requires Typed(p) && |f| == 9 && AllSized(f) && items == UpTo(items, f, 0)
    requires f[0] == Minimal(p.nonce) && f[1] == Minimal(p.gasPrice) && f[2] == Minimal(p.gasLimit)
    ensures r == UpTo(items, f, 3)
  {
    hide UpTo, Minimal, AllSized, Sized;
    r := AppendUint64(items, p.nonce, items, f, 0);
    r := AppendUint64(r, p.gasPrice, items, f, 1);
    r := AppendUint64(r, p.gasLimit, items, f, 2);
  }

  /** The six common fields, in order; the other three only name the list the fields belong to. */
  method EncodeTxFields(items: seq<byte>, p: TxParams, ghost x: seq<byte>, ghost y: seq<byte>, ghost z: seq<byte>)
    returns (r: seq<byte>)
    requires Typed(p) && Sized(x) && Sized(y) && Sized(z)
    ensures AllSized(Fields(p, x, y, z)) && r == UpTo(items, Fields(p, x, y, z), 6)
  {
    ghost var f := Fields(p, x, y, z);
    NoFields(items, p, x, y, z);
    FieldAt(p, x, y, z);
    hide Fields, UpTo, Minimal, AllSized, Sized;
    r := EncodeGas(items, p, f);
    r := AppendString(r, p.to, items, f, 3);
    r := AppendUint64(r, p.value, items, f, 4);
    r := AppendString(r, p.data, items, f, 5);
  }

  /** Builds the signing payload and, when the signer answers with a signature, the signed transaction; nothing when
      signing failed.  Hashing and signing are the environment's: `sig` is its answer for `unsigned`. */
  method BuildSignedTransaction(p: TxParams, sig: Option<seq<byte>>) returns (unsigned: seq<byte>, tx: seq<byte>)
    requires Fits(p, Minimal(p.chainId), [], [])
    requires sig.Some? ==> SignedFits(p, sig.value)
    ensures unsigned == SigningPayload(p)
    ensures tx == if sig.Some? then SignedTx(p, sig.value) else []
  {
    hide Fits, Minimal, Value, WithSignature, SigningPayload;
    unsigned := BuildUnsigned(p);
    if sig.None? {
      return unsigned, [];
    }
    var last: int := sig.value[64];
    var recid := (last - 27) % 256;
    var v := (p.chainId * 2 + 35 + recid) % TWO_64;
    tx := BuildSigned(p, v, sig.value[..32], sig.value[32..64]);
  }

  method BuildUnsigned(p: TxParams) returns (unsigned: seq<byte>)
    requires Fits(p, Minimal(p.chainId), [], [])
    ensures unsigned == SigningPayload(p)
  {
    ghost var x := Minimal(p.chainId);
    ghost var f := Fields(p, x, [], []);
    FieldAt(p, x, [], []);
    assert Minimal(0) == [];
    var items := EncodeTxFields([], p, x, [], []);
    WholeList(p, x, [], []);
    hide Fields, UpTo, Minimal, Encode;
    items := AppendUint64(items, p.chainId, [], f, 6);
    items := AppendUint64(items, 0, [], f, 7);
    items := AppendUint64(items, 0, [], f, 8);
    unsigned := WrapList([], items);
  }

  lemma {:induction false} WholeList(p: TxParams, x: seq<byte>, y: seq<byte>, z: seq<byte>)
    requires Typed(p) && Sized(x) && Sized(y) && Sized(z)
    ensures AllSized(Fields(p, x, y, z)) && UpTo([], Fields(p, x, y, z), 9) == Payload(p, x, y, z)
  {
    FieldsSized(p, x, y, z);
    assert Fields(p, x, y, z)[..9] == Fields(p, x, y, z);
  }

  method BuildSigned(p: TxParams, v: nat, r: seq<byte>, s: seq<byte>) returns (tx: seq<byte>)
    requires |r| == 32 && |s| == 32 && v < TWO_64
    requires Fits(p, Minimal(v), Minimal(Value(r)), Minimal(Value(s)))
    ensures tx == WithSignature(p, v, Value(r), Value(s))
  {
    ghost var x, y, z := Minimal(v), Minimal(Value(r)), Minimal(Value(s));
    ghost var f := Fields(p, x, y, z);
    FieldAt(p, x, y, z);
    hide Fields, UpTo, Minimal, Encode, Value;
    var items := EncodeTxFields([], p, x, y, z);
    WholeList(p, x, y, z);
    items := AppendUint64(items, v, [], f, 6);
    items := AppendUint256(items, r, [], f, 7);
    items := AppendUint256(items, s, [], f, 8);
    tx := WrapList([], items);
  }
}
