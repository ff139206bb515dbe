/**
 Recursive Length Prefix coding: the encoder the transaction builder uses, and a strict decoder written from
 Appendix B of the Ethereum Yellow Paper.  Each is the inverse of the other.
 */
module Rlp {
  import opened Bytes
  import opened Common

  /** A coded item: a byte string, or a list given by the concatenated codes of its elements. */
  datatype Item = Text(bytes: seq<byte>) | List(payload: seq<byte>)

  datatype Decoded = Decoded(item: Item, rest: seq<byte>)

  // ---------------------------------------------------------------------------
  // Encoding
  // ---------------------------------------------------------------------------

  predicate Sized(bs: seq<byte>) {
    |bs| < TWO_64
  }

  /** The prefix of a string (`base` 0x80) or list (`base` 0xc0) of the given length. */
  function Prefix(base: int, len: nat): seq<byte>
    requires (base == 0x80 || base == 0xc0) && len < TWO_64
  {
    MinimalLength(len);
    if len <= 55 then [base + len] else [base + 55 + |Minimal(len)|] + Minimal(len)
  }

  function Encode(item: Item): seq<byte>
    requires item.Text? ==> Sized(item.bytes)
    requires item.List? ==> Sized(item.payload)
  {
    match item
    case Text(bs) => if |bs| == 1 && bs[0] < 0x80 then bs else Prefix(0x80, |bs|) + bs
    case List(payload) => Prefix(0xc0, |payload|) + payload
  }

  function EncodeText(bs: seq<byte>): seq<byte>
    requires Sized(bs)
  {
    Encode(Text(bs))
  }

  /** Integers are coded as their shortest big-endian byte string. */
  function EncodeUint(n: nat): seq<byte>
    requires |Minimal(n)| < TWO_64
  {
    EncodeText(Minimal(n))
  }

  // ---------------------------------------------------------------------------
  // Decoding
  // ---------------------------------------------------------------------------

  datatype Length = Length(len: nat, header: nat)

  /** Reads the length of a string (`base` 0x80) or list (`base` 0xc0) whose first byte is at least `base`: a short
      length in the first byte, or a length of more than 55 in the bytes after it, without leading zero. */
  function ReadLength(base: int, bs: seq<byte>): Option<Length>
    requires bs != [] && (base == 0x80 || base == 0xc0) && base <= bs[0]
  {
    if bs[0] <= base + 55 then Some(Length(bs[0] - base, 1))
    else
      var n := bs[0] - base - 55;
      if |bs| < 1 + n || bs[1] == 0 || Value(bs[1..1 + n]) <= 55 then None
      else Some(Length(Value(bs[1..1 + n]), 1 + n))
  }

  /** Splits `len` bytes after the header off the input. */
  function TakeBody(bs: seq<byte>, l: Length): Option<(seq<byte>, seq<byte>)> {
    if |bs| < l.header + l.len then None
    else Some((bs[l.header..l.header + l.len], bs[l.header + l.len..]))
  }

  /** The first item of the input and what follows it; nothing when the input is not the code of an item. */
  function Decode(bs: seq<byte>): Option<Decoded> {
    if bs == [] then None
    else if bs[0] < 0x80 then Some(Decoded(Text(bs[..1]), bs[1..]))
    else if bs[0] < 0xc0 then
      match ReadLength(0x80, bs)
      case None => None
      case Some(l) =>
        (match TakeBody(bs, l)
         case None => None
         case Some((body, rest)) =>
           if |body| == 1 && body[0] < 0x80 then None else Some(Decoded(Text(body), rest)))
    else
      match ReadLength(0xc0, bs)
      case None => None
      case Some(l) =>
        (match TakeBody(bs, l)
         case None => None
         case Some((body, rest)) => Some(Decoded(List(body), rest)))
  }

  // ---------------------------------------------------------------------------
  // The two are inverse
  // ---------------------------------------------------------------------------

  lemma {:induction false} ReadPrefix(base: int, body: seq<byte>, rest: seq<byte>)
    requires (base == 0x80 || base == 0xc0) && Sized(body)
    ensures var bs := Prefix(base, |body|) + body + rest;
            && |bs| > 0 && base <= bs[0] < base + 0x40
            && ReadLength(base, bs) == Some(Length(|body|, |Prefix(base, |body|)|))
            && TakeBody(bs, Length(|body|, |Prefix(base, |body|)|)) == Some((body, rest))
  {
    var prefix := Prefix(base, |body|);
    var bs := prefix + body + rest;
    var h, len := |prefix|, |body|;
    assert bs[h..h + len] == body && bs[h + len..] == rest;
    if len > 55 {
      var m := Minimal(len);
      MinimalLength(len);
      assert m != [];
      assert bs[0] == base + 55 + |m| && bs[1..1 + |m|] == m && bs[1] == m[0];
    }
  }

  /** Decoding recovers every encoded item and leaves the bytes after it untouched. */
  lemma {:induction false} DecodeEncode(item: Item, rest: seq<byte>)
    requires item.Text? ==> Sized(item.bytes)
    requires item.List? ==> Sized(item.payload)
    ensures Decode(Encode(item) + rest) == Some(Decoded(item, rest))
  {
    match item
    case Text(bs) =>
      if |bs| == 1 && bs[0] < 0x80 {
        assert (bs + rest)[..1] == bs && (bs + rest)[1..] == rest;
      } else {
        ReadPrefix(0x80, bs, rest);
      }
    case List(payload) =>
      ReadPrefix(0xc0, payload, rest);
  }

  lemma {:induction false} PrefixRead(base: int, bs: seq<byte>)
    requires bs != [] && (base == 0x80 || base == 0xc0) && base <= bs[0] < base + 0x40
    requires ReadLength(base, bs).Some? && ReadLength(base, bs).value.len < TWO_64
    ensures var l := ReadLength(base, bs).value;
            l.header <= |bs| && bs[..l.header] == Prefix(base, l.len)
  {
    if bs[0] > base + 55 {
      var n := bs[0] - base - 55;
      MinimalUnique(bs[1..1 + n]);
      assert bs[..1 + n] == [bs[0]] + bs[1..1 + n];
    }
  }

  /** Three consecutive parts make up the whole. */
  lemma {:induction false} Parts(bs: seq<byte>, i: nat, j: nat)
    requires i <= j <= |bs|
    ensures bs == bs[..i] + bs[i..j] + bs[j..]
  {
  }

  /** A body read with its prefix is what the prefix and the body make. */
  lemma {:induction false} Rebuild(base: int, bs: seq<byte>, body: seq<byte>, rest: seq<byte>)
    requires bs != [] && Sized(bs) && (base == 0x80 || base == 0xc0) && base <= bs[0] < base + 0x40
    requires ReadLength(base, bs).Some? && TakeBody(bs, ReadLength(base, bs).value) == Some((body, rest))
    ensures Sized(body) && bs == Prefix(base, |body|) + body + rest
  {
    var l := ReadLength(base, bs).value;
    hide ReadLength, Prefix;
    assert body == bs[l.header..l.header + l.len] && rest == bs[l.header + l.len..];
    PrefixRead(base, bs);
    Parts(bs, l.header, l.header + l.len);
  }

  /** Whatever the decoder accepts is the code of the item it returns, so no item has two codes. */
  lemma {:induction false} EncodeDecode(bs: seq<byte>)
    requires Decode(bs).Some? && Sized(bs)
    ensures var d := Decode(bs).value;
            && (d.item.Text? ==> Sized(d.item.bytes)) && (d.item.List? ==> Sized(d.item.payload))
            && bs == Encode(d.item) + d.rest
  {
    var d := Decode(bs).value;
    if bs[0] >= 0x80 {
      var base := if bs[0] < 0xc0 then 0x80 else 0xc0;
      var body := if d.item.Text? then d.item.bytes else d.item.payload;
      Rebuild(base, bs, body, d.rest);
      hide Decode, ReadLength, TakeBody, Prefix;
    }
  }

  // ---------------------------------------------------------------------------
  // Sequences of strings
  // ---------------------------------------------------------------------------

  function EncodeTexts(texts: seq<seq<byte>>): seq<byte>
    requires forall i :: 0 <= i < |texts| ==> Sized(texts[i])
  {
    if texts == [] then [] else EncodeTexts(texts[..|texts| - 1]) + EncodeText(texts[|texts| - 1])
  }

  lemma {:induction false} NoTexts()
    ensures EncodeTexts([]) == []
  {
  }

  lemma {:induction false} EncodeTextsLast(texts: seq<seq<byte>>)
    requires texts != [] && forall i :: 0 <= i < |texts| ==> Sized(texts[i])
    ensures EncodeTexts(texts) == EncodeTexts(texts[..|texts| - 1]) + EncodeText(texts[|texts| - 1])
  {
    hide EncodeText;
  }

  lemma {:induction false} EncodeTextsFront(texts: seq<seq<byte>>)
    requires texts != [] && forall i :: 0 <= i < |texts| ==> Sized(texts[i])
    ensures EncodeTexts(texts) == EncodeText(texts[0]) + EncodeTexts(texts[1..])
  {
    hide EncodeTexts, EncodeText, Sized;
    var n, rest := |texts| - 1, texts[1..];
    EncodeTextsLast(texts);
    if n == 0 {
      assert texts[..0] == [] && rest == [];
      NoTexts();
    } else {
      EncodeTextsFront(texts[..n]);
      EncodeTextsLast(rest);
      assert texts[..n][1..] == rest[..n - 1] && rest[n - 1] == texts[n];
    }
  }

  /** All strings a payload consists of. */
  function DecodeTexts(bs: seq<byte>): Option<seq<seq<byte>>>
    decreases |bs|
  {
    if bs == [] then Some([])
    else
      match Decode(bs)
      case None => None
      case Some(d) =>
        if d.item.List? || |d.rest| >= |bs| then None
        else
          (match DecodeTexts(d.rest)
           case None => None
           case Some(more) => Some([d.item.bytes] + more))
  }

  lemma {:induction false} DecodeTextsEncode(texts: seq<seq<byte>>)
    requires forall i :: 0 <= i < |texts| ==> Sized(texts[i])
    ensures DecodeTexts(EncodeTexts(texts)) == Some(texts)
  {
    if texts != [] {
      EncodeTextsFront(texts);
      DecodeEncode(Text(texts[0]), EncodeTexts(texts[1..]));
      DecodeTextsEncode(texts[1..]);
      assert [texts[0]] + texts[1..] == texts;
    }
  }
}
