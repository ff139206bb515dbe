/** Byte strings as big-endian numbers. */
module Bytes {

  type byte = b: int | 0 <= b < 256

  const TWO_64: int := 0x1_0000_0000_0000_0000

  /** The number a byte string denotes, most significant byte first. */
  function Value(bs: seq<byte>): nat {
    if bs == [] then 0 else Value(bs[..|bs| - 1]) * 256 + bs[|bs| - 1]
  }

  function Pow256(n: nat): nat {
    if n == 0 then 1 else 256 * Pow256(n - 1)
  }

  /** The shortest byte string for a number: no leading zero, and nothing at all for zero. */
  function Minimal(n: nat): (bs: seq<byte>)
    ensures Value(bs) == n
    ensures bs != [] ==> bs[0] != 0
  {
    if n == 0 then []
    else
      var front := Minimal(n / 256);
      var bs := front + [n % 256];
      assert bs[..|bs| - 1] == front;
      bs
  }

  /** The `width` low bytes of a number. */
  function Fixed(n: nat, width: nat): (bs: seq<byte>)
    ensures |bs| == width
  {
    if width == 0 then [] else Fixed(n / 256, width - 1) + [n % 256]
  }

  function Zeros(n: nat): seq<byte> {
    seq(n, _ => 0)
  }

  lemma {:induction false} ValueBound(bs: seq<byte>)
    ensures Value(bs) < Pow256(|bs|)
  {
    if bs != [] {
      ValueBound(bs[..|bs| - 1]);
    }
  }

  lemma {:induction false} Shift(x: nat, n: nat)
    ensures x * Pow256(n + 1) == x * Pow256(n) * 256
  {
    var p := Pow256(n);
    assert x * (256 * p) == x * p * 256;
  }

  lemma {:induction false} ValueAppend(xs: seq<byte>, ys: seq<byte>)
    ensures Value(xs + ys) == Value(xs) * Pow256(|ys|) + Value(ys)
  {
    if ys == [] {
      assert xs + ys == xs;
    } else {
      var front := ys[..|ys| - 1];
      assert (xs + ys)[..|xs + ys| - 1] == xs + front;
      ValueAppend(xs, front);
      Shift(Value(xs), |front|);
    }
  }

  lemma {:induction false} ValueZeros(n: nat)
    ensures Value(Zeros(n)) == 0
  {
    if n > 0 {
      assert Zeros(n)[..n - 1] == Zeros(n - 1);
      ValueZeros(n - 1);
    }
  }

  /** Leading zeros do not count. */
  lemma {:induction false} ValueStripped(n: nat, bs: seq<byte>)
    ensures Value(Zeros(n) + bs) == Value(bs)
  {
    ValueAppend(Zeros(n), bs);
    ValueZeros(n);
  }

  lemma {:induction false} FixedValue(n: nat, width: nat)
    requires n < Pow256(width)
    ensures Value(Fixed(n, width)) == n
  {
    if width > 0 {
      var front := Fixed(n / 256, width - 1);
      FixedValue(n / 256, width - 1);
      assert Fixed(n, width)[..width - 1] == front;
    }
  }

  /** A byte string without a leading zero is the shortest one for its number. */
  lemma {:induction false} MinimalUnique(bs: seq<byte>)
    requires bs != [] ==> bs[0] != 0
    ensures Minimal(Value(bs)) == bs
  {
    if bs != [] {
      var front, last := bs[..|bs| - 1], bs[|bs| - 1];
      MinimalUnique(front);
      LeadingNonZero(bs);
      assert Value(bs) == Value(front) * 256 + last;
      assert Value(bs) / 256 == Value(front) && Value(bs) % 256 == last;
      assert bs == front + [last];
    }
  }

  lemma {:induction false} LeadingNonZero(bs: seq<byte>)
    requires bs != [] && bs[0] != 0
    ensures Value(bs) >= Pow256(|bs| - 1)
  {
    if |bs| > 1 {
      LeadingNonZero(bs[..|bs| - 1]);
    }
  }

  lemma {:induction false} Pow256Monotone(m: nat, n: nat)
    requires m <= n
    ensures Pow256(m) <= Pow256(n)
  {
    if m < n {
      Pow256Monotone(m, n - 1);
    }
  }

  lemma {:induction false} Pow256Eight()
    ensures Pow256(8) == TWO_64
  {
    assert Pow256(4) == 0x1_0000_0000;
    assert Pow256(8) == 256 * (256 * (256 * (256 * Pow256(4))));
  }

  /** A 64-bit length takes at most eight bytes. */
  lemma {:induction false} MinimalLength(n: nat)
    requires n < TWO_64
    ensures |Minimal(n)| <= 8
  {
    if |Minimal(n)| > 8 {
      LeadingNonZero(Minimal(n));
      Pow256Monotone(8, |Minimal(n)| - 1);
      Pow256Eight();
    }
  }
}
