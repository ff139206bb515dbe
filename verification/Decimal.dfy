/** Decimal text of natural numbers. */
module Decimal {

  predicate IsDigit(c: char) {
    '0' <= c <= '9'
  }

  predicate AllDigits(s: string) {
    forall i :: 0 <= i < |s| ==> IsDigit(s[i])
  }

  function DigitOf(c: char): (d: int)
    requires IsDigit(c)
    ensures 0 <= d <= 9
  {
    c as int - '0' as int
  }

  function CharOf(d: int): (c: char)
    requires 0 <= d <= 9
    ensures IsDigit(c) && DigitOf(c) == d
  {
    ('0' as int + d) as char
  }

  /** The number a digit string denotes. */
  function Number(s: string): nat
    requires AllDigits(s)
  {
    if s == [] then 0 else Number(s[..|s| - 1]) * 10 + DigitOf(s[|s| - 1])
  }

  function Pow10(n: nat): (p: nat)
    ensures p >= 1
  {
    if n == 0 then 1 else 10 * Pow10(n - 1)
  }

  /** The usual decimal text: no leading zero, and "0" for zero. */
  function Print(n: nat): (s: string)
    ensures s != [] && AllDigits(s) && Number(s) == n
  {
    if n < 10 then
      var s := [CharOf(n)];
      assert s[..0] == [];
      s
    else
      var front := Print(n / 10);
      var s := front + [CharOf(n % 10)];
      assert s[..|s| - 1] == front;
      s
  }

  /** The last `width` decimal digits, with leading zeros. */
  function Padded(n: nat, width: nat): (s: string)
    ensures |s| == width && AllDigits(s)
  {
    if width == 0 then [] else Padded(n / 10, width - 1) + [CharOf(n % 10)]
  }

  lemma {:induction false} TenthBelow(n: nat, p: nat)
    requires n < 10 * p
    ensures n / 10 < p
  {
  }

  lemma {:induction false} PaddedNumber(n: nat, width: nat)
    requires n < Pow10(width)
    ensures Number(Padded(n, width)) == n
  {
    if width > 0 {
      TenthBelow(n, Pow10(width - 1));
      hide Pow10;
      PaddedNumber(n / 10, width - 1);
      var p := Padded(n, width);
      assert p[..width - 1] == Padded(n / 10, width - 1);
      hide Padded;
      assert Number(p) == Number(p[..width - 1]) * 10 + n % 10;
    }
  }

  lemma {:induction false} Pow10Step(x: nat, n: nat)
    ensures x * Pow10(n + 1) == x * Pow10(n) * 10
  {
    var p := Pow10(n);
    assert x * (10 * p) == x * p * 10;
  }

  lemma {:induction false} NumberPrefix(s: string, i: nat)
    requires AllDigits(s) && i <= |s|
    ensures Number(s[..i]) <= Number(s)
  {
    if i == |s| {
      assert s[..i] == s;
    } else {
      NumberPrefix(s[..|s| - 1], i);
      assert s[..|s| - 1][..i] == s[..i];
    }
  }

  lemma {:induction false} NumberBound(s: string)
    requires AllDigits(s)
    ensures Number(s) < Pow10(|s|)
  {
    if s != [] {
      NumberBound(s[..|s| - 1]);
    }
  }

  lemma {:induction false} Pow10Add(m: nat, n: nat)
    ensures Pow10(m + n) == Pow10(m) * Pow10(n)
  {
    if n > 0 {
      Pow10Add(m, n - 1);
      var p := Pow10(n - 1);
      assert Pow10(m) * (10 * p) == 10 * (Pow10(m) * p);
    }
  }

  lemma {:induction false} Pow10Monotone(m: nat, n: nat)
    requires m <= n
    ensures Pow10(m) <= Pow10(n)
  {
    if m < n {
      Pow10Monotone(m, n - 1);
    }
  }
}
