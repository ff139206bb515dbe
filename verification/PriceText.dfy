/**
 Fixed-point prices (four decimals) and quantities (six decimals) as decimal text: the parser the feeds use and the
 printer the orders use.
 */
module PriceText {
  import opened Common
  import opened Decimal

  datatype Error = EmptyInput | InvalidFormat | OutOfRange | NegativeValue | QtyOverflow

  /** `Undefined` is a signed overflow, to which the language gives no meaning. */
  datatype Result = Ok(value: int) | Err(error: Error) | Undefined

  const INT32_MAX: int := 0x7fff_ffff
  const PRICE_DIGITS: nat := 4
  const QTY_DIGITS: nat := 6
  const QTY_SCALE: int := 1000000

  // ---------------------------------------------------------------------------
  // Printing
  // ---------------------------------------------------------------------------

  function Trim(s: string): string {
    if s != [] && s[|s| - 1] == '0' then Trim(s[..|s| - 1]) else s
  }

  /** A whole part and a fraction of `digits` decimals, without trailing zeros. */
  function Format(integer: nat, frac: nat, digits: nat): string {
    if frac == 0 then Print(integer) else Trim(Print(integer) + "." + Padded(frac, digits))
  }

  function FormattedQty(qty: nat): string {
    Format(qty / QTY_SCALE, qty % QTY_SCALE, QTY_DIGITS)
  }

  function FormattedPrice(price: nat): string {
    Format(price / PRICE_SCALE, price % PRICE_SCALE, PRICE_DIGITS)
  }

  method TrimLoop(s: string) returns (r: string)
    ensures r == Trim(s)
  {
    var len := |s|;
    assert s[..len] == s;
    while len > 0 && s[len - 1] == '0'
      invariant 0 <= len <= |s| && Trim(s[..len]) == Trim(s)
    {
      assert s[..len][..len - 1] == s[..len - 1];
      len := len - 1;
    }
    r := s[..len];
  }

  method FormatFixed(integer: nat, frac: nat, digits: nat) returns (s: string)
    ensures s == Format(integer, frac, digits)
  {
    if frac == 0 {
      s := Print(integer);
    } else {
      s := TrimLoop(Print(integer) + "." + Padded(frac, digits));
    }
  }

  method FormatQty(qty: int) returns (s: string)
    ensures s == if qty < 0 then "-" + FormattedQty(-qty) else FormattedQty(qty)
  {
    var v: nat := if qty < 0 then -qty else qty;
    s := FormatFixed(v / QTY_SCALE, v % QTY_SCALE, QTY_DIGITS);
    s := if qty < 0 then "-" + s else s;
  }

  method FormatPrice(price: int) returns (s: string)
    ensures s == if price < 0 then "-" + FormattedPrice(-price) else FormattedPrice(price)
  {
    var v: nat := if price < 0 then -price else price;
    s := FormatFixed(v / PRICE_SCALE, v % PRICE_SCALE, PRICE_DIGITS);
    s := if price < 0 then "-" + s else s;
  }

  // ---------------------------------------------------------------------------
  // Parsing
  // ---------------------------------------------------------------------------

  predicate Fits64(v: int) {
    -INT64_MAX - 1 <= v <= INT64_MAX
  }

  /** `std::from_chars` to a 64-bit integer, required to consume the whole text: an optional minus and digits. */
  function FromChars(s: string): Result {
    var negative := s != [] && s[0] == '-';
    var digits := if negative then s[1..] else s;
    if digits == [] || !AllDigits(digits) then Err(InvalidFormat)
    else
      var n: int := Number(digits);
      if negative then (if n <= INT64_MAX + 1 then Ok(-n) else Err(InvalidFormat))
      else if n <= INT64_MAX then Ok(n)
      else Err(InvalidFormat)
  }

  /** The position of the first dot, or the length when there is none. */
  function FindDot(s: string): (i: nat)
    ensures i <= |s| && (i < |s| ==> s[i] == '.')
  {
    if s == [] || s[0] == '.' then 0 else 1 + FindDot(s[1..])
  }

  /** The fraction scaled to `digits` decimals; more decimals than that are cut off. */
  function ScaleFraction(frac: int, len: nat, digits: nat): int {
    if len <= digits then frac * Pow10(digits - len) else TruncDiv(frac, Pow10(len - digits))
  }

  /** The loop that builds a power of ten in an integer of the given maximum; nothing when it overflows. */
  method PowerOfTen(n: nat, max: int) returns (p: Option<nat>)
    requires max >= 1
    ensures p == if Pow10(n) <= max then Some(Pow10(n)) else None
  {
    var power: nat := 1;
    var i := 0;
    while i < n
      invariant 0 <= i <= n && power == Pow10(i) && power <= max
    {
      power := power * 10;
      i := i + 1;
      if power > max {
        Pow10Monotone(i, n);
        return None;
      }
    }
    p := Some(power);
  }

  datatype Parts = Parts(integer: int, frac: int) | BadParts | OverflowParts

  /** The whole part before the first dot and the scaled fraction after it; both may be missing.  `max` is the maximum
      of the integer type in which the scale is built. */
  function Split(s: string, digits: nat, max: int): Parts {
    var dot := FindDot(s);
    var whole := if dot == 0 then Ok(0) else FromChars(s[..dot]);
    var len: nat := if dot < |s| then |s| - dot - 1 else 0;
    var frac := if len == 0 then Ok(0) else FromChars(s[dot + 1..]);
    if !whole.Ok? || !frac.Ok? then BadParts
    else if len > digits && Pow10(len - digits) > max then OverflowParts
    else Parts(whole.value, if len == 0 then 0 else ScaleFraction(frac.value, len, digits))
  }

  method SplitNumber(s: string, digits: nat, max: int) returns (p: Parts)
    requires max >= Pow10(digits)
    ensures p == Split(s, digits, max)
  {
    var dot := FindDot(s);
    var integer, frac := 0, 0;
    if dot > 0 {
      var r := FromChars(s[..dot]);
      if !r.Ok? {
        return BadParts;
      }
      integer := r.value;
    }
    if dot < |s| {
      var fracText := s[dot + 1..];
      if |fracText| > 0 {
        var r := FromChars(fracText);
        if !r.Ok? {
          return BadParts;
        }
        if |fracText| <= digits {
          Pow10Monotone(digits - |fracText|, digits);
          var multiplier := PowerOfTen(digits - |fracText|, max);
          frac := r.value * multiplier.value;
        } else {
          var divisor := PowerOfTen(|fracText| - digits, max);
          if divisor.None? {
            return OverflowParts;
          }
          frac := TruncDiv(r.value, divisor.value);
        }
      }
    }
    p := Parts(integer, frac);
  }

  /** A sum of 64-bit integers. */
  function Fitting(v: int): Result {
    if Fits64(v) then Ok(v) else Undefined
  }

  function ParsedQty(s: string): Result {
    if s == [] then Err(EmptyInput)
    else
      match Split(s, QTY_DIGITS, INT64_MAX)
      case BadParts => Err(InvalidFormat)
      case OverflowParts => Undefined
      case Parts(integer, frac) =>
        if integer < 0 then Err(NegativeValue)
        else if integer > INT64_MAX / QTY_SCALE then Err(QtyOverflow)
        else Fitting(integer * QTY_SCALE + frac)
  }

  function ParsedPrice(s: string): Result {
    if s == [] then Err(EmptyInput)
    else
      var negative := s[0] == '-';
      var t := if negative then s[1..] else s;
      if t == [] then Err(InvalidFormat)
      else
        match Split(t, PRICE_DIGITS, INT32_MAX)
        case BadParts => Err(InvalidFormat)
        case OverflowParts => Undefined
        case Parts(integer, frac) =>
          var v := integer * PRICE_SCALE + frac;
          var price := if negative then -v else v;
          if !Fits64(integer * PRICE_SCALE) || !Fits64(v) || !Fits64(price) then Undefined
          else if price < 0 || price > 10000 then Err(OutOfRange)
          else Ok(price)
  }

  method ParseQty(s: string) returns (r: Result)
    ensures r == ParsedQty(s)
  {
    if s == [] {
      return Err(EmptyInput);
    }
    assert Pow10(QTY_DIGITS) == QTY_SCALE;
    var p := SplitNumber(s, QTY_DIGITS, INT64_MAX);
    if p.BadParts? {
      return Err(InvalidFormat);
    }
    if p.OverflowParts? {
      return Undefined;
    }
    if p.integer < 0 {
      return Err(NegativeValue);
    }
    if p.integer > INT64_MAX / QTY_SCALE {
      return Err(QtyOverflow);
    }
    var v := p.integer * QTY_SCALE + p.frac;
    r := if -INT64_MAX - 1 <= v <= INT64_MAX then Ok(v) else Undefined;
  }

  method ParsePrice(s: string) returns (r: Result)
    ensures r == ParsedPrice(s)
  {
    if s == [] {
      return Err(EmptyInput);
    }
    var negative, t := false, s;
    if s[0] == '-' {
      negative, t := true, s[1..];
      if t == [] {
        return Err(InvalidFormat);
      }
    }
    assert Pow10(PRICE_DIGITS) == PRICE_SCALE;
    var p := SplitNumber(t, PRICE_DIGITS, INT32_MAX);
    if p.BadParts? {
      return Err(InvalidFormat);
    }
    if p.OverflowParts? || !Fits64(p.integer * PRICE_SCALE) {
      return Undefined;
    }
    var price := p.integer * PRICE_SCALE;
    price := price + p.frac;
    if !Fits64(price) {
      return Undefined;
    }
    if negative {
      price := -price;
      if !Fits64(price) {
        return Undefined;
      }
    }
    if price < 0 || price > 10000 {
      return Err(OutOfRange);
    }
    r := Ok(price);
  }

  // ---------------------------------------------------------------------------
  // Round trips
  // ---------------------------------------------------------------------------

  lemma {:induction false} DigitsHaveNoDot(s: string, rest: string)
    requires AllDigits(s) && (rest == [] || rest[0] == '.')
    ensures FindDot(s + rest) == |s|
  {
    if s == [] {
      assert s + rest == rest;
    } else {
      assert (s + rest)[1..] == s[1..] + rest;
      DigitsHaveNoDot(s[1..], rest);
    }
  }

  /** Trimming the printed fraction leaves a shorter fraction of the same value. */
  lemma {:induction false} TrimFraction(head: string, f: string) returns (g: string)
    requires AllDigits(f) && Number(f) > 0
    ensures AllDigits(g) && g != [] && |g| <= |f|
    ensures Trim(head + "." + f) == head + "." + g
    ensures Number(g) * Pow10(|f| - |g|) == Number(f) && Number(g) <= Number(f)
  {
    if f[|f| - 1] == '0' {
      var front := f[..|f| - 1];
      g := TrimFraction(head, front);
      assert (head + "." + f)[..|head + "." + f| - 1] == head + "." + front;
      Pow10Step(Number(g), |front| - |g|);
    } else {
      g := f;
    }
  }

  lemma {:induction false} FromCharsDigits(s: string)
    requires s != [] && AllDigits(s) && Number(s) <= INT64_MAX
    ensures FromChars(s) == Ok(Number(s))
  {
  }

  lemma {:induction false} SplitDotted(head: string, g: string, digits: nat, max: int)
    requires head != [] && AllDigits(head) && Number(head) <= INT64_MAX
    requires g != [] && AllDigits(g) && Number(g) <= INT64_MAX && |g| <= digits
    ensures Split(head + "." + g, digits, max) == Parts(Number(head), Number(g) * Pow10(digits - |g|))
  {
    var s := head + "." + g;
    assert s == head + ("." + g);
    DigitsHaveNoDot(head, "." + g);
    FromCharsDigits(head);
    FromCharsDigits(g);
    hide FromChars, FindDot, Number, Pow10;
    assert s[..|head|] == head && s[|head| + 1..] == g;
  }

  lemma {:induction false} SplitWhole(head: string, digits: nat, max: int)
    requires head != [] && AllDigits(head) && Number(head) <= INT64_MAX
    ensures Split(head, digits, max) == Parts(Number(head), 0)
  {
    DigitsHaveNoDot(head, []);
    FromCharsDigits(head);
    hide FromChars, FindDot, Number, Pow10;
    assert head + [] == head && head[..|head|] == head;
  }

  /** The parser takes apart exactly what the printer put together. */
  lemma {:induction false} FormatSplits(integer: nat, frac: nat, digits: nat, max: int)
    requires integer <= INT64_MAX && frac <= INT64_MAX && frac < Pow10(digits)
    ensures var s := Format(integer, frac, digits);
            s != [] && s[0] != '-' && Split(s, digits, max) == Parts(integer, frac)
  {
    var head := Print(integer);
    PaddedNumber(frac, digits);
    hide Print, Padded, Trim, Split, Number, Pow10;
    SplitWhole(head, digits, max);
    if frac > 0 {
      var g := TrimFraction(head, Padded(frac, digits));
      SplitDotted(head, g, digits, max);
    }
  }

  /** Every non-negative 64-bit quantity survives printing and parsing. */
  lemma {:induction false} QtyRoundTrip(qty: nat)
    requires qty <= INT64_MAX
    ensures ParsedQty(FormattedQty(qty)) == Ok(qty)
  {
    PrintedQtyIff(qty);
  }

  /** Every price of the grid survives printing and parsing. */
  lemma {:induction false} PriceRoundTrip(price: nat)
    requires price <= 10000
    ensures ParsedPrice(FormattedPrice(price)) == Ok(price)
  {
    assert Pow10(PRICE_DIGITS) == PRICE_SCALE;
    FormatSplits(price / PRICE_SCALE, price % PRICE_SCALE, PRICE_DIGITS, INT32_MAX);
  }

  // ---------------------------------------------------------------------------
  // Where the arithmetic overflows
  // ---------------------------------------------------------------------------

  /** What a printed quantity of any size is read back as: itself up to the 64-bit maximum, an overflow up to the next
      whole share, which the guard lets through, and an error from there on. */
  lemma {:induction false} PrintedQtyIff(qty: nat)
    requires qty / QTY_SCALE <= INT64_MAX
    ensures ParsedQty(FormattedQty(qty))
            == if qty <= INT64_MAX then Ok(qty)
               else if qty < (INT64_MAX / QTY_SCALE + 1) * QTY_SCALE then Undefined
               else Err(QtyOverflow)
  {
    assert Pow10(QTY_DIGITS) == QTY_SCALE;
    FormatSplits(qty / QTY_SCALE, qty % QTY_SCALE, QTY_DIGITS, INT64_MAX);
    hide Split, Format;
  }

  predicate Within(x: int, bound: int) {
    -bound < x < bound
  }

  lemma {:induction false} ReadBound(s: string)
    requires FromChars(s).Ok?
    ensures Within(FromChars(s).value, Pow10(|s|))
  {
    var negative := s != [] && s[0] == '-';
    var digits := if negative then s[1..] else s;
    NumberBound(digits);
    Pow10Monotone(|digits|, |s|);
  }

  /** A fraction is scaled to less than one, whatever its length. */
  lemma {:induction false} FractionBound(frac: int, len: nat, digits: nat)
    requires Within(frac, Pow10(len))
    ensures Within(ScaleFraction(frac, len, digits), Pow10(digits))
  {
    if len <= digits {
      Pow10Add(len, digits - len);
      ScaleUp(frac, Pow10(len), Pow10(digits - len));
    } else {
      Pow10Add(digits, len - digits);
      ScaleDown(frac, Pow10(digits), Pow10(len - digits));
    }
  }

  lemma {:induction false} ScaleUp(x: int, bound: int, m: int)
    requires Within(x, bound) && m >= 1
    ensures Within(x * m, bound * m)
  {
    assert (bound - x) * m > 0 && (bound + x) * m > 0;
  }

  lemma {:induction false} PositiveFactor(x: int, m: int)
    requires m >= 1 && x * m > 0
    ensures x > 0
  {
  }

  lemma {:induction false} BelowQuotient(y: nat, q: int, bound: int, m: int)
    requires m >= 1 && y < bound * m && q == y / m
    ensures 0 <= q < bound
  {
    assert q * m <= y;
    assert (bound - q) * m == bound * m - q * m;
    PositiveFactor(bound - q, m);
  }

  lemma {:induction false} ScaleDown(x: int, bound: int, m: int)
    requires m >= 1 && Within(x, bound * m)
    ensures Within(TruncDiv(x, m), bound)
  {
    var q := TruncDiv(x, m);
    if x >= 0 {
      BelowQuotient(x, q, bound, m);
    } else {
      BelowQuotient(-x, -q, bound, m);
    }
  }

  lemma {:induction false} SplitBound(s: string, digits: nat, max: int)
    requires Split(s, digits, max).Parts?
    ensures Within(Split(s, digits, max).frac, Pow10(digits))
  {
    var dot := FindDot(s);
    if dot + 1 < |s| {
      var text := s[dot + 1..];
      ReadBound(text);
      FractionBound(FromChars(text).value, |text|, digits);
    }
  }

  /** For every text: the quantity parser overflows exactly when the scale of a long fraction does, or when the whole
      part is the last one that the guard admits and the fraction exceeds what that leaves. */
  lemma {:induction false} QtyOverflowsIff(s: string)
    ensures ParsedQty(s).Undefined? <==>
            var p := Split(s, QTY_DIGITS, INT64_MAX);
            p.OverflowParts? || (p.Parts? && p.integer == INT64_MAX / QTY_SCALE && p.frac > INT64_MAX % QTY_SCALE)
  {
    var p := Split(s, QTY_DIGITS, INT64_MAX);
    if p.Parts? {
      SplitBound(s, QTY_DIGITS, INT64_MAX);
      assert Pow10(QTY_DIGITS) == QTY_SCALE;
    }
    hide Split;
  }

  /** Only the whole part is tested for a sign: an accepted quantity is non-negative if and only if its whole part is
      not zero or its scaled fraction is not negative. */
  lemma {:induction false} QtySignIff(s: string)
    requires ParsedQty(s).Ok?
    ensures var p := Split(s, QTY_DIGITS, INT64_MAX);
            p.Parts? && (ParsedQty(s).value >= 0 <==> p.integer > 0 || p.frac >= 0)
  {
    SplitBound(s, QTY_DIGITS, INT64_MAX);
    assert Pow10(QTY_DIGITS) == QTY_SCALE;
    hide Split;
  }

  /** "0.-5" is accepted as a negative quantity. */
  lemma {:induction false} NegativeQty()
    ensures ParsedQty("0.-5") == Ok(-50000)
  {
    var s := "0.-5";
    assert s[..1] == "0" && s[2..] == "-5" && "-5"[1..] == "5";
    assert FindDot(s) == 1;
    OneDigit('0');
    OneDigit('5');
    assert FromChars("0") == Ok(0) && FromChars("-5") == Ok(-5);
    assert Pow10(4) == 10000;
  }

  lemma {:induction false} OneDigit(c: char)
    requires '0' <= c <= '9'
    ensures AllDigits([c]) && Number([c]) == DigitOf(c)
  {
  }

  /** For every text: the price parser overflows exactly when the scale of a long fraction does, or when the whole part
      times the scale, the sum with the fraction, or its negation leaves 64 bits. */
  lemma {:induction false} PriceOverflowsIff(s: string)
    ensures ParsedPrice(s).Undefined? <==>
            s != [] &&
            var negative := s[0] == '-';
            var p := Split(if negative then s[1..] else s, PRICE_DIGITS, INT32_MAX);
            var q, r := INT64_MAX / PRICE_SCALE, INT64_MAX % PRICE_SCALE;
            || p.OverflowParts?
            || (p.Parts? &&
                (|| p.integer > q || p.integer < -q
                 || (p.integer == q && p.frac > r)
                 || (p.integer == -q && (p.frac < -r - 1 || (negative && p.frac == -r - 1)))))
  {
    if s != [] {
      var t := if s[0] == '-' then s[1..] else s;
      var p := Split(t, PRICE_DIGITS, INT32_MAX);
      EmptySplit();
      if p.Parts? {
        SplitBound(t, PRICE_DIGITS, INT32_MAX);
        assert Pow10(PRICE_DIGITS) == PRICE_SCALE;
      }
      hide Split;
    }
  }

  lemma {:induction false} EmptySplit()
    ensures Split([], PRICE_DIGITS, INT32_MAX) == Parts(0, 0)
  {
  }

  lemma {:induction false} PowersThatFit()
    ensures Pow10(9) <= INT32_MAX < Pow10(10) && Pow10(18) <= INT64_MAX < Pow10(19)
  {
    assert Pow10(5) == 100000;
    Pow10Add(5, 4);
    Pow10Add(5, 5);
    assert Pow10(4) == 10000 && Pow10(9) == 1000000000 && Pow10(10) == 10000000000;
    Pow10Add(9, 9);
    Pow10Add(9, 10);
  }

  /** The scale overflows exactly for well-formed texts with more than 13 decimals of a price or 24 of a quantity. */
  lemma {:induction false} LongFractionIff(s: string)
    ensures var dot := FindDot(s);
            var len := if dot < |s| then |s| - dot - 1 else 0;
            var formed := (dot == 0 || FromChars(s[..dot]).Ok?) && (len == 0 || FromChars(s[dot + 1..]).Ok?);
            && (Split(s, PRICE_DIGITS, INT32_MAX).OverflowParts? <==> formed && len > PRICE_DIGITS + 9)
            && (Split(s, QTY_DIGITS, INT64_MAX).OverflowParts? <==> formed && len > QTY_DIGITS + 18)
  {
    PowersThatFit();
    var dot := FindDot(s);
    var len := if dot < |s| then |s| - dot - 1 else 0;
    hide Pow10, FromChars, FindDot;
    if len > PRICE_DIGITS {
      if len - PRICE_DIGITS <= 9 {
        Pow10Monotone(len - PRICE_DIGITS, 9);
      } else {
        Pow10Monotone(10, len - PRICE_DIGITS);
      }
    }
    if len > QTY_DIGITS {
      if len - QTY_DIGITS <= 18 {
        Pow10Monotone(len - QTY_DIGITS, 18);
      } else {
        Pow10Monotone(19, len - QTY_DIGITS);
      }
    }
  }

  // ---------------------------------------------------------------------------
  // What a decimal is read as
  // ---------------------------------------------------------------------------

  /** Exactly `digits` decimals: further ones are cut off, missing ones are zeros. */
  function Cut(frac: string, digits: nat): (r: string)
    ensures |r| == digits && (AllDigits(frac) ==> AllDigits(r))
  {
    if |frac| >= digits then frac[..digits] else frac + seq(digits - |frac|, _ => '0')
  }

  lemma {:induction false} DivideByTen(x: nat, d: nat, p: nat)
    requires d <= 9 && p >= 1
    ensures (x * 10 + d) / (10 * p) == x / p
  {
    var q, r := x / p, x % p;
    assert x * 10 + d == q * (10 * p) + (r * 10 + d) && r * 10 + d < 10 * p;
    QuotientIs(x * 10 + d, 10 * p, q, r * 10 + d);
  }

  lemma {:induction false} SmallMultiple(k: int, m: int)
    requires m > 0 && -m < k * m < m
    ensures k == 0
  {
  }

  lemma {:induction false} QuotientIs(x: nat, m: nat, q: nat, r: nat)
    requires x == q * m + r && r < m
    ensures x / m == q
  {
    var k, t := x / m, x % m;
    assert x == k * m + t && 0 <= t < m;
    assert (k - q) * m == k * m - q * m;
    SmallMultiple(k - q, m);
  }

  /** Dividing by a power of ten cuts off digits. */
  lemma {:induction false} DivideIsCut(s: string, n: nat)
    requires AllDigits(s) && n <= |s|
    ensures Number(s) / Pow10(|s| - n) == Number(s[..n])
  {
    if n == |s| {
      assert s[..n] == s;
    } else {
      var front := s[..|s| - 1];
      DivideIsCut(front, n);
      assert front[..n] == s[..n];
      DivideByTen(Number(front), DigitOf(s[|s| - 1]), Pow10(|front| - n));
      hide Number;
    }
  }

  lemma {:induction false} AppendZeros(s: string, n: nat)
    requires AllDigits(s)
    ensures AllDigits(s + seq(n, _ => '0')) && Number(s + seq(n, _ => '0')) == Number(s) * Pow10(n)
  {
    var t := s + seq(n, _ => '0');
    if n == 0 {
      assert t == s;
    } else {
      AppendZeros(s, n - 1);
      assert t[..|t| - 1] == s + seq(n - 1, _ => '0');
      Pow10Step(Number(s), n - 1);
    }
  }

  lemma {:induction false} ScaleIsCut(frac: string, digits: nat)
    requires AllDigits(frac)
    ensures ScaleFraction(Number(frac), |frac|, digits) == Number(Cut(frac, digits))
  {
    if |frac| > digits {
      DivideIsCut(frac, digits);
    } else {
      AppendZeros(frac, digits - |frac|);
      assert |frac| == digits ==> frac[..digits] == frac + seq(0, _ => '0');
    }
  }

  lemma {:induction false} FromCharsBig(s: string)
    requires s != [] && AllDigits(s)
    ensures FromChars(s) == if Number(s) <= INT64_MAX then Ok(Number(s)) else Err(InvalidFormat)
  {
  }

  lemma {:induction false} DotAt(head: string, frac: string)
    requires AllDigits(head)
    ensures var s := head + "." + frac;
            FindDot(s) == |head| && |s| == |head| + 1 + |frac| && s[..|head|] == head && s[|head| + 1..] == frac
  {
    assert head + "." + frac == head + ("." + frac);
    DigitsHaveNoDot(head, "." + frac);
  }

  /** The parts of an unsigned decimal: its whole number and its cut fraction, either text being allowed to be empty. */
  lemma {:induction false} SplitDecimal(head: string, frac: string, digits: nat, max: int)
    requires AllDigits(head) && AllDigits(frac)
    ensures Split(head + "." + frac, digits, max)
            == if Number(head) > INT64_MAX || Number(frac) > INT64_MAX then BadParts
               else if |frac| > digits && Pow10(|frac| - digits) > max then OverflowParts
               else Parts(Number(head), Number(Cut(frac, digits)))
  {
    ScaleIsCut(frac, digits);
    assert Number([]) == 0 && ScaleFraction(0, 0, digits) == 0;
    hide FromChars, FindDot, Number, Cut, Pow10, ScaleFraction, AllDigits;
    DotAt(head, frac);
    if head != [] {
      FromCharsBig(head);
    }
    if frac != [] {
      FromCharsBig(frac);
    }
  }

  lemma {:induction false} ScaleFits(len: nat)
    ensures len > QTY_DIGITS ==> (Pow10(len - QTY_DIGITS) > INT64_MAX <==> len > 24)
    ensures len > PRICE_DIGITS ==> (Pow10(len - PRICE_DIGITS) > INT32_MAX <==> len > 13)
  {
    PowersThatFit();
    hide Pow10;
    if QTY_DIGITS < len {
      Pow10Monotone(if len <= 24 then len - QTY_DIGITS else 19, if len <= 24 then 18 else len - QTY_DIGITS);
    }
    if PRICE_DIGITS < len {
      Pow10Monotone(if len <= 13 then len - PRICE_DIGITS else 10, if len <= 13 then 9 else len - PRICE_DIGITS);
    }
  }

  /** Every unsigned decimal text is read as the quantity it denotes, cut to six decimals, unless a part of it or the
      result leaves 64 bits. */
  lemma {:induction false} QtyReads(head: string, frac: string)
    requires AllDigits(head) && AllDigits(frac)
    ensures ParsedQty(head + "." + frac)
            == if Number(head) > INT64_MAX || Number(frac) > INT64_MAX then Err(InvalidFormat)
               else if |frac| > 24 then Undefined
               else if Number(head) > INT64_MAX / QTY_SCALE then Err(QtyOverflow)
               else
                 var v := Number(head) * QTY_SCALE + Number(Cut(frac, QTY_DIGITS));
                 if v <= INT64_MAX then Ok(v) else Undefined
  {
    SplitDecimal(head, frac, QTY_DIGITS, INT64_MAX);
    ScaleFits(|frac|);
    hide Split, Number, Cut, Pow10;
  }

  /** Every unsigned decimal text is read as the price it denotes, cut to four decimals, and refused above one dollar.
      */
  lemma {:induction false} PriceReads(head: string, frac: string)
    requires AllDigits(head) && AllDigits(frac)
    ensures ParsedPrice(head + "." + frac)
            == if Number(head) > INT64_MAX || Number(frac) > INT64_MAX then Err(InvalidFormat)
               else if |frac| > 13 then Undefined
               else
                 var v := Number(head) * PRICE_SCALE + Number(Cut(frac, PRICE_DIGITS));
                 if v > INT64_MAX then Undefined else if v > 10000 then Err(OutOfRange) else Ok(v)
  {
    SplitDecimal(head, frac, PRICE_DIGITS, INT32_MAX);
    ScaleFits(|frac|);
    var s := head + "." + frac;
    assert s[0] != '-' by {
      assert head != [] ==> s[0] == head[0] && IsDigit(head[0]);
    }
    hide Split, Number, Cut, Pow10;
  }
}
