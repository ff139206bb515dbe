/**
 The amounts of a signed order: decimal text to 256-bit integers, the rounding of shares and dollars, and their
 assignment to maker and taker.
 */
module OrderAmounts {
  import opened Common
  import opened Bytes
  import opened Decimal

  ghost const TWO_256: nat := Pow256(32)

  // ---------------------------------------------------------------------------
  // Decimal text to a 256-bit integer
  // ---------------------------------------------------------------------------

  lemma {:induction false} SuffixValue(bs: seq<byte>, i: nat)
    requires i < |bs|
    ensures Value(bs[i..]) == bs[i] * Pow256(|bs| - i - 1) + Value(bs[i + 1..])
  {
    assert bs[i..] == [bs[i]] + bs[i + 1..];
    ValueAppend([bs[i]], bs[i + 1..]);
    assert [bs[i]][..0] == [];
    assert Value([bs[i]]) == bs[i];
  }

  /** One step of the carry chain. */
  lemma {:induction false} CarryStep(b: nat, carry: nat, p: nat)
    ensures var val := b * 10 + carry;
            (val / 256) * (256 * p) + ((val % 256) * p) == (b * p) * 10 + carry * p
  {
    var val := b * 10 + carry;
    assert val == 256 * (val / 256) + val % 256;
    assert val * p == (256 * (val / 256)) * p + (val % 256) * p;
    assert (256 * (val / 256)) * p == (val / 256) * (256 * p);
    assert val * p == (b * 10) * p + carry * p;
    assert (b * 10) * p == (b * p) * 10;
  }

  /** Multiplies a 32-byte big-endian integer by ten in place and adds a digit; the carry out is the overflow. */
  method TimesTenPlus(out: array<byte>, digit: nat) returns (carry: nat)
    requires out.Length == 32 && digit <= 9
    modifies out
    ensures Value(old(out[..])) * 10 + digit == carry * TWO_256 + Value(out[..])
  {
    carry := digit;
    ghost var was := out[..];
    var i := 31;
    assert was[32..] == [] && out[32..] == [];
    while i >= 0
      invariant -1 <= i <= 31 && carry <= 9
      invariant forall k :: 0 <= k <= i ==> out[k] == was[k]
      invariant Value(was[i + 1..]) * 10 + digit == carry * Pow256(31 - i) + Value(out[i + 1..])
    {
      var val: int := out[i] * 10 + carry;
      ghost var p, tail, c := Pow256(31 - i), out[i + 1..], carry;
      SuffixValue(was, i);
      CarryStep(was[i], c, p);
      out[i] := val % 256;
      carry := val / 256;
      assert out[i + 1..] == tail;
      SuffixValue(out[..], i);
      assert out[..][i..] == out[i..] && out[..][i + 1..] == out[i + 1..];
      i := i - 1;
    }
    assert was[0..] == was && out[0..] == out[..];
  }

  /** Succeeds exactly on a nonempty digit string below 2^256, and then holds exactly its number. */
  method DecimalToUint256(decimal: string, out: array<byte>) returns (ok: bool)
    requires out.Length == 32
    modifies out
    ensures ok <==> decimal != [] && AllDigits(decimal) && Number(decimal) < TWO_256
    ensures ok ==> Value(out[..]) == Number(decimal)
  {
    forall k | 0 <= k < 32 {
      out[k] := 0;
    }
    if decimal == [] {
      return false;
    }
    assert out[..] == Zeros(32);
    ValueZeros(32);
    assert decimal[..0] == [] && Number(decimal[..0]) == 0;
    hide Number, Value, AllDigits;
    var i := 0;
    while i < |decimal|
      invariant 0 <= i <= |decimal| && AllDigits(decimal[..i]) && Value(out[..]) == Number(decimal[..i])
      invariant i > 0 ==> Number(decimal[..i]) < TWO_256
    {
      var c := decimal[i];
      if c < '0' || c > '9' {
        return false;
      }
      DigitStep(decimal, i);
      var carry := TimesTenPlus(out, DigitOf(c));
      ValueBound(out[..]);
      if carry != 0 {
        if AllDigits(decimal) {
          NumberPrefix(decimal, i + 1);
        }
        OverflowIsLarge(carry, TWO_256, Value(out[..]));
        return false;
      }
      i := i + 1;
    }
    assert decimal[..i] == decimal;
    ok := true;
  }

  lemma {:induction false} DigitStep(s: string, i: nat)
    requires i < |s| && AllDigits(s[..i]) && IsDigit(s[i])
    ensures AllDigits(s[..i + 1]) && Number(s[..i + 1]) == Number(s[..i]) * 10 + DigitOf(s[i])
  {
    assert s[..i + 1][..i] == s[..i];
  }

  lemma {:induction false} OverflowIsLarge(carry: nat, p: nat, v: nat)
    requires carry > 0
    ensures carry * p + v >= p
  {
    assert carry * p == (carry - 1) * p + p;
  }

  // ---------------------------------------------------------------------------
  // Rounding
  // ---------------------------------------------------------------------------

  const SHARE_ROUND: int := 10000
  const USDC_ROUND: int := 100

  /** Shares are cut to hundredths, with a hundredth as the minimum; dollars to ten-thousandths. */
  function Shares(size: int): int {
    var raw := TruncDiv(size, SHARE_ROUND) * SHARE_ROUND;
    if raw <= 0 then SHARE_ROUND else raw
  }

  function Usdc(shares: int, price: int): int {
    TruncDiv(TruncDiv(shares * price, PRICE_SCALE), USDC_ROUND) * USDC_ROUND
  }

  /** What the two roundings guarantee: whole cents of a share, whole ten-thousandths of a dollar, never more dollars
      than the limit price allows, and less than a ten-thousandth of a dollar short of it. */
  lemma {:induction false} AmountBounds(size: int, price: int)
    requires 0 < price <= 10000 && 0 < size
    ensures var shares, usdc := Shares(size), Usdc(Shares(size), price);
            && shares % SHARE_ROUND == 0 && usdc % USDC_ROUND == 0
            && 0 < shares <= Max(size, SHARE_ROUND) && size < shares + SHARE_ROUND
            && 0 <= usdc && 0 <= shares * price - PRICE_SCALE * usdc < 1000000
  {
    var shares := Shares(size);
    var product := shares * price;
    assert product >= 0;
    RoundedProduct(product);
  }

  lemma {:induction false} RoundedProduct(product: int)
    requires product >= 0
    ensures var usdc := TruncDiv(TruncDiv(product, PRICE_SCALE), USDC_ROUND) * USDC_ROUND;
            0 <= usdc && usdc % USDC_ROUND == 0 && 0 <= product - PRICE_SCALE * usdc < 1000000
  {
    var q := product / 10000;
    assert 0 <= product - 10000 * q < 10000;
    assert 0 <= q - 100 * (q / 100) < 100;
  }

  /** What an order is signed for is covered by what its SELL has reserved, which is its size, exactly from a hundredth
      of a share on: a smaller order is signed for the minimum of a hundredth. */
  lemma {:induction false} SignedWithinReserved(size: int)
    requires 0 < size
    ensures Shares(size) <= size <==> size >= SHARE_ROUND
    ensures size < SHARE_ROUND ==> Shares(size) == SHARE_ROUND
  {
    assert size >= SHARE_ROUND ==> size / SHARE_ROUND * SHARE_ROUND <= size;
  }

  /** `Overflows` is a signed overflow of shares times price, to which the language gives no meaning. */
  datatype Signed = Rejected | Overflows
      | Amounts(maker: string, taker: string, makerBytes: seq<byte>, takerBytes: seq<byte>)

  /** The amount fields of an order: rejected outside the price range or without size; otherwise the printed and the
      signed amounts, dollars for shares on a BUY and shares for dollars on a SELL. */
  method BuildAmounts(side: Side, price: int, size: int) returns (r: Signed)
    ensures r.Rejected? <==> price <= 0 || price > 10000 || size <= 0
    ensures r.Overflows? <==> !r.Rejected? && Shares(size) * price > INT64_MAX
    ensures r.Amounts? ==>
              var shares, usdc := Shares(size), Usdc(Shares(size), price);
              && AllDigits(r.maker) && AllDigits(r.taker)
              && Number(r.maker) == (if side.Bid? then usdc else shares)
              && Number(r.taker) == (if side.Bid? then shares else usdc)
              && Value(r.makerBytes) == Number(r.maker) && Value(r.takerBytes) == Number(r.taker)
  {
    if price <= 0 || price > 10000 || size <= 0 {
      return Rejected;
    }
    AmountBounds(size, price);
    var raw := TruncDiv(size, SHARE_ROUND) * SHARE_ROUND;
    if raw <= 0 {
      raw := SHARE_ROUND;
    }
    if raw * price > INT64_MAX {
      return Overflows;
    }
    var priceAmount := TruncDiv(TruncDiv(raw * price, PRICE_SCALE), USDC_ROUND) * USDC_ROUND;
    AmountsFit(raw, priceAmount, price);
    hide Number, Value, AllDigits;
    r := WriteAmounts(if side.Bid? then priceAmount else raw, if side.Bid? then raw else priceAmount);
  }

  /** Two amounts in decimal and as 32-byte numbers. */
  method WriteAmounts(makerAmount: nat, takerAmount: nat) returns (r: Signed)
    requires makerAmount < TWO_256 && takerAmount < TWO_256
    ensures r.Amounts? && AllDigits(r.maker) && AllDigits(r.taker)
    ensures Number(r.maker) == Value(r.makerBytes) == makerAmount
            && Number(r.taker) == Value(r.takerBytes) == takerAmount
  {
    hide Number, Value;
    var maker, taker := Print(makerAmount), Print(takerAmount);
    var makerOut, takerOut := new byte[32], new byte[32];
    var okMaker := DecimalToUint256(maker, makerOut);
    var okTaker := DecimalToUint256(taker, takerOut);
    r := Amounts(maker, taker, makerOut[..], takerOut[..]);
  }

  lemma {:induction false} AmountsFit(raw: int, usdc: int, price: int)
    requires 0 < price && 0 < raw && 0 <= usdc && 0 <= raw * price - PRICE_SCALE * usdc && raw * price <= INT64_MAX
    ensures raw < TWO_256 && usdc < TWO_256
  {
    assert raw <= raw * price;
    Pow256Eight();
    Pow256Monotone(8, 32);
  }
}
