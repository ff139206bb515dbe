/**
 Types and constants shared by every part of the model: fixed-point prices and
 quantities are integers, identifiers are strings.
 */
module Common {

  type AssetId = string

  datatype Side = Bid | Ask

  datatype Option<+T> = None | Some(value: T)

  const INT64_MAX: int := 0x7fff_ffff_ffff_ffff

  /** One dollar in price units (`kPriceScale`). */
  const PRICE_SCALE: int := 10000

  /** The integer division of C++, which truncates toward zero. */
  function TruncDiv(a: int, b: int): int
    requires b > 0
  {
    if a >= 0 then a / b else -((-a) / b)
  }

  function Min(a: int, b: int): int {
    if a <= b then a else b
  }

  function Max(a: int, b: int): int {
    if a >= b then a else b
  }
}
