/**
 * Integer arithmetic as JavaScript performs it on whole numbers:
 * `Math.floor(a / b)`, `Math.ceil(a / b)`, the truncating remainder `a % b`,
 * and the page-count expression `Math.ceil(total / size) || 1`.
 */
module JsMath {

  /** `Math.floor(a / b)` */
  function FloorDiv(a: int, b: int): (q: int)
    requires b != 0
    ensures b > 0 ==> q * b <= a < q * b + b
    ensures b < 0 ==> q * b + b < a <= q * b
  {
    if b > 0 then a / b else (-a) / (-b)
  }

  /** `Math.ceil(a / b)` */
  function CeilDiv(a: int, b: int): (q: int)
    requires b != 0
    ensures b > 0 ==> q * b - b < a <= q * b
    ensures b < 0 ==> q * b <= a < q * b - b
  {
    -FloorDiv(-a, b)
  }

  /** `a % b` for a positive divisor: the remainder takes the sign of the dividend. */
  function TruncRem(a: int, b: int): (r: int)
    requires b > 0
    ensures a >= 0 ==> r == a % b
    ensures a < 0 ==> r == -((-a) % b) && -b < r <= 0
  {
    if a >= 0 then a % b else -((-a) % b)
  }

  /** `Math.ceil(total / size) || 1`: a ceiling of 0 (or -0) becomes 1. */
  function PageCount(total: int, size: int): (pages: int)
    requires size != 0
    ensures pages != 0
    ensures pages == CeilDiv(total, size) || (CeilDiv(total, size) == 0 && pages == 1)
  {
    var q := CeilDiv(total, size);
    if q == 0 then 1 else q
  }

  /** With a positive size, a non-negative total fits in the page count, and no fewer pages suffice. */
  lemma PageCountBounds(total: int, size: int)
    requires total >= 0 && size > 0
    ensures PageCount(total, size) >= 1
    ensures (PageCount(total, size) - 1) * size < total || (total == 0 && PageCount(total, size) == 1)
    ensures total <= PageCount(total, size) * size
  {
  }
}
