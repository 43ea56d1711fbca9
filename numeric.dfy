/** Number helpers shared by the routes and components: JavaScript's
    `Math.round`, `Math.max`, `Math.min` and the truncating `%`. */
module Numeric {

  /** `Math.round`: the nearest integer, halves rounded up. */
  function Round(x: real): (r: int)
    ensures x - 0.5 < r as real <= x + 0.5
  {
    (x + 0.5).Floor
  }

  /** Rounding an integer-valued real gives that integer back. */
  lemma RoundOfInt(n: int)
    ensures Round(n as real) == n
  {
  }

  /** `Math.round` keeps an integer lower bound. */
  lemma RoundAtLeast(x: real, lo: int)
    requires lo as real <= x
    ensures lo <= Round(x)
  {
  }

  /** `Math.round` keeps an integer upper bound. */
  lemma RoundAtMost(x: real, hi: int)
    requires x <= hi as real
    ensures Round(x) <= hi
  {
  }

  /** `Math.round` never reverses an order. */
  lemma RoundMonotone(x: real, y: real)
    requires x <= y
    ensures Round(x) <= Round(y)
  {
  }

  function Max(a: int, b: int): (r: int)
    ensures r >= a && r >= b
    ensures r == a || r == b
  {
    if a >= b then a else b
  }

  function Min(a: int, b: int): (r: int)
    ensures r <= a && r <= b
    ensures r == a || r == b
  {
    if a <= b then a else b
  }

  /** JavaScript's `a % b` for `b > 0`: the remainder takes the sign of `a`
      (Dafny's own `%` is Euclidean and never negative). */
  function JsRem(a: int, b: int): (r: int)
    requires b > 0
    ensures -b < r < b
    ensures a >= 0 ==> r == a % b
    ensures a >= 0 ==> r >= 0
    ensures a <= 0 ==> r <= 0
  {
    if a >= 0 then a % b else -((-a) % b)
  }
}
