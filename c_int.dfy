/** Integer division as C performs it: the quotient is truncated toward zero,
    and the remainder takes the sign of the dividend. Dafny's own `/` and `%`
    are Euclidean, so the model spells out the C operators wherever a
    dividend may be negative. */
module CInt {

  /** C's `a / b` for a positive divisor. */
  function Div(a: int, b: int): (q: int)
    requires b > 0
    ensures 0 <= a ==> 0 <= a - b * q < b
    ensures a < 0 ==> -b < a - b * q <= 0
  {
    if a >= 0 then a / b else -((-a) / b)
  }

  /** C's `a % b` for a positive divisor. */
  function Rem(a: int, b: int): (r: int)
    requires b > 0
    ensures a == b * Div(a, b) + r
    ensures 0 <= a ==> 0 <= r < b
    ensures a < 0 ==> -b < r <= 0
  {
    a - b * Div(a, b)
  }

  /** On non-negative operands the C operators agree with Dafny's. */
  lemma NonNegativeAgrees(a: int, b: int)
    requires 0 <= a && b > 0
    ensures Div(a, b) == a / b && Rem(a, b) == a % b
  {
  }
}
