// Kotlin's arithmetic where it differs from Dafny's: integer division and the
// floating-point remainder both round toward zero.
module KotlinMath {

  function Abs(x: real): (r: real)
    ensures r >= 0.0 && (r == x || r == -x)
  {
    if x < 0.0 then -x else x
  }

  /** Kotlin `Int / Int` for a positive divisor: the quotient is truncated toward zero. */
  function Div(a: int, b: int): (q: int)
    requires b > 0
    ensures -b < a - q * b < b
    ensures a >= 0 ==> 0 <= a - q * b
    ensures a <= 0 ==> a - q * b <= 0
  {
    if a >= 0 then a / b else -((-a) / b)
  }

  /** The quotient of `x / 180` truncated toward zero. */
  function Quotient180(a: real): int {
    if a >= 0.0 then (a / 180.0).Floor else -((-a) / 180.0).Floor
  }

  /** Kotlin `x % 180` on a Double: the remainder takes the sign of the dividend. */
  function Rem180(a: real): (r: real)
    ensures -180.0 < r < 180.0
    ensures a >= 0.0 ==> r >= 0.0
    ensures a <= 0.0 ==> r <= 0.0
    ensures a - r == Quotient180(a) as real * 180.0
  {
    a - Quotient180(a) as real * 180.0
  }
}
