/**
  The two properties of C++ `int` arithmetic that the modelled code relies on:
  values live in the 32-bit signed range, and `/` truncates toward zero.
  Dafny's own `/` is Euclidean, so truncation is written out here.
 */
module CppInt {

  /** `x` is representable as a 32-bit signed `int`. */
  predicate IsInt(x: int) {
    -0x8000_0000 <= x < 0x8000_0000
  }

  /** C++ `a / b` for a positive divisor: the quotient rounded toward zero. */
  function Div(a: int, b: int): (q: int)
    requires b > 0
    ensures a >= 0 ==> q * b <= a < (q + 1) * b
    ensures a < 0 ==> (q - 1) * b < a <= q * b
    ensures a >= 0 ==> q >= 0
    ensures a <= 0 ==> q <= 0
  {
    if a >= 0 then a / b else -((-a) / b)
  }

  /** Multiplying by a positive factor preserves strict order, so it can be cancelled. */
  lemma CancelFactor(x: int, y: int, m: int)
    requires m > 0 && x * m < y * m
    ensures x < y
  {
  }
}
