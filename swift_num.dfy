/** Swift's numeric conversions and integer operators, where they differ from Dafny's.

    Swift `Double` is modelled as `real` (exact arithmetic). `Int(x)` on a Double truncates
    toward zero, and Swift's `/` and `%` on `Int` truncate toward zero as well, whereas
    Dafny's `/` and `%` are Euclidean. */
module SwiftNum {

  /** `Int(x)` for a Double `x`: the integer part, rounded toward zero. */
  function Trunc(x: real): (r: int)
    ensures 0.0 <= x ==> r as real <= x < r as real + 1.0
    ensures x <= 0.0 ==> r as real - 1.0 < x <= r as real
  {
    if x >= 0.0 then x.Floor else -((-x).Floor)
  }

  /** Swift's `a % b` for a positive divisor: the remainder carries the sign of `a`. */
  function Rem(a: int, b: int): (r: int)
    requires b > 0
    ensures 0 <= a ==> 0 <= r < b
    ensures a < 0 ==> -b < r <= 0
  {
    if a >= 0 then a % b else -((-a) % b)
  }

  /** Swift's `a / b` for a positive divisor: the quotient rounded toward zero. */
  function Quot(a: int, b: int): (q: int)
    requires b > 0
    ensures q * b + Rem(a, b) == a
  {
    if a >= 0 then a / b else -((-a) / b)
  }

  /** On non-negative operands Swift's truncating operators agree with Dafny's. */
  lemma QuotRemNonNegative(a: int, b: int)
    requires 0 <= a && 0 < b
    ensures Quot(a, b) == a / b && Rem(a, b) == a % b
  {
  }

  /** `Int(x)` of a whole, non-negative Double gives that number back. */
  lemma TruncOfWhole(n: int)
    requires 0 <= n
    ensures Trunc(n as real) == n
  {
  }

  /** `Int(x)` of a Double in [0, 1) is 0. */
  lemma TruncBelowOne(x: real)
    requires 0.0 <= x < 1.0
    ensures Trunc(x) == 0
  {
  }
}
