/**
 Fixed-width C integer facts the plugin relies on: the limits of `int` and
 `unsigned int`, the clamp to INT_MAX used before narrowing an unsigned count
 to `int`, and C's division, which truncates toward zero.
 */
module CTypes {

  const INT_MIN: int := -0x8000_0000
  const INT_MAX: int := 0x7FFF_FFFF
  const UINT_MAX: int := 0xFFFF_FFFF

  /** A C `int`. */
  type Int32 = x: int | INT_MIN <= x <= INT_MAX

  /** A C `unsigned int`. */
  type UInt32 = x: int | 0 <= x <= UINT_MAX

  /** A byte of a file read into memory. */
  newtype byte = x: int | 0 <= x < 256

  /**
   `n > INT_MAX ? INT_MAX : (int)n`: the narrowing both source files apply to
   an unsigned count before passing it on as an `int`.
   */
  function ClampToInt(n: nat): (r: nat)
    ensures r <= INT_MAX && r <= n
    ensures r == n || r == INT_MAX
  {
    if n > INT_MAX then INT_MAX else n
  }

  /** C's `a / b` for a positive divisor: the quotient truncated toward zero. */
  function CDiv(a: int, b: int): (q: int)
    requires b > 0
    ensures a >= 0 ==> 0 <= q * b <= a < q * b + b
    ensures a < 0 ==> q * b - b < a <= q * b <= 0
  {
    if a >= 0 then EuclideanDivision(a, b); a / b
    else EuclideanDivision(-a, b); -((-a) / b)
  }

  /** Dafny's `/` on a non-negative dividend leaves a remainder in `[0, b)`. */
  lemma EuclideanDivision(a: int, b: int)
    requires a >= 0 && b > 0
    ensures 0 <= (a / b) * b <= a < (a / b) * b + b
  {
    var q, r := a / b, a % b;
    assert a == q * b + r && 0 <= r < b;
    if q < 0 {
      MulMonotone(q, -1, b);
      assert false;
    }
    MulMonotone(0, q, b);
  }

  /** The truncated quotient grows with the dividend. */
  lemma {:induction false} CDivMonotone(a1: int, a2: int, b: int)
    requires b > 0 && a1 <= a2
    ensures CDiv(a1, b) <= CDiv(a2, b)
  {
    var q1, q2 := CDiv(a1, b), CDiv(a2, b);
    if q1 > q2 {
      MulMonotone(q2 + 1, q1, b);
      assert false;
    }
  }

  /** For a non-negative dividend the truncated quotient shrinks as the divisor grows. */
  lemma {:induction false} CDivAntitone(a: int, b1: int, b2: int)
    requires a >= 0 && 0 < b1 <= b2
    ensures 0 <= CDiv(a, b2) <= CDiv(a, b1)
  {
    var q1, q2 := CDiv(a, b1), CDiv(a, b2);
    MulMonotone(b1, b2, q2);
    if q2 > q1 {
      MulMonotone(q1 + 1, q2, b1);
      assert false;
    }
  }

  lemma MulMonotone(x: int, y: int, k: int)
    requires x <= y && k >= 0
    ensures x * k <= y * k
  {
  }

  /** The truncated quotient of a non-negative dividend by a divisor of at least 1 never exceeds the dividend. */
  lemma CDivBounded(a: int, b: int)
    requires b > 0
    ensures a >= 0 ==> 0 <= CDiv(a, b) <= a
    ensures a < 0 ==> a <= CDiv(a, b) <= 0
  {
    CDivAntitone(if a >= 0 then a else -a, 1, b);
  }
}
