/**
 * The JavaScript number helpers the client uses, over Dafny's exact reals:
 * `Math.max`, `Math.min`, `Math.abs`, `Math.round` and `+(x).toFixed(2)`.
 */
module RealMath {

  function Max(a: real, b: real): (r: real)
    ensures r >= a && r >= b
    ensures r == a || r == b
  {
    if a >= b then a else b
  }

  function Min(a: real, b: real): (r: real)
    ensures r <= a && r <= b
    ensures r == a || r == b
  {
    if a <= b then a else b
  }

  function Abs(x: real): (r: real)
    ensures r >= 0.0
    ensures r == x || r == -x
  {
    if x >= 0.0 then x else -x
  }

  /** `Math.max(lo, Math.min(hi, x))`. */
  function Clamp(x: real, lo: real, hi: real): (r: real)
    ensures lo <= hi ==> lo <= r <= hi
    ensures lo <= x <= hi ==> r == x
  {
    Max(lo, Min(hi, x))
  }

  lemma ClampMonotone(x: real, y: real, lo: real, hi: real)
    requires x <= y
    ensures Clamp(x, lo, hi) <= Clamp(y, lo, hi)
  {
  }

  /** `Math.round`: the nearest integer, halves rounded towards plus infinity. */
  function Round(x: real): (r: int)
    ensures r as real - 0.5 <= x < r as real + 0.5
  {
    (x + 0.5).Floor
  }

  lemma RoundMonotone(x: real, y: real)
    requires x <= y
    ensures Round(x) <= Round(y)
  {
  }

  /** A value happens to lie between two whole numbers, and so does its rounding. */
  lemma RoundWithin(x: real, lo: int, hi: int)
    requires lo as real <= x <= hi as real
    ensures lo <= Round(x) <= hi
  {
  }

  /**
   * The hundredths of a non-negative number, halves rounded up: what
   * `toFixed(2)` does to the magnitude.
   */
  function HalfUp2(x: real): (r: real)
    ensures r * 100.0 == Round(x * 100.0) as real
    ensures x - 0.005 < r <= x + 0.005
  {
    Round(x * 100.0) as real / 100.0
  }

  lemma HalfUp2Monotone(x: real, y: real)
    requires x <= y
    ensures HalfUp2(x) <= HalfUp2(y)
  {
    RoundMonotone(x * 100.0, y * 100.0);
  }

  /**
   * `+(x).toFixed(2)`: the nearest hundredth. `toFixed` formats a negative
   * number as `-` followed by its magnitude, so halves are rounded away from 0.
   */
  function Round2(x: real): (r: real)
    ensures x >= 0.0 ==> r * 100.0 == Round(x * 100.0) as real
    ensures x < 0.0 ==> r * 100.0 == -(Round(-x * 100.0) as real)
    ensures x >= 0.0 ==> x - 0.005 < r <= x + 0.005
    ensures x < 0.0 ==> x - 0.005 <= r < x + 0.005
    ensures x >= 0.0 ==> r >= 0.0
    ensures x <= 0.0 ==> r <= 0.0
  {
    if x < 0.0 then -HalfUp2(-x) else HalfUp2(x)
  }

  /** The rounding is symmetric about 0. */
  lemma Round2Odd(x: real)
    ensures Round2(-x) == -Round2(x)
  {
    if x == 0.0 {
      assert -x == 0.0;
    }
  }

  /** Halves go away from 0 on both sides: 0.125 becomes 0.13 and -0.125 becomes -0.13. */
  lemma Round2Halves()
    ensures Round2(0.125) == 0.13
    ensures Round2(-0.125) == -0.13
  {
    assert Round(12.5) == 13;
    assert HalfUp2(0.125) == 0.13;
  }

  lemma Round2Monotone(x: real, y: real)
    requires x <= y
    ensures Round2(x) <= Round2(y)
  {
    if y < 0.0 {
      HalfUp2Monotone(-y, -x);
    } else if x >= 0.0 {
      HalfUp2Monotone(x, y);
    }
  }

  /** A value between two whole numbers of hundredths rounds to a value between them. */
  lemma Round2Within(x: real, lo: int, hi: int)
    requires lo as real <= x * 100.0 <= hi as real
    ensures lo as real / 100.0 <= Round2(x) <= hi as real / 100.0
  {
    if x < 0.0 {
      RoundWithin(-x * 100.0, -hi, -lo);
    } else {
      RoundWithin(x * 100.0, lo, hi);
    }
  }
}
