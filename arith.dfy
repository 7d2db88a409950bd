/** JavaScript number operations the tracker applies to rates and means, on exact reals. */
module Arith {

  /** `Math.round`: the nearest integer, halves rounded up. */
  function Round(x: real): (r: int)
    ensures r as real - 0.5 <= x < r as real + 0.5
  {
    (x + 0.5).Floor
  }

  /**
   * `Math.round(x * 10) / 10`: a whole number of tenths, the one within
   * 0.05 of x (halves rounded up).
   */
  function RoundTenth(x: real): (r: real)
    ensures x - 0.05 < r <= x + 0.05
    ensures (r * 10.0).Floor as real == r * 10.0
  {
    var t := Round(x * 10.0) as real;
    assert x * 10.0 - 0.5 < t <= x * 10.0 + 0.5;
    assert t / 10.0 * 10.0 == t;
    t / 10.0
  }

  /** Rounding to one decimal keeps a value inside whole-number bounds. */
  lemma RoundTenthWithin(x: real, lo: int, hi: int)
    requires lo as real <= x <= hi as real
    ensures lo as real <= RoundTenth(x) <= hi as real
  {
    var t := Round(x * 10.0);
    assert lo * 10 <= t <= hi * 10;
  }

  /** Adding a whole number before rounding adds it to the rounded value. */
  lemma RoundShift(x: real, n: int)
    ensures Round(x + n as real) == Round(x) + n
  {
    var a, b := Round(x + n as real), Round(x);
    assert a - n - 1 < b < a - n + 1;
  }

  function MinReal(a: real, b: real): real { if a <= b then a else b }

  function MaxReal(a: real, b: real): real { if a >= b then a else b }

  /** A ratio of counts is 1 exactly when the counts are equal. */
  lemma RatioIsOne(a: int, n: int)
    requires n > 0
    ensures a as real / n as real == 1.0 <==> a == n
  {
    var m := a as real / n as real;
    assert m * n as real == a as real;
  }

  /** A mean lies between the bounds of what it averages. */
  lemma MeanBounds(total: int, n: int, lo: int, hi: int)
    requires n > 0 && lo * n <= total <= hi * n
    ensures lo as real <= total as real / n as real <= hi as real
  {
    var m := total as real / n as real;
    assert m * n as real == total as real;
  }
}
