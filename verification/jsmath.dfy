/** The slice of JavaScript arithmetic the telemetry tick relies on, over exact
    reals: `Math.random()` draws, `Math.min`/`Math.max`, and `Math.round`.
 */
module JsMath {

  /** A value `Math.random()` can return: in [0, 1). */
  type Unit = u: real | 0.0 <= u < 1.0

  function Min(a: real, b: real): real {
    if a <= b then a else b
  }

  function Max(a: real, b: real): real {
    if a >= b then a else b
  }

  /** `Math.round(x)`: nearest integer, halves rounded up (towards +infinity,
      so `Math.round(-2.5)` is -2). */
  function Round(x: real): (r: int)
    ensures x - 0.5 < r as real <= x + 0.5
  {
    (x + 0.5).Floor
  }

  /** Rounding leaves integers alone. */
  lemma RoundOfInt(n: int)
    ensures Round(n as real) == n
  {
  }

  /** Rounding is monotone. */
  lemma RoundMonotone(x: real, y: real)
    requires x <= y
    ensures Round(x) <= Round(y)
  {
  }

  /** A real between two integers rounds to an integer between them. */
  lemma RoundWithin(x: real, lo: int, hi: int)
    requires lo as real <= x <= hi as real
    ensures lo <= Round(x) <= hi
  {
    RoundMonotone(lo as real, x);
    RoundMonotone(x, hi as real);
    RoundOfInt(lo);
    RoundOfInt(hi);
  }
}
