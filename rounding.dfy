/** Python's built-in `round(x, places)`, taken on the exact value: the
    nearest multiple of 10^-places, with an exact tie going to the even
    multiple. */
module Rounding {
  function Pow10(places: nat): (p: nat)
    ensures p >= 1
  {
    if places == 0 then 1 else 10 * Pow10(places - 1)
  }

  /** The integer nearest to `s`; on a tie, the even one of the two. */
  function RoundHalfEven(s: real): (n: int)
    ensures -0.5 <= n as real - s <= 0.5
    ensures n as real - s == 0.5 || s - n as real == 0.5 ==> n % 2 == 0
  {
    var f := s.Floor;
    var frac := s - f as real;
    if frac < 0.5 then f
    else if frac > 0.5 then f + 1
    else if f % 2 == 0 then f
    else f + 1
  }

  /** `r` is a multiple of `1 / scale` got by rounding `x * scale` half to
      even, so it lies within half a step of `x`. */
  predicate NearestStep(x: real, scale: real, r: real) {
    r * scale == RoundHalfEven(x * scale) as real && -0.5 <= (r - x) * scale <= 0.5
  }

  /** The nearest multiple of `1 / scale`, ties to the even multiple. */
  function RoundToScale(x: real, scale: real): (r: real)
    requires scale > 0.0
    ensures NearestStep(x, scale, r)
  {
    var n := RoundHalfEven(x * scale);
    ScaleCancels(n, scale);
    n as real / scale
  }

  /** `round(x, places)`. */
  function Round(x: real, places: nat): (r: real)
    ensures NearestStep(x, Pow10(places) as real, r)
  {
    RoundToScale(x, Pow10(places) as real)
  }

  lemma ScaleCancels(n: int, scale: real)
    requires scale > 0.0
    ensures (n as real / scale) * scale == n as real
  {
  }

  lemma ScaleIsInjective(a: real, b: real, scale: real)
    requires scale > 0.0 && a * scale == b * scale
    ensures a == b
  {
    assert (a - b) * scale == 0.0;
  }

  /** A value that is already a whole number of steps is left unchanged. */
  lemma RoundOnGrid(x: real, k: int, scale: real)
    requires scale > 0.0 && x * scale == k as real
    ensures RoundToScale(x, scale) == x
  {
    assert RoundHalfEven(x * scale) == k;
    ScaleIsInjective(RoundToScale(x, scale), x, scale);
  }
}
