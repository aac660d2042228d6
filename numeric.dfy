/** Arithmetic helpers shared by the agents: Python's `min`, `max`, `int()` on a
    float, and `**` with a natural exponent, all over unbounded reals. */
module Numeric {

  /** Python's `min(a, b)`. */
  function Min(a: real, b: real): (r: real)
    ensures r <= a && r <= b
    ensures r == a || r == b
  {
    if a <= b then a else b
  }

  /** Python's `max(a, b)`. */
  function Max(a: real, b: real): (r: real)
    ensures r >= a && r >= b
    ensures r == a || r == b
  {
    if a >= b then a else b
  }

  /** `min(hi, max(lo, x))`, the clamp idiom the agents use everywhere. */
  function Clamp(lo: real, hi: real, x: real): (r: real)
    requires lo <= hi
    ensures lo <= r <= hi
    ensures lo <= x <= hi ==> r == x
    ensures x < lo ==> r == lo
    ensures x > hi ==> r == hi
  {
    Min(hi, Max(lo, x))
  }

  lemma ClampMonotone(lo: real, hi: real, x: real, y: real)
    requires lo <= hi && x <= y
    ensures Clamp(lo, hi, x) <= Clamp(lo, hi, y)
  {
  }

  /** Python's `int(x)` on a float: truncation toward zero. */
  function Trunc(x: real): (r: int)
    ensures x >= 0.0 ==> r as real <= x < r as real + 1.0
    ensures x < 0.0 ==> r as real - 1.0 < x <= r as real
  {
    if x >= 0.0 then x.Floor else -((-x).Floor)
  }

  lemma TruncMonotone(x: real, y: real)
    requires x <= y
    ensures Trunc(x) <= Trunc(y)
  {
    if x < 0.0 && y >= 0.0 {
      assert Trunc(x) <= 0 <= Trunc(y);
    } else if x >= 0.0 {
      assert x.Floor <= y.Floor;
    } else {
      assert (-y).Floor <= (-x).Floor;
    }
  }

  /** `x ** n` for a natural exponent. */
  function Pow(x: real, n: nat): real
  {
    if n == 0 then 1.0 else x * Pow(x, n - 1)
  }

  /** A base above one raised to a positive power stays above one; this is
      what keeps the amortization denominator `(1 + r) ** n - 1` positive. */
  lemma {:induction false} PowAboveOne(x: real, n: nat)
    requires x > 1.0
    ensures Pow(x, n) >= 1.0
    ensures n >= 1 ==> Pow(x, n) > 1.0
  {
    if n > 0 {
      PowAboveOne(x, n - 1);
      var p := Pow(x, n - 1);
      assert x * p - x == x * (p - 1.0);
      assert x * (p - 1.0) >= 0.0;
    }
  }
}
