/**
 * The numeric helpers the MindPulse scoring engine is built from: the
 * `clamp` helper, and Dafny renderings of the Python built-ins the engine
 * relies on (`round`, `int()` of a float, `random.uniform`). Arithmetic is
 * over exact reals.
 */
module Numeric {

  /** `clamp(value, low, high)` = `max(low, min(high, value))`. */
  function Clamp(v: real, low: real, high: real): (r: real)
    ensures low <= high ==> low <= r <= high
    ensures low <= v <= high ==> r == v
    ensures low <= high && v < low ==> r == low
    ensures low <= high && high < v ==> r == high
    ensures high < low ==> r == low
  {
    var m := if high < v then high else v;
    if low < m then m else low
  }

  /** Python's `int(x)` on a float: truncation toward zero. */
  function Trunc(x: real): (r: int)
    ensures 0.0 <= x ==> r as real <= x < r as real + 1.0
    ensures x < 0.0 ==> r as real - 1.0 < x <= r as real
  {
    if 0.0 <= x then x.Floor else -((-x).Floor)
  }

  /** `n` is the integer nearest to `x`, ties going to the even neighbour. */
  predicate NearestEven(x: real, n: int)
  {
    && x - 0.5 <= n as real <= x + 0.5
    && ((n as real - x == 0.5 || x - n as real == 0.5) ==> n % 2 == 0)
  }

  /** Python 3's `round(x)`: round half to even. */
  function RoundHalfEven(x: real): (n: int)
    ensures NearestEven(x, n)
  {
    var f := x.Floor;
    var frac := x - f as real;
    if frac < 0.5 then f
    else if frac > 0.5 then f + 1
    else if f % 2 == 0 then f
    else f + 1
  }

  /** At most one integer is the nearest-even rounding of a real. */
  lemma NearestEvenUnique(x: real, n: int, m: int)
    requires NearestEven(x, n) && NearestEven(x, m)
    ensures n == m
  {
  }

  /** Rounding never reverses the order of two reals. */
  lemma RoundMonotone(x: real, y: real)
    requires x <= y
    ensures RoundHalfEven(x) <= RoundHalfEven(y)
  {
  }

  /** Rounding leaves an integer as it is. */
  lemma RoundOfInteger(n: int)
    ensures RoundHalfEven(n as real) == n
  {
    assert NearestEven(n as real, n);
    NearestEvenUnique(n as real, n, RoundHalfEven(n as real));
  }

  /** Where the rounding of `x` falls relative to the range [0, 100]. */
  lemma RoundWithinPercent(x: real)
    ensures x <= 0.0 ==> RoundHalfEven(x) <= 0
    ensures 100.0 <= x ==> 100 <= RoundHalfEven(x)
    ensures 0.0 <= x <= 100.0 ==> 0 <= RoundHalfEven(x) <= 100
  {
    RoundOfInteger(0);
    RoundOfInteger(100);
    if x <= 0.0 {
      RoundMonotone(x, 0.0);
    }
    if 100.0 <= x {
      RoundMonotone(100.0, x);
    }
    if 0.0 <= x <= 100.0 {
      RoundMonotone(0.0, x);
      RoundMonotone(x, 100.0);
    }
  }

  /**
   * Rounding and clamping to [0, 100] commute: `clamp(round(x))`, the order
   * the index calculation uses, is the same as rounding the clamped value.
   */
  lemma RoundCommutesWithClamp(x: real)
    ensures Clamp(RoundHalfEven(x) as real, 0.0, 100.0) == RoundHalfEven(Clamp(x, 0.0, 100.0)) as real
  {
    RoundOfInteger(0);
    RoundOfInteger(100);
    RoundWithinPercent(x);
  }

  /** A draw in [0, 1] stretched onto [a, b] stays within it. */
  lemma UniformWithin(a: real, b: real, u: real)
    requires a <= b && 0.0 <= u <= 1.0
    ensures 0.0 <= (b - a) * u
    ensures a + (b - a) * u <= b
  {
    var w := b - a;
    assert w * u + w * (1.0 - u) == w;
    assert 0.0 <= w * u;
    assert 0.0 <= w * (1.0 - u);
    assert a + (b - a) * u == a + w * u;
  }

  /** `random.uniform(a, b)` given the underlying `random.random()` draw `u`. */
  function Uniform(a: real, b: real, u: real): (r: real)
    ensures a <= b && 0.0 <= u <= 1.0 ==> a <= r <= b
    ensures u == 0.0 ==> r == a
  {
    if a <= b && 0.0 <= u <= 1.0 then
      UniformWithin(a, b, u);
      a + (b - a) * u
    else
      a + (b - a) * u
  }
}
