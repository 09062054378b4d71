/** The two Float-to-Integer conversions the label classifier uses, on exact
    reals. */
module Numeric {

  function Abs(x: real): real {
    if x < 0.0 then -x else x
  }

  /** Ruby's `Float#to_i`: truncation toward zero. */
  function Trunc(x: real): (r: int)
    ensures 0.0 <= x ==> r as real <= x < r as real + 1.0
    ensures x < 0.0 ==> r as real - 1.0 < x <= r as real
  {
    if 0.0 <= x then x.Floor else -((-x).Floor)
  }

  /** Ruby's `Float#round` with no digits: the nearest integer, a half being
      rounded away from zero. The two ranges below pin the result down
      uniquely. */
  function Round(x: real): (r: int)
    ensures 0.0 <= x ==> -0.5 <= x - r as real < 0.5
    ensures x < 0.0 ==> -0.5 < x - r as real <= 0.5
  {
    if 0.0 <= x then (x + 0.5).Floor else -((-x + 0.5).Floor)
  }

  /** No integer is strictly closer to x than Round(x). */
  lemma RoundIsNearest(x: real, n: int)
    ensures Abs(x - Round(x) as real) <= Abs(x - n as real)
  {
    var r := Round(x);
    if n < r {
      assert n as real <= r as real - 1.0;
    } else if n > r {
      assert n as real >= r as real + 1.0;
    }
  }

  /** A half is rounded away from zero. */
  lemma RoundHalfAwayFromZero(k: int)
    ensures 0 <= k ==> Round(k as real + 0.5) == k + 1
    ensures k < 0 ==> Round(k as real + 0.5) == k
  {
  }

  /** A positive value truncates to a positive integer exactly when it is at
      least one; a negative value never does. */
  lemma TruncPositive(x: real)
    ensures Trunc(x) > 0 <==> x >= 1.0
  {
  }

  /** The floor of a ratio of integers is their integer quotient. */
  lemma FloorOfRatio(n: int, d: int)
    requires 0 < d
    ensures (n as real / d as real).Floor == n / d
  {
    var q, r := n / d, n % d;
    var x := n as real / d as real;
    var t := x - q as real;
    assert t * d as real == r as real by {
      assert n == d * q + r;
      assert x * d as real == n as real;
    }
    ScaleBelowOne(t, d as real, r as real);
  }

  /** If t * d lies in [0, d) for a positive d, then t lies in [0, 1). */
  lemma ScaleBelowOne(t: real, d: real, p: real)
    requires 0.0 < d && t * d == p && 0.0 <= p < d
    ensures 0.0 <= t < 1.0
  {
  }

  /** Integer division is determined by the division equation. */
  lemma DivModUnique(n: int, d: int, q: int, r: int)
    requires 0 < d && n == d * q + r && 0 <= r < d
    ensures n / d == q && n % d == r
  {
    var q', r' := n / d, n % d;
    assert d * (q - q') == r' - r;
    if q > q' {
      MulAtLeast(d, q - q');
    } else if q < q' {
      MulAtLeast(d, q' - q);
    }
  }

  lemma MulAtLeast(d: int, k: int)
    requires 0 < d && 1 <= k
    ensures d * k >= d
  {
  }
}
