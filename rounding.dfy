/**
 * The integer rounding primitives of the JavaScript host (Math.round,
 * Math.floor, Math.ceil, and the Math.max/Math.min clamp idiom), stated over
 * exact reals. IEEE-754 effects (NaN, -0, overflow) are not part of this model.
 */
module Rounding {

  /** Math.floor: the greatest integer not above x. */
  function Floor(x: real): (r: int)
    ensures r as real <= x < r as real + 1.0
  {
    x.Floor
  }

  /** Math.ceil: the least integer not below x. */
  function Ceil(x: real): (r: int)
    ensures r as real - 1.0 < x <= r as real
  {
    -((-x).Floor)
  }

  /**
   * Math.round: the nearest integer, with ties going toward +infinity
   * (Math.round(-0.5) is -0, Math.round(0.5) is 1).
   */
  function Round(x: real): (r: int)
    ensures r as real - 0.5 <= x < r as real + 0.5
  {
    (x + 0.5).Floor
  }

  /** Math.max(lo, Math.min(hi, v)) on integers. */
  function Clamp(lo: int, hi: int, v: int): (r: int)
    ensures lo <= hi ==> lo <= r <= hi
    ensures lo <= v <= hi ==> r == v
    ensures lo <= hi && v < lo ==> r == lo
    ensures lo <= hi && hi < v ==> r == hi
  {
    var m := if hi < v then hi else v;
    if m < lo then lo else m
  }

  function Abs(x: real): real
  {
    if x < 0.0 then -x else x
  }

  function Max(a: real, b: real): real
  {
    if a < b then b else a
  }

  function Min(a: real, b: real): real
  {
    if a < b then a else b
  }

  /** x lies exactly halfway between two integers, where Round goes up. */
  predicate IsTie(x: real)
  {
    (x + 0.5).Floor as real == x + 0.5
  }

  /** Round is determined by the half-open interval [n - 1/2, n + 1/2). */
  lemma RoundUnique(x: real, n: int)
    requires n as real - 0.5 <= x < n as real + 0.5
    ensures Round(x) == n
  {
  }

  /** Integers are fixed points of Round. */
  lemma RoundOfInt(n: int)
    ensures Round(n as real) == n
  {
  }

  /** |S * d| <= |S| / 2 whenever |d| <= 1/2. */
  lemma ScaledHalf(scale: real, d: real)
    requires -0.5 <= d <= 0.5
    ensures -Abs(scale) / 2.0 <= scale * d <= Abs(scale) / 2.0
  {
    if scale >= 0.0 {
      assert scale * d - scale * (-0.5) == scale * (d + 0.5);
      assert scale * 0.5 - scale * d == scale * (0.5 - d);
    } else {
      assert scale * d - scale * 0.5 == (-scale) * (0.5 - d);
      assert scale * (-0.5) - scale * d == (-scale) * (d + 0.5);
    }
  }

  /** Multiplying both sides by a positive factor keeps the order, strict or not. */
  lemma ScaleOrder(a: real, b: real, c: real)
    requires c > 0.0
    ensures a <= b <==> c * a <= c * b
    ensures a < b <==> c * a < c * b
  {
    assert c * b - c * a == c * (b - a);
  }

  /** The position (v - lo) / (hi - lo) of a point v of [lo, hi] lies in [0, 1]. */
  lemma UnitFraction(lo: real, hi: real, v: real)
    requires lo < hi
    ensures lo <= v <= hi ==> 0.0 <= (v - lo) / (hi - lo) <= 1.0
  {
    if lo <= v <= hi {
      var x, d := v - lo, hi - lo;
      assert x / d * d == x;
      assert 0.0 * d <= x <= 1.0 * d;
    }
  }

  /** A positive total split into d > 0 shares: each share is positive and d of them make the total. */
  lemma Share(total: real, d: real)
    requires total > 0.0 && d > 0.0
    ensures total / d > 0.0 && d * (total / d) == total
  {
  }
}
