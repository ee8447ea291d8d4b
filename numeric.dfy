/** JavaScript arithmetic the screens use, on exact integers: `Math.round` of a
    fraction and the truncating remainder operator `%`. */
module Numeric {

  /** `Math.round(n / d)`: the nearest integer, halves rounded up (towards +infinity). */
  function RoundHalfUp(n: int, d: int): (r: int)
    requires d > 0
    ensures 2 * d * r - d <= 2 * n < 2 * d * r + d
  {
    var q := (2 * n + d) / (2 * d);
    assert 2 * n + d == 2 * d * q + (2 * n + d) % (2 * d);
    q
  }

  /** The rounded value is the only integer within half a unit (below, inclusive) of n / d. */
  lemma RoundHalfUpUnique(n: int, d: int, k: int)
    requires d > 0
    requires 2 * d * k - d <= 2 * n < 2 * d * k + d
    ensures RoundHalfUp(n, d) == k
  {
    var r := RoundHalfUp(n, d);
    // Both r and k lie within d of 2n / (2d), so 2d * |r - k| < 2d.
    assert 2 * d * (r - k) < 2 * d && 2 * d * (k - r) < 2 * d;
    ProductBelowFactor(2 * d, r - k);
    ProductBelowFactor(2 * d, k - r);
  }

  lemma ProductBelowFactor(d: int, x: int)
    requires d > 0 && d * x < d
    ensures x < 1
  {
  }

  /** Rounding an exact quotient gives that quotient. */
  lemma RoundHalfUpExact(q: int, d: int)
    requires d > 0
    ensures RoundHalfUp(q * d, d) == q
  {
    RoundHalfUpUnique(q * d, d, q);
  }

  /** The quotient of JavaScript's `a / m` truncated towards zero. */
  function TruncQuot(a: int, m: int): int
    requires m > 0
  {
    if a >= 0 then a / m else -((-a) / m)
  }

  /** JavaScript's `a % m` for a positive m: the remainder takes the sign of the dividend. */
  function TruncRem(a: int, m: int): (r: int)
    requires m > 0
    ensures a == m * TruncQuot(a, m) + r
    ensures a >= 0 ==> 0 <= r < m
    ensures a < 0 ==> -m < r <= 0
  {
    if a >= 0 then a % m else -((-a) % m)
  }
}
