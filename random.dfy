/** The random draws of the dashboard. A call of `Math.random()` is a parameter: a
    number in [0, 1), taken here as an exact real. */
module Random {

  /** A value `Math.random()` can return. */
  predicate Unit(r: real)
  {
    0.0 <= r < 1.0
  }

  /** `Math.floor(r * m)`: a uniform pick among 0 .. m - 1. */
  function Draw(r: real, m: nat): (k: nat)
    requires Unit(r) && m >= 1
    ensures k < m
    ensures k as real <= r * m as real < k as real + 1.0
  {
    (r * m as real).Floor
  }
}
