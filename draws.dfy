/**
 * The generator's calls to `Math.random()`, each passed in as a value
 * drawn from [0, 1): a probability test is `u < p`, a uniform choice among
 * `n` entries takes index `Math.floor(u * n)`.
 */
module Draws {

  /** A value `Math.random()` can return. */
  predicate UnitDraw(u: real) {
    0.0 <= u < 1.0
  }

  /** `Math.floor(u * n)`: an index into a list of `n` entries. */
  function PickIndex(u: real, n: nat): (i: nat)
    requires UnitDraw(u) && n > 0
    ensures i < n
  {
    ScaledDrawBounds(u, n);
    (u * n as real).Floor
  }

  lemma ScaledDrawBounds(u: real, n: nat)
    requires UnitDraw(u) && n > 0
    ensures 0.0 <= u * n as real < n as real
  {
    assert u * n as real < 1.0 * n as real;
  }

  /** Every index is chosen by some draw: the draw `i / n` picks entry `i`. */
  lemma PickIndexReachesAll(i: nat, n: nat)
    requires i < n
    ensures UnitDraw(i as real / n as real)
    ensures PickIndex(i as real / n as real, n) == i
  {
    var u := i as real / n as real;
    assert u * n as real == i as real;
  }
}
