/** The Stag Hunt payoffs (x, y, z, w) and the mixed-equilibrium probability derived from them. */
module Payoffs {

  // Payoffs of the game; agent 1 gets x at Aa, w at Ab, y at Ba and z at Bb.
  const X: int := 3
  const Y: int := 2
  const Z: int := 1
  const W: int := 0

  /** The Stag Hunt ordering x > y >= z > w. */
  predicate StagHunt(x: int, y: int, z: int, w: int) {
    x > y >= z > w
  }

  /** Probability p = (z - w) / (x - y + z - w) with which the mixed-equilibrium opponent plays a. */
  function MixProbability(x: int, y: int, z: int, w: int): (r: real)
    requires StagHunt(x, y, z, w)
    ensures 0.0 < r < 1.0
  {
    ComplementShare((x - y) as real, (z - w) as real);
    (z - w) as real / (x - y + z - w) as real
  }

  /** The mixing probability of the configured payoffs. */
  const P: real := MixProbability(X, Y, Z, W)

  /**
   * For every Stag Hunt ordering, p is a proper probability and it is the opponent's
   * indifference point: p * (x - y) == (1 - p) * (z - w), so the expected gain of switching
   * to A against the mixing opponent is zero.  Equivalently p / (1 - p) == (z - w) / (x - y).
   */
  lemma MixingProbabilityBalances(x: int, y: int, z: int, w: int)
    requires StagHunt(x, y, z, w)
    ensures 0.0 < MixProbability(x, y, z, w) < 1.0
    ensures MixProbability(x, y, z, w) * (x - y) as real
            == (1.0 - MixProbability(x, y, z, w)) * (z - w) as real
    ensures MixProbability(x, y, z, w) / (1.0 - MixProbability(x, y, z, w))
            == (z - w) as real / (x - y) as real
  {
    var a, b := (x - y) as real, (z - w) as real;
    assert MixProbability(x, y, z, w) == b / (a + b);
    ComplementShare(a, b);
    ShareBalances(a, b);
    ShareRatio(a, b);
  }

  /** 1 - b / (a + b) == a / (a + b). */
  lemma ComplementShare(a: real, b: real)
    requires 0.0 < a && 0.0 < b
    ensures 0.0 < b / (a + b) < 1.0
    ensures 1.0 - b / (a + b) == a / (a + b)
  {
    var t := a + b;
    assert t / t == 1.0;
    assert t / t - b / t == (t - b) / t;
  }

  /** (b / (a + b)) * a == (a / (a + b)) * b. */
  lemma ShareBalances(a: real, b: real)
    requires 0.0 < a && 0.0 < b
    ensures (b / (a + b)) * a == (a / (a + b)) * b
  {
  }

  /** (b / (a + b)) / (a / (a + b)) == b / a. */
  lemma ShareRatio(a: real, b: real)
    requires 0.0 < a && 0.0 < b
    ensures (b / (a + b)) / (a / (a + b)) == b / a
  {
  }

  /**
   * The module comment of game2.py states p / (1 - p) = (x - y) / (z - w) next to the formula
   * p = (z - w) / (z - w + x - y).  The two agree only when x - y == z - w, as for (3, 2, 1, 0).
   */
  lemma CommentRatioHoldsOnlyWhenGapsEqual(x: int, y: int, z: int, w: int)
    requires StagHunt(x, y, z, w)
    ensures MixProbability(x, y, z, w) / (1.0 - MixProbability(x, y, z, w))
            == (x - y) as real / (z - w) as real
            <==> x - y == z - w
  {
    MixingProbabilityBalances(x, y, z, w);
    var a, b := (x - y) as real, (z - w) as real;
    if b / a == a / b {
      assert b * b == a * a;
      assert (b - a) * (b + a) == 0.0;
    }
  }

  /** A Stag Hunt for which the comment's ratio is false: (x, y, z, w) = (4, 2, 1, 0) gives p = 1/3. */
  lemma CommentRatioCounterexample()
    ensures StagHunt(4, 2, 1, 0)
    ensures MixProbability(4, 2, 1, 0) == 1.0 / 3.0
    ensures MixProbability(4, 2, 1, 0) / (1.0 - MixProbability(4, 2, 1, 0)) != 2.0 / 1.0
  {
    CommentRatioHoldsOnlyWhenGapsEqual(4, 2, 1, 0);
  }

  /** With (x, y, z, w) = (3, 2, 1, 0) the opponent mixes with probability one half. */
  lemma MixProbabilityIsHalf()
    ensures StagHunt(X, Y, Z, W) && P == 0.5
  {
  }
}
