/**
 * `sum_condition`: the closed-form test that a schedule (K, S) can beat staying in Bb.
 * Discount factors and the discounted sums are exact reals.
 */
module Eligibility {
  import opened Payoffs

  /** beta ** j */
  function Pow(beta: real, j: nat): real {
    if j == 0 then 1.0 else beta * Pow(beta, j - 1)
  }

  /** sum(beta ** j for j in lo..hi), both ends included; 0 when hi < lo. */
  function PowerSum(beta: real, lo: nat, hi: int): real
    decreases hi - lo
  {
    if hi < lo then 0.0 else PowerSum(beta, lo, hi - 1) + Pow(beta, hi)
  }

  /**
   * `sum_condition(K, S, beta)` where `rounds` is the value `rounds_from_beta(beta)` returns:
   * with N = rounds - (K + S) rounds of x left, the discounted gain (x - z) over rounds
   * K+S+1 .. K+S+N must cover the discounted loss (z - w) over rounds K+1 .. K+S.
   */
  function SumCondition(K: nat, S: nat, beta: real, rounds: int): (r: bool)
    ensures r ==> K + S < rounds
  {
    var N := rounds - (K + S);
    if N <= 0 then false
    else
      var left := (X - Z) as real * PowerSum(beta, K + S + 1, K + S + N);
      var right := (Z - W) as real * PowerSum(beta, K + 1, K + S);
      left >= right
  }

  lemma {:induction false} PowNonNegative(beta: real, j: nat)
    requires 0.0 <= beta
    ensures 0.0 <= Pow(beta, j)
  {
    if j > 0 {
      PowNonNegative(beta, j - 1);
    }
  }

  lemma {:induction false} PowerSumNonNegative(beta: real, lo: nat, hi: int)
    requires 0.0 <= beta
    ensures 0.0 <= PowerSum(beta, lo, hi)
    decreases hi - lo
  {
    if lo <= hi {
      PowerSumNonNegative(beta, lo, hi - 1);
      PowNonNegative(beta, hi);
    }
  }

  /** Splitting off the lowest term of a non-empty sum. */
  lemma {:induction false} PowerSumDropFirst(beta: real, lo: nat, hi: int)
    requires lo <= hi
    ensures PowerSum(beta, lo, hi) == Pow(beta, lo) + PowerSum(beta, lo + 1, hi)
    decreases hi - lo
  {
    if lo < hi {
      PowerSumDropFirst(beta, lo, hi - 1);
    }
  }

  /**
   * The schedule that sacrifices nothing (S = 0) is eligible whenever a round is left: the
   * loss is an empty sum and the gain is non-negative.
   */
  lemma NoSacrificeEligible(K: nat, beta: real, rounds: int)
    requires 0.0 <= beta && K < rounds
    ensures SumCondition(K, 0, beta, rounds)
  {
    PowerSumNonNegative(beta, K + 1, rounds);
  }

  /**
   * One more sacrificed round cannot restore eligibility: the upper end of the gain is always
   * `rounds`, so the gain loses its first term beta ** (K+S+1) while the loss gains it.
   */
  lemma EligibilityStep(K: nat, S: nat, beta: real, rounds: int)
    requires 0.0 <= beta
    requires !SumCondition(K, S, beta, rounds)
    ensures !SumCondition(K, S + 1, beta, rounds)
  {
    if rounds - (K + S + 1) > 0 {
      PowerSumDropFirst(beta, K + S + 1, rounds);
      PowNonNegative(beta, K + S + 1);
      PowerSumNonNegative(beta, K + S + 2, rounds);
      assert PowerSum(beta, K + 1, K + S + 1) == PowerSum(beta, K + 1, K + S) + Pow(beta, K + S + 1);
    }
  }

  /**
   * For a fixed K, eligibility once lost stays lost as S grows: this is what lets the grid
   * scan stop at the first ineligible S.
   */
  lemma {:induction false} EligibilityMonotone(K: nat, S: nat, S': nat, beta: real, rounds: int)
    requires 0.0 <= beta && S <= S'
    requires !SumCondition(K, S, beta, rounds)
    ensures !SumCondition(K, S', beta, rounds)
    decreases S' - S
  {
    if S < S' {
      EligibilityStep(K, S, beta, rounds);
      EligibilityMonotone(K, S + 1, S', beta, rounds);
    }
  }
}
