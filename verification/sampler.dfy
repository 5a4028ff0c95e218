/**
 * The geometric stopping process: `true_with_prob`, `test_prob` and the sum of many
 * `test_prob` samples.  Every call of `random()` reads the next value of a supplied stream of
 * uniform draws; the stream running out is the only way the unbounded loops end here.
 */
module Sampler {
  import opened Outcomes

  /**
   * `true_with_prob(prob)` given the uniform draw `u` it consumes. For a draw in [0, 1) it
   * never holds at probability 0 or below and always holds at probability 1 or above.
   */
  predicate TrueWithProb(u: real, prob: real): (r: bool)
    ensures 0.0 <= u && prob <= 0.0 ==> !r
    ensures u < 1.0 && 1.0 <= prob ==> r
  {
    u < prob
  }

  /** The 1-based position of the first draw that succeeds with probability `prob`, if any. */
  function FirstSuccess(draws: seq<real>, prob: real): (r: Option<nat>)
    ensures r.Some? ==> 1 <= r.value <= |draws|
  {
    if |draws| == 0 then None
    else if TrueWithProb(draws[0], prob) then Some(1)
    else match FirstSuccess(draws[1..], prob)
      case None => None
      case Some(j) => Some(j + 1)
  }

  /** No draw before position n succeeds. */
  ghost predicate NoSuccessBefore(draws: seq<real>, prob: real, n: nat) {
    n <= |draws| && forall i :: 0 <= i < n ==> !TrueWithProb(draws[i], prob)
  }

  /** The first success is at 0-based position n when it succeeds and none before it does. */
  lemma {:induction false} FirstSuccessAt(draws: seq<real>, prob: real, n: nat)
    requires n < |draws| && NoSuccessBefore(draws, prob, n) && TrueWithProb(draws[n], prob)
    ensures FirstSuccess(draws, prob) == Some(n + 1)
  {
    if n > 0 {
      assert !TrueWithProb(draws[0], prob);
      assert NoSuccessBefore(draws[1..], prob, n - 1) by {
        forall i | 0 <= i < n - 1
          ensures !TrueWithProb(draws[1..][i], prob)
        {
          assert draws[1..][i] == draws[i + 1];
        }
      }
      FirstSuccessAt(draws[1..], prob, n - 1);
    }
  }

  /** There is no first success when no draw succeeds. */
  lemma {:induction false} FirstSuccessNone(draws: seq<real>, prob: real)
    requires NoSuccessBefore(draws, prob, |draws|)
    ensures FirstSuccess(draws, prob) == None
  {
    if |draws| > 0 {
      assert !TrueWithProb(draws[0], prob);
      assert NoSuccessBefore(draws[1..], prob, |draws| - 1) by {
        forall i | 0 <= i < |draws| - 1
          ensures !TrueWithProb(draws[1..][i], prob)
        {
          assert draws[1..][i] == draws[i + 1];
        }
      }
      FirstSuccessNone(draws[1..], prob);
    }
  }

  /**
   * What `FirstSuccess` finds: a position whose draw succeeds with none succeeding before it,
   * or nothing exactly when no draw succeeds at all.
   */
  lemma {:induction false} FirstSuccessMeaning(draws: seq<real>, prob: real)
    ensures FirstSuccess(draws, prob).Some? ==>
      && TrueWithProb(draws[FirstSuccess(draws, prob).value - 1], prob)
      && NoSuccessBefore(draws, prob, FirstSuccess(draws, prob).value - 1)
    ensures FirstSuccess(draws, prob).None? <==> NoSuccessBefore(draws, prob, |draws|)
  {
    if |draws| > 0 && !TrueWithProb(draws[0], prob) {
      var rest := draws[1..];
      FirstSuccessMeaning(rest, prob);
      forall i | 0 <= i < |rest|
        ensures rest[i] == draws[i + 1]
      {
      }
      if FirstSuccess(rest, prob).None? {
        assert NoSuccessBefore(draws, prob, |draws|) by {
          forall i | 0 <= i < |draws|
            ensures !TrueWithProb(draws[i], prob)
          {
            if i > 0 {
              assert rest[i - 1] == draws[i];
            }
          }
        }
      } else {
        var j := FirstSuccess(rest, prob).value;
        assert NoSuccessBefore(draws, prob, j) by {
          forall i | 0 <= i < j
            ensures !TrueWithProb(draws[i], prob)
          {
            if i > 0 {
              assert rest[i - 1] == draws[i];
            }
          }
        }
        assert !NoSuccessBefore(draws, prob, |draws|) by {
          assert TrueWithProb(draws[j], prob);
        }
      }
    }
  }

  /**
   * One sample of the game length for continuation probability `prob`: the round j at which
   * the stop (probability 1 - prob) first happens; it consumes exactly j draws.
   */
  function Geometric(draws: seq<real>, prob: real): (r: Outcome<nat>)
    ensures r.Ok? ==> 1 <= r.value == r.used <= |draws|
    ensures r.Fail? ==> r.failure == DrawsExhausted
  {
    match FirstSuccess(draws, 1.0 - prob)
    case None => Fail(DrawsExhausted)
    case Some(j) => Ok(j, j)
  }

  /** `test_prob(prob)`: count rounds until the first stop. */
  method TestProb(prob: real, draws: seq<real>) returns (r: Outcome<nat>)
    ensures r == Geometric(draws, prob)
  {
    var j := 1;
    while true
      invariant 1 <= j <= |draws| + 1
      invariant NoSuccessBefore(draws, 1.0 - prob, j - 1)
      decreases |draws| + 1 - j
    {
      if j > |draws| {
        FirstSuccessNone(draws, 1.0 - prob);
        return Fail(DrawsExhausted);
      }
      if TrueWithProb(draws[j - 1], 1.0 - prob) {
        FirstSuccessAt(draws, 1.0 - prob, j - 1);
        return Ok(j, j);
      }
      j := j + 1;
    }
  }

  /**
   * The sum of `n` successive samples of `Geometric`, each reading the draws after the
   * previous one.  Since a sample of length j consumes j draws, the sum equals the number of
   * draws consumed, and it is at least `n`.
   */
  function SampleSum(draws: seq<real>, prob: real, n: nat): (r: Outcome<nat>)
    ensures r.Ok? ==> n <= r.value == r.used <= |draws|
    ensures r.Fail? ==> r.failure == DrawsExhausted
  {
    if n == 0 then Ok(0, 0)
    else match SampleSum(draws, prob, n - 1)
      case Fail(f) => Fail(f)
      case Ok(a, u) =>
        match Geometric(draws[u..], prob)
        case Fail(f) => Fail(f)
        case Ok(j, v) => Ok(a + j, u + v)
  }

  /** A finished sample n + 1 adds its length to the sum and to the draws used. */
  lemma SampleSumStep(draws: seq<real>, prob: real, n: nat, a: nat, u: nat, j: nat, v: nat)
    requires SampleSum(draws, prob, n) == Ok(a, u)
    requires Geometric(draws[u..], prob) == Ok(j, v)
    ensures SampleSum(draws, prob, n + 1) == Ok(a + j, u + v)
  {
  }

  /** Once a sample runs out of draws, no larger number of samples can finish. */
  lemma {:induction false} SampleSumExhausted(draws: seq<real>, prob: real, m: nat, n: nat)
    requires m < n && SampleSum(draws, prob, m).Ok?
    requires Geometric(draws[SampleSum(draws, prob, m).used..], prob).Fail?
    ensures SampleSum(draws, prob, n) == Fail(DrawsExhausted)
    decreases n - m
  {
    if m + 1 < n {
      SampleSumExhausted(draws, prob, m, n - 1);
    }
  }

  /**
   * With a continuation probability of 0 or less, draws in [0, 1) stop every game in its
   * first round, so n samples add up to exactly n and read n draws.
   */
  lemma {:induction false} SampleSumNonPositive(draws: seq<real>, prob: real, n: nat)
    requires prob <= 0.0 && n <= |draws|
    requires forall i :: 0 <= i < |draws| ==> 0.0 <= draws[i] < 1.0
    ensures SampleSum(draws, prob, n) == Ok(n, n)
  {
    if n > 0 {
      SampleSumNonPositive(draws, prob, n - 1);
      assert draws[n - 1..][0] == draws[n - 1];
      assert FirstSuccess(draws[n - 1..], 1.0 - prob) == Some(1);
    }
  }

  /**
   * `np.round(m, 0)` on an exact real: the nearest integer, ties going to the even one.
   */
  function Round(m: real): (r: int)
    ensures -0.5 <= r as real - m <= 0.5
    ensures (r as real - m == 0.5 || m - r as real == 0.5) ==> r % 2 == 0
  {
    var f := m.Floor;
    var frac := m - f as real;
    if frac < 0.5 then f
    else if frac > 0.5 then f + 1
    else if f % 2 == 0 then f
    else f + 1
  }

  /** A mean of at least one rounds to at least one. */
  lemma RoundAtLeastOne(m: real)
    requires m >= 1.0
    ensures Round(m) >= 1
  {
  }
}
