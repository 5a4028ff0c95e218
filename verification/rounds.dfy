/**
 * `rounds_from_beta` and its process-wide memo table `betas_rounds`, kept here as an explicit
 * object passed to its users.  Keys are compared exactly.
 */
module RoundsCache {
  import opened Outcomes
  import opened Sampler

  /** Number of game-length samples averaged for one beta. */
  const T: nat := 10000

  /** The loop of `rounds_from_beta`: the sum of `n` samples of `test_prob(beta)`. */
  method SampleTotal(beta: real, draws: seq<real>, n: nat) returns (r: Outcome<nat>)
    ensures r == SampleSum(draws, beta, n)
  {
    var a: nat, pos: nat := 0, 0;
    for i := 0 to n
      invariant SampleSum(draws, beta, i) == Ok(a, pos)
    {
      var sample := TestProb(beta, draws[pos..]);
      if sample.Fail? {
        SampleSumExhausted(draws, beta, i, n);
        return Fail(sample.failure);
      }
      SampleSumStep(draws, beta, i, a, pos, sample.value, sample.used);
      a, pos := a + sample.value, pos + sample.used;
    }
    r := Ok(a, pos);
  }

  /**
   * What `rounds_from_beta(beta)` returns given the cache `means`: the stored mean rounded on
   * a hit, reading no draws; on a miss the rounded mean of T samples read from `draws`.
   */
  function RoundsOf(means: map<real, real>, beta: real, draws: seq<real>): (r: Outcome<int>)
    ensures r.Ok? ==> r.used <= |draws|
    ensures r.Fail? ==> r.failure == DrawsExhausted && beta !in means
    ensures beta in means ==> r.used == 0
  {
    if beta in means then Ok(Round(means[beta]), 0)
    else match SampleSum(draws, beta, T)
      case Fail(f) => Fail(f)
      case Ok(a, u) => Ok(Round(a as real / T as real), u)
  }

  /** The cache after `rounds_from_beta(beta)`: a miss whose samples finish stores their mean. */
  function MeansAfter(means: map<real, real>, beta: real, draws: seq<real>): (r: map<real, real>)
    ensures beta in r <==> beta in means || SampleSum(draws, beta, T).Ok?
    ensures RoundsOf(means, beta, draws).Ok? ==> beta in r && RoundsOf(means, beta, draws).value == Round(r[beta])
  {
    if beta in means then means
    else match SampleSum(draws, beta, T)
      case Fail(_) => means
      case Ok(a, _) => means[beta := a as real / T as real]
  }

  /** A lookup keeps every cached entry and adds at most beta. */
  lemma MeansAfterKeeps(means: map<real, real>, beta: real, draws: seq<real>)
    ensures forall b :: b in means ==> b in MeansAfter(means, beta, draws) && MeansAfter(means, beta, draws)[b] == means[b]
    ensures forall b :: b in MeansAfter(means, beta, draws) ==> b in means || b == beta
  {
  }

  class RoundsTable {
    /** beta -> mean sampled game length; an entry is written once and never changed. */
    var means: map<real, real>

    /** Every stored mean is the mean of samples that are each at least one round long. */
    ghost predicate Valid()
      reads this
    {
      forall b :: b in means ==> means[b] >= 1.0
    }

    constructor ()
      ensures Valid() && means == map[]
    {
      means := map[];
    }

    /**
     * The rounded mean game length for `beta`.  On a miss it averages T samples of the
     * geometric process read from `draws` and stores the mean under `beta`, leaving every
     * other entry as it was; on a hit it consumes no draws and changes nothing.
     */
    method RoundsFromBeta(beta: real, draws: seq<real>) returns (r: Outcome<int>)
      requires Valid()
      modifies this
      ensures Valid()
      ensures r.Fail? ==> r.failure == DrawsExhausted && means == old(means)
      ensures r.Ok? ==> beta in means && r.value == Round(means[beta]) && r.value >= 1
      ensures r.Ok? ==> r.used <= |draws|
      ensures beta in old(means) ==> means == old(means) && r == Ok(Round(means[beta]), 0)
      ensures beta !in old(means) ==>
        match SampleSum(draws, beta, T)
        case Fail(f) => r == Fail(f)
        case Ok(a, u) =>
          && means == old(means)[beta := a as real / T as real]
          && r == Ok(Round(a as real / T as real), u)
      ensures r == RoundsOf(old(means), beta, draws) && means == MeansAfter(old(means), beta, draws)
    {
      if beta !in means {
        var total := SampleTotal(beta, draws, T);
        if total.Fail? {
          return Fail(total.failure);
        }
        var mean := total.value as real / T as real;
        assert mean >= 1.0;
        means := means[beta := mean];
        RoundAtLeastOne(mean);
        return Ok(Round(mean), total.used);
      }
      RoundAtLeastOne(means[beta]);
      r := Ok(Round(means[beta]), 0);
    }
  }
}
