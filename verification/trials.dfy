/**
 * The two trial generators, `play_normal` and `play_vs_MNE`, and the repetition of one of
 * them `times` times.  Each trial reads its draws from the front of the stream it is given.
 */
module Trials {
  import opened Outcomes
  import opened Payoffs
  import opened Sampler

  function Min(a: int, b: int): int { if a <= b then a else b }
  function Max(a: int, b: int): int { if a <= b then b else a }

  // ---------------------------------------------------------------------------------------
  // play_normal: agent 2 plays b for K rounds, then the sacrifice for S rounds, then a.

  /** The payoff of round j (1-based): z during K, w during S, x afterwards. */
  function NormalPay(K: nat, S: nat, j: nat): int {
    if j <= K then Z else if j <= K + S then W else X
  }

  /** The sacrificing player's total after j rounds. */
  function NormalUtil(K: nat, S: nat, j: nat): int {
    if j == 0 then 0 else NormalUtil(K, S, j - 1) + NormalPay(K, S, j)
  }

  /** Closed form of the running total: z per K round, w per S round, x per round after. */
  lemma {:induction false} NormalUtilClosedForm(K: nat, S: nat, j: nat)
    ensures NormalUtil(K, S, j)
            == Z * Min(j, K) + W * Min(Max(j - K, 0), S) + X * Max(j - K - S, 0)
  {
    if j > 0 {
      NormalUtilClosedForm(K, S, j - 1);
    }
  }

  /**
   * One trial against the deterministic opponent: the game stops at round j, drawn as in
   * `test_prob`, and is won iff z for each of the first K rounds, w for the next S and x for
   * the rest add up to at least j * z.
   */
  function NormalTrial(beta: real, K: nat, S: nat, draws: seq<real>): (r: Outcome<bool>)
    ensures r.Fail? <==> Geometric(draws, beta).Fail?
    ensures r.Fail? ==> r.failure == DrawsExhausted
    ensures r.Ok? ==> r.used == Geometric(draws, beta).value
  {
    match Geometric(draws, beta)
    case Fail(f) => Fail(f)
    case Ok(j, u) =>
      Ok(NormalUtil(K, S, j) >= j * Z, u)
  }

  /**
   * The outcome of a finished trial in closed form: stopping at round j, it is a win iff
   * z * min(j, K) + w * min(max(j - K, 0), S) + x * max(j - K - S, 0) >= j * z.
   */
  lemma NormalTrialMeaning(beta: real, K: nat, S: nat, draws: seq<real>)
    requires NormalTrial(beta, K, S, draws).Ok?
    ensures var j := Geometric(draws, beta).value;
      NormalTrial(beta, K, S, draws).value
      <==> Z * Min(j, K) + W * Min(Max(j - K, 0), S) + X * Max(j - K - S, 0) >= j * Z
  {
    NormalUtilClosedForm(K, S, Geometric(draws, beta).value);
  }

  /** A game that ends within the first K rounds is never lost: the total is exactly j * z. */
  lemma NormalStopDuringKWins(beta: real, K: nat, S: nat, draws: seq<real>)
    requires Geometric(draws, beta).Ok? && Geometric(draws, beta).value <= K
    ensures NormalUtil(K, S, Geometric(draws, beta).value) == Geometric(draws, beta).value * Z
    ensures NormalTrial(beta, K, S, draws) == Ok(true, Geometric(draws, beta).used)
  {
    NormalUtilClosedForm(K, S, Geometric(draws, beta).value);
  }

  /** With K = S = 0 every round pays x > z, so every finished trial is a win. */
  lemma NormalNoSacrificeAlwaysWins(beta: real, draws: seq<real>)
    ensures NormalTrial(beta, 0, 0, draws).Ok? ==> NormalTrial(beta, 0, 0, draws).value
  {
    if Geometric(draws, beta).Ok? {
      NormalUtilClosedForm(0, 0, Geometric(draws, beta).value);
    }
  }

  /** `play_normal(beta, K, S)`. */
  method PlayNormal(beta: real, K: nat, S: nat, draws: seq<real>) returns (r: Outcome<bool>)
    ensures r == NormalTrial(beta, K, S, draws)
  {
    var k, s := K, S;
    var j := 1;
    var sumUtil := 0;
    while true
      invariant 1 <= j <= |draws| + 1
      invariant k == Max(K - (j - 1), 0)
      invariant s == (if j - 1 <= K then S else Max(S - (j - 1 - K), 0))
      invariant sumUtil == NormalUtil(K, S, j - 1)
      invariant NoSuccessBefore(draws, 1.0 - beta, j - 1)
      decreases |draws| + 1 - j
    {
      if k > 0 {
        sumUtil := sumUtil + Z;
        k := k - 1;
      } else if s > 0 {
        sumUtil := sumUtil + W;
        s := s - 1;
      } else {
        sumUtil := sumUtil + X;
      }
      if j > |draws| {
        FirstSuccessNone(draws, 1.0 - beta);
        return Fail(DrawsExhausted);
      }
      if TrueWithProb(draws[j - 1], 1.0 - beta) {
        FirstSuccessAt(draws, 1.0 - beta, j - 1);
        return Ok(sumUtil >= j * Z, j);
      }
      j := j + 1;
    }
  }

  // ---------------------------------------------------------------------------------------
  // play_vs_MNE: the opponent plays a with probability P in every round.  A round reads two
  // draws: the opponent's mix, then the stop.

  /** The sacrificing player's payoff in round `i` (0-based) when the opponent mixed to a or not. */
  function MnePay(K: nat, i: nat, mixed: bool): int {
    if i < K then (if mixed then Y else Z) else (if mixed then X else W)
  }

  /** The payoff of the player who stays with B. */
  function BaselinePay(mixed: bool): int {
    if mixed then Y else Z
  }

  /** `sum_util` after the rounds whose mixing outcomes are `mixes`. */
  function SacrificeTotal(K: nat, mixes: seq<bool>): int {
    if |mixes| == 0 then 0
    else SacrificeTotal(K, mixes[..|mixes| - 1]) + MnePay(K, |mixes| - 1, mixes[|mixes| - 1])
  }

  /** `b_sum_util` after the rounds whose mixing outcomes are `mixes`. */
  function BaselineTotal(mixes: seq<bool>): int {
    if |mixes| == 0 then 0
    else BaselineTotal(mixes[..|mixes| - 1]) + BaselinePay(mixes[|mixes| - 1])
  }

  /** Number of rounds in which the opponent played a. */
  function Heads(mixes: seq<bool>): nat {
    if |mixes| == 0 then 0
    else Heads(mixes[..|mixes| - 1]) + (if mixes[|mixes| - 1] then 1 else 0)
  }

  /** The stop draws of `play_vs_MNE`: the second draw of every round. */
  function StopDraws(draws: seq<real>): (r: seq<real>)
    ensures |r| == |draws| / 2
  {
    seq(|draws| / 2, i requires 0 <= i < |draws| / 2 => draws[2 * i + 1])
  }

  /** The opponent's choices in the first n rounds: a iff the round's first draw is below P. */
  function Mixes(draws: seq<real>, n: nat): (r: seq<bool>)
    requires 2 * n <= |draws|
    ensures |r| == n
  {
    seq(n, i requires 0 <= i < n => TrueWithProb(draws[2 * i], P))
  }

  /**
   * One trial against the mixed-equilibrium opponent; S plays no part. Round n reads the
   * opponent's choice from draw 2n-2 and the stop from draw 2n-1; the trial ends at the first
   * round whose stop draw succeeds, having used two draws per round, and fails only when the
   * draws run out before any stop.
   */
  function MneTrial(beta: real, K: nat, draws: seq<real>): (r: Outcome<bool>)
    ensures r.Fail? ==> r.failure == DrawsExhausted
    ensures r.Ok? ==> (2 <= r.used <= |draws| && r.used % 2 == 0
                       && TrueWithProb(draws[r.used - 1], 1.0 - beta))
  {
    FirstSuccessMeaning(StopDraws(draws), 1.0 - beta);
    match FirstSuccess(StopDraws(draws), 1.0 - beta)
    case None => Fail(DrawsExhausted)
    case Some(j) =>
      var mixes := Mixes(draws, j);
      Ok(SacrificeTotal(K, mixes) >= BaselineTotal(mixes), 2 * j)
  }

  /**
   * The trial stops at the first round whose stop draw succeeds: no earlier stop draw does,
   * and it fails exactly when no stop draw among the pairs of draws succeeds.
   */
  lemma MneTrialMeaning(beta: real, K: nat, draws: seq<real>)
    ensures MneTrial(beta, K, draws).Ok? ==>
      NoSuccessBefore(StopDraws(draws), 1.0 - beta, MneTrial(beta, K, draws).used / 2 - 1)
    ensures MneTrial(beta, K, draws).Fail? <==> NoSuccessBefore(StopDraws(draws), 1.0 - beta, |draws| / 2)
  {
    FirstSuccessMeaning(StopDraws(draws), 1.0 - beta);
  }

  /** During the first K rounds both players receive the same payoff, so the totals agree. */
  lemma {:induction false} MneEqualDuringK(K: nat, mixes: seq<bool>)
    requires |mixes| <= K
    ensures SacrificeTotal(K, mixes) == BaselineTotal(mixes)
  {
    if |mixes| > 0 {
      MneEqualDuringK(K, mixes[..|mixes| - 1]);
    }
  }

  /** A game against the mixing opponent that ends within the first K rounds is a win. */
  lemma MneStopDuringKWins(beta: real, K: nat, draws: seq<real>)
    requires MneTrial(beta, K, draws).Ok? && MneTrial(beta, K, draws).used <= 2 * K
    ensures MneTrial(beta, K, draws).value
  {
    var j := FirstSuccess(StopDraws(draws), 1.0 - beta).value;
    MneEqualDuringK(K, Mixes(draws, j));
  }

  /**
   * After the first K rounds each round moves the difference of the totals by x - y when the
   * opponent plays a and by w - z otherwise.
   */
  lemma {:induction false} MneGap(K: nat, mixes: seq<bool>)
    requires K <= |mixes|
    ensures SacrificeTotal(K, mixes) - BaselineTotal(mixes)
            == (X - Y) * Heads(mixes[K..]) - (Z - W) * (|mixes| - K - Heads(mixes[K..]))
  {
    if |mixes| == K {
      MneEqualDuringK(K, mixes);
    } else {
      var init := mixes[..|mixes| - 1];
      MneGap(K, init);
      assert mixes[K..][..|mixes| - K - 1] == init[K..];
    }
  }

  /** Round n (0-based) adds its payoffs to both totals. */
  lemma TotalsStep(K: nat, draws: seq<real>, n: nat)
    requires 2 * n + 2 <= |draws|
    ensures SacrificeTotal(K, Mixes(draws, n + 1))
            == SacrificeTotal(K, Mixes(draws, n)) + MnePay(K, n, TrueWithProb(draws[2 * n], P))
    ensures BaselineTotal(Mixes(draws, n + 1))
            == BaselineTotal(Mixes(draws, n)) + BaselinePay(TrueWithProb(draws[2 * n], P))
  {
    assert Mixes(draws, n + 1)[..n] == Mixes(draws, n);
  }

  /** The trial ends in round n + 1 (0-based n) when that round's stop draw is the first to stop. */
  lemma MneTrialStopsAt(beta: real, K: nat, draws: seq<real>, n: nat)
    requires 2 * n + 2 <= |draws|
    requires NoSuccessBefore(StopDraws(draws), 1.0 - beta, n)
    requires TrueWithProb(draws[2 * n + 1], 1.0 - beta)
    ensures MneTrial(beta, K, draws)
            == Ok(SacrificeTotal(K, Mixes(draws, n + 1)) >= BaselineTotal(Mixes(draws, n + 1)), 2 * n + 2)
  {
    FirstSuccessAt(StopDraws(draws), 1.0 - beta, n);
  }

  /** The draws run out when fewer than two remain after n rounds without a stop. */
  lemma MneTrialExhausted(beta: real, K: nat, draws: seq<real>, n: nat)
    requires |draws| <= 2 * n + 1
    requires NoSuccessBefore(StopDraws(draws), 1.0 - beta, n)
    ensures MneTrial(beta, K, draws) == Fail(DrawsExhausted)
  {
    FirstSuccessNone(StopDraws(draws), 1.0 - beta);
  }

  /** `play_vs_MNE(beta, K, S)`. */
  method PlayVsMne(beta: real, K: nat, S: nat, draws: seq<real>) returns (r: Outcome<bool>)
    ensures r == MneTrial(beta, K, draws)
  {
    var p := P;
    var k, s := K, S;
    var sumUtil, bSumUtil := 0, 0;
    var i := 0;
    ghost var n := 0;  // rounds played
    ghost var stops := StopDraws(draws);
    while true
      invariant i == 2 * n <= |draws|
      invariant n <= K ==> k == K - n
      invariant K <= n ==> k == 0
      invariant sumUtil == SacrificeTotal(K, Mixes(draws, n))
      invariant bSumUtil == BaselineTotal(Mixes(draws, n))
      invariant NoSuccessBefore(stops, 1.0 - beta, n)
      decreases |draws| - i
    {
      if i == |draws| {
        MneTrialExhausted(beta, K, draws, n);
        return Fail(DrawsExhausted);
      }
      var mixed := TrueWithProb(draws[i], p);
      if k > 0 {
        if mixed {
          sumUtil, bSumUtil := sumUtil + Y, bSumUtil + Y;
        } else {
          sumUtil, bSumUtil := sumUtil + Z, bSumUtil + Z;
        }
        k := k - 1;
      } else {
        if mixed {
          sumUtil, bSumUtil := sumUtil + X, bSumUtil + Y;
        } else {
          sumUtil, bSumUtil := sumUtil + W, bSumUtil + Z;
        }
      }
      if i + 1 == |draws| {
        MneTrialExhausted(beta, K, draws, n);
        return Fail(DrawsExhausted);
      }
      TotalsStep(K, draws, n);
      assert sumUtil == SacrificeTotal(K, Mixes(draws, n + 1));
      assert bSumUtil == BaselineTotal(Mixes(draws, n + 1));
      if TrueWithProb(draws[i + 1], 1.0 - beta) {
        MneTrialStopsAt(beta, K, draws, n);
        return Ok(sumUtil >= bSumUtil, i + 2);
      }
      i, n := i + 2, n + 1;
    }
  }

  // ---------------------------------------------------------------------------------------
  // The `play` argument of `simulate`.

  datatype Strategy = Normal | VsMixedNash

  /** One trial of the chosen strategy. */
  function Trial(strategy: Strategy, beta: real, K: nat, S: nat, draws: seq<real>): (r: Outcome<bool>)
    ensures r.Ok? ==> 1 <= r.used <= |draws|
    ensures r.Fail? ==> r.failure == DrawsExhausted
  {
    match strategy
    case Normal => NormalTrial(beta, K, S, draws)
    case VsMixedNash => MneTrial(beta, K, draws)
  }

  /** `play(beta, K, S)`. */
  method Play(strategy: Strategy, beta: real, K: nat, S: nat, draws: seq<real>) returns (r: Outcome<bool>)
    ensures r == Trial(strategy, beta, K, S, draws)
  {
    match strategy
    case Normal => r := PlayNormal(beta, K, S, draws);
    case VsMixedNash => r := PlayVsMne(beta, K, S, draws);
  }

  /** The number of wins in n successive trials, each reading the draws after the previous. */
  function Wins(strategy: Strategy, beta: real, K: nat, S: nat, n: nat, draws: seq<real>): (r: Outcome<nat>)
    ensures r.Ok? ==> r.value <= n && r.used <= |draws|
    ensures r.Fail? ==> r.failure == DrawsExhausted
  {
    if n == 0 then Ok(0, 0)
    else match Wins(strategy, beta, K, S, n - 1, draws)
      case Fail(f) => Fail(f)
      case Ok(wins, u) =>
        match Trial(strategy, beta, K, S, draws[u..])
        case Fail(f) => Fail(f)
        case Ok(won, v) => Ok(if won then wins + 1 else wins, u + v)
  }

  /** A finished trial n + 1 adds its win to the count and its draws to those used. */
  lemma WinsStep(strategy: Strategy, beta: real, K: nat, S: nat, n: nat, draws: seq<real>,
                 wins: nat, u: nat, won: bool, v: nat)
    requires Wins(strategy, beta, K, S, n, draws) == Ok(wins, u)
    requires Trial(strategy, beta, K, S, draws[u..]) == Ok(won, v)
    ensures Wins(strategy, beta, K, S, n + 1, draws) == Ok(if won then wins + 1 else wins, u + v)
  {
  }

  /** Once a trial runs out of draws, no larger number of trials can finish. */
  lemma {:induction false} WinsExhausted(strategy: Strategy, beta: real, K: nat, S: nat,
                                         m: nat, n: nat, draws: seq<real>)
    requires m < n && Wins(strategy, beta, K, S, m, draws).Ok?
    requires Trial(strategy, beta, K, S, draws[Wins(strategy, beta, K, S, m, draws).used..]).Fail?
    ensures Wins(strategy, beta, K, S, n, draws) == Fail(DrawsExhausted)
    decreases n - m
  {
    if m + 1 < n {
      WinsExhausted(strategy, beta, K, S, m, n - 1, draws);
    }
  }

  /** The trial loop of `simulate`: count the wins of `times` trials. */
  method CountWins(strategy: Strategy, beta: real, K: nat, S: nat, times: nat, draws: seq<real>)
    returns (r: Outcome<nat>)
    ensures r == Wins(strategy, beta, K, S, times, draws)
    ensures r.Ok? ==> r.value <= times
  {
    var wins: nat, pos: nat := 0, 0;
    for i := 0 to times
      invariant Wins(strategy, beta, K, S, i, draws) == Ok(wins, pos)
    {
      var won := Play(strategy, beta, K, S, draws[pos..]);
      if won.Fail? {
        WinsExhausted(strategy, beta, K, S, i, times, draws);
        return Fail(won.failure);
      }
      WinsStep(strategy, beta, K, S, i, draws, wins, pos, won.value, won.used);
      if won.value {
        wins := wins + 1;
      }
      pos := pos + won.used;
    }
    r := Ok(wins, pos);
  }
}
