/**
 * `simulate` and `calculate_winrates_for_beta_range`: the scan over sacrifice schedules
 * (K, S) for one beta, and the sweep of that scan over a range of betas.
 */
module Sweep {
  import opened Outcomes
  import opened Sampler
  import opened RoundsCache
  import opened Eligibility
  import opened Trials

  /** Smallest K and S tried (`(k, s) = (2, 2)`). */
  const MinK: int := 2
  const MinS: int := 2

  /** `K_S_winrates`: (K, S) -> fraction of trials won. */
  type Grid = map<(int, int), real>

  /** (K, S) lies in the scanned rectangle `range(2, rounds - 2) x range(2, rounds - 2)`. */
  predicate InRange(K: int, S: int, rounds: int) {
    MinK <= K < rounds - MinS && MinS <= S < rounds - MinK
  }

  /** A scanned schedule that passes `sum_condition` for the mean game length `rounds`. */
  predicate Eligible(K: int, S: int, beta: real, rounds: int) {
    InRange(K, S, rounds) && SumCondition(K, S, beta, rounds)
  }

  /** `v` is `wins / times` for a whole number of wins between 0 and `times`. */
  ghost predicate IsRate(v: real, times: nat) {
    && times > 0
    && 0.0 <= v <= 1.0
    && (v * times as real).Floor as real == v * times as real
  }

  /** Every entry of the grid is an eligible schedule with a win rate. */
  ghost predicate Sound(grid: Grid, beta: real, rounds: int, times: nat) {
    forall key :: key in grid ==> Eligible(key.0, key.1, beta, rounds) && IsRate(grid[key], times)
  }

  /** Every eligible schedule before (K, S) in scan order has an entry. */
  ghost predicate CoveredBefore(grid: Grid, beta: real, rounds: int, K: int, S: int) {
    forall K', S' :: Eligible(K', S', beta, rounds) && (K' < K || (K' == K && S' < S)) ==> (K', S') in grid
  }

  /** Every eligible schedule has an entry. */
  ghost predicate Complete(grid: Grid, beta: real, rounds: int) {
    forall K, S :: Eligible(K, S, beta, rounds) ==> (K, S) in grid
  }

  /**
   * What `simulate` returns for mean game length `rounds`: None when no schedule is eligible,
   * otherwise a non-empty grid of exactly the eligible schedules with their win rates.
   * Exactness rests on eligibility being monotone in S, proved for beta >= 0 only.
   */
  ghost predicate Describes(result: Option<Grid>, beta: real, rounds: int, times: nat) {
    match result
    case None => 0.0 <= beta ==> forall K, S :: !Eligible(K, S, beta, rounds)
    case Some(grid) =>
      && grid != map[]
      && Sound(grid, beta, rounds, times)
      && (0.0 <= beta ==> Complete(grid, beta, rounds))
  }

  /**
   * `v` is the win fraction of `times` trials of (K, S) that read some stretch of `draws`
   * starting at an offset o.
   */
  ghost predicate MeasuredAt(v: real, strategy: Strategy, beta: real, K: nat, S: nat, times: nat,
                             draws: seq<real>) {
    && times > 0
    && exists o :: 0 <= o <= |draws|
         && Wins(strategy, beta, K, S, times, draws[o..]).Ok?
         && v == Wins(strategy, beta, K, S, times, draws[o..]).value as real / times as real
  }

  /** Every value of the grid is the win fraction of its own schedule's trials on `draws`. */
  ghost predicate Measured(grid: Grid, strategy: Strategy, beta: real, times: nat, draws: seq<real>) {
    forall key :: key in grid ==>
      key.0 >= 0 && key.1 >= 0 && MeasuredAt(grid[key], strategy, beta, key.0, key.1, times, draws)
  }

  /** A measurement on a suffix of the draws is a measurement on the draws. */
  lemma MeasuredAtSuffix(v: real, strategy: Strategy, beta: real, K: nat, S: nat, times: nat,
                         draws: seq<real>, p: nat)
    requires p <= |draws| && MeasuredAt(v, strategy, beta, K, S, times, draws[p..])
    ensures MeasuredAt(v, strategy, beta, K, S, times, draws)
  {
    var o :| 0 <= o <= |draws[p..]|
         && Wins(strategy, beta, K, S, times, draws[p..][o..]).Ok?
         && v == Wins(strategy, beta, K, S, times, draws[p..][o..]).value as real / times as real;
    assert draws[p..][o..] == draws[p + o..];
  }

  /** wins / times is a rate when wins <= times and times > 0. */
  lemma WinRate(wins: nat, times: nat)
    requires 0 < times && wins <= times
    ensures IsRate(wins as real / times as real, times)
  {
    var v := wins as real / times as real;
    assert v * times as real == wins as real;
  }

  /**
   * `wins / times` after the trial loop of (K, S): the trials run first, so running out of
   * draws comes before the division by zero.
   */
  function Rate(strategy: Strategy, beta: real, K: nat, S: nat, times: nat, draws: seq<real>): (r: Outcome<real>)
    ensures r.Ok? ==> IsRate(r.value, times) && r.used <= |draws|
    ensures r.Fail? ==> (r.failure == ZeroDivision <==> times == 0)
  {
    match Wins(strategy, beta, K, S, times, draws)
    case Fail(f) => Fail(f)
    case Ok(wins, u) =>
      if times == 0 then Fail(ZeroDivision)
      else
        WinRate(wins, times);
        Ok(wins as real / times as real, u)
  }

  /**
   * `wins / times` over `times` trials of (K, S): the fraction of `Wins`, or ZeroDivision when
   * there are no trials.
   */
  method WinRateOf(strategy: Strategy, beta: real, K: nat, S: nat, times: nat, draws: seq<real>)
    returns (r: Outcome<real>)
    ensures r.Ok? <==> times > 0 && Wins(strategy, beta, K, S, times, draws).Ok?
    ensures r.Ok? ==> IsRate(r.value, times) && r.used <= |draws|
    ensures r.Ok? ==> r.value == Wins(strategy, beta, K, S, times, draws).value as real / times as real
    ensures r.Fail? ==> (r.failure == ZeroDivision <==> times == 0)
    ensures r == Rate(strategy, beta, K, S, times, draws)
  {
    var won := CountWins(strategy, beta, K, S, times, draws);
    if won.Fail? {
      return Fail(won.failure);
    }
    if times == 0 {
      return Fail(ZeroDivision);
    }
    WinRate(won.value, times);
    r := Ok(won.value as real / times as real, won.used);
  }

  /**
   * `sum_condition(K, S, beta)` as the program runs it: it looks the round count up again,
   * which for a cached beta is a hit that reads no draws and changes nothing.
   */
  method CheckSumCondition(table: RoundsTable, K: nat, S: nat, beta: real) returns (b: bool)
    requires table.Valid() && beta in table.means
    modifies table
    ensures table.Valid() && table.means == old(table.means)
    ensures b == SumCondition(K, S, beta, Round(table.means[beta]))
  {
    var rounds := table.RoundsFromBeta(beta, []);
    b := SumCondition(K, S, beta, rounds.value);
  }

  /**
   * `row` is `grid` with entries added in row K only: earlier entries keep their values and
   * every new entry (K, S) holds the measured win fraction of (K, S).
   */
  ghost predicate RowExtends(row: Grid, grid: Grid, strategy: Strategy, beta: real, K: int,
                             times: nat, draws: seq<real>) {
    && grid.Keys <= row.Keys
    && (forall key :: key in grid ==> row[key] == grid[key])
    && (forall key :: key in row && key !in grid ==>
          key.0 == K && K >= 0 && key.1 >= 0 && MeasuredAt(row[key], strategy, beta, K, key.1, times, draws))
  }

  /** Recording one more measured schedule (K, S) of row K keeps `RowExtends`. */
  lemma RowExtendsStep(row: Grid, grid: Grid, strategy: Strategy, beta: real, K: nat, S: nat,
                       v: real, times: nat, draws: seq<real>)
    requires RowExtends(row, grid, strategy, beta, K, times, draws)
    requires (K, S) !in grid && MeasuredAt(v, strategy, beta, K, S, times, draws)
    ensures RowExtends(row[(K, S) := v], grid, strategy, beta, K, times, draws)
  {
  }

  /** Recording an eligible schedule (K, S) with a rate keeps the grid sound and covers (K, S). */
  lemma RecordStep(row: Grid, beta: real, total: int, times: nat, K: int, S: int, v: real)
    requires Sound(row, beta, total, times)
    requires 0.0 <= beta ==> CoveredBefore(row, beta, total, K, S)
    requires Eligible(K, S, beta, total) && IsRate(v, times)
    ensures Sound(row[(K, S) := v], beta, total, times)
    ensures 0.0 <= beta ==> CoveredBefore(row[(K, S) := v], beta, total, K, S + 1)
  {
  }

  /**
   * What the inner loop of `simulate` computes for row K from S on, given the grid so far and
   * the draws from offset `pos`: each eligible S, in order, records the rate of trials that
   * read the draws after the previous schedule's, until the first ineligible S or the end of
   * the range. The result is the grid with the row added and the offset after its trials.
   */
  function RowScan(strategy: Strategy, beta: real, total: int, K: nat, S: nat, times: nat,
                   row: Grid, draws: seq<real>, pos: nat): (r: Outcome<Grid>)
    requires pos <= |draws|
    ensures r.Ok? ==> pos <= r.used <= |draws|
    ensures r.Fail? ==> (r.failure == ZeroDivision <==> times == 0)
    decreases total - S
  {
    if total - MinK <= S || !SumCondition(K, S, beta, total) then Ok(row, pos)
    else match Rate(strategy, beta, K, S, times, draws[pos..])
      case Fail(f) => Fail(f)
      case Ok(v, u) => RowScan(strategy, beta, total, K, S + 1, times, row[(K, S) := v], draws, pos + u)
  }

  /** An eligible schedule whose trials finish records its rate and moves on to S + 1. */
  lemma RowScanStep(strategy: Strategy, beta: real, total: int, K: nat, S: nat, times: nat,
                    row: Grid, draws: seq<real>, pos: nat, v: real, u: nat, outcome: Outcome<Grid>,
                    S': nat, row': Grid, pos': nat)
    requires pos <= |draws| && S < total - MinK && SumCondition(K, S, beta, total)
    requires Rate(strategy, beta, K, S, times, draws[pos..]) == Ok(v, u)
    requires RowScan(strategy, beta, total, K, S, times, row, draws, pos) == outcome
    requires S' == S + 1 && row' == row[(K, S) := v] && pos' == pos + u
    ensures pos' <= |draws|
    ensures RowScan(strategy, beta, total, K, S', times, row', draws, pos') == outcome
  {
  }

  /**
   * One pass of the inner loop: recording the rate of an eligible schedule (K, S) measured on
   * the draws from `pos` keeps every invariant of the row scan.
   */
  lemma ScanStep(strategy: Strategy, beta: real, total: int, K: nat, S: nat, times: nat,
                 grid: Grid, row: Grid, draws: seq<real>, pos: nat, v: real, u: nat,
                 outcome: Outcome<Grid>, nextS: nat, nextRow: Grid, nextPos: nat)
    requires pos <= |draws| && S < total - MinK && Eligible(K, S, beta, total)
    requires Rate(strategy, beta, K, S, times, draws[pos..]) == Ok(v, u)
    requires RowScan(strategy, beta, total, K, S, times, row, draws, pos) == outcome
    requires (K, S) !in grid && RowExtends(row, grid, strategy, beta, K, times, draws)
    requires Sound(row, beta, total, times)
    requires 0.0 <= beta ==> CoveredBefore(row, beta, total, K, S)
    requires nextS == S + 1 && nextRow == row[(K, S) := v] && nextPos == pos + u
    ensures nextPos <= |draws| && grid.Keys <= nextRow.Keys
    ensures RowScan(strategy, beta, total, K, nextS, times, nextRow, draws, nextPos) == outcome
    ensures RowExtends(nextRow, grid, strategy, beta, K, times, draws)
    ensures Sound(nextRow, beta, total, times)
    ensures 0.0 <= beta ==> CoveredBefore(nextRow, beta, total, K, nextS)
  {
    RowScanStep(strategy, beta, total, K, S, times, row, draws, pos, v, u, outcome, nextS, nextRow, nextPos);
    assert MeasuredAt(v, strategy, beta, K, S, times, draws[pos..]) by {
      assert draws[pos..][0..] == draws[pos..];
    }
    MeasuredAtSuffix(v, strategy, beta, K, S, times, draws, pos);
    RowExtendsStep(row, grid, strategy, beta, K, S, v, times, draws);
    RecordStep(row, beta, total, times, K, S, v);
  }

  /**
   * The inner loop of `simulate` for one K: S runs up from 2 while the schedule stays eligible,
   * each eligible schedule getting the win rate of `times` trials.  Returns the grid with this
   * row added and the draws the trials consumed.
   */
  method ScanRow(table: RoundsTable, beta: real, total: int, K: nat, times: nat,
                 strategy: Strategy, grid: Grid, draws: seq<real>, start: nat)
    returns (r: Outcome<Grid>)
    requires start <= |draws|
    requires table.Valid() && beta in table.means && Round(table.means[beta]) == total
    requires MinK <= K && Sound(grid, beta, total, times)
    requires forall key :: key in grid ==> key.0 < K
    requires 0.0 <= beta ==> CoveredBefore(grid, beta, total, K, MinS)
    requires times == 0 ==> grid == map[]
    modifies table
    ensures table.Valid() && table.means == old(table.means)
    ensures r == RowScan(strategy, beta, total, K, MinS, times, grid, draws, start)
    ensures r.Fail? && r.failure == ZeroDivision ==> times == 0
    ensures r.Ok? ==> r.used <= |draws| && RowExtends(r.value, grid, strategy, beta, K, times, draws)
    ensures r.Ok? ==> Sound(r.value, beta, total, times)
    ensures r.Ok? && 0.0 <= beta ==> CoveredBefore(r.value, beta, total, K + 1, MinS)
    ensures r.Ok? && times == 0 ==> r.value == map[]
  {
    var row := grid;
    var pos: nat := start;
    var S: nat := MinS;
    ghost var outcome := RowScan(strategy, beta, total, K, MinS, times, grid, draws, start);
    while S < total - MinK
      invariant MinS <= S && start <= pos <= |draws| && grid.Keys <= row.Keys
      invariant RowScan(strategy, beta, total, K, S, times, row, draws, pos) == outcome
      invariant RowExtends(row, grid, strategy, beta, K, times, draws)
      invariant table.Valid() && table.means == old(table.means)
      invariant Sound(row, beta, total, times)
      invariant 0.0 <= beta ==> CoveredBefore(row, beta, total, K, S)
      invariant times == 0 ==> row == map[]
    {
      var eligible := CheckSumCondition(table, K, S, beta);
      if !eligible {
        if 0.0 <= beta {
          RowComplete(row, beta, total, K, S);
        }
        return Ok(row, pos);
      }
      assert Eligible(K, S, beta, total);
      var rate := WinRateOf(strategy, beta, K, S, times, draws[pos..]);
      if rate.Fail? {
        return Fail(rate.failure);
      }
      var v, u := rate.value, rate.used;
      var nextRow, nextPos, nextS := row[(K, S) := v], pos + u, S + 1;
      ScanStep(strategy, beta, total, K, S, times, grid, row, draws, pos, v, u, outcome, nextS, nextRow, nextPos);
      row, pos, S := nextRow, nextPos, nextS;
    }
    r := Ok(row, pos);
  }

  /**
   * Stopping the row at the first ineligible S loses nothing: by monotonicity no larger S of
   * the same K is eligible, so the next K starts with everything before it covered.
   */
  lemma RowComplete(grid: Grid, beta: real, total: int, K: int, S: int)
    requires 0.0 <= beta && MinK <= K && MinS <= S
    requires CoveredBefore(grid, beta, total, K, S)
    requires !SumCondition(K, S, beta, total)
    ensures CoveredBefore(grid, beta, total, K + 1, MinS)
  {
    forall S' | S <= S'
      ensures !SumCondition(K, S', beta, total)
    {
      EligibilityMonotone(K, S, S', beta, total);
    }
  }

  /** Adding a measured row keeps the whole grid measured. */
  lemma MeasuredAfterRow(grid: Grid, row: Grid, strategy: Strategy, beta: real, K: int, times: nat,
                         draws: seq<real>)
    requires Measured(grid, strategy, beta, times, draws)
    requires RowExtends(row, grid, strategy, beta, K, times, draws)
    ensures Measured(row, strategy, beta, times, draws)
  {
  }

  /**
   * What the outer loop of `simulate` computes from row K on, given the grid so far and the
   * draws from offset `pos`: each K of the range scans its row on the draws after the previous
   * row's trials.
   */
  function GridScan(strategy: Strategy, beta: real, total: int, K: nat, times: nat, grid: Grid,
                    draws: seq<real>, pos: nat): (r: Outcome<Grid>)
    requires pos <= |draws|
    ensures r.Ok? ==> pos <= r.used <= |draws|
    ensures r.Fail? ==> (r.failure == ZeroDivision <==> times == 0)
    decreases total - K
  {
    if total - MinS <= K then Ok(grid, pos)
    else match RowScan(strategy, beta, total, K, MinS, times, grid, draws, pos)
      case Fail(f) => Fail(f)
      case Ok(row, p) => GridScan(strategy, beta, total, K + 1, times, row, draws, p)
  }

  /** A row whose scan finishes hands its grid and the rest of the draws to row K + 1. */
  lemma GridScanStep(strategy: Strategy, beta: real, total: int, K: nat, times: nat, grid: Grid,
                     draws: seq<real>, pos: nat, row: Grid, p: nat, outcome: Outcome<Grid>, nextK: nat)
    requires pos <= |draws| && K < total - MinS
    requires RowScan(strategy, beta, total, K, MinS, times, grid, draws, pos) == Ok(row, p)
    requires GridScan(strategy, beta, total, K, times, grid, draws, pos) == outcome
    requires nextK == K + 1
    ensures p <= |draws|
    ensures GridScan(strategy, beta, total, nextK, times, row, draws, p) == outcome
  {
  }

  /**
   * What `simulate(beta, times, play)` returns given the cache `means`: the round count is
   * looked up (sampling T games from the start of the draws on a miss), the rectangle is
   * scanned on the draws after those samples, and an empty grid becomes None. It fails only
   * when a sample or a trial runs out of draws, or on ZeroDivision when `times == 0` and some
   * schedule is eligible.
   */
  function SimulateOutcome(strategy: Strategy, means: map<real, real>, beta: real, times: nat,
                           draws: seq<real>): (r: Outcome<Option<Grid>>)
    ensures r.Ok? ==> r.used <= |draws|
    ensures r.Fail? && r.failure == ZeroDivision ==> times == 0
    ensures r.Fail? && times > 0 ==> r.failure == DrawsExhausted
  {
    match RoundsOf(means, beta, draws)
    case Fail(f) => Fail(f)
    case Ok(total, pos) =>
      match GridScan(strategy, beta, total, MinK, times, map[], draws, pos)
      case Fail(f) => Fail(f)
      case Ok(grid, used) => Ok(if grid == map[] then None else Some(grid), used)
  }

  /**
   * `simulate(beta, times, play)`.  The mean game length is looked up once, and again (as a
   * cache hit) for every `sum_condition`; each row stops at its first ineligible S.
   * `times == 0` raises ZeroDivision at the first eligible schedule.
   */
  method Simulate(table: RoundsTable, beta: real, times: nat, strategy: Strategy, draws: seq<real>)
    returns (r: Outcome<Option<Grid>>)
    requires table.Valid()
    modifies table
    ensures table.Valid()
    ensures table.means.Keys <= old(table.means).Keys + {beta}
    ensures forall b :: b in old(table.means) ==> b in table.means && table.means[b] == old(table.means)[b]
    ensures beta in old(table.means) ==> table.means == old(table.means)
    ensures r.Ok? ==> r.used <= |draws| && beta in table.means
    ensures r.Ok? && beta !in old(table.means) ==>
      && SampleSum(draws, beta, T).Ok?
      && table.means[beta] == SampleSum(draws, beta, T).value as real / T as real
    ensures r.Ok? ==> Describes(r.value, beta, Round(table.means[beta]), times)
    ensures r.Ok? && r.value.Some? ==> Measured(r.value.value, strategy, beta, times, draws)
    ensures r.Fail? && r.failure == ZeroDivision ==> times == 0
    ensures r.Ok? && times == 0 ==> r.value.None?
    ensures r == SimulateOutcome(strategy, old(table.means), beta, times, draws)
    ensures table.means == MeansAfter(old(table.means), beta, draws)
  {
    var rounds := table.RoundsFromBeta(beta, draws);
    if rounds.Fail? {
      return Fail(rounds.failure);
    }
    var total := rounds.value;
    var pos: nat := rounds.used;
    ghost var means := table.means;
    var grid: Grid := map[];
    var K: nat := MinK;
    ghost var outcome := GridScan(strategy, beta, total, MinK, times, map[], draws, pos);
    while K < total - MinS
      invariant MinK <= K && pos <= |draws|
      invariant GridScan(strategy, beta, total, K, times, grid, draws, pos) == outcome
      invariant forall key :: key in grid ==> key.0 < K
      invariant Measured(grid, strategy, beta, times, draws)
      invariant table.Valid() && table.means == means && beta in means
      invariant Round(means[beta]) == total
      invariant Sound(grid, beta, total, times)
      invariant 0.0 <= beta ==> CoveredBefore(grid, beta, total, K, MinS)
      invariant times == 0 ==> grid == map[]
    {
      var row := ScanRow(table, beta, total, K, times, strategy, grid, draws, pos);
      if row.Fail? {
        return Fail(row.failure);
      }
      var value, used, nextK := row.value, row.used, K + 1;
      MeasuredAfterRow(grid, value, strategy, beta, K, times, draws);
      GridScanStep(strategy, beta, total, K, times, grid, draws, pos, value, used, outcome, nextK);
      grid, pos, K := value, used, nextK;
    }
    if grid == map[] {
      return Ok(None, pos);
    }
    r := Ok(Some(grid), pos);
  }

  // ---------------------------------------------------------------------------------------
  // calculate_winrates_for_beta_range

  /** The least integer at or above q. */
  function Ceil(q: real): (c: int)
    ensures q <= c as real < q + 1.0
  {
    -((-q).Floor)
  }

  /** The i-th value of `np.arange(start, stop, step)`. */
  function ArangeTerm(start: real, step: real, i: nat): real {
    start + i as real * step
  }

  /**
   * `np.arange(start, stop, step)` on exact reals: start, start + step, ... for as long as the
   * values stay strictly on the start side of `stop`.
   */
  function Arange(start: real, stop: real, step: real): (r: seq<real>)
    requires step != 0.0
    ensures forall i :: 0 <= i < |r| ==> r[i] == start + i as real * step
    ensures step > 0.0 ==> (forall i :: 0 <= i < |r| ==> r[i] < stop) && stop <= start + |r| as real * step
    ensures step < 0.0 ==> (forall i :: 0 <= i < |r| ==> r[i] > stop) && stop >= start + |r| as real * step
  {
    var c := Ceil((stop - start) / step);
    var n: nat := if c < 0 then 0 else c;
    ArangeBounds(start, stop, step, n);
    seq(n, i requires 0 <= i < n => ArangeTerm(start, step, i))
  }

  /** The arithmetic behind `Arange`: below the ceiling the values stay on the start side. */
  lemma ArangeBounds(start: real, stop: real, step: real, n: nat)
    requires step != 0.0
    requires n == (var c := Ceil((stop - start) / step); if c < 0 then 0 else c)
    ensures step > 0.0 ==> (forall i: nat :: i < n ==> ArangeTerm(start, step, i) < stop)
    ensures step > 0.0 ==> stop <= ArangeTerm(start, step, n)
    ensures step < 0.0 ==> (forall i: nat :: i < n ==> ArangeTerm(start, step, i) > stop)
    ensures step < 0.0 ==> stop >= ArangeTerm(start, step, n)
  {
    var q := (stop - start) / step;
    assert q * step == stop - start;
    forall i: nat | i < n
      ensures step > 0.0 ==> ArangeTerm(start, step, i) < stop
      ensures step < 0.0 ==> ArangeTerm(start, step, i) > stop
    {
      assert i as real < q;
      if step > 0.0 {
        assert i as real * step < q * step;
      } else {
        assert i as real * step > q * step;
      }
    }
    assert q <= n as real;
    if step > 0.0 {
      assert q * step <= n as real * step;
    } else {
      assert q * step >= n as real * step;
    }
  }

  /** `dict(filter(lambda elem: elem[1] is not None, ...))`: keep the betas that found a grid. */
  function KeepFound(m: map<real, Option<Grid>>): (r: map<real, Grid>)
    ensures r.Keys == set b | b in m && m[b].Some?
    ensures forall b :: b in r ==> m[b] == Some(r[b])
  {
    map b | b in m && m[b].Some? :: m[b].value
  }

  /** The cached mean of `b` is the mean of T samples read from some stretch of `draws`. */
  ghost predicate SampledMean(means: map<real, real>, b: real, draws: seq<real>)
    requires b in means
  {
    exists o :: 0 <= o <= |draws|
      && SampleSum(draws[o..], b, T).Ok?
      && means[b] == SampleSum(draws[o..], b, T).value as real / T as real
  }

  /** A mean sampled from a suffix of the draws is sampled from the draws. */
  lemma SampledMeanSuffix(means: map<real, real>, b: real, draws: seq<real>, p: nat)
    requires b in means && p <= |draws| && SampledMean(means, b, draws[p..])
    ensures SampledMean(means, b, draws)
  {
    var o :| 0 <= o <= |draws[p..]|
      && SampleSum(draws[p..][o..], b, T).Ok?
      && means[b] == SampleSum(draws[p..][o..], b, T).value as real / T as real;
    assert draws[p..][o..] == draws[p + o..];
  }

  /** An entry that keeps its value keeps its provenance. */
  lemma SampledMeanKept(means: map<real, real>, means': map<real, real>, b: real, draws: seq<real>)
    requires b in means && b in means' && means'[b] == means[b] && SampledMean(means, b, draws)
    ensures SampledMean(means', b, draws)
  {
    var o :| 0 <= o <= |draws|
      && SampleSum(draws[o..], b, T).Ok?
      && means[b] == SampleSum(draws[o..], b, T).value as real / T as real;
  }

  /** A grid measured on a suffix of the draws is measured on the draws. */
  lemma MeasuredSuffix(grid: Grid, strategy: Strategy, beta: real, times: nat, draws: seq<real>, p: nat)
    requires p <= |draws| && Measured(grid, strategy, beta, times, draws[p..])
    ensures Measured(grid, strategy, beta, times, draws)
  {
    forall key | key in grid
      ensures key.0 >= 0 && key.1 >= 0 && MeasuredAt(grid[key], strategy, beta, key.0, key.1, times, draws)
    {
      MeasuredAtSuffix(grid[key], strategy, beta, key.0, key.1, times, draws, p);
    }
  }

  /** Every new cache entry for a beta of `betas` is a mean sampled from `draws`. */
  ghost predicate NewMeansSampled(means: map<real, real>, old_means: map<real, real>,
                                  betas: seq<real>, draws: seq<real>) {
    forall b :: b in betas && b !in old_means ==> b in means && SampledMean(means, b, draws)
  }

  /** Every grid among the results is measured on `draws`. */
  ghost predicate GridsMeasured(results: map<real, Option<Grid>>, strategy: Strategy, times: nat,
                                draws: seq<real>) {
    forall b :: b in results && results[b].Some? ==> Measured(results[b].value, strategy, b, times, draws)
  }

  /** Each beta of `betas` has a `simulate` result that `Describes` it under the cache `means`. */
  ghost predicate AllDescribed(results: map<real, Option<Grid>>, betas: seq<real>,
                               means: map<real, real>, times: nat) {
    forall b :: b in betas ==>
      b in results && b in means && Describes(results[b], b, Round(means[b]), times)
  }

  /**
   * After `simulate` for betas[i] read from draws[pos..], every new entry for betas[..i+1] is
   * still a sampled mean: earlier ones keep their values, and a miss on betas[i] sampled its
   * mean from draws[pos..].
   */
  lemma NewMeanStep(before: map<real, real>, after: map<real, real>, old_means: map<real, real>,
                    betas: seq<real>, i: nat, draws: seq<real>, pos: nat)
    requires i < |betas| && pos <= |draws|
    requires NewMeansSampled(before, old_means, betas[..i], draws)
    requires forall b :: b in before ==> b in after && after[b] == before[b]
    requires AmongBetas(before.Keys - old_means.Keys, betas[..i])
    requires betas[i] !in before ==>
      (betas[i] in after && SampleSum(draws[pos..], betas[i], T).Ok?
       && after[betas[i]] == SampleSum(draws[pos..], betas[i], T).value as real / T as real)
    ensures NewMeansSampled(after, old_means, betas[..i + 1], draws)
  {
    assert betas[..i + 1] == betas[..i] + [betas[i]];
    forall b | b in betas[..i + 1] && b !in old_means
      ensures b in after && SampledMean(after, b, draws)
    {
      if b in betas[..i] {
        SampledMeanKept(before, after, b, draws);
      } else {
        // a beta that neither was cached at the start nor came earlier is a miss now
        assert b == betas[i] && b !in before;
        assert SampledMean(after, b, draws[pos..]) by {
          assert draws[pos..][0..] == draws[pos..];
        }
        SampledMeanSuffix(after, b, draws, pos);
      }
    }
  }

  /**
   * Recording the result for betas[i] keeps every earlier beta described (its cached mean is
   * unchanged) and every grid measured.
   */
  lemma ResultsStep(results: map<real, Option<Grid>>, found: Option<Grid>,
                    before: map<real, real>, after: map<real, real>,
                    betas: seq<real>, i: nat, strategy: Strategy, times: nat, draws: seq<real>)
    requires i < |betas|
    requires AllDescribed(results, betas[..i], before, times)
    requires GridsMeasured(results, strategy, times, draws)
    requires forall b :: b in before ==> b in after && after[b] == before[b]
    requires betas[i] in after && Describes(found, betas[i], Round(after[betas[i]]), times)
    requires found.Some? ==> Measured(found.value, strategy, betas[i], times, draws)
    ensures AllDescribed(results[betas[i] := found], betas[..i + 1], after, times)
    ensures GridsMeasured(results[betas[i] := found], strategy, times, draws)
  {
    assert betas[..i + 1] == betas[..i] + [betas[i]];
  }

  /**
   * What the loop of `calculate_winrates_for_beta_range` computes from betas[i] on, given the
   * cache `means`, the results so far and the draws from offset `pos`: each beta in turn is
   * simulated on the draws after the previous one's, its cache entry added on a miss; the
   * first failure ends the loop.
   */
  function SweepFrom(strategy: Strategy, means: map<real, real>, betas: seq<real>, i: nat,
                     results: map<real, Option<Grid>>, times: nat, draws: seq<real>, pos: nat)
    : (r: Outcome<map<real, Option<Grid>>>)
    requires i <= |betas| && pos <= |draws|
    ensures r.Ok? ==> pos <= r.used <= |draws|
    ensures r.Fail? && r.failure == ZeroDivision ==> times == 0
    ensures r.Fail? && times > 0 ==> r.failure == DrawsExhausted
    decreases |betas| - i
  {
    if i == |betas| then Ok(results, pos)
    else match SimulateOutcome(strategy, means, betas[i], times, draws[pos..])
      case Fail(f) => Fail(f)
      case Ok(found, u) =>
        SweepFrom(strategy, MeansAfter(means, betas[i], draws[pos..]), betas, i + 1,
                  results[betas[i] := found], times, draws, pos + u)
  }

  /**
   * The cache after the loop of `calculate_winrates_for_beta_range` from betas[i] on: each
   * beta's lookup leaves `MeansAfter`, and the loop stops after the lookup of the first beta
   * whose `simulate` fails, keeping what that lookup stored.
   */
  function SweepMeans(strategy: Strategy, means: map<real, real>, betas: seq<real>, i: nat,
                      times: nat, draws: seq<real>, pos: nat): (r: map<real, real>)
    requires i <= |betas| && pos <= |draws|
    ensures forall b :: b in means ==> b in r && r[b] == means[b]
    ensures forall b :: b in r ==> b in means || b in betas[i..]
    decreases |betas| - i
  {
    if i == |betas| then means
    else
      var next := MeansAfter(means, betas[i], draws[pos..]);
      MeansAfterKeeps(means, betas[i], draws[pos..]);
      match SimulateOutcome(strategy, means, betas[i], times, draws[pos..])
      case Fail(_) => next
      case Ok(_, u) =>
        var r := SweepMeans(strategy, next, betas, i + 1, times, draws, pos + u);
        assert forall b :: b in betas[i + 1..] ==> b in betas[i..];
        r
  }

  /** A beta whose `simulate` finishes records its result and hands the rest of the draws on. */
  lemma SweepStep(strategy: Strategy, means: map<real, real>, betas: seq<real>, i: nat,
                  results: map<real, Option<Grid>>, times: nat, draws: seq<real>, pos: nat,
                  found: Option<Grid>, u: nat, outcome: Outcome<map<real, Option<Grid>>>,
                  nextMeans: map<real, real>, nextResults: map<real, Option<Grid>>, nextPos: nat)
    requires i < |betas| && pos <= |draws|
    requires SimulateOutcome(strategy, means, betas[i], times, draws[pos..]) == Ok(found, u)
    requires SweepFrom(strategy, means, betas, i, results, times, draws, pos) == outcome
    requires nextMeans == MeansAfter(means, betas[i], draws[pos..])
    requires nextResults == results[betas[i] := found] && nextPos == pos + u
    ensures nextPos <= |draws|
    ensures SweepFrom(strategy, nextMeans, betas, i + 1, nextResults, times, draws, nextPos) == outcome
  {
  }

  /** A beta whose `simulate` finishes hands the cache its lookup left to the next beta. */
  lemma SweepMeansStep(strategy: Strategy, means: map<real, real>, betas: seq<real>, i: nat,
                       times: nat, draws: seq<real>, pos: nat, found: Option<Grid>, u: nat,
                       finalMeans: map<real, real>, nextMeans: map<real, real>, nextPos: nat)
    requires i < |betas| && pos <= |draws|
    requires SimulateOutcome(strategy, means, betas[i], times, draws[pos..]) == Ok(found, u)
    requires SweepMeans(strategy, means, betas, i, times, draws, pos) == finalMeans
    requires nextMeans == MeansAfter(means, betas[i], draws[pos..]) && nextPos == pos + u
    ensures nextPos <= |draws|
    ensures SweepMeans(strategy, nextMeans, betas, i + 1, times, draws, nextPos) == finalMeans
  {
    assert nextPos <= |draws|;
    assert SweepMeans(strategy, means, betas, i, times, draws, pos)
        == SweepMeans(strategy, nextMeans, betas, i + 1, times, draws, nextPos);
  }

  /** A beta whose `simulate` fails ends the loop with the cache its lookup left. */
  lemma SweepMeansStop(strategy: Strategy, means: map<real, real>, betas: seq<real>, i: nat,
                       times: nat, draws: seq<real>, pos: nat, f: Failure,
                       finalMeans: map<real, real>, nextMeans: map<real, real>)
    requires i < |betas| && pos <= |draws|
    requires SimulateOutcome(strategy, means, betas[i], times, draws[pos..]) == Fail(f)
    requires SweepMeans(strategy, means, betas, i, times, draws, pos) == finalMeans
    requires nextMeans == MeansAfter(means, betas[i], draws[pos..])
    ensures nextMeans == finalMeans
  {
  }

  /**
   * `calculate_winrates_for_beta_range` as a value: a zero step raises ZeroDivision before
   * anything is simulated; otherwise the betas of the range are swept from the start of the
   * draws and the betas without a grid are dropped.
   */
  function Winrates(strategy: Strategy, means: map<real, real>, start: real, stop: real, step: real,
                    times: nat, draws: seq<real>): (r: Outcome<map<real, Grid>>)
    ensures r.Ok? ==> step != 0.0 && r.used <= |draws|
    ensures r.Fail? && r.failure == ZeroDivision ==> step == 0.0 || times == 0
    ensures r.Fail? && step != 0.0 && times > 0 ==> r.failure == DrawsExhausted
  {
    if step == 0.0 then Fail(ZeroDivision)
    else match SweepFrom(strategy, means, Arange(start, stop, step), 0, map[], times, draws, 0)
      case Fail(f) => Fail(f)
      case Ok(found, u) => Ok(KeepFound(found), u)
  }

  /** Every key of `keys` is one of `betas`. */
  ghost predicate AmongBetas(keys: set<real>, betas: seq<real>) {
    forall b :: b in keys ==> b in betas
  }

  /** `AmongBetas` as a bound on a set of keys. */
  lemma AmongBetasBound(keys: set<real>, base: set<real>, betas: seq<real>)
    requires AmongBetas(keys - base, betas)
    ensures keys <= base + set b | b in betas
  {
    forall k | k in keys
      ensures k in base + set b | b in betas
    {
      if k !in base {
        assert k in keys - base;
      }
    }
  }

  /** A lookup for betas[i] adds at most betas[i] to the betas the sweep has added so far. */
  lemma CacheKeysStep(before: map<real, real>, after: map<real, real>, oldMeans: map<real, real>,
                      betas: seq<real>, i: nat)
    requires i < |betas|
    requires AmongBetas(before.Keys - oldMeans.Keys, betas[..i])
    requires after.Keys <= before.Keys + {betas[i]}
    ensures AmongBetas(after.Keys - oldMeans.Keys, betas[..i + 1])
  {
    assert betas[..i + 1] == betas[..i] + [betas[i]];
  }

  /**
   * One pass of the beta loop: recording the result of betas[i], whose `simulate` finished on
   * the draws from `pos` and left the cache `after`, keeps every invariant of the sweep.
   */
  lemma SweepIteration(strategy: Strategy, betas: seq<real>, i: nat, times: nat, draws: seq<real>,
                       pos: nat, oldMeans: map<real, real>, before: map<real, real>,
                       after: map<real, real>, results: map<real, Option<Grid>>, found: Option<Grid>,
                       u: nat, outcome: Outcome<map<real, Option<Grid>>>, finalMeans: map<real, real>,
                       nextResults: map<real, Option<Grid>>, nextPos: nat)
    requires i < |betas| && pos <= |draws|
    requires SimulateOutcome(strategy, before, betas[i], times, draws[pos..]) == Ok(found, u)
    requires after == MeansAfter(before, betas[i], draws[pos..])
    requires forall b :: b in before ==> b in after && after[b] == before[b]
    requires betas[i] !in before ==>
      && SampleSum(draws[pos..], betas[i], T).Ok?
      && after[betas[i]] == SampleSum(draws[pos..], betas[i], T).value as real / T as real
    requires betas[i] in after && Describes(found, betas[i], Round(after[betas[i]]), times)
    requires found.Some? ==> Measured(found.value, strategy, betas[i], times, draws[pos..])
    requires AmongBetas(before.Keys - oldMeans.Keys, betas[..i])
    requires AmongBetas(results.Keys, betas[..i])
    requires NewMeansSampled(before, oldMeans, betas[..i], draws)
    requires AllDescribed(results, betas[..i], before, times)
    requires GridsMeasured(results, strategy, times, draws)
    requires SweepFrom(strategy, before, betas, i, results, times, draws, pos) == outcome
    requires SweepMeans(strategy, before, betas, i, times, draws, pos) == finalMeans
    requires nextResults == results[betas[i] := found] && nextPos == pos + u
    ensures nextPos <= |draws|
    ensures AmongBetas(nextResults.Keys, betas[..i + 1])
    ensures NewMeansSampled(after, oldMeans, betas[..i + 1], draws)
    ensures AllDescribed(nextResults, betas[..i + 1], after, times)
    ensures GridsMeasured(nextResults, strategy, times, draws)
    ensures SweepFrom(strategy, after, betas, i + 1, nextResults, times, draws, nextPos) == outcome
    ensures SweepMeans(strategy, after, betas, i + 1, times, draws, nextPos) == finalMeans
  {
    assert betas[..i + 1] == betas[..i] + [betas[i]];
    NewMeanStep(before, after, oldMeans, betas, i, draws, pos);
    if found.Some? {
      MeasuredSuffix(found.value, strategy, betas[i], times, draws, pos);
    }
    ResultsStep(results, found, before, after, betas, i, strategy, times, draws);
    SweepStep(strategy, before, betas, i, results, times, draws, pos, found, u, outcome,
              after, nextResults, nextPos);
    SweepMeansStep(strategy, before, betas, i, times, draws, pos, found, u, finalMeans, after, nextPos);
  }

  /**
   * One pass of the loop of `calculate_winrates_for_beta_range`: `simulate` for betas[i] on the
   * draws from `pos`, returning the results and offset the next pass starts from.  `outcome`
   * and `finalMeans` are what the whole loop is to return and leave in the cache.
   */
  method SweepBeta(table: RoundsTable, betas: seq<real>, i: nat, times: nat, strategy: Strategy,
                   draws: seq<real>, pos: nat, results: map<real, Option<Grid>>,
                   ghost oldMeans: map<real, real>, ghost outcome: Outcome<map<real, Option<Grid>>>,
                   ghost finalMeans: map<real, real>)
    returns (r: Outcome<map<real, Option<Grid>>>)
    requires i < |betas| && pos <= |draws| && table.Valid()
    requires SweepFrom(strategy, table.means, betas, i, results, times, draws, pos) == outcome
    requires SweepMeans(strategy, table.means, betas, i, times, draws, pos) == finalMeans
    requires forall b :: b in oldMeans ==> b in table.means && table.means[b] == oldMeans[b]
    requires AmongBetas(table.means.Keys - oldMeans.Keys, betas[..i])
    requires AmongBetas(results.Keys, betas[..i])
    requires AllDescribed(results, betas[..i], table.means, times)
    requires NewMeansSampled(table.means, oldMeans, betas[..i], draws)
    requires GridsMeasured(results, strategy, times, draws)
    modifies table
    ensures table.Valid()
    ensures forall b :: b in oldMeans ==> b in table.means && table.means[b] == oldMeans[b]
    ensures AmongBetas(table.means.Keys - oldMeans.Keys, betas[..i + 1])
    ensures r.Fail? ==> outcome == Fail(r.failure) && table.means == finalMeans
    ensures r.Ok? ==> pos <= r.used <= |draws|
    ensures r.Ok? ==> SweepFrom(strategy, table.means, betas, i + 1, r.value, times, draws, r.used) == outcome
    ensures r.Ok? ==> SweepMeans(strategy, table.means, betas, i + 1, times, draws, r.used) == finalMeans
    ensures r.Ok? ==> AmongBetas(r.value.Keys, betas[..i + 1])
    ensures r.Ok? ==> AllDescribed(r.value, betas[..i + 1], table.means, times)
    ensures r.Ok? ==> NewMeansSampled(table.means, oldMeans, betas[..i + 1], draws)
    ensures r.Ok? ==> GridsMeasured(r.value, strategy, times, draws)
  {
    ghost var before := table.means;
    var found := Simulate(table, betas[i], times, strategy, draws[pos..]);
    CacheKeysStep(before, table.means, oldMeans, betas, i);
    if found.Fail? {
      SweepMeansStop(strategy, before, betas, i, times, draws, pos, found.failure, finalMeans, table.means);
      return Fail(found.failure);
    }
    var value, used := found.value, found.used;
    var nextResults, nextPos := results[betas[i] := value], pos + used;
    SweepIteration(strategy, betas, i, times, draws, pos, oldMeans, before, table.means,
                   results, value, used, outcome, finalMeans, nextResults, nextPos);
    r := Ok(nextResults, nextPos);
  }

  /** The loop of `calculate_winrates_for_beta_range`: `simulate` for each beta in turn. */
  method SimulateAll(table: RoundsTable, betas: seq<real>, times: nat, strategy: Strategy,
                     draws: seq<real>)
    returns (r: Outcome<map<real, Option<Grid>>>)
    requires table.Valid()
    modifies table
    ensures table.Valid()
    ensures forall b :: b in old(table.means) ==> b in table.means && table.means[b] == old(table.means)[b]
    ensures r.Fail? && r.failure == ZeroDivision ==> times == 0
    ensures table.means.Keys <= old(table.means).Keys + set b | b in betas
    ensures r.Ok? ==> r.used <= |draws| && r.value.Keys <= set b | b in betas
    ensures r.Ok? ==> AllDescribed(r.value, betas, table.means, times)
    ensures r.Ok? ==> NewMeansSampled(table.means, old(table.means), betas, draws)
    ensures r.Ok? ==> GridsMeasured(r.value, strategy, times, draws)
    ensures r == SweepFrom(strategy, old(table.means), betas, 0, map[], times, draws, 0)
    ensures table.means == SweepMeans(strategy, old(table.means), betas, 0, times, draws, 0)
  {
    var results: map<real, Option<Grid>> := map[];
    var pos: nat := 0;
    ghost var oldMeans := table.means;
    ghost var outcome := SweepFrom(strategy, table.means, betas, 0, map[], times, draws, 0);
    ghost var finalMeans := SweepMeans(strategy, table.means, betas, 0, times, draws, 0);
    for i := 0 to |betas|
      invariant pos <= |draws| && table.Valid() && oldMeans == old(table.means)
      invariant SweepFrom(strategy, table.means, betas, i, results, times, draws, pos) == outcome
      invariant SweepMeans(strategy, table.means, betas, i, times, draws, pos) == finalMeans
      invariant forall b :: b in oldMeans ==> b in table.means && table.means[b] == oldMeans[b]
      invariant AmongBetas(table.means.Keys - oldMeans.Keys, betas[..i])
      invariant AmongBetas(results.Keys, betas[..i])
      invariant AllDescribed(results, betas[..i], table.means, times)
      invariant NewMeansSampled(table.means, oldMeans, betas[..i], draws)
      invariant GridsMeasured(results, strategy, times, draws)
    {
      var next := SweepBeta(table, betas, i, times, strategy, draws, pos, results,
                            oldMeans, outcome, finalMeans);
      if next.Fail? {
        AmongBetasBound(table.means.Keys, oldMeans.Keys, betas[..i + 1]);
        return Fail(next.failure);
      }
      results, pos := next.value, next.used;
    }
    assert betas[..|betas|] == betas;
    AmongBetasBound(table.means.Keys, oldMeans.Keys, betas);
    AmongBetasBound(results.Keys, {}, betas);
    r := Ok(results, pos);
  }

  /**
   * `calculate_winrates_for_beta_range(start, stop, step, TIMES, play)`: `simulate` for every
   * beta of the range, keeping those with a grid.  A zero step raises ZeroDivision as
   * `np.arange` does.
   */
  method CalculateWinratesForBetaRange(table: RoundsTable, start: real, stop: real, step: real,
                                       times: nat, strategy: Strategy, draws: seq<real>)
    returns (r: Outcome<map<real, Grid>>)
    requires table.Valid()
    modifies table
    ensures table.Valid()
    ensures forall b :: b in old(table.means) ==> b in table.means && table.means[b] == old(table.means)[b]
    ensures r.Fail? && r.failure == ZeroDivision ==> step == 0.0 || times == 0
    ensures r.Ok? ==> step != 0.0 && r.used <= |draws|
    ensures r.Ok? ==> forall b :: b in r.value ==> b in Arange(start, stop, step)
    ensures r.Ok? ==> forall b :: b in Arange(start, stop, step) ==>
      && b in table.means
      && Describes(if b in r.value then Some(r.value[b]) else None, b, Round(table.means[b]), times)
    ensures step == 0.0 ==> table.means == old(table.means)
    ensures step != 0.0 ==> table.means.Keys <= old(table.means).Keys + set b | b in Arange(start, stop, step)
    ensures r.Ok? ==> NewMeansSampled(table.means, old(table.means), Arange(start, stop, step), draws)
    ensures r.Ok? ==> forall b :: b in r.value ==> Measured(r.value[b], strategy, b, times, draws)
    ensures r == Winrates(strategy, old(table.means), start, stop, step, times, draws)
    ensures step == 0.0 ==> r == Fail(ZeroDivision)
    ensures table.means == if step == 0.0 then old(table.means)
      else SweepMeans(strategy, old(table.means), Arange(start, stop, step), 0, times, draws, 0)
  {
    if step == 0.0 {
      return Fail(ZeroDivision);
    }
    var betas := Arange(start, stop, step);
    var found := SimulateAll(table, betas, times, strategy, draws);
    if found.Fail? {
      return Fail(found.failure);
    }
    r := Ok(KeepFound(found.value), found.used);
  }
}
