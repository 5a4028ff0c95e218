# Stag Hunt sacrifice simulation (game2.py) in Dafny

This project models `game2.py`, a simulation of an infinitely repeated Stag Hunt with payoffs
(x, y, z, w) = (3, 2, 1, 0), x > y >= z > w. The game continues each round with probability
beta. One agent can leave the inefficient equilibrium Bb with a sacrifice schedule (K, S):

- it stays at B for K rounds;
- it pays the sacrifice w for S rounds;
- it collects x from then on.

For each beta the program does the following:

1. It estimates the mean game length by averaging 10000 geometric samples (`test_prob`). The
   rounded result is cached per beta (`rounds_from_beta`, `betas_rounds`).
2. It scans K and S from 2 upward. The scan keeps the schedules that pass a closed-form test on
   discounted sums (`sum_condition`). The inner S scan stops at the first schedule that fails it.
3. For every schedule it keeps, it estimates a win rate from `times` trials. A trial is either
   `play_normal` (against a deterministic opponent) or `play_vs_MNE` (against the
   mixed-equilibrium opponent).
4. It sweeps beta over an `np.arange` range and keeps the betas for which some schedule was
   eligible.

Randomness is an input. Every call of `random()` reads the next value of a supplied sequence of
uniform draws (`seq<real>`). Every stochastic operation returns an `Outcome`: either its value
with the number of draws it consumed, or a `Failure`.

- `DrawsExhausted` means the draws ran out. This is how the model's loops end where the
  Python's `while True` loops run on.
- `ZeroDivision` is the `wins / times` of `simulate` with `times == 0`. It is also what
  `np.arange` raises for a zero step.

The process-wide dictionary `betas_rounds` becomes an object, `RoundsCache.RoundsTable`. It is
passed to the operations that use the cache, and its field `means` is updated in place. The
trial function passed as `play` becomes a `Trials.Strategy` value that names one of the two
trial functions.

Modules, one per file:

| module | file | what it models |
|---|---|---|
| `Outcomes` | outcomes.dfy | `Option`, `Failure` and `Outcome` |
| `Payoffs` | payoffs.dfy | the payoffs and the mixing probability p |
| `Sampler` | sampler.dfy | `true_with_prob`, `test_prob`, sums of samples, `np.round` |
| `RoundsCache` | rounds.dfy | `rounds_from_beta` and its cache |
| `Eligibility` | eligibility.dfy | `sum_condition` |
| `Trials` | trials.dfy | `play_normal`, `play_vs_MNE`, the repeated trials |
| `Sweep` | sweep.dfy | `simulate` and `calculate_winrates_for_beta_range` |

The code's own loops are imperative methods, and each is proved equal to a specification
function: `TestProb`, `PlayNormal`, `PlayVsMne`, `SampleTotal` and `CountWins`. The lemmas that
state what the game promises are proved about those specification functions. The loops of
`simulate` and `calculate_winrates_for_beta_range` are proved equal to `RowScan`, `GridScan`,
`SimulateOutcome`, `SweepFrom` and `Winrates`, and the cache they leave to `MeansAfter` and
`SweepMeans`. These fix the exact offset of the draws that each
sample and each trial reads, so a `DrawsExhausted` result always means that some sample or trial
ran out of draws at its own offset.

Two details follow the code exactly, where a looser description of the process would differ:

- A geometric sample stops at the first draw u with u < 1 - beta, because `true_with_prob(1 - prob)`
  is what `test_prob` calls. It does not stop at u >= beta.
- `play_vs_MNE` reads two draws per round: the opponent's mix first, then the stop.

## Model

| member | source | states |
|---|---|---|
| Payoffs.MixProbability | game2.py:64 | for every Stag Hunt ordering x > y >= z > w the mixing probability is a proper probability, strictly between 0 and 1 |
| Payoffs.MixingProbabilityBalances | game2.py:64 | for every x > y >= z > w, p = (z-w)/(x-y+z-w) lies strictly between 0 and 1. It is the indifference point p(x-y) = (1-p)(z-w), so p/(1-p) = (z-w)/(x-y) |
| Payoffs.CommentRatioHoldsOnlyWhenGapsEqual | game2.py:23 | the ratio the module comment states, p/(1-p) = (x-y)/(z-w), holds if and only if x-y = z-w |
| Payoffs.CommentRatioCounterexample | game2.py:23 | (4, 2, 1, 0) is a Stag Hunt for which the code's p is 1/3, and the comment's ratio (2) fails |
| Payoffs.MixProbabilityIsHalf | game2.py:28 | the configured payoffs form a Stag Hunt and give p = 1/2 |
| Sampler.TrueWithProb | game2.py:32-33 | for a draw in [0, 1), a probability of 0 or less never gives true and a probability of 1 or more always does |
| Sampler.FirstSuccess | game2.py:36-41 | a found position lies between 1 and the number of draws |
| Sampler.FirstSuccessAt | game2.py:38-40 | when draw n succeeds and none before it does, the first success is at position n+1 |
| Sampler.FirstSuccessNone | game2.py:38-41 | when no draw succeeds, there is no first success |
| Sampler.FirstSuccessMeaning | game2.py:36-41 | a found position's draw succeeds and none before it does. Nothing is found if and only if no draw succeeds |
| Sampler.Geometric | game2.py:36-41 | a sample j is at least 1, consumes exactly j draws and fits in the stream. The only failure is running out of draws |
| Sampler.TestProb | game2.py:36-41 | the `while True` counting loop returns exactly `Geometric`: 1 plus the number of leading draws that do not stop |
| Sampler.SampleSum | game2.py:92-94 | the sum of n samples is at least n, equals the draws consumed and fits in the stream. The only failure is running out of draws |
| Sampler.SampleSumStep | game2.py:93-94 | a finished sample n+1 adds its length to the sum and to the draws consumed |
| Sampler.SampleSumExhausted | game2.py:93-94 | once a sample runs out of draws, every larger number of samples fails too |
| Sampler.SampleSumNonPositive | game2.py:36-41 | for beta <= 0 and draws in [0, 1), every sample stops in its first round: n samples add up to exactly n and read n draws |
| Sampler.Round | game2.py:96 | `np.round(m, 0)`: the result is within 1/2 of m, and a tie goes to the even integer |
| Sampler.RoundAtLeastOne | game2.py:96 | a mean of at least one round rounds to at least 1 |
| RoundsCache.SampleTotal | game2.py:92-94 | the accumulation loop `a += test_prob(beta)` returns exactly `SampleSum` |
| RoundsCache.RoundsTable.constructor | game2.py:29 | the cache starts empty |
| RoundsCache.RoundsOf | game2.py:89-96 | the round count for beta under a cache: a hit reads no draws, and the only failure is a miss whose 10000 samples run out of draws |
| RoundsCache.MeansAfter | game2.py:91-95 | the cache after the lookup holds beta exactly when it already did or its samples finished, and a successful lookup returns the rounded mean it holds |
| RoundsCache.MeansAfterKeeps | game2.py:91-95 | a lookup keeps every cached entry with its value and adds no key other than beta |
| RoundsCache.RoundsTable.RoundsFromBeta | game2.py:89-96 | returns exactly `RoundsOf` on the old cache and leaves the cache as `MeansAfter`. On a miss it stores sum/10000 of 10000 samples under beta and leaves every other key alone. On a hit it consumes no draws, changes nothing and returns the stored rounded value. A success leaves beta in the cache with a result of at least 1 |
| Eligibility.SumCondition | game2.py:99-107 | a schedule passes only when K + S is less than the round count, so N > 0 |
| Eligibility.PowerSumDropFirst | game2.py:105 | an inclusive sum of powers splits into its lowest term and the rest |
| Eligibility.NoSacrificeEligible | game2.py:99-107 | with S = 0 and beta >= 0 every K below the round count passes: the loss is an empty sum |
| Eligibility.EligibilityStep | game2.py:105-107 | for beta >= 0, a schedule (K, S) that fails keeps failing at (K, S+1) |
| Eligibility.EligibilityMonotone | game2.py:99-107 | for beta >= 0 and fixed K, once the test fails at S it fails at every larger S. This is what justifies the `break` |
| Trials.NormalUtilClosedForm | game2.py:45-56 | after j rounds the running total is z·min(j,K) + w·min(max(j-K,0),S) + x·max(j-K-S,0) |
| Trials.NormalTrial | game2.py:44-60 | a trial finishes exactly when the geometric game length does, reads exactly that many draws, and otherwise fails for want of draws |
| Trials.NormalTrialMeaning | game2.py:49-59 | a trial that stops at round j is won iff z·min(j,K) + w·min(max(j-K,0),S) + x·max(j-K-S,0) >= j·z |
| Trials.NormalStopDuringKWins | game2.py:44-59 | a game that stops at round j <= K has total exactly j·z and is won |
| Trials.NormalNoSacrificeAlwaysWins | game2.py:44-59 | with K = S = 0 every finished trial is won |
| Trials.PlayNormal | game2.py:44-60 | the loop returns exactly `NormalTrial`. Its invariants keep k = max(K-(j-1), 0), keep s counting down only after k reaches 0, and keep `sum_util` equal to the total of the first j-1 rounds |
| Trials.MneTrial | game2.py:63-86 | a finished trial reads an even number of draws, at least two and no more than supplied, and its last draw is a stop. The only failure is running out of draws |
| Trials.MneTrialMeaning | game2.py:68-86 | no round before the last one stops, and the trial fails exactly when no round among the supplied pairs of draws stops |
| Trials.MneEqualDuringK | game2.py:69-76 | during the first K rounds both totals receive the same payoff, so they are equal |
| Trials.MneStopDuringKWins | game2.py:63-86 | a game against the mixing opponent that stops within the first K rounds is won |
| Trials.MneGap | game2.py:77-83 | after K rounds the two totals differ by (x-y) per round where the opponent played a, minus (z-w) per round where it did not |
| Trials.TotalsStep | game2.py:68-83 | each round adds its payoff to the sacrificing total and to the baseline total |
| Trials.MneTrialStopsAt | game2.py:85-86 | a first stop in round n+1 ends the trial there, after 2n+2 draws, comparing the two totals of n+1 rounds |
| Trials.MneTrialExhausted | game2.py:68-86 | with no stop so far and fewer than two draws left, the trial fails for want of draws |
| Trials.PlayVsMne | game2.py:63-86 | the loop returns exactly `MneTrial`, which does not depend on S |
| Trials.Trial | game2.py:121 | a finished trial consumes at least one draw and fits in the stream |
| Trials.Play | game2.py:121 | `play(beta, K, S)` returns exactly the chosen strategy's trial |
| Trials.Wins | game2.py:119-122 | n trials win at most n times and fit in the stream. The only failure is running out of draws |
| Trials.WinsStep | game2.py:120-122 | a finished trial n+1 adds its win to the count and its draws to those consumed |
| Trials.WinsExhausted | game2.py:120-122 | once a trial runs out of draws, every larger number of trials fails too |
| Trials.CountWins | game2.py:119-122 | the `wins += 1` loop returns exactly `Wins`, at most `times` |
| Sweep.WinRate | game2.py:123 | wins/times with 0 <= wins <= times and times > 0 lies in [0, 1], and multiplied by `times` it gives a whole number |
| Sweep.Rate | game2.py:119-123 | the win rate of one schedule: a rate when it succeeds, within the draws; a failure is ZeroDivision exactly when `times == 0` |
| Sweep.WinRateOf | game2.py:119-123 | the loop returns exactly `Rate`: `Wins`/times, which is a rate. `times == 0` gives ZeroDivision |
| Sweep.CheckSumCondition | game2.py:99-100 | `sum_condition` looks the round count up again. For a cached beta this is a hit that changes nothing, so the test runs on the stored rounded mean |
| Sweep.RowScan | game2.py:117-125 | the inner S loop from a given S and draw offset: it reads the draws in order, each schedule after the previous one's, ends at the first ineligible S or the end of the range. The result lies within the draws at or after the offset, and a failure is ZeroDivision exactly when `times == 0` |
| Sweep.ScanStep | game2.py:118-123 | recording the rate of an eligible schedule measured at the current offset keeps the row extending the grid soundly, keeps the earlier schedules covered, and leaves the rest of the scan's outcome unchanged |
| Sweep.ScanRow | game2.py:117-125 | returns exactly `RowScan` from S = 2 at the given offset, so it fails only when the trials of an eligible schedule run out of draws at their own offset, or on ZeroDivision with `times == 0`. One K row keeps every earlier entry and adds only keys (K, S). Each is eligible, and its value is the win count of `times` trials on some stretch of the draws, divided by `times`. For beta >= 0 every eligible schedule up to row K is then in the grid, despite the `break`. The cache is unchanged |
| Sweep.RowComplete | game2.py:124-125 | stopping a row at the first failing S skips no eligible schedule when beta >= 0 |
| Sweep.GridScan | game2.py:116-125 | the outer K loop from a given K and offset: each row scans on the draws after the previous row's; the result lies within the draws at or after the offset, and a failure is ZeroDivision exactly when `times == 0` |
| Sweep.SimulateOutcome | game2.py:110-128 | `simulate` as a value: the lookup, then the rectangle scanned on the draws after the lookup's samples, an empty grid becoming None. With `times > 0` its only failure is running out of draws |
| Sweep.Simulate | game2.py:110-128 | returns exactly `SimulateOutcome` on the old cache and leaves the cache as `MeansAfter`. The result is None or a non-empty grid. Every key is in range 2 <= K < total-2, 2 <= S < total-2 and passes `sum_condition`. Every value is `Wins`/times for `times` trials of that schedule on some stretch of the draws. For beta >= 0 the grid holds every eligible schedule, and None means none is eligible. A cached beta leaves the cache unchanged. An uncached beta is added with the mean of 10000 samples read from the start of the draws, and nothing else changes. ZeroDivision happens only with `times == 0`, and then the only success is None |
| Sweep.Ceil | game2.py:133 | the least integer at or above q |
| Sweep.Arange | game2.py:133 | the betas are start + i·step, all strictly on the start side of `stop`, and the next one would not be |
| Sweep.ArangeBounds | game2.py:133 | below the rounded-up quotient (stop-start)/step every term is short of `stop`, and the term at it has reached `stop` |
| Sweep.KeepFound | game2.py:135 | the filter keeps exactly the betas whose result is not None, with their grids |
| Sweep.SweepFrom | game2.py:133-134 | the beta loop from betas[i] on: each beta is simulated on the draws after the previous beta's, with the cache its predecessors left; the first failure ends the loop, and with `times > 0` the only failure is running out of draws |
| Sweep.SweepMeans | game2.py:133-134 | the cache after the beta loop from betas[i] on: each beta's lookup leaves `MeansAfter`, and the first failing beta ends the loop after its lookup. It keeps every entry it starts with and adds only betas from betas[i] on |
| Sweep.SweepIteration | game2.py:133-134 | recording a finished `simulate` of betas[i] keeps the results described and measured, keeps the new cache means sampled, and leaves the rest of both `SweepFrom` and `SweepMeans` unchanged |
| Sweep.SweepBeta | game2.py:133-134 | one pass of the beta loop: on a failure the whole loop's result is that failure and the cache is already final; otherwise it hands on results and an offset from which `SweepFrom` and `SweepMeans` still reach the loop's result and final cache, with every invariant kept |
| Sweep.Winrates | game2.py:131-135 | the whole sweep as a value: a zero step gives ZeroDivision before anything is drawn; otherwise the range is swept from the start of the draws and the betas without a grid are dropped. With a nonzero step and `times > 0` the only failure is running out of draws |
| Sweep.SimulateAll | game2.py:133-134 | returns exactly `SweepFrom` from the first beta, the old cache and offset 0, and leaves the cache as exactly `SweepMeans`, on success and on failure. Every beta of the range gets a `simulate` result that `Describes` it under the final cache, and every grid's values are win counts over some stretch of the draws divided by `times`. The cache gains only betas of the range, each new one with the mean of 10000 samples from some stretch of the draws, and keeps every old entry |
| Sweep.CalculateWinratesForBetaRange | game2.py:131-135 | returns exactly `Winrates` on the old cache, so a zero step gives ZeroDivision and otherwise the only failures are those of the sweep. The cache ends as exactly `SweepMeans` over the range, or unchanged for a zero step. Every kept beta comes from the range and maps to its non-empty grid, whose values are win counts over some stretch of the draws divided by `times`. Every beta of the range is cached, and the ones left out are exactly those whose `simulate` found no eligible schedule. The cache gains only betas of the range, each with the mean of 10000 samples from some stretch of the draws. A zero step gives ZeroDivision and leaves the cache unchanged |

## Findings

| source | as written | input that shows it | evidently intended | confidence | as-written member | corrected member |
|---|---|---|---|---|---|---|
| game2.py:23 | the module comment says p/(1-p) = (x-y)/(z-w) beside p = (z-w)/(z-w+x-y) | (x, y, z, w) = (4, 2, 1, 0): the formula gives p = 1/3, so p/(1-p) = 1/2, not (x-y)/(z-w) = 2 | p/(1-p) = (z-w)/(x-y), the indifference condition the code's formula satisfies; the comment has the ratio inverted. For (3, 2, 1, 0) both read 1, so the program's output is unaffected | not executed | Payoffs.CommentRatioCounterexample | Payoffs.MixingProbabilityBalances |

## Left out

- Floating point. Beta, the powers `beta ** j`, their sums, the mean a/T, and the rates are
  exact reals.
  - `np.round` is modelled exactly, as round-half-even on the exact mean.
  - `np.arange` has exact length ceil((stop-start)/step) and exact terms start + i·step.
  - Float rounding can change the output near ties. It is not modelled.
- The statistics: the draws are an arbitrary sequence of reals. The model says nothing about
  their distribution, expected win rates, or the quality of the 10000-sample mean.
- Non-termination: for beta >= 1, `test_prob` and the trial loops of the source never stop.
  Here they end with `DrawsExhausted` when the draws run out.
- `main` and its printing (game2.py:138-152). format.py is not part of this model: it only
  parses files and writes output.
- The process-wide `betas_rounds` dictionary is an explicit `RoundsTable` object. The function
  passed as `play` is a `Strategy` value. Both are equivalent to the source for these two
  trial functions.
- Eligibility.EligibilityMonotone: proved for beta >= 0 only. For beta < 0 the powers alternate
  in sign. With draws in [0, 1) this does not matter: for beta <= 0 every sample is 1
  (`Sampler.SampleSumNonPositive`), the round count is 1 and the range of K is empty. Only a
  stream with draws outside [0, 1), which `random()` never returns, could let the `break` skip
  an eligible schedule.
- Sweep.Simulate: the grid is proved complete only for beta >= 0, for the reason above.
  Soundness holds for every beta. The exact offset of each schedule's trials is fixed by
  `SimulateOutcome`; `Measured` on its own only ties a value to some suffix of the draws.
- Sweep.CalculateWinratesForBetaRange: Python exceptions other than the two divisions by zero
  (e.g. from ill-typed arguments) are not modelled.
