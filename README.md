# Monte Carlo home-run projection, modelled in Dafny

This project models the simulation engine of a season home-run projector,
`monte_carlo_simulator.py`. Its `MonteCarloSimulator` holds a trial count and
a seeded NumPy generator. It offers five season models:

- **basic**: uniform plate appearances, then one binomial.
- **home/away**: a ceil/floor split of the plate appearances, with one binomial per half.
- **pitcher handedness**: the plate appearances split by truncated products of a uniform right-handed share.
- **ballpark factor**: the games counted per venue, then one binomial per venue at a rate scaled by the park factor.
- **advanced combined**: the current home runs plus a binomial over the remaining season at the current pace.

It also has the statistics reduction `_calculate_statistics` and the
aggregator `run_all_models`.

Modules:

- `Arithmetic` (arithmetic.dfy): Python's `int()` on a float (`Trunc`), NumPy's `ceil` (`Ceil`) and linear interpolation (`Lerp`).
- `RandomSource` (random_source.dfy): the generator, as a class whose state is a fixed stream of unit draws and a cursor.
  - `Uniform(a, b)` is `a + (b - a) * u`.
  - `Binomial(n, p)` is the inverse-CDF sample of one unit draw.
  - Each call consumes one draw.
- `Options` (options.dfy): an optional value with a default, as `dict.get` gives it.
- `Inputs` (inputs.dfy): the dictionaries the simulator receives, and the rate extraction with its fallback constants.
- `Schedule` (schedule.dfy): the per-venue game count, kept as an insertion-ordered venue list plus a map, as a Python dict iterates.
- `Models` (models.dfy): what one trial of each model computes from the draws at a given stream position (`Trial`), and the outcome list of N trials (`Outcomes`).
- `Statistics` (statistics.dfy): the `SimulationResult` record and `_calculate_statistics`. The percentiles use NumPy's default "linear" method over an insertion sort.
- `Simulator` (simulator.dfy): the `MonteCarloSimulator` class.
  - Each model method is proved to return `CalculateStatistics(Outcomes(model, draws, start, numTrials))`.
  - Each model method is also proved to advance the generator by exactly the draws its trials use.
  - The five trial loops are one shared method, `RunTrials`. Its body dispatches to the model's own per-trial method, which walks the source's loop body statement by statement.

Three details of the advanced model, as the code has them:

- The pace falls back to 4.45 when it computes as 0. That happens exactly when `plate_appearances` is 0; the division is by `max(games_played, 1)`, so `games_played` = 0 needs no special case (monte_carlo_simulator.py:167-169).
- `games_remaining = 162 - games_played` is not clamped at zero, so a season past 162 games would hand NumPy a negative `n`; `games_played <= 162` is therefore a precondition (monte_carlo_simulator.py:164, 175).
- `remaining_pa` uses `int()`, which truncates toward zero; for the non-negative values the precondition allows this is the floor.

## Model

| member | source | states |
|---|---|---|
| Arithmetic.Trunc | monte_carlo_simulator.py:43 | `int(x)` truncates toward zero: for x >= 0 it is the largest integer not above x, for x < 0 the least not below it |
| Arithmetic.Ceil | monte_carlo_simulator.py:66 | `np.ceil(x)` is the least integer not below x |
| RandomSource.UniformValue | monte_carlo_simulator.py:40 | a uniform draw lies in [low, high], and below high when low < high |
| RandomSource.BinomialValue | monte_carlo_simulator.py:43 | a binomial draw lies in [0, n]; it is 0 when p = 0 and n when p = 1 |
| RandomSource.InverseCdf | monte_carlo_simulator.py:43 | the inversion search returns an outcome between its start and n |
| RandomSource.RandomState.Uniform | monte_carlo_simulator.py:40 | `np.random.uniform` consumes one draw and returns `UniformValue` of it |
| RandomSource.RandomState.Binomial | monte_carlo_simulator.py:43 | `np.random.binomial` consumes one draw and returns `BinomialValue` of it, within [0, n] |
| Inputs.ExtractRates | monte_carlo_simulator.py:210-216 | each of the five rates is the dictionary's `hr_per_pa` when present, else 0.0824, 0.0909, 0.0744, 0.0870 or 0.0808 |
| Inputs.ExtractRatesFallbacks | monte_carlo_simulator.py:210-216 | with no `hr_per_pa` anywhere and empty split dictionaries, the models run on exactly the five fallback constants |
| Schedule.VenueOf | monte_carlo_simulator.py:132 | a game's venue is its `venue_name`, or 'Unknown' when it has none |
| Schedule.Record | monte_carlo_simulator.py:133 | `ballpark_games[venue] = get(venue, 0) + 1`: the venue becomes a key with its count raised by one (a new key is appended to the insertion order, an existing one keeps its place); every other key and count is unchanged |
| Schedule.Tally | monte_carlo_simulator.py:130-133 | the dictionary after counting every game in order: at most one key per game, every count between 1 and len(schedule) |
| Schedule.RecordTotal | monte_carlo_simulator.py:133 | recording one game raises the sum of the counts by exactly one |
| Schedule.OneVenueTally | monte_carlo_simulator.py:130-133 | a non-empty schedule played at one venue gives the single key of that venue, counting every game |
| Schedule.CountGamesByVenue | monte_carlo_simulator.py:130-133 | the counting loop builds exactly `Tally(schedule)`; the venue list has no repeats and names the keys; each count is >= 1; the counts sum to len(schedule) |
| Schedule.TallyWellFormed | monte_carlo_simulator.py:130-133 | the dictionary's venue order has no repeats, its keys are the listed venues and every count is at least 1 |
| Schedule.TallyCounts | monte_carlo_simulator.py:130-133 | a venue is a key if and only if some game is played there, and its count is the number of such games |
| Schedule.TallyTotal | monte_carlo_simulator.py:130-133 | the dictionary's values sum to the number of scheduled games |
| Schedule.TallyVenueScheduled | monte_carlo_simulator.py:130-133 | every key of the dictionary is the venue of some scheduled game |
| Schedule.EveryGameCounted | monte_carlo_simulator.py:131-133 | every game's venue is a key of the dictionary |
| Schedule.UnnamedVenueCountedAsUnknown | monte_carlo_simulator.py:132 | a game without `venue_name` is counted under 'Unknown' |
| Models.HomeAwaySplit | monte_carlo_simulator.py:66-67 | home_pa - away_pa is 0 or 1; home_pa + away_pa is floor(total) or floor(total) + 1 and at most ceil(total); away_pa >= 0 for total >= 0 |
| Models.PitcherSplit | monte_carlo_simulator.py:102-103 | for total >= 0 and rhp_pct in [0, 1]: both parts are >= 0, their sum is at most total_pa and at least floor(total_pa) - 1 |
| Models.FactorFor | monte_carlo_simulator.py:140 | a venue's factor is its entry in `ballpark_factors`, or 100 when it has none |
| Models.AdjustedRate | monte_carlo_simulator.py:143 | the scaled rate equals the base rate when the park factor equals the baseline factor, and is >= 0 for non-negative inputs |
| Models.VenuePa | monte_carlo_simulator.py:146 | `int(num_games * pa_per_game)` is >= 0 for non-negative inputs |
| Models.RemainingPa | monte_carlo_simulator.py:175 | remaining_pa is >= 0 and at most int(games_remaining * pace * 1.1) when games_remaining >= 0 and the pace is >= 0 |
| Models.CurrentPaPerGame | monte_carlo_simulator.py:167-169 | the pace is never 0; it is 4.45 when there are no plate appearances, otherwise PA / max(games_played, 1); it is positive when PA >= 0 |
| Inputs.HomeRuns | monte_carlo_simulator.py:172 | `current_stats.get('home_runs', 0)`: the dictionary's value when present, else 0 |
| Inputs.PlateAppearances | monte_carlo_simulator.py:167 | `current_stats.get('plate_appearances', 0)`: the dictionary's value when present, else 0 |
| Inputs.GamesPlayed | monte_carlo_simulator.py:163 | `current_stats.get('games_played', 0)`: the dictionary's value when present, else 0 |
| Models.AdvancedModelOf | monte_carlo_simulator.py:163-178 | the advanced model's inputs: home_runs (default 0), games_remaining = 162 - games_played (162 when games_played is missing, >= 0 when games_played <= 162), the pace of CurrentPaPerGame, and hr_per_pa (default 0.0824) |
| Models.BasicHrs | monte_carlo_simulator.py:40-43 | one basic season: binomial(int(uniform(min_pa, max_pa)), hr_per_pa), within [0, max_pa], and 0 when the rate is 0 |
| Models.HomeAwayHrs | monte_carlo_simulator.py:63-73 | one home/away season: the home binomial on the ceil half plus the away binomial on the floor half, within [0, max_pa], and 0 when both rates are 0 |
| Models.PitcherHrs | monte_carlo_simulator.py:96-109 | one handedness season: the right binomial on int(total * rhp_pct) plus the left binomial on int(total * (1 - rhp_pct)), within [0, max_pa], and 0 when both rates are 0 |
| Models.VenueHrs | monte_carlo_simulator.py:138-149 | one venue's binomial at the factor-scaled rate over int(games * pa_per_game) plate appearances, within [0, those plate appearances], and 0 when the base rate is 0 |
| Models.BallparkHrs | monte_carlo_simulator.py:135-150 | the running total over the first j venues in dictionary order, each venue using the next draw; never negative, and 0 when the base rate is 0 |
| Models.AdvancedHrs | monte_carlo_simulator.py:172-182 | one advanced season: home_runs plus the binomial over int(games_remaining * pace * uniform(0.9, 1.1)); at least home_runs, and exactly home_runs when the rate is 0 |
| Models.Trial | monte_carlo_simulator.py:38-44 | the season total of one loop iteration of the model's method, never below the model's floor (0, or home_runs for the advanced model) |
| Models.StrideIsProduct | monte_carlo_simulator.py:38 | k trials of s draws each use k * s draws |
| Models.Runs | monte_carlo_simulator.py:36-44 | n iterations of the loop append exactly n outcomes |
| Models.RunAt | monte_carlo_simulator.py:36-44 | the i-th appended outcome is the trial that starts i trials' worth of draws after the first |
| Models.Outcomes | monte_carlo_simulator.py:36-44 | the outcome list of n trials has n elements |
| Models.OutcomeAt | monte_carlo_simulator.py:36-44 | the i-th outcome is the model's trial at stream position start + i * draws per trial |
| Models.BasicTrialBounds | monte_carlo_simulator.py:40-43 | basic trial: 0 <= home_runs <= int(pa) <= max_pa |
| Models.HomeAwayTrialBounds | monte_carlo_simulator.py:63-73 | home/away trial: 0 <= total_hrs <= home_pa + away_pa <= max_pa |
| Models.PitcherTrialBounds | monte_carlo_simulator.py:96-109 | pitcher trial: 0 <= total_hrs <= vs_right_pa + vs_left_pa <= max_pa |
| Models.BallparkTrialBounds | monte_carlo_simulator.py:136-150 | after any number of venues, the running total lies between 0 and those venues' plate appearances |
| Models.AdvancedTrialBounds | monte_carlo_simulator.py:172-182 | advanced trial: home_runs <= total_hrs <= home_runs + remaining_pa <= home_runs + int(games_remaining * pace * 1.1) |
| Models.TrialWithin | monte_carlo_simulator.py:38-44 | every trial of every model lies between the model's floor and ceiling |
| Models.RunsWithin | monte_carlo_simulator.py:36-44 | if every trial lies in [lo, hi], so does every collected outcome |
| Models.OutcomesWithin | monte_carlo_simulator.py:36-44 | every outcome of a run lies between the model's floor and ceiling |
| Models.BasicZeroRate | monte_carlo_simulator.py:40-44 | with hr_per_pa = 0 every basic-model outcome is 0 |
| Models.NeutralVenueMatchesBasic | monte_carlo_simulator.py:130-150 | a non-empty schedule played at one venue whose factor equals the baseline gives the same trial as the basic model with int(len(schedule) * pa_per_game) plate appearances |
| Models.BallparkModelValid | monte_carlo_simulator.py:138-149 | if every scheduled venue has an admissible scaled rate and pa_per_game >= 0, every binomial of the ballpark model is admissible |
| Models.AdvancedModelValid | monte_carlo_simulator.py:163-181 | with games_played <= 162, PA >= 0 and a rate in [0, 1], games_remaining >= 0 and every binomial of the advanced model is admissible |
| Statistics.Mean | monte_carlo_simulator.py:193 | `np.mean` lies between the minimum and maximum outcome |
| Statistics.Variance | monte_carlo_simulator.py:195 | the population variance (the square of `np.std`) is >= 0 |
| Statistics.FractionAbove | monte_carlo_simulator.py:196-198 | `np.mean(results > k)` lies in [0, 1] |
| Statistics.FractionAntitone | monte_carlo_simulator.py:196-198 | prob_over_k does not grow with k, so prob_over_40 >= prob_over_50 >= prob_over_60 |
| Statistics.Sort | monte_carlo_simulator.py:199 | the sorted outcomes are a permutation of the outcomes, in ascending order |
| Statistics.SortedEnds | monte_carlo_simulator.py:199-200 | the sorted outcomes start at the minimum and end at the maximum |
| Statistics.Rank | monte_carlo_simulator.py:199-200 | NumPy's virtual index (N - 1) * q / 100 lies in [0, N - 1] |
| Statistics.RankMonotone | monte_carlo_simulator.py:199-200 | the virtual index grows with q |
| Statistics.Interpolate | monte_carlo_simulator.py:199-200 | on a sorted list, linear interpolation lies between the first and last elements |
| Statistics.InterpolateMonotone | monte_carlo_simulator.py:199-200 | on a sorted list, interpolation grows with the virtual index |
| Statistics.Percentile | monte_carlo_simulator.py:199-200 | `np.percentile` lies between the minimum and maximum outcome |
| Statistics.PercentileMonotone | monte_carlo_simulator.py:199-200 | the q-th percentile is at most the r-th when q <= r |
| Statistics.Median | monte_carlo_simulator.py:194 | `np.median` (the middle sorted element, or the mean of the two middle ones) lies between the minimum and maximum outcome |
| Statistics.MedianIsPercentile50 | monte_carlo_simulator.py:194 | `np.median` (middle element, or mean of the two middle ones) equals the 50th percentile |
| Statistics.CalculateStatistics | monte_carlo_simulator.py:188-202 | the distribution is the input list unchanged; 0 <= prob_over_60 <= prob_over_50 <= prob_over_40 <= 1; min <= percentile_5 <= median <= percentile_95 <= max; min <= mean <= max; variance >= 0 |
| Statistics.ConstantFraction | monte_carlo_simulator.py:196-198 | on a constant list c, prob_over_k is 1 when c > k and 0 otherwise |
| Statistics.ConstantVariance | monte_carlo_simulator.py:193-195 | on a constant list c, the mean is c and the variance is 0 |
| Statistics.ConstantStatistics | monte_carlo_simulator.py:188-202 | on a constant list c, mean, median and both percentiles are c, the variance is 0 and each prob_over_k is 1 exactly when c > k |
| Simulator.ZeroRateStatistics | monte_carlo_simulator.py:40-46 | with hr_per_pa = 0 the basic model's mean, median, percentiles and variance are 0, and every prob_over_k is 0 |
| Simulator.ResultsByModel | monte_carlo_simulator.py:218-226 | the returned dictionary has exactly the five model keys, each bound to its model's result |
| Simulator.MonteCarloSimulator.constructor | monte_carlo_simulator.py:23-25 | a new simulator keeps num_trials and reads its seeded stream from the start |
| Simulator.MonteCarloSimulator.RunTrials | monte_carlo_simulator.py:38-44 | the loop collects exactly the trials of the model, one per iteration in stream order, and consumes exactly their draws |
| Simulator.MonteCarloSimulator.SimulateSeason | monte_carlo_simulator.py:38-44 | one loop iteration returns the model's trial at the current position and consumes its draws |
| Simulator.MonteCarloSimulator.BasicModel | monte_carlo_simulator.py:27-46 | the result is the statistics of the basic outcomes for the draws used; num_trials outcomes, each in [0, max_pa]; 2 draws per trial |
| Simulator.MonteCarloSimulator.BasicTrial | monte_carlo_simulator.py:40-44 | one basic trial: uniform pa, then binomial(int(pa), hr_per_pa) |
| Simulator.MonteCarloSimulator.HomeAwayModel | monte_carlo_simulator.py:48-76 | the result is the statistics of the home/away outcomes; num_trials outcomes, each in [0, max_pa]; 3 draws per trial |
| Simulator.MonteCarloSimulator.HomeAwayTrial | monte_carlo_simulator.py:63-74 | one home/away trial: uniform total, ceil/floor halves, home binomial then away binomial |
| Simulator.MonteCarloSimulator.PitcherHandednessModel | monte_carlo_simulator.py:78-112 | the result is the statistics of the pitcher outcomes; num_trials outcomes, each in [0, max_pa]; 4 draws per trial |
| Simulator.MonteCarloSimulator.PitcherTrial | monte_carlo_simulator.py:96-110 | one pitcher trial: uniform total, uniform rhp_pct, truncated split, right binomial then left binomial |
| Simulator.MonteCarloSimulator.BallparkFactorModel | monte_carlo_simulator.py:114-154 | the result is the statistics of the ballpark outcomes over the counted schedule; num_trials outcomes, each >= 0; one draw per venue per trial |
| Simulator.MonteCarloSimulator.BallparkTrial | monte_carlo_simulator.py:136-152 | one ballpark trial: one binomial per venue in dictionary order, summed |
| Simulator.MonteCarloSimulator.AdvancedCombinedModel | monte_carlo_simulator.py:156-186 | the result is the statistics of the advanced outcomes; num_trials outcomes, each >= the current home runs; 2 draws per trial |
| Simulator.MonteCarloSimulator.AdvancedTrial | monte_carlo_simulator.py:172-184 | one advanced trial: current home runs plus binomial(int(games_remaining * pace * uniform(0.9, 1.1)), rate) |
| Simulator.MonteCarloSimulator.RunAllModels | monte_carlo_simulator.py:204-226 | exactly the five keys; each entry is its model's statistics with the extracted rates and default arguments, run in dictionary order on consecutive stretches of the stream |

## Left out

- I/O and serialisation: the `json` import, the example block under `__main__`, and everything outside `monte_carlo_simulator.py` (the web server, data fetching, plotting, caching and start-up scripts) are not part of this model.
- The NumPy generator itself: the stream of unit draws is a parameter of the simulator's constructor. `np.random.seed(42)` is not modelled, and neither is which stream that seed yields. NumPy's global generator is held as a per-instance `RandomState`.
- RandomSource.BinomialValue: NumPy's legacy binomial takes a variable number of raw draws. It uses inversion for small n * p and BTPE otherwise, and it returns 0 without drawing at all when n == 0 or p == 0. Here every binomial takes exactly one draw, decoded by inverting the CDF. The outcome range and the p = 0 and p = 1 results agree; the exact values and the number of draws used do not.
- Simulator.MonteCarloSimulator.RunAllModels: the fixed draws per trial (2, 3, 4, one per venue, 2) hold for this one-draw generator. Each model's own stream stretch therefore starts where the previous model's stops, after exactly that many draws. NumPy takes no draw for a binomial with n == 0 or p == 0, and in that case its stretches fall at other positions. The same goes for the draw counts in BasicModel, HomeAwayModel, PitcherHandednessModel, BallparkFactorModel and AdvancedCombinedModel.
- Statistics.Variance: `std_hrs` is the square root of this population variance; square roots are not modelled.
- Floating point: rates, paces and draws are mathematical reals, with no rounding.
- Statistical claims, such as a mean between 30 and 80 or prob_over_40 > 0, hold only in distribution and are not stated.
- Models.Valid: NumPy raises `ValueError` for a binomial with n < 0 or p outside [0, 1]. The source never catches it, so these are preconditions. They are slightly stronger than NumPy demands: min_pa, max_pa >= 0, and rhp_pct bounds in [0, 1]. The ballpark model also requires the baseline factor (`yankee_stadium_factor`) to be non-zero. This stands for the `ZeroDivisionError` that Python raises at the division in the scaled rate; every caller in the source passes the default 101.
- Simulator.MonteCarloSimulator.AdvancedCombinedModel: requires games_played <= 162 and plate_appearances >= 0. The source does not clamp, so NumPy would reject a negative n. The splits, schedule and ballpark factors are accepted and not used, as in the source.
- Simulator.MonteCarloSimulator.BasicModel and the other four model methods require num_trials >= 1, because NumPy's percentile of an empty list raises.
- Schedule.VenueOf: a `venue_name` key present with the value `None` is not distinguished from a missing key.
- Simulator.MonteCarloSimulator.BallparkFactorModel: the bounds contract states only that every outcome is >= 0. The upper bound (the venues' total plate appearances) is proved per trial in Models.BallparkTrialBounds.
