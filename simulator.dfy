/**
  The simulation engine: a simulator holds the number of trials and the
  random generator it was seeded with. Each model method runs the trials one
  after another, appending each season total to the outcome list, then
  summarises the list. The five trial loops have the same shape, so they are
  one method, `RunTrials`, whose body runs the model's own per-trial method.
*/
module Simulator {
  import opened Arithmetic
  import opened RandomSource
  import opened Statistics
  import opened Schedule
  import opened Inputs
  import opened Models

  /** The keys of the dictionary `run_all_models` returns. */
  const ModelNames: set<string> := {"basic", "home_away", "pitcher_handedness", "ballpark_factors", "advanced_combined"}

  /** The dictionary `run_all_models` returns, one entry per model. */
  function ResultsByModel(basic: SimulationResult, homeAway: SimulationResult, pitcher: SimulationResult,
                          ballpark: SimulationResult, advanced: SimulationResult): (t: map<string, SimulationResult>)
    ensures t.Keys == ModelNames
    ensures t["basic"] == basic && t["home_away"] == homeAway && t["pitcher_handedness"] == pitcher
    ensures t["ballpark_factors"] == ballpark && t["advanced_combined"] == advanced
  {
    map[
      "basic" := basic,
      "home_away" := homeAway,
      "pitcher_handedness" := pitcher,
      "ballpark_factors" := ballpark,
      "advanced_combined" := advanced]
  }

  /** NumPy accepts every draw `run_all_models` makes with these inputs. */
  predicate RunAllAdmissible(stats: CurrentStats, homeAwaySplits: Splits, pitcherSplits: Splits,
                             schedule: seq<ScheduleEntry>, ballparkFactors: map<string, real>)
  {
    var r := ExtractRates(stats, homeAwaySplits, pitcherSplits);
    && Valid(Basic(r.overall, 600, 700))
    && Valid(HomeAway(r.home, r.away, 600, 700))
    && Valid(PitcherHandedness(r.vsLeft, r.vsRight, 600, 700, 0.70, 0.80))
    && Valid(BallparkModelOf(schedule, ballparkFactors, r.overall, 101.0, 4.45))
    && StatsAdmissible(stats)
  }

  /**
    With hr_per_pa = 0 every basic-model season is 0, so the mean, the
    median, both percentiles and the variance are 0 and no threshold is passed.
  */
  lemma ZeroRateStatistics(minPa: int, maxPa: int, draws: nat -> UnitDraw, start: nat, n: nat)
    requires 0 <= minPa && 0 <= maxPa && n >= 1
    ensures var r := CalculateStatistics(Outcomes(Basic(0.0, minPa, maxPa), draws, start, n));
      && r.meanHrs == 0.0 && r.medianHrs == 0.0 && r.varianceHrs == 0.0
      && r.percentile5 == 0.0 && r.percentile95 == 0.0
      && r.probOver40 == 0.0 && r.probOver50 == 0.0 && r.probOver60 == 0.0
  {
    BasicZeroRate(minPa, maxPa, draws, start, n);
    ConstantStatistics(Outcomes(Basic(0.0, minPa, maxPa), draws, start, n), 0);
  }

  /** The stream position `count` draws after `cursor`. */
  function Skip(cursor: nat, count: nat): nat {
    cursor + count
  }

  class MonteCarloSimulator {
    const numTrials: nat
    const rng: RandomState

    /** A simulator with its own generator, reading the seeded stream `draws` from its start. */
    constructor (draws: nat -> UnitDraw, numTrials: nat := 2500)
      ensures this.numTrials == numTrials
      ensures fresh(rng) && rng.draws == draws && rng.cursor == 0
    {
      this.numTrials := numTrials;
      rng := new RandomState(draws);
    }

    // ---- the trial loop every model shares ----

    /**
      `for _ in range(num_trials)`: runs one trial of m after another and
      collects the season totals in order.
    */
    method RunTrials(m: Model, ghost trial: nat -> int) returns (results: seq<int>)
      requires Valid(m) && TrialIs(trial, m, rng.draws)
      modifies rng
      ensures rng.cursor == old(rng.cursor) + DrawsFor(m, numTrials)
      ensures results == Runs(trial, old(rng.cursor), DrawsPerTrial(m), numTrials)
    {
      var start := rng.cursor;
      results := [];
      for t := 0 to numTrials
        invariant rng.cursor == start + DrawsFor(m, t)
        invariant results == Runs(trial, start, DrawsPerTrial(m), t)
      {
        var homeRuns := SimulateSeason(m, trial);
        results := results + [homeRuns];
      }
    }

    /** The body of the trial loop of m's model method. */
    method SimulateSeason(m: Model, ghost trial: nat -> int) returns (homeRuns: int)
      requires Valid(m) && TrialIs(trial, m, rng.draws)
      modifies rng
      ensures rng.cursor == old(rng.cursor) + DrawsPerTrial(m)
      ensures homeRuns == trial(old(rng.cursor))
    {
      match m
      case Basic(_, _, _) =>
        homeRuns := BasicTrial(m);
      case HomeAway(_, _, _, _) =>
        homeRuns := HomeAwayTrial(m);
      case PitcherHandedness(_, _, _, _, _, _) =>
        homeRuns := PitcherTrial(m);
      case BallparkFactor(_, _, _, _, _) =>
        homeRuns := BallparkTrial(m);
      case AdvancedCombined(_, _, _, _) =>
        homeRuns := AdvancedTrial(m);
    }

    // ---- basic model ----

    /** Per trial: pa ~ uniform(min_pa, max_pa), home runs ~ binomial(int(pa), hr_per_pa). */
    method BasicModel(hrPerPa: real, minPa: int := 600, maxPa: int := 700) returns (result: SimulationResult)
      requires numTrials >= 1 && Valid(Basic(hrPerPa, minPa, maxPa))
      modifies rng
      ensures rng.cursor == old(rng.cursor) + numTrials * 2
      ensures result == CalculateStatistics(Outcomes(Basic(hrPerPa, minPa, maxPa), rng.draws, old(rng.cursor), numTrials))
      ensures |result.distribution| == numTrials
      ensures forall i :: 0 <= i < numTrials ==> 0 <= result.distribution[i] <= Max(minPa, maxPa)
    {
      var m := Basic(hrPerPa, minPa, maxPa);
      var start := rng.cursor;
      TrialOfIs(m, rng.draws);
      var results := RunTrials(m, TrialOf(m, rng.draws));
      OutcomesWithin(m, rng.draws, start, numTrials);
      assert OutcomeFloor(m) == 0 && OutcomeCeiling(m) == Max(minPa, maxPa);
      StrideIsProduct(DrawsPerTrial(m), numTrials);
      result := CalculateStatistics(results);
    }

    method BasicTrial(m: Model) returns (homeRuns: int)
      requires m.Basic? && Valid(m)
      modifies rng
      ensures rng.cursor == old(rng.cursor) + 2
      ensures homeRuns == Trial(m, rng.draws, old(rng.cursor))
    {
      var pa := rng.Uniform(m.minPa as real, m.maxPa as real);
      homeRuns := rng.Binomial(Trunc(pa), m.hrPerPa);
    }

    // ---- home/away model ----

    /** Per trial: total_pa ~ uniform, split into ceil/floor halves, one binomial per half. */
    method HomeAwayModel(homeHrPerPa: real, awayHrPerPa: real, minPa: int := 600, maxPa: int := 700)
      returns (result: SimulationResult)
      requires numTrials >= 1 && Valid(HomeAway(homeHrPerPa, awayHrPerPa, minPa, maxPa))
      modifies rng
      ensures rng.cursor == old(rng.cursor) + numTrials * 3
      ensures result == CalculateStatistics(Outcomes(HomeAway(homeHrPerPa, awayHrPerPa, minPa, maxPa),
                                                     rng.draws, old(rng.cursor), numTrials))
      ensures |result.distribution| == numTrials
      ensures forall i :: 0 <= i < numTrials ==> 0 <= result.distribution[i] <= Max(minPa, maxPa)
    {
      var m := HomeAway(homeHrPerPa, awayHrPerPa, minPa, maxPa);
      var start := rng.cursor;
      TrialOfIs(m, rng.draws);
      var results := RunTrials(m, TrialOf(m, rng.draws));
      OutcomesWithin(m, rng.draws, start, numTrials);
      assert OutcomeFloor(m) == 0 && OutcomeCeiling(m) == Max(minPa, maxPa);
      StrideIsProduct(DrawsPerTrial(m), numTrials);
      result := CalculateStatistics(results);
    }

    method HomeAwayTrial(m: Model) returns (totalHrs: int)
      requires m.HomeAway? && Valid(m)
      modifies rng
      ensures rng.cursor == old(rng.cursor) + 3
      ensures totalHrs == Trial(m, rng.draws, old(rng.cursor))
    {
      var totalPa := rng.Uniform(m.minPa as real, m.maxPa as real);
      var split := HomeAwaySplit(totalPa);
      var homePa, awayPa := split.0, split.1;
      var homeHrs := rng.Binomial(homePa, m.homeHrPerPa);
      var awayHrs := rng.Binomial(awayPa, m.awayHrPerPa);
      totalHrs := homeHrs + awayHrs;
    }

    // ---- pitcher-handedness model ----

    /** Per trial: total_pa and rhp_pct ~ uniform, truncated products split the PAs, right then left. */
    method PitcherHandednessModel(vsLeftHrPerPa: real, vsRightHrPerPa: real, minPa: int := 600, maxPa: int := 700,
                                  minRhpPct: real := 0.70, maxRhpPct: real := 0.80)
      returns (result: SimulationResult)
      requires numTrials >= 1
      requires Valid(PitcherHandedness(vsLeftHrPerPa, vsRightHrPerPa, minPa, maxPa, minRhpPct, maxRhpPct))
      modifies rng
      ensures rng.cursor == old(rng.cursor) + numTrials * 4
      ensures result == CalculateStatistics(Outcomes(PitcherHandedness(vsLeftHrPerPa, vsRightHrPerPa, minPa, maxPa, minRhpPct, maxRhpPct),
                                                     rng.draws, old(rng.cursor), numTrials))
      ensures |result.distribution| == numTrials
      ensures forall i :: 0 <= i < numTrials ==> 0 <= result.distribution[i] <= Max(minPa, maxPa)
    {
      var m := PitcherHandedness(vsLeftHrPerPa, vsRightHrPerPa, minPa, maxPa, minRhpPct, maxRhpPct);
      var start := rng.cursor;
      TrialOfIs(m, rng.draws);
      var results := RunTrials(m, TrialOf(m, rng.draws));
      OutcomesWithin(m, rng.draws, start, numTrials);
      assert OutcomeFloor(m) == 0 && OutcomeCeiling(m) == Max(minPa, maxPa);
      StrideIsProduct(DrawsPerTrial(m), numTrials);
      result := CalculateStatistics(results);
    }

    method PitcherTrial(m: Model) returns (totalHrs: int)
      requires m.PitcherHandedness? && Valid(m)
      modifies rng
      ensures rng.cursor == old(rng.cursor) + 4
      ensures totalHrs == Trial(m, rng.draws, old(rng.cursor))
    {
      var totalPa := rng.Uniform(m.minPa as real, m.maxPa as real);
      var rhpPct := rng.Uniform(m.minRhpPct, m.maxRhpPct);
      var split := PitcherSplit(totalPa, rhpPct);
      var vsRightPa, vsLeftPa := split.0, split.1;
      var vsRightHrs := rng.Binomial(vsRightPa, m.vsRightHrPerPa);
      var vsLeftHrs := rng.Binomial(vsLeftPa, m.vsLeftHrPerPa);
      totalHrs := vsRightHrs + vsLeftHrs;
    }

    // ---- ballpark-factor model ----

    /**
      Counts the schedule's games per venue, then per trial draws one binomial
      per venue, in the order the venues first appear, and adds them up.
    */
    method BallparkFactorModel(schedule: seq<ScheduleEntry>, ballparkFactors: map<string, real>, baseHrPerPa: real,
                               yankeeStadiumFactor: real := 101.0, paPerGame: real := 4.45)
      returns (result: SimulationResult)
      requires numTrials >= 1
      requires Valid(BallparkModelOf(schedule, ballparkFactors, baseHrPerPa, yankeeStadiumFactor, paPerGame))
      modifies rng
      ensures rng.cursor == old(rng.cursor) + DrawsFor(BallparkModelOf(schedule, ballparkFactors, baseHrPerPa, yankeeStadiumFactor, paPerGame), numTrials)
      ensures result == CalculateStatistics(Outcomes(BallparkModelOf(schedule, ballparkFactors, baseHrPerPa, yankeeStadiumFactor, paPerGame),
                                                     rng.draws, old(rng.cursor), numTrials))
      ensures |result.distribution| == numTrials
      ensures forall i :: 0 <= i < numTrials ==> 0 <= result.distribution[i]
    {
      var venues, games := CountGamesByVenue(schedule);
      var m := BallparkFactor(VenueTally(venues, games), ballparkFactors, baseHrPerPa, yankeeStadiumFactor, paPerGame);
      var start := rng.cursor;
      TrialOfIs(m, rng.draws);
      var results := RunTrials(m, TrialOf(m, rng.draws));
      OutcomesWithin(m, rng.draws, start, numTrials);
      assert OutcomeFloor(m) == 0;
      result := CalculateStatistics(results);
    }

    method BallparkTrial(m: Model) returns (totalHrs: int)
      requires m.BallparkFactor? && Valid(m)
      modifies rng
      ensures rng.cursor == old(rng.cursor) + |m.tally.venues|
      ensures totalHrs == Trial(m, rng.draws, old(rng.cursor))
    {
      var at := rng.cursor;
      totalHrs := 0;
      for j := 0 to |m.tally.venues|
        invariant rng.cursor == at + j
        invariant totalHrs == BallparkHrs(m, rng.draws, at, j)
      {
        var venue := m.tally.venues[j];
        var parkFactor := FactorFor(m.ballparkFactors, venue);
        var adjustedHrPerPa := AdjustedRate(m.baseHrPerPa, parkFactor, m.yankeeStadiumFactor);
        var venuePa := VenuePa(m.tally.games[venue], m.paPerGame);
        var venueHrs := rng.Binomial(venuePa, adjustedHrPerPa);
        totalHrs := totalHrs + venueHrs;
      }
    }

    // ---- advanced combined model ----

    /**
      Starts every trial from the current home runs and adds a binomial over
      the remaining games at the current pace, scaled by uniform(0.9, 1.1).
      The splits, schedule and park factors are accepted and not used.
    */
    method AdvancedCombinedModel(stats: CurrentStats, homeAwaySplits: Splits, pitcherSplits: Splits,
                                 schedule: seq<ScheduleEntry>, ballparkFactors: map<string, real>)
      returns (result: SimulationResult)
      requires numTrials >= 1 && StatsAdmissible(stats)
      modifies rng
      ensures rng.cursor == old(rng.cursor) + numTrials * 2
      ensures result == CalculateStatistics(Outcomes(AdvancedModelOf(stats), rng.draws, old(rng.cursor), numTrials))
      ensures |result.distribution| == numTrials
      ensures forall i :: 0 <= i < numTrials ==> HomeRuns(stats) <= result.distribution[i]
    {
      var gamesPlayed := GamesPlayed(stats);
      var gamesRemaining := 162 - gamesPlayed;
      var currentPaPerGame := CurrentPaPerGame(stats);
      AdvancedModelValid(stats);
      var m := AdvancedCombined(HomeRuns(stats), gamesRemaining, currentPaPerGame, OverallRate(stats));
      assert m == AdvancedModelOf(stats);
      var start := rng.cursor;
      TrialOfIs(m, rng.draws);
      var results := RunTrials(m, TrialOf(m, rng.draws));
      OutcomesWithin(m, rng.draws, start, numTrials);
      assert OutcomeFloor(m) == HomeRuns(stats);
      StrideIsProduct(DrawsPerTrial(m), numTrials);
      result := CalculateStatistics(results);
    }

    method AdvancedTrial(m: Model) returns (totalHrs: int)
      requires m.AdvancedCombined? && Valid(m)
      modifies rng
      ensures rng.cursor == old(rng.cursor) + 2
      ensures totalHrs == Trial(m, rng.draws, old(rng.cursor))
    {
      totalHrs := m.homeRuns;
      var noise := rng.Uniform(0.9, 1.1);
      var remainingPa := RemainingPa(m.gamesRemaining, m.paPerGame, noise);
      var remainingHrs := rng.Binomial(remainingPa, m.hrPerPa);
      totalHrs := totalHrs + remainingHrs;
    }

    // ---- all models ----

    /**
      Extracts the five rates (with their fallbacks) and runs the five models
      in dictionary order, each with its default parameters, on one stream.
    */
    method RunAllModels(stats: CurrentStats, homeAwaySplits: Splits, pitcherSplits: Splits,
                        schedule: seq<ScheduleEntry>, ballparkFactors: map<string, real>)
      returns (results: map<string, SimulationResult>)
      requires numTrials >= 1 && RunAllAdmissible(stats, homeAwaySplits, pitcherSplits, schedule, ballparkFactors)
      modifies rng
      ensures results.Keys == ModelNames
      ensures Valid(AdvancedModelOf(stats))
      ensures var r := ExtractRates(stats, homeAwaySplits, pitcherSplits);
        var parks := BallparkModelOf(schedule, ballparkFactors, r.overall, 101.0, 4.45);
        var n := numTrials;
        var atHomeAway := Skip(old(rng.cursor), n * 2);
        var atPitcher := Skip(atHomeAway, n * 3);
        var atBallpark := Skip(atPitcher, n * 4);
        var atAdvanced := Skip(atBallpark, DrawsFor(parks, n));
        && results["basic"] == CalculateStatistics(Outcomes(Basic(r.overall, 600, 700), rng.draws, old(rng.cursor), n))
        && results["home_away"] == CalculateStatistics(Outcomes(HomeAway(r.home, r.away, 600, 700), rng.draws, atHomeAway, n))
        && results["pitcher_handedness"]
           == CalculateStatistics(Outcomes(PitcherHandedness(r.vsLeft, r.vsRight, 600, 700, 0.70, 0.80), rng.draws, atPitcher, n))
        && results["ballpark_factors"] == CalculateStatistics(Outcomes(parks, rng.draws, atBallpark, n))
        && results["advanced_combined"] == CalculateStatistics(Outcomes(AdvancedModelOf(stats), rng.draws, atAdvanced, n))
        && rng.cursor == Skip(atAdvanced, n * 2)
    {
      var rates := ExtractRates(stats, homeAwaySplits, pitcherSplits);
      ghost var parks := BallparkModelOf(schedule, ballparkFactors, rates.overall, 101.0, 4.45);
      // Each model starts where the previous one stopped; naming each start as a
      // `Skip` term lets the next call's postcondition be matched against it.
      var basic := BasicModel(rates.overall);
      assert rng.cursor == Skip(old(rng.cursor), numTrials * 2);
      var homeAway := HomeAwayModel(rates.home, rates.away);
      assert rng.cursor == Skip(Skip(old(rng.cursor), numTrials * 2), numTrials * 3);
      var pitcher := PitcherHandednessModel(rates.vsLeft, rates.vsRight);
      assert rng.cursor == Skip(Skip(Skip(old(rng.cursor), numTrials * 2), numTrials * 3), numTrials * 4);
      var ballpark := BallparkFactorModel(schedule, ballparkFactors, rates.overall);
      assert rng.cursor
          == Skip(Skip(Skip(Skip(old(rng.cursor), numTrials * 2), numTrials * 3), numTrials * 4), DrawsFor(parks, numTrials));
      AdvancedModelValid(stats);
      var advanced := AdvancedCombinedModel(stats, homeAwaySplits, pitcherSplits, schedule, ballparkFactors);
      results := ResultsByModel(basic, homeAway, pitcher, ballpark, advanced);
    }
  }
}
