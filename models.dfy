/**
  What one trial of each of the five season models computes, as a function of
  the model's inputs and the generator's draws, and the list of outcomes a
  run of N trials produces. The simulator's loops are proved to build exactly
  these lists.
*/
module Models {
  import opened Arithmetic
  import opened RandomSource
  import opened Schedule
  import opened Inputs

  // ---- plate-appearance splits ----

  /** home_pa = ceil(total / 2), away_pa = floor(total / 2). */
  function HomeAwaySplit(totalPa: real): (split: (int, int))
    ensures split.0 - split.1 == 0 || split.0 - split.1 == 1
    ensures split.0 + split.1 == totalPa.Floor || split.0 + split.1 == totalPa.Floor + 1
    ensures split.0 + split.1 <= Ceil(totalPa)
    ensures 0.0 <= totalPa ==> 0 <= split.1
  {
    var half := totalPa / 2.0;
    var home, away := Ceil(half), half.Floor;
    if half == away as real then
      assert home == away;
      assert totalPa == (2 * away) as real;
      (home, away)
    else
      assert home == away + 1;
      assert (2 * away) as real < totalPa < (2 * away + 2) as real;
      (home, away)
  }

  /** vs_right_pa = int(total * rhp_pct), vs_left_pa = int(total * (1 - rhp_pct)). */
  function PitcherSplit(totalPa: real, rhpPct: real): (split: (int, int))
    ensures 0.0 <= totalPa && 0.0 <= rhpPct <= 1.0 ==>
      && 0 <= split.0 && 0 <= split.1
      && (split.0 + split.1) as real <= totalPa
      && split.0 + split.1 >= totalPa.Floor - 1
  {
    if 0.0 <= totalPa && 0.0 <= rhpPct <= 1.0 then
      ShareBounds(totalPa, rhpPct);
      (Trunc(totalPa * rhpPct), Trunc(totalPa * (1.0 - rhpPct)))
    else
      (Trunc(totalPa * rhpPct), Trunc(totalPa * (1.0 - rhpPct)))
  }

  lemma ShareBounds(total: real, share: real)
    requires 0.0 <= total && 0.0 <= share <= 1.0
    ensures 0.0 <= total * share && 0.0 <= total * (1.0 - share)
    ensures total * share + total * (1.0 - share) == total
  {
    ProductNonNegative(total, share);
    ProductNonNegative(total, 1.0 - share);
  }

  // ---- the ballpark model's per-venue quantities ----

  /** `ballpark_factors.get(venue, 100)`. */
  function FactorFor(ballparkFactors: map<string, real>, venue: string): (f: real)
    ensures venue in ballparkFactors ==> f == ballparkFactors[venue]
    ensures venue !in ballparkFactors ==> f == 100.0
  {
    if venue in ballparkFactors then ballparkFactors[venue] else 100.0
  }

  /** The base rate scaled by the venue's factor relative to the baseline venue. */
  function AdjustedRate(baseHrPerPa: real, parkFactor: real, baselineFactor: real): (rate: real)
    requires baselineFactor != 0.0
    ensures parkFactor == baselineFactor ==> rate == baseHrPerPa
    ensures 0.0 <= baseHrPerPa && 0.0 <= parkFactor && 0.0 < baselineFactor ==> 0.0 <= rate
  {
    if 0.0 <= baseHrPerPa && 0.0 <= parkFactor && 0.0 < baselineFactor then
      ProductNonNegative(baseHrPerPa, parkFactor / baselineFactor);
      baseHrPerPa * (parkFactor / baselineFactor)
    else
      baseHrPerPa * (parkFactor / baselineFactor)
  }

  /** NumPy accepts the scaled rate of this venue (and the division is defined). */
  predicate ValidVenue(baseHrPerPa: real, ballparkFactors: map<string, real>, baselineFactor: real, venue: string) {
    baselineFactor != 0.0 && ValidRate(AdjustedRate(baseHrPerPa, FactorFor(ballparkFactors, venue), baselineFactor))
  }

  /** int(num_games * pa_per_game). */
  function VenuePa(numGames: int, paPerGame: real): (pa: int)
    ensures 0 <= numGames && 0.0 <= paPerGame ==> 0 <= pa
  {
    if 0 <= numGames && 0.0 <= paPerGame then
      ProductNonNegative(numGames as real, paPerGame);
      Trunc(numGames as real * paPerGame)
    else
      Trunc(numGames as real * paPerGame)
  }

  // ---- the advanced model's remaining season ----

  /** int(games_remaining * pa_per_game * noise), noise being the uniform(0.9, 1.1) draw. */
  function RemainingPa(gamesRemaining: int, paPerGame: real, noise: real): (pa: int)
    ensures 0 <= gamesRemaining && 0.0 <= paPerGame && 0.0 <= noise <= 1.1 ==>
      0 <= pa <= Trunc(gamesRemaining as real * paPerGame * 1.1)
  {
    var pace := gamesRemaining as real * paPerGame;
    if 0 <= gamesRemaining && 0.0 <= paPerGame && 0.0 <= noise <= 1.1 then
      ProductNonNegative(gamesRemaining as real, paPerGame);
      ProductNonNegative(pace, noise);
      ProductNonNegative(pace, 1.1 - noise);
      TruncMonotone(pace * noise, pace * 1.1);
      Trunc(pace * noise)
    else
      Trunc(pace * noise)
  }

  /**
    Plate appearances per game so far: `plate_appearances / max(games_played, 1)`,
    replaced by the historical 4.45 when it comes out as zero.
  */
  function CurrentPaPerGame(stats: CurrentStats): (pace: real)
    ensures pace != 0.0
    ensures PlateAppearances(stats) == 0 ==> pace == 4.45
    ensures PlateAppearances(stats) != 0 ==> pace * Max(GamesPlayed(stats), 1) as real == PlateAppearances(stats) as real
    ensures 0 <= PlateAppearances(stats) ==> 0.0 < pace
  {
    var games := Max(GamesPlayed(stats), 1);
    var pace := PlateAppearances(stats) as real / games as real;
    if pace == 0.0 then 4.45 else pace
  }

  // ---- the five models ----

  /** The inputs of one model call, after its fixed preprocessing. */
  datatype Model =
    | Basic(hrPerPa: real, minPa: int, maxPa: int)
    | HomeAway(homeHrPerPa: real, awayHrPerPa: real, minPa: int, maxPa: int)
    | PitcherHandedness(vsLeftHrPerPa: real, vsRightHrPerPa: real, minPa: int, maxPa: int,
                        minRhpPct: real, maxRhpPct: real)
    | BallparkFactor(tally: VenueTally, ballparkFactors: map<string, real>, baseHrPerPa: real,
                     yankeeStadiumFactor: real, paPerGame: real)
    | AdvancedCombined(homeRuns: int, gamesRemaining: int, paPerGame: real, hrPerPa: real)

  /** The ballpark model's inputs once the schedule has been counted. */
  function BallparkModelOf(schedule: seq<ScheduleEntry>, ballparkFactors: map<string, real>, baseHrPerPa: real,
                           yankeeStadiumFactor: real, paPerGame: real): Model
  {
    BallparkFactor(Tally(schedule), ballparkFactors, baseHrPerPa, yankeeStadiumFactor, paPerGame)
  }

  /** The advanced model's inputs, derived once from the season totals before the trials. */
  function AdvancedModelOf(stats: CurrentStats): (m: Model)
    ensures m.AdvancedCombined?
    ensures stats.homeRuns.Some? ==> m.homeRuns == stats.homeRuns.value
    ensures stats.homeRuns.None? ==> m.homeRuns == 0
    ensures stats.gamesPlayed.Some? ==> m.gamesRemaining == 162 - stats.gamesPlayed.value
    ensures stats.gamesPlayed.None? ==> m.gamesRemaining == 162
    ensures GamesPlayed(stats) <= 162 ==> 0 <= m.gamesRemaining
    ensures m.paPerGame == CurrentPaPerGame(stats)
    ensures stats.hrPerPa.Some? ==> m.hrPerPa == stats.hrPerPa.value
    ensures stats.hrPerPa.None? ==> m.hrPerPa == 0.0824
  {
    AdvancedCombined(HomeRuns(stats), 162 - GamesPlayed(stats), CurrentPaPerGame(stats), OverallRate(stats))
  }

  /** Every binomial draw of a trial gets n >= 0 and a rate in [0, 1], as NumPy demands. */
  predicate Valid(m: Model) {
    match m
    case Basic(hr, minPa, maxPa) => ValidRate(hr) && 0 <= minPa && 0 <= maxPa
    case HomeAway(home, away, minPa, maxPa) => ValidRate(home) && ValidRate(away) && 0 <= minPa && 0 <= maxPa
    case PitcherHandedness(left, right, minPa, maxPa, minRhp, maxRhp) =>
      && ValidRate(left) && ValidRate(right) && 0 <= minPa && 0 <= maxPa
      && 0.0 <= minRhp <= 1.0 && 0.0 <= maxRhp <= 1.0
    case BallparkFactor(tally, factors, base, baseline, paPerGame) =>
      forall j :: 0 <= j < |tally.venues| ==>
        && tally.venues[j] in tally.games
        && 0 <= VenuePa(tally.games[tally.venues[j]], paPerGame)
        && ValidVenue(base, factors, baseline, tally.venues[j])
    case AdvancedCombined(_, remaining, paPerGame, hr) => 0 <= remaining && 0.0 <= paPerGame && ValidRate(hr)
  }

  /** How many draws one trial consumes. */
  function DrawsPerTrial(m: Model): nat {
    match m
    case Basic(_, _, _) => 2
    case HomeAway(_, _, _, _) => 3
    case PitcherHandedness(_, _, _, _, _, _) => 4
    case BallparkFactor(tally, _, _, _, _) => |tally.venues|
    case AdvancedCombined(_, _, _, _) => 2
  }

  /** Home runs at the j-th venue of the ballpark model, from one draw. */
  function VenueHrs(m: Model, j: nat, u: UnitDraw): (h: int)
    requires m.BallparkFactor? && Valid(m) && j < |m.tally.venues|
    ensures 0 <= h <= VenuePa(m.tally.games[m.tally.venues[j]], m.paPerGame)
    ensures m.baseHrPerPa == 0.0 ==> h == 0
  {
    var venue := m.tally.venues[j];
    var rate := AdjustedRate(m.baseHrPerPa, FactorFor(m.ballparkFactors, venue), m.yankeeStadiumFactor);
    BinomialValue(VenuePa(m.tally.games[venue], m.paPerGame), rate, u)
  }

  /** The running total after the first j venues of a ballpark trial starting at draw `at`. */
  function BallparkHrs(m: Model, draws: nat -> UnitDraw, at: nat, j: nat): (h: int)
    requires m.BallparkFactor? && Valid(m) && j <= |m.tally.venues|
    ensures 0 <= h
    ensures m.baseHrPerPa == 0.0 ==> h == 0
  {
    if j == 0 then 0 else BallparkHrs(m, draws, at, j - 1) + VenueHrs(m, j - 1, draws(at + j - 1))
  }

  /** The plate appearances of the first j venues together. */
  function BallparkPa(m: Model, j: nat): int
    requires m.BallparkFactor? && Valid(m) && j <= |m.tally.venues|
  {
    if j == 0 then 0 else BallparkPa(m, j - 1) + VenuePa(m.tally.games[m.tally.venues[j - 1]], m.paPerGame)
  }

  /** How many draws k runs of `step` draws each consume. */
  function Stride(step: nat, k: nat): nat {
    if k == 0 then 0 else Stride(step, k - 1) + step
  }

  /** A stride is k times the step. */
  lemma {:induction false} StrideIsProduct(step: nat, k: nat)
    ensures Stride(step, k) == k * step
  {
    if k > 0 {
      StrideIsProduct(step, k - 1);
    }
  }

  /** How many draws n trials consume. */
  function DrawsFor(m: Model, n: nat): nat {
    Stride(DrawsPerTrial(m), n)
  }

  /** A basic-model season: a uniform plate-appearance count, then one binomial draw. */
  function BasicHrs(m: Model, draws: nat -> UnitDraw, at: nat): (h: int)
    requires m.Basic? && Valid(m)
    ensures 0 <= h <= Max(m.minPa, m.maxPa)
    ensures m.hrPerPa == 0.0 ==> h == 0
  {
    var pa := UniformValue(m.minPa as real, m.maxPa as real, draws(at));
    BinomialValue(Trunc(pa), m.hrPerPa, draws(at + 1))
  }

  /** A home/away season: the plate appearances split in halves, one binomial draw per half. */
  function HomeAwayHrs(m: Model, draws: nat -> UnitDraw, at: nat): (h: int)
    requires m.HomeAway? && Valid(m)
    ensures 0 <= h <= Max(m.minPa, m.maxPa)
    ensures m.homeHrPerPa == 0.0 && m.awayHrPerPa == 0.0 ==> h == 0
  {
    var total := UniformValue(m.minPa as real, m.maxPa as real, draws(at));
    assert Ceil(total) as real - 1.0 < Max(m.minPa, m.maxPa) as real;
    var split := HomeAwaySplit(total);
    BinomialValue(split.0, m.homeHrPerPa, draws(at + 1)) + BinomialValue(split.1, m.awayHrPerPa, draws(at + 2))
  }

  /** A handedness season: plate appearances and a right-hander share, then right before left. */
  function PitcherHrs(m: Model, draws: nat -> UnitDraw, at: nat): (h: int)
    requires m.PitcherHandedness? && Valid(m)
    ensures 0 <= h <= Max(m.minPa, m.maxPa)
    ensures m.vsLeftHrPerPa == 0.0 && m.vsRightHrPerPa == 0.0 ==> h == 0
  {
    var totalPa := UniformValue(m.minPa as real, m.maxPa as real, draws(at));
    var rhpPct := UniformValue(m.minRhpPct, m.maxRhpPct, draws(at + 1));
    var split := PitcherSplit(totalPa, rhpPct);
    BinomialValue(split.0, m.vsRightHrPerPa, draws(at + 2)) + BinomialValue(split.1, m.vsLeftHrPerPa, draws(at + 3))
  }

  /** An advanced season: the home runs so far plus one draw over the noisy remaining plate appearances. */
  function AdvancedHrs(m: Model, draws: nat -> UnitDraw, at: nat): (h: int)
    requires m.AdvancedCombined? && Valid(m)
    ensures m.homeRuns <= h
    ensures m.hrPerPa == 0.0 ==> h == m.homeRuns
  {
    var noise := UniformValue(0.9, 1.1, draws(at));
    m.homeRuns + BinomialValue(RemainingPa(m.gamesRemaining, m.paPerGame, noise), m.hrPerPa, draws(at + 1))
  }

  /** One simulated season, using the draws at positions at, at + 1, ... */
  function Trial(m: Model, draws: nat -> UnitDraw, at: nat): (h: int)
    requires Valid(m)
    ensures OutcomeFloor(m) <= h
  {
    match m
    case Basic(_, _, _) => BasicHrs(m, draws, at)
    case HomeAway(_, _, _, _) => HomeAwayHrs(m, draws, at)
    case PitcherHandedness(_, _, _, _, _, _) => PitcherHrs(m, draws, at)
    case BallparkFactor(tally, _, _, _, _) => BallparkHrs(m, draws, at, |tally.venues|)
    case AdvancedCombined(_, _, _, _) => AdvancedHrs(m, draws, at)
  }

  /** The trial function of a model: the trial that starts at a given draw. */
  function TrialOf(m: Model, draws: nat -> UnitDraw): nat -> int
    requires Valid(m)
  {
    (at: nat) => Trial(m, draws, at)
  }

  /** n runs of `trial`, each one starting `step` draws after the previous one. */
  function Runs(trial: nat -> int, start: nat, step: nat, n: nat): (r: seq<int>)
    ensures |r| == n
  {
    if n == 0 then [] else Runs(trial, start, step, n - 1) + [trial(start + Stride(step, n - 1))]
  }

  /** The i-th run is the one that starts i steps after the first. */
  lemma {:induction false} RunAt(trial: nat -> int, start: nat, step: nat, n: nat, i: nat)
    requires i < n
    ensures Runs(trial, start, step, n)[i] == trial(start + Stride(step, i))
  {
    if i < n - 1 {
      RunAt(trial, start, step, n - 1, i);
    }
  }

  /** The outcome list of n trials, the first starting at draw `start`. */
  function Outcomes(m: Model, draws: nat -> UnitDraw, start: nat, n: nat): (r: seq<int>)
    requires Valid(m)
    ensures |r| == n
  {
    Runs(TrialOf(m, draws), start, DrawsPerTrial(m), n)
  }

  /**
    `trial` gives, at every draw position, the trial of m that starts there.
    The trigger keeps the trials' definitions out of proofs that only move
    whole runs around.
  */
  ghost predicate TrialIs(trial: nat -> int, m: Model, draws: nat -> UnitDraw)
    requires Valid(m)
  {
    forall at: nat {:trigger Trial(m, draws, at)} :: trial(at) == Trial(m, draws, at)
  }

  /** A model's own trial function is its trial. */
  lemma TrialOfIs(m: Model, draws: nat -> UnitDraw)
    requires Valid(m)
    ensures TrialIs(TrialOf(m, draws), m, draws)
  {
  }

  /** The i-th outcome is the trial that starts i trials' worth of draws later. */
  lemma OutcomeAt(m: Model, draws: nat -> UnitDraw, start: nat, n: nat, i: nat)
    requires Valid(m) && i < n
    ensures Outcomes(m, draws, start, n)[i] == Trial(m, draws, start + DrawsFor(m, i))
  {
    RunAt(TrialOf(m, draws), start, DrawsPerTrial(m), n, i);
  }

  // ---- bounds on one trial ----

  /** The smallest total a trial can give. */
  function OutcomeFloor(m: Model): int {
    if m.AdvancedCombined? then m.homeRuns else 0
  }

  /** The largest total a trial can give. */
  function OutcomeCeiling(m: Model): int
    requires Valid(m)
  {
    match m
    case Basic(_, minPa, maxPa) => Max(minPa, maxPa)
    case HomeAway(_, _, minPa, maxPa) => Max(minPa, maxPa)
    case PitcherHandedness(_, _, minPa, maxPa, _, _) => Max(minPa, maxPa)
    case BallparkFactor(tally, _, _, _, _) => BallparkPa(m, |tally.venues|)
    case AdvancedCombined(homeRuns, remaining, paPerGame, _) =>
      homeRuns + Trunc(remaining as real * paPerGame * 1.1)
  }

  /** Basic model: 0 <= outcome <= int(pa), and int(pa) is at most max_pa. */
  lemma BasicTrialBounds(m: Model, draws: nat -> UnitDraw, at: nat)
    requires m.Basic? && Valid(m)
    ensures var pa := Trunc(UniformValue(m.minPa as real, m.maxPa as real, draws(at)));
      0 <= Trial(m, draws, at) <= pa <= Max(m.minPa, m.maxPa)
  {
  }

  /** Home/away model: 0 <= outcome <= home_pa + away_pa <= max_pa. */
  lemma HomeAwayTrialBounds(m: Model, draws: nat -> UnitDraw, at: nat)
    requires m.HomeAway? && Valid(m)
    ensures var split := HomeAwaySplit(UniformValue(m.minPa as real, m.maxPa as real, draws(at)));
      0 <= Trial(m, draws, at) <= split.0 + split.1 <= Max(m.minPa, m.maxPa)
  {
    var total := UniformValue(m.minPa as real, m.maxPa as real, draws(at));
    assert Ceil(total) as real - 1.0 < Max(m.minPa, m.maxPa) as real;
  }

  /** Pitcher model: 0 <= outcome <= vs_right_pa + vs_left_pa <= total_pa <= max_pa. */
  lemma PitcherTrialBounds(m: Model, draws: nat -> UnitDraw, at: nat)
    requires m.PitcherHandedness? && Valid(m)
    ensures var totalPa := UniformValue(m.minPa as real, m.maxPa as real, draws(at));
      var split := PitcherSplit(totalPa, UniformValue(m.minRhpPct, m.maxRhpPct, draws(at + 1)));
      0 <= Trial(m, draws, at) <= split.0 + split.1 <= Max(m.minPa, m.maxPa)
  {
  }

  /** Ballpark model: the running total stays within [0, the venues' plate appearances]. */
  lemma {:induction false} BallparkTrialBounds(m: Model, draws: nat -> UnitDraw, at: nat, j: nat)
    requires m.BallparkFactor? && Valid(m) && j <= |m.tally.venues|
    ensures 0 <= BallparkHrs(m, draws, at, j) <= BallparkPa(m, j)
  {
    if j > 0 {
      BallparkTrialBounds(m, draws, at, j - 1);
    }
  }

  /** Advanced model: current home runs <= outcome <= current + the remaining plate appearances. */
  lemma AdvancedTrialBounds(m: Model, draws: nat -> UnitDraw, at: nat)
    requires m.AdvancedCombined? && Valid(m)
    ensures var remaining := RemainingPa(m.gamesRemaining, m.paPerGame, UniformValue(0.9, 1.1, draws(at)));
      m.homeRuns <= Trial(m, draws, at) <= m.homeRuns + remaining <= OutcomeCeiling(m)
  {
  }

  lemma TrialWithin(m: Model, draws: nat -> UnitDraw, at: nat)
    requires Valid(m)
    ensures OutcomeFloor(m) <= Trial(m, draws, at) <= OutcomeCeiling(m)
  {
    match m
    case Basic(_, _, _) => BasicTrialBounds(m, draws, at);
    case HomeAway(_, _, _, _) => HomeAwayTrialBounds(m, draws, at);
    case PitcherHandedness(_, _, _, _, _, _) => PitcherTrialBounds(m, draws, at);
    case BallparkFactor(tally, _, _, _, _) => BallparkTrialBounds(m, draws, at, |tally.venues|);
    case AdvancedCombined(_, _, _, _) => AdvancedTrialBounds(m, draws, at);
  }

  /** Runs of a trial function bounded by [lo, hi] all lie in [lo, hi]. */
  lemma RunsWithin(trial: nat -> int, start: nat, step: nat, n: nat, lo: int, hi: int)
    requires forall at :: lo <= trial(at) <= hi
    ensures forall i :: 0 <= i < n ==> lo <= Runs(trial, start, step, n)[i] <= hi
  {
    forall i | 0 <= i < n
      ensures lo <= Runs(trial, start, step, n)[i] <= hi
    {
      RunAt(trial, start, step, n, i);
    }
  }

  /** Every outcome of a run lies between the model's floor and ceiling. */
  lemma OutcomesWithin(m: Model, draws: nat -> UnitDraw, start: nat, n: nat)
    requires Valid(m)
    ensures forall i :: 0 <= i < n ==> OutcomeFloor(m) <= Outcomes(m, draws, start, n)[i] <= OutcomeCeiling(m)
  {
    var trial := TrialOf(m, draws);
    forall at: nat
      ensures OutcomeFloor(m) <= trial(at) <= OutcomeCeiling(m)
    {
      TrialWithin(m, draws, at);
    }
    RunsWithin(trial, start, DrawsPerTrial(m), n, OutcomeFloor(m), OutcomeCeiling(m));
  }

  // ---- special cases ----

  /** With hr_per_pa = 0 every basic-model outcome is 0. */
  lemma BasicZeroRate(minPa: int, maxPa: int, draws: nat -> UnitDraw, start: nat, n: nat)
    requires 0 <= minPa && 0 <= maxPa
    ensures forall i :: 0 <= i < n ==> Outcomes(Basic(0.0, minPa, maxPa), draws, start, n)[i] == 0
  {
    forall i | 0 <= i < n
      ensures Outcomes(Basic(0.0, minPa, maxPa), draws, start, n)[i] == 0
    {
      OutcomeAt(Basic(0.0, minPa, maxPa), draws, start, n, i);
    }
  }

  /**
    A schedule played entirely at one venue whose factor is the baseline gives
    the same trial as the basic model with exactly that venue's plate appearances.
  */
  lemma NeutralVenueMatchesBasic(schedule: seq<ScheduleEntry>, venue: string, ballparkFactors: map<string, real>,
                                 baseHrPerPa: real, paPerGame: real, draws: nat -> UnitDraw, at: nat)
    requires schedule != [] && forall i :: 0 <= i < |schedule| ==> VenueOf(schedule[i]) == venue
    requires ValidRate(baseHrPerPa) && 0.0 <= paPerGame && FactorFor(ballparkFactors, venue) != 0.0
    ensures var m := BallparkModelOf(schedule, ballparkFactors, baseHrPerPa, FactorFor(ballparkFactors, venue), paPerGame);
      var pa := VenuePa(|schedule|, paPerGame);
      Valid(m) && Trial(m, draws, at + 1) == Trial(Basic(baseHrPerPa, pa, pa), draws, at)
  {
    var baseline := FactorFor(ballparkFactors, venue);
    OneVenueTally(schedule, venue);
    var m := BallparkModelOf(schedule, ballparkFactors, baseHrPerPa, baseline, paPerGame);
    assert m.tally == VenueTally([venue], map[venue := |schedule|]);
    var pa := VenuePa(|schedule|, paPerGame);
    assert AdjustedRate(baseHrPerPa, baseline, baseline) == baseHrPerPa;
    assert Valid(m);
    assert VenueHrs(m, 0, draws(at + 1)) == BinomialValue(pa, baseHrPerPa, draws(at + 1));
    assert BallparkHrs(m, draws, at + 1, 1) == VenueHrs(m, 0, draws(at + 1));
    var total := UniformValue(pa as real, pa as real, draws(at));
    assert total == pa as real;
    assert Trunc(total) == pa;
  }

  /**
    The ballpark model's draws are all admissible when every scheduled venue
    has an admissible scaled rate and the plate-appearance pace is not negative.
  */
  lemma BallparkModelValid(schedule: seq<ScheduleEntry>, ballparkFactors: map<string, real>, baseHrPerPa: real,
                           yankeeStadiumFactor: real, paPerGame: real)
    requires 0.0 <= paPerGame
    requires forall i :: 0 <= i < |schedule| ==>
      ValidVenue(baseHrPerPa, ballparkFactors, yankeeStadiumFactor, VenueOf(schedule[i]))
    ensures Valid(BallparkModelOf(schedule, ballparkFactors, baseHrPerPa, yankeeStadiumFactor, paPerGame))
  {
    var tally := Tally(schedule);
    TallyWellFormed(schedule);
    forall j | 0 <= j < |tally.venues|
      ensures tally.venues[j] in tally.games
      ensures 0 <= VenuePa(tally.games[tally.venues[j]], paPerGame)
      ensures ValidVenue(baseHrPerPa, ballparkFactors, yankeeStadiumFactor, tally.venues[j])
    {
      TallyVenueScheduled(schedule, j);
      assert tally.venues[j] in tally.games;
    }
  }

  /** The advanced model's inputs are admissible once games_played <= 162 and the totals are sane. */
  predicate StatsAdmissible(stats: CurrentStats) {
    GamesPlayed(stats) <= 162 && 0 <= PlateAppearances(stats) && ValidRate(OverallRate(stats))
  }

  lemma AdvancedModelValid(stats: CurrentStats)
    requires StatsAdmissible(stats)
    ensures Valid(AdvancedModelOf(stats))
    ensures AdvancedModelOf(stats).gamesRemaining >= 0
  {
  }
}
