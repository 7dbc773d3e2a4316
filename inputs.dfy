/**
  The rate dictionaries the simulator is called with. A Python dictionary
  lookup with a default becomes an optional field (or a map lookup) with the
  documented fallback constant.
*/
module Inputs {
  import opened Options

  /** Current-season totals; any of them may be missing from the dictionary. */
  datatype CurrentStats = CurrentStats(
    homeRuns: Option<int>,
    plateAppearances: Option<int>,
    atBats: Option<int>,
    hits: Option<int>,
    gamesPlayed: Option<int>,
    hrPerPa: Option<real>)

  /** One split line ('home', 'away', 'vs_left' or 'vs_right'). */
  datatype SplitLine = SplitLine(homeRuns: Option<int>, plateAppearances: Option<int>, hrPerPa: Option<real>)

  /** A splits dictionary, keyed by split name. */
  type Splits = map<string, SplitLine>

  const FallbackOverallRate: real := 0.0824
  const FallbackHomeRate: real := 0.0909
  const FallbackAwayRate: real := 0.0744
  const FallbackVsLeftRate: real := 0.0870
  const FallbackVsRightRate: real := 0.0808

  /** `current_stats.get('hr_per_pa', 0.0824)`. */
  function OverallRate(stats: CurrentStats): real {
    stats.hrPerPa.GetOr(FallbackOverallRate)
  }

  /** `splits.get(key, {}).get('hr_per_pa', fallback)`. */
  function SplitRate(splits: Splits, key: string, fallback: real): real {
    if key in splits then splits[key].hrPerPa.GetOr(fallback) else fallback
  }

  /** The five rates `run_all_models` feeds to the models. */
  datatype Rates = Rates(overall: real, home: real, away: real, vsLeft: real, vsRight: real)

  /** Each rate is the dictionary's value when present and its fallback otherwise. */
  function ExtractRates(stats: CurrentStats, homeAway: Splits, pitcher: Splits): (r: Rates)
    ensures stats.hrPerPa.Some? ==> r.overall == stats.hrPerPa.value
    ensures stats.hrPerPa.None? ==> r.overall == 0.0824
    ensures "home" in homeAway && homeAway["home"].hrPerPa.Some? ==> r.home == homeAway["home"].hrPerPa.value
    ensures "home" !in homeAway || homeAway["home"].hrPerPa.None? ==> r.home == 0.0909
    ensures "away" in homeAway && homeAway["away"].hrPerPa.Some? ==> r.away == homeAway["away"].hrPerPa.value
    ensures "away" !in homeAway || homeAway["away"].hrPerPa.None? ==> r.away == 0.0744
    ensures "vs_left" in pitcher && pitcher["vs_left"].hrPerPa.Some? ==> r.vsLeft == pitcher["vs_left"].hrPerPa.value
    ensures "vs_left" !in pitcher || pitcher["vs_left"].hrPerPa.None? ==> r.vsLeft == 0.0870
    ensures "vs_right" in pitcher && pitcher["vs_right"].hrPerPa.Some? ==> r.vsRight == pitcher["vs_right"].hrPerPa.value
    ensures "vs_right" !in pitcher || pitcher["vs_right"].hrPerPa.None? ==> r.vsRight == 0.0808
  {
    Rates(
      overall := OverallRate(stats),
      home := SplitRate(homeAway, "home", FallbackHomeRate),
      away := SplitRate(homeAway, "away", FallbackAwayRate),
      vsLeft := SplitRate(pitcher, "vs_left", FallbackVsLeftRate),
      vsRight := SplitRate(pitcher, "vs_right", FallbackVsRightRate))
  }

  /** With no rate in any dictionary, the models run on the five fallback constants. */
  lemma ExtractRatesFallbacks(stats: CurrentStats)
    requires stats.hrPerPa.None?
    ensures ExtractRates(stats, map[], map[]) == Rates(0.0824, 0.0909, 0.0744, 0.0870, 0.0808)
  {
  }

  /** Values of the season dictionary, with the defaults the advanced model uses. */
  function HomeRuns(stats: CurrentStats): (n: int)
    ensures stats.homeRuns.Some? ==> n == stats.homeRuns.value
    ensures stats.homeRuns.None? ==> n == 0
  {
    stats.homeRuns.GetOr(0)
  }

  function PlateAppearances(stats: CurrentStats): (n: int)
    ensures stats.plateAppearances.Some? ==> n == stats.plateAppearances.value
    ensures stats.plateAppearances.None? ==> n == 0
  {
    stats.plateAppearances.GetOr(0)
  }

  function GamesPlayed(stats: CurrentStats): (n: int)
    ensures stats.gamesPlayed.Some? ==> n == stats.gamesPlayed.value
    ensures stats.gamesPlayed.None? ==> n == 0
  {
    stats.gamesPlayed.GetOr(0)
  }
}
