/**
  The statistics reduction shared by all five models: one record built from
  the list of per-trial home-run totals. Percentiles follow NumPy's default
  "linear" method: on the sorted list, the value at virtual index
  (N - 1) * q / 100, interpolated between the two neighbouring elements.
*/
module Statistics {
  import opened Arithmetic

  /**
    A simulation summary. The standard deviation of the source is kept as the
    population variance it is the square root of.
  */
  datatype SimulationResult = SimulationResult(
    meanHrs: real,
    medianHrs: real,
    varianceHrs: real,
    probOver40: real,
    probOver50: real,
    probOver60: real,
    percentile5: real,
    percentile95: real,
    distribution: seq<int>)

  // ---- sums, extremes, mean, variance ----

  function Sum(xs: seq<int>): int {
    if xs == [] then 0 else xs[0] + Sum(xs[1..])
  }

  function Minimum(xs: seq<int>): (m: int)
    requires xs != []
    ensures m in xs
    ensures forall i :: 0 <= i < |xs| ==> m <= xs[i]
  {
    if |xs| == 1 then xs[0]
    else
      var rest := Minimum(xs[1..]);
      if xs[0] <= rest then xs[0] else rest
  }

  function Maximum(xs: seq<int>): (m: int)
    requires xs != []
    ensures m in xs
    ensures forall i :: 0 <= i < |xs| ==> xs[i] <= m
  {
    if |xs| == 1 then xs[0]
    else
      var rest := Maximum(xs[1..]);
      if rest <= xs[0] then xs[0] else rest
  }

  /** A sum of N values that all lie in [lo, hi] lies in [N * lo, N * hi]. */
  lemma {:induction false} SumBetween(xs: seq<int>, lo: int, hi: int)
    requires forall i :: 0 <= i < |xs| ==> lo <= xs[i] <= hi
    ensures |xs| * lo <= Sum(xs) <= |xs| * hi
  {
    if xs != [] {
      SumBetween(xs[1..], lo, hi);
      assert |xs| * lo == (|xs| - 1) * lo + lo;
      assert |xs| * hi == (|xs| - 1) * hi + hi;
    }
  }

  /** `np.mean`. */
  function Mean(xs: seq<int>): (m: real)
    requires xs != []
    ensures Minimum(xs) as real <= m <= Maximum(xs) as real
  {
    AverageBetween(xs, Minimum(xs), Maximum(xs));
    Sum(xs) as real / |xs| as real
  }

  lemma AverageBetween(xs: seq<int>, lo: int, hi: int)
    requires xs != []
    requires forall i :: 0 <= i < |xs| ==> lo <= xs[i] <= hi
    ensures lo as real <= Sum(xs) as real / |xs| as real <= hi as real
  {
    var n, total := |xs|, Sum(xs);
    SumBetween(xs, lo, hi);
    IntProductAsReal(n, lo);
    IntProductAsReal(n, hi);
    assert n as real * lo as real <= total as real <= n as real * hi as real;
    QuotientBetween(total as real, n as real, lo as real, hi as real);
  }

  lemma QuotientBetween(a: real, n: real, lo: real, hi: real)
    requires 0.0 < n && n * lo <= a <= n * hi
    ensures lo <= a / n <= hi
  {
  }

  lemma QuotientMonotone(a: real, b: real, n: real)
    requires 0.0 < n && a <= b
    ensures a / n <= b / n
  {
  }

  lemma IntProductAsReal(x: int, y: int)
    ensures (x * y) as real == x as real * y as real
  {
  }

  /** The sum of squared deviations of xs from c. */
  function SquaredDeviations(xs: seq<int>, c: real): (s: real)
    ensures 0.0 <= s
  {
    if xs == [] then 0.0
    else
      var d := xs[0] as real - c;
      ProductNonNegative(if d < 0.0 then -d else d, if d < 0.0 then -d else d);
      d * d + SquaredDeviations(xs[1..], c)
  }

  /** Population variance, the square of `np.std`. */
  function Variance(xs: seq<int>): (v: real)
    requires xs != []
    ensures 0.0 <= v
  {
    SquaredDeviations(xs, Mean(xs)) / |xs| as real
  }

  // ---- threshold counts ----

  /** The number of outcomes strictly greater than k. */
  function CountAbove(xs: seq<int>, k: int): (c: nat)
    ensures c <= |xs|
  {
    if xs == [] then 0 else (if xs[0] > k then 1 else 0) + CountAbove(xs[1..], k)
  }

  /** `np.mean(xs > k)`: the fraction of outcomes strictly above k. */
  function FractionAbove(xs: seq<int>, k: int): (f: real)
    requires xs != []
    ensures 0.0 <= f <= 1.0
  {
    Fraction01(CountAbove(xs, k), |xs|);
    CountAbove(xs, k) as real / |xs| as real
  }

  lemma Fraction01(c: nat, n: nat)
    requires 0 < n && c <= n
    ensures 0.0 <= c as real / n as real <= 1.0
  {
    QuotientBetween(c as real, n as real, 0.0, 1.0);
  }

  /** A higher threshold is passed by no more outcomes. */
  lemma {:induction false} CountAboveAntitone(xs: seq<int>, j: int, k: int)
    requires j <= k
    ensures CountAbove(xs, k) <= CountAbove(xs, j)
  {
    if xs != [] {
      CountAboveAntitone(xs[1..], j, k);
    }
  }

  lemma FractionAntitone(xs: seq<int>, j: int, k: int)
    requires xs != [] && j <= k
    ensures FractionAbove(xs, k) <= FractionAbove(xs, j)
  {
    CountAboveAntitone(xs, j, k);
    QuotientMonotone(CountAbove(xs, k) as real, CountAbove(xs, j) as real, |xs| as real);
  }

  /** When every outcome is at or below k, none passes it; when every one is above, all do. */
  lemma {:induction false} CountAboveUniform(xs: seq<int>, k: int)
    ensures (forall i :: 0 <= i < |xs| ==> xs[i] <= k) ==> CountAbove(xs, k) == 0
    ensures (forall i :: 0 <= i < |xs| ==> xs[i] > k) ==> CountAbove(xs, k) == |xs|
  {
    if xs != [] {
      CountAboveUniform(xs[1..], k);
      assert forall i :: 0 <= i < |xs| - 1 ==> xs[1..][i] == xs[i + 1];
    }
  }

  // ---- sorting ----

  predicate IsSorted(s: seq<int>) {
    forall i, j :: 0 <= i <= j < |s| ==> s[i] <= s[j]
  }

  /** Inserts x before the first element of s that is not below it. */
  function Insert(x: int, s: seq<int>): (r: seq<int>)
    ensures |r| == |s| + 1
    ensures multiset(r) == multiset(s) + multiset{x}
  {
    if s == [] then [x]
    else if x <= s[0] then [x] + s
    else
      assert s == [s[0]] + s[1..];
      [s[0]] + Insert(x, s[1..])
  }

  /** Inserting into a sorted list keeps it sorted, and puts the smaller of
      x and the old head first. */
  lemma {:induction false} InsertSorted(x: int, s: seq<int>)
    requires IsSorted(s)
    ensures Insert(x, s)[0] == if s != [] && s[0] < x then s[0] else x
    ensures IsSorted(Insert(x, s))
  {
    if s != [] && s[0] < x {
      var tail := s[1..];
      assert IsSorted(tail) by {
        forall i, j | 0 <= i <= j < |tail| ensures tail[i] <= tail[j] {
          assert tail[i] == s[i + 1] && tail[j] == s[j + 1];
        }
      }
      InsertSorted(x, tail);
      var rest := Insert(x, tail);
      var r := Insert(x, s);
      assert r == [s[0]] + rest;
      forall i, j | 0 <= i <= j < |r| ensures r[i] <= r[j] {
        if i == 0 {
          if j > 0 {
            assert rest[0] <= rest[j - 1];
            assert r[j] == rest[j - 1];
          }
        } else {
          assert r[i] == rest[i - 1] && r[j] == rest[j - 1];
        }
      }
    }
  }

  /** The outcomes in ascending order (the order statistics). */
  function Sort(xs: seq<int>): (s: seq<int>)
    ensures |s| == |xs|
    ensures multiset(s) == multiset(xs)
    ensures IsSorted(s)
  {
    if xs == [] then []
    else
      assert xs == [xs[0]] + xs[1..];
      var rest := Sort(xs[1..]);
      InsertSorted(xs[0], rest);
      Insert(xs[0], rest)
  }

  /** The first element of a sorted rearrangement of xs is its minimum. */
  lemma SortedFirst(s: seq<int>, xs: seq<int>)
    requires xs != [] && |s| == |xs| && IsSorted(s) && multiset(s) == multiset(xs)
    ensures s[0] == Minimum(xs)
  {
    var m := Minimum(xs);
    assert s[0] in multiset(xs);
    assert m in multiset(s);
    var i :| 0 <= i < |s| && s[i] == m;
    assert s[0] <= s[i];
  }

  /** The last element of a sorted rearrangement of xs is its maximum. */
  lemma SortedLast(s: seq<int>, xs: seq<int>)
    requires xs != [] && |s| == |xs| && IsSorted(s) && multiset(s) == multiset(xs)
    ensures s[|s| - 1] == Maximum(xs)
  {
    var m := Maximum(xs);
    assert s[|s| - 1] in multiset(xs);
    assert m in multiset(s);
    var i :| 0 <= i < |s| && s[i] == m;
    assert s[i] <= s[|s| - 1];
  }

  /** The ends of the sorted list are the minimum and the maximum. */
  lemma SortedEnds(xs: seq<int>)
    requires xs != []
    ensures Sort(xs)[0] == Minimum(xs)
    ensures Sort(xs)[|xs| - 1] == Maximum(xs)
  {
    SortedFirst(Sort(xs), xs);
    SortedLast(Sort(xs), xs);
  }

  // ---- percentiles ----

  /** NumPy's virtual index (N - 1) * q / 100 of the q-th percentile. */
  function Rank(n: nat, q: real): (h: real)
    requires 1 <= n && 0.0 <= q <= 100.0
    ensures 0.0 <= h <= (n - 1) as real
  {
    ProductNonNegative((n - 1) as real, q / 100.0);
    ProductNonNegative((n - 1) as real, 1.0 - q / 100.0);
    (n - 1) as real * (q / 100.0)
  }

  lemma RankMonotone(n: nat, q: real, r: real)
    requires 1 <= n && 0.0 <= q <= r <= 100.0
    ensures Rank(n, q) <= Rank(n, r)
  {
    ProductNonNegative((n - 1) as real, r / 100.0 - q / 100.0);
    assert (n - 1) as real * (r / 100.0) - (n - 1) as real * (q / 100.0)
        == (n - 1) as real * (r / 100.0 - q / 100.0);
  }

  /** Linear interpolation at virtual index h between order statistics. */
  function Interpolate(s: seq<int>, h: real): (v: real)
    requires s != [] && 0.0 <= h <= (|s| - 1) as real
    ensures IsSorted(s) ==> s[0] as real <= v <= s[|s| - 1] as real
  {
    var lo := h.Floor;
    var f: Fraction := h - lo as real;
    if lo + 1 < |s| then Lerp(s[lo] as real, s[lo + 1] as real, f) else s[lo] as real
  }

  /** On a sorted list, interpolation is monotone in the virtual index. */
  lemma InterpolateMonotone(s: seq<int>, h: real, g: real)
    requires IsSorted(s) && s != [] && 0.0 <= h <= g <= (|s| - 1) as real
    ensures Interpolate(s, h) <= Interpolate(s, g)
  {
    var i, j := h.Floor, g.Floor;
    var f: Fraction := h - i as real;
    var e: Fraction := g - j as real;
    if i == j {
      if i + 1 < |s| {
        LerpMonotone(s[i] as real, s[i + 1] as real, f, e);
      }
    } else {
      assert i + 1 <= j;
      assert Interpolate(s, h) <= s[i + 1] as real;
      if j + 1 < |s| {
        assert s[i + 1] <= s[j] <= s[j + 1];
      }
    }
  }

  /** `np.percentile(xs, q)`, linear method. */
  function Percentile(xs: seq<int>, q: real): (v: real)
    requires xs != [] && 0.0 <= q <= 100.0
    ensures Minimum(xs) as real <= v <= Maximum(xs) as real
  {
    SortedEnds(xs);
    Interpolate(Sort(xs), Rank(|xs|, q))
  }

  lemma PercentileMonotone(xs: seq<int>, q: real, r: real)
    requires xs != [] && 0.0 <= q <= r <= 100.0
    ensures Percentile(xs, q) <= Percentile(xs, r)
  {
    RankMonotone(|xs|, q, r);
    InterpolateMonotone(Sort(xs), Rank(|xs|, q), Rank(|xs|, r));
  }

  /** `np.median`: the middle order statistic, or the mean of the two middle ones. */
  function Median(xs: seq<int>): (m: real)
    requires xs != []
    ensures Minimum(xs) as real <= m <= Maximum(xs) as real
  {
    var s := Sort(xs);
    var n := |s|;
    SortedEnds(xs);
    assert s[0] <= s[n / 2] <= s[n - 1];
    assert n % 2 == 0 ==> s[0] <= s[n / 2 - 1] <= s[n - 1];
    if n % 2 == 1 then s[n / 2] as real else (s[n / 2 - 1] + s[n / 2]) as real / 2.0
  }

  /** NumPy's median is its 50th percentile. */
  lemma MedianIsPercentile50(xs: seq<int>)
    requires xs != []
    ensures Median(xs) == Percentile(xs, 50.0)
  {
    var s := Sort(xs);
    var n := |xs|;
    var h := Rank(n, 50.0);
    assert h == (n - 1) as real * 0.5;
    assert Percentile(xs, 50.0) == Interpolate(s, h);
    if n % 2 == 1 {
      var m := n / 2;
      assert n == 2 * m + 1;
      assert h == m as real;
      assert h.Floor == m;
      assert Interpolate(s, h) == s[m] as real;
    } else {
      var m := n / 2;
      assert n == 2 * m;
      assert h == (m - 1) as real + 0.5;
      assert h.Floor == m - 1;
      var f: Fraction := 0.5;
      assert Interpolate(s, h) == Lerp(s[m - 1] as real, s[m] as real, f);
      assert Scaled((s[m] - s[m - 1]) as real, f) == (s[m] - s[m - 1]) as real * 0.5;
    }
  }

  // ---- the record ----

  /** `_calculate_statistics`. NumPy cannot take a percentile of nothing, so N >= 1. */
  function CalculateStatistics(xs: seq<int>): (r: SimulationResult)
    requires xs != []
    ensures r.distribution == xs
    ensures 0.0 <= r.probOver60 <= r.probOver50 <= r.probOver40 <= 1.0
    ensures Minimum(xs) as real <= r.percentile5 <= r.medianHrs <= r.percentile95 <= Maximum(xs) as real
    ensures Minimum(xs) as real <= r.meanHrs <= Maximum(xs) as real
    ensures 0.0 <= r.varianceHrs
  {
    FractionAntitone(xs, 40, 50);
    FractionAntitone(xs, 50, 60);
    MedianIsPercentile50(xs);
    PercentileMonotone(xs, 5.0, 50.0);
    PercentileMonotone(xs, 50.0, 95.0);
    SimulationResult(
      meanHrs := Mean(xs),
      medianHrs := Median(xs),
      varianceHrs := Variance(xs),
      probOver40 := FractionAbove(xs, 40),
      probOver50 := FractionAbove(xs, 50),
      probOver60 := FractionAbove(xs, 60),
      percentile5 := Percentile(xs, 5.0),
      percentile95 := Percentile(xs, 95.0),
      distribution := xs)
  }

  lemma {:induction false} SquaredDeviationsOfConstant(xs: seq<int>, c: int)
    requires forall i :: 0 <= i < |xs| ==> xs[i] == c
    ensures SquaredDeviations(xs, c as real) == 0.0
  {
    if xs != [] {
      assert forall i :: 0 <= i < |xs| - 1 ==> xs[1..][i] == xs[i + 1];
      SquaredDeviationsOfConstant(xs[1..], c);
    }
  }

  lemma ConstantFraction(xs: seq<int>, c: int, k: int)
    requires xs != [] && forall i :: 0 <= i < |xs| ==> xs[i] == c
    ensures FractionAbove(xs, k) == if c > k then 1.0 else 0.0
  {
    CountAboveUniform(xs, k);
    var n := |xs| as real;
    if c > k {
      assert CountAbove(xs, k) == |xs|;
      assert FractionAbove(xs, k) == n / n;
      assert n / n == 1.0 by { assert n > 0.0; assert n * 1.0 == n; }
    } else {
      assert forall i :: 0 <= i < |xs| ==> xs[i] <= k;
      assert CountAbove(xs, k) == 0;
      assert FractionAbove(xs, k) == 0.0 / n;
    }
  }

  lemma ConstantVariance(xs: seq<int>, c: int)
    requires xs != [] && forall i :: 0 <= i < |xs| ==> xs[i] == c
    ensures Mean(xs) == c as real && Variance(xs) == 0.0
  {
    assert Minimum(xs) == c && Maximum(xs) == c;
    SquaredDeviationsOfConstant(xs, c);
  }

  /** When every trial gives the same total c, every statistic collapses onto c. */
  lemma ConstantStatistics(xs: seq<int>, c: int)
    requires xs != [] && forall i :: 0 <= i < |xs| ==> xs[i] == c
    ensures var r := CalculateStatistics(xs);
      && r.meanHrs == c as real && r.medianHrs == c as real
      && r.percentile5 == c as real && r.percentile95 == c as real
      && r.varianceHrs == 0.0
      && r.probOver40 == (if c > 40 then 1.0 else 0.0)
      && r.probOver50 == (if c > 50 then 1.0 else 0.0)
      && r.probOver60 == (if c > 60 then 1.0 else 0.0)
  {
    assert Minimum(xs) == c && Maximum(xs) == c;
    ConstantVariance(xs, c);
    ConstantFraction(xs, c, 40);
    ConstantFraction(xs, c, 50);
    ConstantFraction(xs, c, 60);
  }
}
