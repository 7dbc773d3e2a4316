/**
  The pseudo-random source the simulator draws from (NumPy's global
  `RandomState`, seeded once). The generator itself is abstract: it is an
  infinite stream of unit draws in [0, 1), and every call to `Uniform` or
  `Binomial` consumes exactly one of them and advances the cursor.
*/
module RandomSource {

  import opened Arithmetic

  /** One raw output of the generator, as NumPy's `random_sample` gives it. */
  type UnitDraw = Fraction

  /** A binomial success probability NumPy accepts. */
  predicate ValidRate(p: real) {
    0.0 <= p <= 1.0
  }

  /** `uniform(low, high)`: NumPy scales a unit draw as low + (high - low) * u. */
  function UniformValue(low: real, high: real, u: UnitDraw): (r: real)
    ensures low <= high ==> low <= r <= high
    ensures high <= low ==> high <= r <= low
    ensures low < high ==> r < high
  {
    Lerp(low, high, u)
  }

  function Power(x: real, k: nat): real {
    if k == 0 then 1.0 else x * Power(x, k - 1)
  }

  /** The binomial coefficient "n choose k". */
  function Choose(n: nat, k: nat): nat {
    if k == 0 then 1 else if n == 0 then 0 else Choose(n - 1, k - 1) + Choose(n - 1, k)
  }

  /** Probability of exactly k successes in n trials of probability p. */
  function ProbabilityMass(n: nat, p: real, k: nat): real
    requires k <= n
  {
    Choose(n, k) as real * Power(p, k) * Power(1.0 - p, n - k)
  }

  /**
    Inversion sampling: the least k' >= k whose cumulative probability
    (`below` is the mass of all outcomes less than k) exceeds u; n if none does.
  */
  function InverseCdf(n: nat, p: real, u: UnitDraw, k: nat, below: real): (r: nat)
    requires k <= n
    ensures k <= r <= n
    decreases n - k
  {
    var cumulative := below + ProbabilityMass(n, p, k);
    if k == n || u < cumulative then k else InverseCdf(n, p, u, k + 1, cumulative)
  }

  lemma {:induction false} PowerOfOne(k: nat)
    ensures Power(1.0, k) == 1.0
  {
    if k > 0 {
      PowerOfOne(k - 1);
    }
  }

  /** With p = 1 every outcome below n has probability 0, so the search runs to n. */
  lemma {:induction false} CertainSuccessReachesN(n: nat, u: UnitDraw, k: nat)
    requires k <= n
    ensures InverseCdf(n, 1.0, u, k, 0.0) == n
    decreases n - k
  {
    if k < n {
      assert Power(0.0, n - k) == 0.0;
      assert ProbabilityMass(n, 1.0, k) == 0.0;
      CertainSuccessReachesN(n, u, k + 1);
    }
  }

  /** `binomial(n, p)` from one unit draw. */
  function BinomialValue(n: nat, p: real, u: UnitDraw): (k: nat)
    requires ValidRate(p)
    ensures k <= n
    ensures p == 0.0 ==> k == 0
    ensures p == 1.0 ==> k == n
  {
    PowerOfOne(n);
    assert p == 0.0 ==> ProbabilityMass(n, p, 0) == 1.0;
    CertainSuccessReachesN(n, u, 0);
    InverseCdf(n, p, u, 0, 0.0)
  }

  /** The generator state: a fixed stream of draws and the position of the next one. */
  class RandomState {
    const draws: nat -> UnitDraw
    var cursor: nat

    /** Seeding: the stream the seed determines, read from its start. */
    constructor (draws: nat -> UnitDraw)
      ensures this.draws == draws && cursor == 0
    {
      this.draws := draws;
      cursor := 0;
    }

    method Uniform(low: real, high: real) returns (r: real)
      modifies this
      ensures cursor == old(cursor) + 1
      ensures r == UniformValue(low, high, draws(old(cursor)))
    {
      r := UniformValue(low, high, draws(cursor));
      cursor := cursor + 1;
    }

    /** NumPy raises ValueError for n < 0 or p outside [0, 1]; callers must avoid both. */
    method Binomial(n: int, p: real) returns (k: int)
      requires 0 <= n && ValidRate(p)
      modifies this
      ensures cursor == old(cursor) + 1
      ensures k == BinomialValue(n, p, draws(old(cursor)))
      ensures 0 <= k <= n
    {
      k := BinomialValue(n, p, draws(cursor));
      cursor := cursor + 1;
    }
  }
}
