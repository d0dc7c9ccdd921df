/**
 * The statistics engine: unbiased pass@k, score stability, the two-group
 * comparison with its recommendation table, the efficiency comparison, the
 * power analysis and the regression rule. Arithmetic is exact (`real`); the
 * results of scipy and numpy that the source cannot compute exactly (the
 * Mann-Whitney statistic and p-value, normal quantiles, square roots) are
 * parameters.
 */
module Statistics {
  import opened Wrappers
  import opened Text
  import opened Models

  const EffectNegligible: real := 0.2
  const EffectSmall: real := 0.5
  const EffectMedium: real := 0.8

  // ---------------------------------------------------------------- sums

  function Sum(xs: seq<real>): real
  {
    if xs == [] then 0.0 else Sum(xs[..|xs| - 1]) + xs[|xs| - 1]
  }

  function Mean(xs: seq<real>): real
    requires |xs| > 0
  {
    Sum(xs) / |xs| as real
  }

  /** Σ (x − m)², never negative. */
  function SquaredDeviations(xs: seq<real>, m: real): (r: real)
    ensures r >= 0.0
  {
    if xs == [] then 0.0
    else
      SquareNonNegative(xs[|xs| - 1] - m);
      SquaredDeviations(xs[..|xs| - 1], m) + Square(xs[|xs| - 1] - m)
  }

  function Square(u: real): real
  {
    u * u
  }

  lemma SquareNonNegative(u: real)
    ensures Square(u) >= 0.0
  {
  }

  lemma SquareSign(u: real)
    ensures Square(u) >= 0.0
    ensures u != 0.0 ==> Square(u) > 0.0
    ensures u == 0.0 ==> Square(u) == 0.0
  {
    SquareNonNegative(u);
    if u != 0.0 {
      SquarePositive(u);
    }
  }

  lemma SquarePositive(u: real)
    requires u != 0.0
    ensures Square(u) > 0.0
  {
    if u > 0.0 {
      ProductPositive(u, u, Square(u));
    } else {
      ProductPositive(-u, -u, Square(u));
    }
  }

  lemma ProductPositive(u: real, v: real, x: real)
    requires u > 0.0 && v > 0.0 && x == u * v
    ensures x > 0.0
  {
  }

  lemma PositiveProduct(u: real, v: real)
    requires u > 0.0 && v > 0.0
    ensures u * v > 0.0
  {
  }

  lemma NegativeProduct(u: real, v: real)
    requires u < 0.0 && v > 0.0
    ensures u * v < 0.0
  {
  }

  /** Multiplying by a positive v keeps the sign of u. */
  lemma MulSign(u: real, v: real)
    requires v > 0.0
    ensures (u * v > 0.0 <==> u > 0.0) && (u * v < 0.0 <==> u < 0.0)
  {
    if u > 0.0 {
      PositiveProduct(u, v);
    } else if u < 0.0 {
      NegativeProduct(u, v);
    }
  }

  /** `np.var(xs, ddof=1)` for more than one sample, 0.0 otherwise. */
  function SampleVariance(xs: seq<real>): (r: real)
    ensures r >= 0.0
  {
    if |xs| > 1 then
      var ss := SquaredDeviations(xs, Mean(xs));
      RatioInUnit(0.0, ss, (|xs| - 1) as real);
      ss / (|xs| - 1) as real
    else 0.0
  }

  /**
   * The sample variance with one delta degree of freedom: the squared deviations from the mean
   * over n − 1 for two or more values, 0.0 for fewer.
   */
  lemma SampleVarianceDdof1(xs: seq<real>)
    ensures |xs| >= 2 ==> SampleVariance(xs) == SquaredDeviations(xs, Mean(xs)) / (|xs| - 1) as real
    ensures |xs| < 2 ==> SampleVariance(xs) == 0.0
  {
  }

  /** A non-negative ratio with a positive denominator is non-negative, and at most 1 when a ≤ b. */
  lemma RatioInUnit(lo: real, a: real, b: real)
    requires 0.0 <= lo <= a && b > 0.0
    ensures a / b >= 0.0
    ensures a <= b ==> a / b <= 1.0
  {
    var q := a / b;
    assert q * b == a;
    MulSign(q, b);
    assert (q - 1.0) * b == a - b;
    MulSign(q - 1.0, b);
  }

  function MinOf(xs: seq<real>): (r: real)
    requires |xs| > 0
    ensures r in xs && forall i :: 0 <= i < |xs| ==> r <= xs[i]
  {
    if |xs| == 1 then xs[0]
    else
      var m := MinOf(xs[..|xs| - 1]);
      assert forall i :: 0 <= i < |xs| - 1 ==> xs[..|xs| - 1][i] == xs[i];
      if xs[|xs| - 1] < m then xs[|xs| - 1] else m
  }

  function MaxOf(xs: seq<real>): (r: real)
    requires |xs| > 0
    ensures r in xs && forall i :: 0 <= i < |xs| ==> xs[i] <= r
  {
    if |xs| == 1 then xs[0]
    else
      var m := MaxOf(xs[..|xs| - 1]);
      assert forall i :: 0 <= i < |xs| - 1 ==> xs[..|xs| - 1][i] == xs[i];
      if xs[|xs| - 1] > m then xs[|xs| - 1] else m
  }

  /** `[r.overall_score for r in results]`. */
  function Scores(results: seq<EvalResult>): (s: seq<real>)
    ensures |s| == |results| && forall i :: 0 <= i < |s| ==> s[i] == results[i].overallScore
  {
    seq(|results|, i requires 0 <= i < |results| => results[i].overallScore)
  }

  /** A constant sample sums to n·c, averages to c and has no spread. */
  lemma {:induction false} ConstantSample(xs: seq<real>, c: real)
    requires forall i :: 0 <= i < |xs| ==> xs[i] == c
    ensures Sum(xs) == |xs| as real * c
    ensures SquaredDeviations(xs, c) == 0.0
  {
    if xs != [] {
      ConstantSample(xs[..|xs| - 1], c);
    }
  }

  // ---------------------------------------------------------------- pass@k

  /** `math.comb(n, k)`: Pascal's rule; 0 when k > n. */
  function Comb(n: nat, k: nat): nat
  {
    if k == 0 then 1 else if n == 0 then 0 else Comb(n - 1, k - 1) + Comb(n - 1, k)
  }

  lemma {:induction false} CombAboveN(n: nat, k: nat)
    requires k > n
    ensures Comb(n, k) == 0
  {
    if n > 0 {
      CombAboveN(n - 1, k - 1);
      CombAboveN(n - 1, k);
    }
  }

  lemma {:induction false} CombPositive(n: nat, k: nat)
    requires k <= n
    ensures Comb(n, k) >= 1
  {
    if k > 0 {
      CombPositive(n - 1, k - 1);
    }
  }

  lemma {:induction false} CombOfOne(n: nat)
    ensures Comb(n, 1) == n
  {
    if n > 0 {
      CombOfOne(n - 1);
    }
  }

  lemma {:induction false} CombMonotone(m: nat, n: nat, k: nat)
    requires m <= n
    ensures Comb(m, k) <= Comb(n, k)
    decreases n
  {
    if m < n {
      CombMonotone(m, n - 1, k);
      if k > 0 {
        assert Comb(n, k) == Comb(n - 1, k - 1) + Comb(n - 1, k);
      }
    }
  }

  /** The absorption identity k·C(m, k) = m·C(m − 1, k − 1). */
  lemma {:induction false} CombAbsorb(m: nat, k: nat)
    requires m >= 1 && k >= 1
    ensures k * Comb(m, k) == m * Comb(m - 1, k - 1)
  {
    if m == 1 {
      if k > 1 {
        CombAboveN(1, k);
        CombAboveN(0, k - 1);
      }
    } else if k == 1 {
      CombOfOne(m);
    } else {
      CombAbsorb(m - 1, k - 1);
      CombAbsorb(m - 1, k);
      assert Comb(m, k) == Comb(m - 1, k - 1) + Comb(m - 1, k);
      assert Comb(m - 1, k - 1) == Comb(m - 2, k - 2) + Comb(m - 2, k - 1);
      AbsorbStep(k, m, Comb(m - 1, k - 1), Comb(m - 1, k), Comb(m - 2, k - 2), Comb(m - 2, k - 1));
    }
  }

  /** The arithmetic of one inductive step of `CombAbsorb`. */
  lemma AbsorbStep(k: int, m: int, a: int, b: int, a2: int, b2: int)
    requires a == a2 + b2
    requires (k - 1) * a == (m - 1) * a2
    requires k * b == (m - 1) * b2
    ensures k * (a + b) == m * a
  {
    calc {
      k * (a + b);
      a + (k - 1) * a + k * b;
      a + (m - 1) * a2 + (m - 1) * b2;
      a + (m - 1) * (a2 + b2);
      m * a;
    }
  }

  /** Consecutive binomials: (k + 1)·C(m, k + 1) = (m − k)·C(m, k). */
  lemma CombStep(m: nat, k: nat)
    ensures (k + 1) * Comb(m, k + 1) == (m - k) * Comb(m, k)
  {
    if m == 0 {
      CombAboveN(0, k + 1);
      if k > 0 { CombAboveN(0, k); }
    } else {
      CombAbsorb(m, k + 1);
      if k > 0 {
        CombAbsorb(m, k);
        assert Comb(m, k) == Comb(m - 1, k - 1) + Comb(m - 1, k);
        StepArith(m, k, Comb(m, k + 1), Comb(m - 1, k), Comb(m - 1, k - 1), Comb(m, k));
      }
    }
  }

  /** The arithmetic of `CombStep`: a = C(m, k+1), x = C(m−1, k), y = C(m−1, k−1), z = C(m, k). */
  lemma StepArith(m: int, k: int, a: int, x: int, y: int, z: int)
    requires (k + 1) * a == m * x
    requires k * z == m * y
    requires z == y + x
    ensures (k + 1) * a == (m - k) * z
  {
    calc {
      (k + 1) * a;
      m * x;
      m * (z - y);
      m * z - m * y;
      m * z - k * z;
      (m - k) * z;
    }
  }

  function CountPassed(results: seq<EvalResult>): (c: nat)
    ensures c <= |results|
  {
    if results == [] then 0
    else CountPassed(results[..|results| - 1]) + (if results[|results| - 1].passed then 1 else 0)
  }

  /**
   * `pass_at_k_unbiased`: 1 − C(n − c, k)/C(n, k) over n runs of which c
   * passed, with the source's guards. A negative k makes `math.comb` raise
   * ValueError, which falls back to c/n; the zero-denominator branch can never
   * be taken, since C(n, k) ≥ 1 for 0 ≤ k ≤ n.
   */
  function PassAtK(results: seq<EvalResult>, k: int): real
  {
    PassEstimate(|results|, CountPassed(results), k)
  }

  /** The estimator on the counts n (runs) and c (passing runs). */
  function PassEstimate(n: nat, c: nat, k: int): (p: real)
    requires c <= n
    ensures 0.0 <= p <= 1.0
    ensures n == 0 || c == 0 ==> p == 0.0
    ensures n > 0 && c == n ==> p == 1.0
    ensures n > 0 && (k > n || k < 0) ==> p == c as real / n as real
  {
    if n == 0 then 0.0
    else
      RatioInUnit(0.0, c as real, n as real);
      if k > n then c as real / n as real
      else if c == n then 1.0
      else if c == 0 then 0.0
      else if k < 0 then c as real / n as real
      else
        var num := Comb(n - c, k);
        var den := Comb(n, k);
        CombPositive(n, k);
        CombMonotone(n - c, n, k);
        if den == 0 then assert false; 0.0
        else
          RatioInUnit(0.0, num as real, den as real);
          1.0 - num as real / den as real
  }

  /** pass@1 is the plain pass rate c/n. */
  lemma PassAtOne(n: nat, c: nat)
    requires 0 < n && c <= n
    ensures PassEstimate(n, c, 1) == c as real / n as real
  {
    if 0 < c < n {
      CombOfOne(n);
      CombOfOne(n - c);
      ComplementRatio((n - c) as real, c as real, n as real);
    }
  }

  /** When k exceeds the number of failures, every k-subset holds a pass. */
  lemma PassAtKSaturates(n: nat, c: nat, k: int)
    requires c <= n && 0 <= k <= n && k > n - c
    ensures PassEstimate(n, c, k) == 1.0
  {
    if 0 < c < n {
      CombAboveN(n - c, k);
      CombPositive(n, k);
      assert Comb(n - c, k) as real / Comb(n, k) as real == 0.0;
    }
  }

  lemma ComplementRatio(f: real, c: real, n: real)
    requires n > 0.0 && f + c == n
    ensures 1.0 - f / n == c / n
  {
    assert (f / n) * n == f;
    assert (c / n) * n == c;
    assert (1.0 - f / n) * n == c;
    assert ((1.0 - f / n) - c / n) * n == 0.0;
    MulSign((1.0 - f / n) - c / n, n);
  }

  /** Cross-multiplication: a·d ≤ c·b (or <) orders a/b and c/d the same way. */
  lemma RatioCompare(a: real, b: real, c: real, d: real)
    requires b > 0.0 && d > 0.0
    ensures a * d <= c * b ==> a / b <= c / d
    ensures a * d < c * b ==> a / b < c / d
  {
    var x, y := a / b, c / d;
    assert x * b == a;
    assert y * d == c;
    PositiveProduct(b, d);
    assert a * d - c * b == (x - y) * (b * d);
    MulSign(x - y, b * d);
  }

  /** Between the guards, the estimator is the closed formula. */
  lemma PassEstimateFormula(n: nat, c: nat, k: nat)
    requires 0 < c < n && k <= n
    ensures Comb(n, k) >= 1 && PassEstimate(n, c, k) == 1.0 - Comb(n - c, k) as real / Comb(n, k) as real
  {
    CombPositive(n, k);
  }

  /** Cross-multiplication on integers, read as a comparison of their real ratios. */
  lemma CountRatioCompare(a: int, b: int, c: int, d: int)
    requires b > 0 && d > 0
    ensures a * d <= c * b ==> a as real / b as real <= c as real / d as real
    ensures a * d < c * b ==> a as real / b as real < c as real / d as real
  {
    RealOfProduct(a, d);
    RealOfProduct(c, b);
    RatioCompare(a as real, b as real, c as real, d as real);
  }

  lemma RealOfProduct(a: int, b: int)
    ensures (a * b) as real == a as real * b as real
  {
  }

  /**
   * The integer core of `PassAtKIncreasing`: with (k+1)·x1 = (m−k)·x and
   * (k+1)·y1 = (n−k)·y, m ≤ n gives x1·y ≤ x·y1, strictly when x, y > 0 and m < n.
   */
  lemma CrossStep(k: int, m: int, n: int, x: int, y: int, x1: int, y1: int)
    requires k >= 0 && x >= 0 && y >= 0 && m <= n
    requires (k + 1) * x1 == (m - k) * x
    requires (k + 1) * y1 == (n - k) * y
    ensures x1 * y <= x * y1
    ensures x > 0 && y > 0 && m < n ==> x1 * y < x * y1
  {
    assert (k + 1) * (x1 * y) == (m - k) * (x * y);
    assert (k + 1) * (x * y1) == (n - k) * (x * y);
    assert (k + 1) * (x * y1) - (k + 1) * (x1 * y) == (n - m) * (x * y);
    assert (n - m) * (x * y) >= 0;
    assert (k + 1) * (x * y1 - x1 * y) >= 0;
    if x > 0 && y > 0 && m < n {
      assert (n - m) * (x * y) > 0;
      assert (k + 1) * (x * y1 - x1 * y) > 0;
    }
  }

  /**
   * More attempts never lower pass@k, and while k is at most the number of
   * failures each extra attempt raises it strictly (0 < c < n).
   */
  lemma PassAtKIncreasing(n: nat, c: nat, k: nat)
    requires c <= n && k + 1 <= n
    ensures PassEstimate(n, c, k) <= PassEstimate(n, c, k + 1)
    ensures 0 < c < n && k <= n - c ==> PassEstimate(n, c, k) < PassEstimate(n, c, k + 1)
  {
    if 0 < c < n {
      var m := n - c;
      var x, y := Comb(m, k), Comb(n, k);
      var x1, y1 := Comb(m, k + 1), Comb(n, k + 1);
      CombStep(m, k);
      CombStep(n, k);
      CombPositive(n, k);
      CombPositive(n, k + 1);
      if k <= m { CombPositive(m, k); }
      CrossStep(k, m, n, x, y, x1, y1);
      CountRatioCompare(x1, y1, x, y);
      PassEstimateFormula(n, c, k);
      PassEstimateFormula(n, c, k + 1);
    }
  }

  // ---------------------------------------------------------------- stability

  datatype StabilityMetrics = StabilityMetrics(
    variance: real,
    stdDev: real,
    coefficientOfVariation: real,
    minScore: real,
    maxScore: real,
    scoreRange: real)

  /** `calculate_stability`, with `np.sqrt` as the parameter `sqrt`. */
  function CalculateStability(results: seq<EvalResult>, sqrt: real -> real): (m: StabilityMetrics)
    ensures results == [] ==> m == StabilityMetrics(0.0, 0.0, 0.0, 0.0, 0.0, 0.0)
    ensures m.variance >= 0.0 && m.scoreRange >= 0.0
    ensures m.scoreRange == m.maxScore - m.minScore
    ensures results != [] ==>
      && m.variance == SampleVariance(Scores(results))
      && m.stdDev == sqrt(m.variance)
      && m.minScore in Scores(results) && m.maxScore in Scores(results)
      && (forall i :: 0 <= i < |results| ==> m.minScore <= results[i].overallScore <= m.maxScore)
      && (Mean(Scores(results)) <= 0.0 ==> m.coefficientOfVariation == 0.0)
      && (Mean(Scores(results)) > 0.0 ==> m.coefficientOfVariation == m.stdDev / Mean(Scores(results)))
    ensures |results| == 1 ==> m.variance == 0.0
  {
    if results == [] then StabilityMetrics(0.0, 0.0, 0.0, 0.0, 0.0, 0.0)
    else
      var scores := Scores(results);
      var mean := Mean(scores);
      var variance := SampleVariance(scores);
      var sd := sqrt(variance);
      var cv := if mean > 0.0 then sd / mean else 0.0;
      var lo, hi := MinOf(scores), MaxOf(scores);
      StabilityMetrics(variance, sd, cv, lo, hi, hi - lo)
  }

  /** Identical scores have zero variance, deviation, range and variation. */
  lemma StabilityOfConstantScores(results: seq<EvalResult>, sqrt: real -> real, c: real)
    requires results != []
    requires forall i :: 0 <= i < |results| ==> results[i].overallScore == c
    requires sqrt(0.0) == 0.0
    ensures var m := CalculateStability(results, sqrt);
      m.variance == 0.0 && m.stdDev == 0.0 && m.coefficientOfVariation == 0.0 && m.scoreRange == 0.0
  {
    var scores := Scores(results);
    ConstantSample(scores, c);
    CancelCount(|scores| as real, c, Sum(scores));
  }

  lemma CancelCount(n: real, c: real, total: real)
    requires n > 0.0 && total == n * c
    ensures total / n == c
  {
  }

  // ---------------------------------------------------------------- comparison

  datatype Magnitude = Negligible | Small | Medium | Large

  function MagnitudeName(m: Magnitude): string
  {
    match m
    case Negligible => "negligible"
    case Small => "small"
    case Medium => "medium"
    case Large => "large"
  }

  /** Cohen's d buckets: [0, 0.2) negligible, [0.2, 0.5) small, [0.5, 0.8) medium, beyond large. */
  function EffectMagnitude(d: real): Magnitude
  {
    if d < EffectNegligible then Negligible
    else if d < EffectSmall then Small
    else if d < EffectMedium then Magnitude.Medium
    else Large
  }

  /** The bucket boundaries are ordered: a larger effect never falls in a smaller bucket. */
  lemma {:induction false} EffectMagnitudeMonotone(d1: real, d2: real)
    requires d1 <= d2
    ensures MagnitudeRank(EffectMagnitude(d1)) <= MagnitudeRank(EffectMagnitude(d2))
  {
  }

  function MagnitudeRank(m: Magnitude): nat
  {
    match m
    case Negligible => 0
    case Small => 1
    case Medium => 2
    case Large => 3
  }

  /** The outcome of `scipy.stats.mannwhitneyu`: the U statistic and its p-value. */
  datatype RankTest = RankTest(statistic: real, pValue: real)

  /**
   * `ComparisonResult`. `None` stands for the NaN that `np.mean` gives for an
   * empty sample (and the NaN delta computed from it).
   */
  datatype ComparisonResult = ComparisonResult(
    meanA: Option<real>,
    meanB: Option<real>,
    nA: nat,
    nB: nat,
    statistic: real,
    pValue: real,
    isSignificant: bool,
    effectSize: real,
    effectMagnitude: Magnitude,
    delta: Option<real>,
    relativeChange: real,
    recommendation: string)

  /** `np.mean`: NaN (here `None`) for an empty sample. */
  function NpMean(xs: seq<real>): (r: Option<real>)
    ensures r.Some? <==> |xs| > 0
  {
    if |xs| == 0 then None else Some(Mean(xs))
  }

  function OptDelta(a: Option<real>, b: Option<real>): (d: Option<real>)
    ensures d.Some? <==> a.Some? && b.Some?
  {
    if a.Some? && b.Some? then Some(b.value - a.value) else None
  }

  // Split after the first word: the verifier does not look inside a string literal
  // this long, and the proofs that tell the texts apart need its leading characters.
  const InsufficientComparisonText: string :=
    "Insufficient " + "samples for statistical comparison (need at least 2 per group)."

  /** The pooled sample variance ((nA − 1)·varA + (nB − 1)·varB) / (nA + nB − 2) of two groups of at least two. */
  function PooledVariance(a: seq<real>, b: seq<real>): (v: real)
    requires |a| >= 2 && |b| >= 2
    ensures v >= 0.0
  {
    var total := (|a| - 1) as real * SampleVariance(a) + (|b| - 1) as real * SampleVariance(b);
    RatioInUnit(0.0, total, (|a| + |b| - 2) as real);
    total / (|a| + |b| - 2) as real
  }

  /**
   * `compare_configs`, with the Mann-Whitney outcome `test` and `np.sqrt` as
   * inputs; both are used only when each group has at least two runs.
   */
  function CompareConfigs(resultsA: seq<EvalResult>, resultsB: seq<EvalResult>, alpha: real, test: RankTest, sqrt: real -> real): (r: ComparisonResult)
    ensures r.nA == |resultsA| && r.nB == |resultsB|
    ensures r.meanA == NpMean(Scores(resultsA)) && r.meanB == NpMean(Scores(resultsB))
    ensures r.delta == OptDelta(r.meanA, r.meanB)
    ensures (|resultsA| < 2 || |resultsB| < 2) ==>
      && r.statistic == 0.0 && r.pValue == 1.0 && !r.isSignificant
      && r.effectSize == 0.0 && r.effectMagnitude == Negligible && r.relativeChange == 0.0
      && r.recommendation == InsufficientComparisonText
    ensures (|resultsA| >= 2 && |resultsB| >= 2) ==>
      && r.delta.Some? && r.meanA.Some?
      && r.statistic == test.statistic && r.pValue == test.pValue
      && (r.isSignificant <==> test.pValue < alpha)
      && r.effectSize == EffectSize(r.delta.value, sqrt(PooledVariance(Scores(resultsA), Scores(resultsB))))
      && r.effectMagnitude == EffectMagnitude(r.effectSize)
      && r.relativeChange == RelativeChange(r.delta.value, r.meanA.value)
      && r.recommendation == GenerateRecommendation(r.delta.value, test.pValue, r.effectMagnitude, r.isSignificant, r.nA, r.nB)
  {
    var scoresA, scoresB := Scores(resultsA), Scores(resultsB);
    var nA, nB := |scoresA|, |scoresB|;
    var meanA, meanB := NpMean(scoresA), NpMean(scoresB);
    var delta := OptDelta(meanA, meanB);
    if nA < 2 || nB < 2 then
      ComparisonResult(meanA, meanB, nA, nB, 0.0, 1.0, false, 0.0, Negligible, delta, 0.0, InsufficientComparisonText)
    else
      var d := delta.value;
      var effectSize := EffectSize(d, sqrt(PooledVariance(scoresA, scoresB)));
      var magnitude := EffectMagnitude(effectSize);
      var significant := test.pValue < alpha;
      var relativeChange := RelativeChange(d, meanA.value);
      ComparisonResult(meanA, meanB, nA, nB, test.statistic, test.pValue, significant, effectSize, magnitude,
        delta, relativeChange, GenerateRecommendation(d, test.pValue, magnitude, significant, nA, nB))
  }

  /** Cohen's d: |delta| in units of the pooled standard deviation, 0 when that is not positive. */
  function EffectSize(delta: real, pooledStd: real): (e: real)
    ensures e >= 0.0
    ensures pooledStd <= 0.0 ==> e == 0.0
    ensures pooledStd > 0.0 ==> e * pooledStd == Abs(delta)
  {
    if pooledStd > 0.0 then
      RatioInUnit(0.0, Abs(delta), pooledStd);
      Abs(delta) / pooledStd
    else 0.0
  }

  /** The change in percent of config A's mean, 0 when that mean is not positive. */
  function RelativeChange(delta: real, meanA: real): real
  {
    if meanA > 0.0 then delta / meanA * 100.0 else 0.0
  }

  /** The relative change is `delta` as a percentage of a positive baseline, and 0 without one. */
  lemma RelativeChangeIsPercent(delta: real, meanA: real)
    ensures meanA <= 0.0 ==> RelativeChange(delta, meanA) == 0.0
    ensures meanA > 0.0 ==> RelativeChange(delta, meanA) * meanA == delta * 100.0
  {
    if meanA > 0.0 {
      var q := delta / meanA;
      assert q * meanA == delta;
    }
  }

  function Abs(x: real): (r: real)
    ensures r >= 0.0 && (r == x || r == -x)
  {
    if x < 0.0 then -x else x
  }

  /** An insufficient comparison is recognisable from its text alone. */
  lemma InsufficientIsDistinct(delta: real, p: real, mag: Magnitude, sig: bool, nA: nat, nB: nat)
    ensures GenerateRecommendation(delta, p, mag, sig, nA, nB) != InsufficientComparisonText
  {
    RecommendationRoundTrip(Classify(delta, mag, sig, Min(nA, nB)), p, Min(nA, nB));
    InsufficientNamesNoVerdict();
  }

  lemma InsufficientNamesNoVerdict()
    ensures ReadVerdict(InsufficientComparisonText) == None
  {
    var s := InsufficientComparisonText;
    assert s[0] == 'I';
    NotPrefixAt(s, TooSmallLead, 0);
    NotPrefixAt(s, NoDifferenceLead, 0);
    NotPrefixAt(s, SignificantLead(Negligible), 0);
    NotPrefixAt(s, SignificantLead(Small), 0);
    NotPrefixAt(s, SignificantLead(Magnitude.Medium), 0);
    NotPrefixAt(s, SignificantLead(Large), 0);
  }

  // ---------------------------------------------------------------- recommendation

  function Min(a: nat, b: nat): nat
  {
    if a < b then a else b
  }

  /** What `_generate_recommendation` decides, before it is put into words. */
  datatype Verdict =
    | TooFewSamples
    | NoDifference(collectMore: bool)
    | SignificantChange(improvement: bool, magnitude: Magnitude)

  /** The decision table of `_generate_recommendation`. */
  function Classify(delta: real, mag: Magnitude, significant: bool, minN: nat): (v: Verdict)
    ensures v == TooFewSamples <==> minN < 5
    ensures v.NoDifference? <==> minN >= 5 && !significant
    ensures v.NoDifference? ==> (v.collectMore <==> minN < 10)
    ensures v.SignificantChange? <==> minN >= 5 && significant
    ensures v.SignificantChange? ==> (v.improvement <==> delta > 0.0) && v.magnitude == mag
  {
    if minN < 5 then TooFewSamples
    else if !significant then NoDifference(minN < 10)
    else SignificantChange(delta > 0.0, mag)
  }

  const TooSmallLead: string := "Sample size too small"
  const NoDifferenceLead: string := "No significant difference detected"
  const StatisticallySignificant: string := "Statistically significant "
  const SignificantWord: string := "Significant "
  // Split before the last word: the proof that tells the two endings apart reads their last characters.
  const MorePowerAdvice: string := "Consider increasing sample size for more statistical " + "power."
  const EquivalentAdvice: string := "The configurations appear " + "equivalent."

  function DirectionWord(improvement: bool): string
  {
    if improvement then "improvement" else "regression"
  }

  /** The opening words of a significant-change text, by magnitude. */
  function SignificantLead(m: Magnitude): string
  {
    match m
    case Negligible => StatisticallySignificant + "but negligible "
    case Small => StatisticallySignificant + "small "
    case Medium => SignificantWord + "medium "
    case Large => SignificantWord + "large "
  }

  function SignificantTail(m: Magnitude): string
  {
    match m
    case Negligible => "The practical difference is minimal."
    case Small => "Consider whether this is practically meaningful."
    case Medium => "This is a meaningful difference."
    case Large => "This is a substantial difference."
  }

  /** The wording of each verdict; `p` is printed with three decimals. */
  function VerdictText(v: Verdict, p: real, minN: nat): string
  {
    match v
    case TooFewSamples =>
      TooSmallLead + " (n=" + NatToString(minN) + "). "
      + "Collect at least 5 runs per configuration for reliable comparison."
    case NoDifference(more) =>
      NoDifferenceLead + " (p=" + FormatFixed(p, 3) + "). "
      + (if more then MorePowerAdvice else EquivalentAdvice)
    case SignificantChange(up, m) =>
      SignificantLead(m) + DirectionWord(up) + SignificantRest(m, p)
  }

  /** Everything after the direction word of a significant-change text. */
  function SignificantRest(m: Magnitude, p: real): string
  {
    (if m == Magnitude.Medium || m == Large then " detected" else "")
    + " (p=" + FormatFixed(p, 3) + ", d=" + MagnitudeName(m) + "). "
    + SignificantTail(m)
  }

  /** `_generate_recommendation`. */
  function GenerateRecommendation(delta: real, p: real, mag: Magnitude, significant: bool, nA: nat, nB: nat): string
  {
    VerdictText(Classify(delta, mag, significant, Min(nA, nB)), p, Min(nA, nB))
  }

  /** Reads the verdict back out of a recommendation text. */
  function ReadVerdict(text: string): Option<Verdict>
  {
    if StartsWith(text, TooSmallLead) then Some(TooFewSamples)
    else if StartsWith(text, NoDifferenceLead) then Some(NoDifference(EndsWith(text, "power.")))
    else if StartsWith(text, SignificantLead(Negligible)) then ReadDirection(text, Negligible)
    else if StartsWith(text, SignificantLead(Small)) then ReadDirection(text, Small)
    else if StartsWith(text, SignificantLead(Magnitude.Medium)) then ReadDirection(text, Magnitude.Medium)
    else if StartsWith(text, SignificantLead(Large)) then ReadDirection(text, Large)
    else None
  }

  function ReadDirection(text: string, m: Magnitude): Option<Verdict>
  {
    if StartsWith(text, SignificantLead(m) + "improvement") then Some(SignificantChange(true, m))
    else if StartsWith(text, SignificantLead(m) + "regression") then Some(SignificantChange(false, m))
    else None
  }

  lemma PrefixOfConcat(a: string, b: string)
    ensures StartsWith(a + b, a)
  {
    assert (a + b)[..|a|] == a;
  }

  lemma NotPrefixAt(s: string, p: string, i: nat)
    requires i < |p| && i < |s| && s[i] != p[i]
    ensures !StartsWith(s, p)
  {
  }

  /** A string that differs from p at position i (within a) does not start with p, whatever follows. */
  lemma NotPrefixOfConcat(a: string, b: string, p: string, i: nat)
    requires i < |p| && i < |a| && a[i] != p[i]
    ensures !StartsWith(a + b, p)
  {
    assert (a + b)[i] == a[i];
    NotPrefixAt(a + b, p, i);
  }

  lemma SuffixOfConcat(a: string, b: string)
    ensures EndsWith(a + b, b)
  {
    assert (a + b)[|a + b| - |b|..] == b;
  }

  lemma LastCharsDiffer(a: string, b: string, s: string)
    requires |b| >= 2 && |s| >= 2 && b[|b| - 2] != s[|s| - 2]
    ensures !EndsWith(a + b, s)
  {
    var t := a + b;
    assert t[|t| - 2] == b[|b| - 2];
    if |s| <= |t| {
      assert t[|t| - |s|..][|s| - 2] == t[|t| - 2];
    }
  }

  /** Every recommendation text names its verdict unambiguously. */
  lemma RecommendationRoundTrip(v: Verdict, p: real, minN: nat)
    ensures ReadVerdict(VerdictText(v, p, minN)) == Some(v)
  {
    match v
    case TooFewSamples =>
      TooFewRoundTrip(p, minN);
    case NoDifference(more) =>
      NoDifferenceRoundTrip(more, p);
    case SignificantChange(up, m) =>
      SignificantRoundTrip(up, m, p);
  }

  lemma TooFewRoundTrip(p: real, minN: nat)
    ensures ReadVerdict(VerdictText(TooFewSamples, p, minN)) == Some(TooFewSamples)
  {
    var rest := " (n=" + NatToString(minN) + "). "
      + "Collect at least 5 runs per configuration for reliable comparison.";
    assert VerdictText(TooFewSamples, p, minN) == TooSmallLead + rest;
    PrefixOfConcat(TooSmallLead, rest);
  }

  lemma NoDifferenceRoundTrip(more: bool, p: real)
    ensures ReadVerdict(VerdictText(NoDifference(more), p, 0)) == Some(NoDifference(more))
  {
    var tail := " (p=" + FormatFixed(p, 3) + "). ";
    var head := NoDifferenceLead + " (p=" + FormatFixed(p, 3) + "). ";
    assert head == NoDifferenceLead + tail;
    PrefixOfConcat(NoDifferenceLead, tail);
    var advice := if more then MorePowerAdvice else EquivalentAdvice;
    PrefixOfLonger(head, NoDifferenceLead, advice);
    NoDifferenceLeadRead(head + advice);
    AdviceEnding(more, head);
  }

  lemma PrefixOfLonger(s: string, prefix: string, t: string)
    requires StartsWith(s, prefix)
    ensures StartsWith(s + t, prefix)
  {
    assert (s + t)[..|prefix|] == s[..|prefix|];
  }

  /** A text opening with the no-difference lead reads back as no difference, asking for power iff it ends so. */
  lemma NoDifferenceLeadRead(text: string)
    requires StartsWith(text, NoDifferenceLead)
    ensures ReadVerdict(text) == Some(NoDifference(EndsWith(text, "power.")))
  {
    assert text[0] == NoDifferenceLead[0];
    NotPrefixAt(text, TooSmallLead, 0);
  }

  /** Only the advice to collect more runs ends with "power.". */
  lemma AdviceEnding(more: bool, head: string)
    ensures EndsWith(head + (if more then MorePowerAdvice else EquivalentAdvice), "power.") == more
  {
    if more {
      var lead := "Consider increasing sample size for more statistical ";
      assert head + MorePowerAdvice == (head + lead) + "power.";
      SuffixOfConcat(head + lead, "power.");
    } else {
      assert EquivalentAdvice[|EquivalentAdvice| - 2] == "equivalent."[9] == 't';
      LastCharsDiffer(head, EquivalentAdvice, "power.");
    }
  }

  lemma SignificantRoundTrip(up: bool, m: Magnitude, p: real)
    ensures ReadVerdict(VerdictText(SignificantChange(up, m), p, 0)) == Some(SignificantChange(up, m))
  {
    assert VerdictText(SignificantChange(up, m), p, 0) == SignificantLead(m) + DirectionWord(up) + SignificantRest(m, p);
    DirectionRoundTrip(up, m, SignificantRest(m, p));
  }

  /** A lead and a direction word are read back whatever text follows them. */
  lemma DirectionRoundTrip(up: bool, m: Magnitude, rest: string)
    ensures ReadVerdict(SignificantLead(m) + DirectionWord(up) + rest) == Some(SignificantChange(up, m))
  {
    var lead, word := SignificantLead(m), DirectionWord(up);
    assert lead + word + rest == lead + (word + rest);
    LeadSelects(m, word + rest);
    PrefixOfConcat(lead + word, rest);
    if !up {
      DirectionsDiffer(lead, rest);
    }
  }

  lemma DirectionsDiffer(lead: string, rest: string)
    ensures !StartsWith(lead + "regression" + rest, lead + "improvement")
  {
    var s := lead + "regression";
    assert s[|lead|] == 'r';
    assert (lead + "improvement")[|lead|] == 'i';
    NotPrefixOfConcat(s, rest, lead + "improvement", |lead|);
  }

  /** A text opening with the lead of magnitude m is read as a change of magnitude m. */
  lemma LeadSelects(m: Magnitude, tail: string)
    ensures ReadVerdict(SignificantLead(m) + tail) == ReadDirection(SignificantLead(m) + tail, m)
  {
    var lead := SignificantLead(m);
    assert lead[0] == 'S';
    assert lead[1] != TooSmallLead[1];
    NotPrefixOfConcat(lead, tail, TooSmallLead, 1);
    NotPrefixOfConcat(lead, tail, NoDifferenceLead, 0);
    PrefixOfConcat(lead, tail);
    var negligible, small, medium := SignificantLead(Negligible), SignificantLead(Small), SignificantLead(Magnitude.Medium);
    match m {
      case Negligible =>
      case Small =>
        assert lead[26] == 's' && negligible[26] == 'b';
        NotPrefixOfConcat(lead, tail, negligible, 26);
      case Medium =>
        NotPrefixOfConcat(lead, tail, negligible, 1);
        NotPrefixOfConcat(lead, tail, small, 1);
      case Large =>
        NotPrefixOfConcat(lead, tail, negligible, 1);
        NotPrefixOfConcat(lead, tail, small, 1);
        assert lead[12] == 'l' && medium[12] == 'm';
        NotPrefixOfConcat(lead, tail, medium, 12);
    }
  }

  // ---------------------------------------------------------------- regression rule

  /** `is_regression` with `compare_configs` at its default alpha of 0.05. */
  function IsRegression(baseline: seq<EvalResult>, current: seq<EvalResult>, threshold: real, requireSignificance: bool,
                        test: RankTest, sqrt: real -> real): (r: (bool, ComparisonResult))
    ensures r.1 == CompareConfigs(baseline, current, 0.05, test, sqrt)
    ensures r.0 <==> (r.1.delta.Some? && r.1.delta.value < -threshold && (requireSignificance ==> r.1.isSignificant))
  {
    var comparison := CompareConfigs(baseline, current, 0.05, test, sqrt);
    var regressed := comparison.delta.Some? && comparison.delta.value < -threshold;
    (if requireSignificance then regressed && comparison.isSignificant else regressed, comparison)
  }

  /** With significance required, fewer than two runs on either side is never a regression. */
  lemma SmallSamplesNeverRegress(baseline: seq<EvalResult>, current: seq<EvalResult>, threshold: real, test: RankTest, sqrt: real -> real)
    requires |baseline| < 2 || |current| < 2
    ensures !IsRegression(baseline, current, threshold, true, test, sqrt).0
  {
  }

  // ---------------------------------------------------------------- spread

  /** Some score away from m makes the sum of squared deviations from m positive. */
  lemma {:induction false} DeviationPositive(xs: seq<real>, m: real, i: nat)
    requires i < |xs| && xs[i] != m
    ensures SquaredDeviations(xs, m) > 0.0
  {
    var last := |xs| - 1;
    var d := xs[last] - m;
    assert SquaredDeviations(xs, m) == SquaredDeviations(xs[..last], m) + Square(d);
    if i == last {
      SquarePositive(d);
    } else {
      SquareNonNegative(d);
      assert xs[..last][i] == xs[i];
      DeviationPositive(xs[..last], m, i);
    }
  }

  /** Two different scores give a positive sample variance. */
  lemma VarianceOfDifferentScores(xs: seq<real>, i: nat, j: nat)
    requires i < |xs| && j < |xs| && xs[i] != xs[j]
    ensures SampleVariance(xs) > 0.0
  {
    var m := Mean(xs);
    var k := if xs[i] != m then i else j;
    DeviationPositive(xs, m, k);
    var ss := SquaredDeviations(xs, m);
    var q := ss / (|xs| - 1) as real;
    assert q * (|xs| - 1) as real == ss;
    MulSign(q, (|xs| - 1) as real);
  }

  // ---------------------------------------------------------------- efficiency

  /** `EfficiencyComparison`; a p-value is `None` when the test was not run or raised ValueError. */
  datatype EfficiencyComparison = EfficiencyComparison(
    tokensAMean: real,
    tokensBMean: real,
    tokensDelta: real,
    tokensDeltaPct: real,
    durationAMean: real,
    durationBMean: real,
    durationDelta: real,
    durationDeltaPct: real,
    costAMean: real,
    costBMean: real,
    costDelta: real,
    costDeltaPct: real,
    tokensPValue: Option<real>,
    durationPValue: Option<real>,
    recommendation: string)

  function TokensOf(results: seq<EvalResult>): (s: seq<real>)
    ensures |s| == |results| && forall i :: 0 <= i < |s| ==> s[i] == TotalTokens(results[i].trace.usage) as real
  {
    seq(|results|, i requires 0 <= i < |results| => TotalTokens(results[i].trace.usage) as real)
  }

  function DurationsOf(results: seq<EvalResult>): (s: seq<real>)
    ensures |s| == |results| && forall i :: 0 <= i < |s| ==> s[i] == results[i].trace.durationSeconds
  {
    seq(|results|, i requires 0 <= i < |results| => results[i].trace.durationSeconds)
  }

  function CostsOf(results: seq<EvalResult>, costOf: TokenUsage -> real): (s: seq<real>)
    ensures |s| == |results| && forall i :: 0 <= i < |s| ==> s[i] == costOf(results[i].trace.usage)
  {
    seq(|results|, i requires 0 <= i < |results| => costOf(results[i].trace.usage))
  }

  /** `float(np.mean(xs)) if len(xs) > 0 else 0.0`. */
  function MeanOrZero(xs: seq<real>): (r: real)
    ensures xs == [] ==> r == 0.0
    ensures xs != [] ==> r == Mean(xs)
  {
    if xs == [] then 0.0 else Mean(xs)
  }

  /**
   * `compare_efficiency`. The cost model (`CostMetrics.from_usage`) is the
   * parameter `costOf`; `tokensTest` and `durationTest` are the p-values
   * `mannwhitneyu` gives on the token counts and on the durations (`None`
   * when it raises ValueError); they are consulted only with two runs per side.
   */
  function CompareEfficiency(resultsA: seq<EvalResult>, resultsB: seq<EvalResult>, costOf: TokenUsage -> real,
                             tokensTest: Option<real>, durationTest: Option<real>): (r: EfficiencyComparison)
    ensures r.tokensAMean == MeanOrZero(TokensOf(resultsA)) && r.tokensBMean == MeanOrZero(TokensOf(resultsB))
    ensures r.durationAMean == MeanOrZero(DurationsOf(resultsA)) && r.durationBMean == MeanOrZero(DurationsOf(resultsB))
    ensures r.costAMean == MeanOrZero(CostsOf(resultsA, costOf)) && r.costBMean == MeanOrZero(CostsOf(resultsB, costOf))
    ensures r.tokensDelta == r.tokensBMean - r.tokensAMean
    ensures r.durationDelta == r.durationBMean - r.durationAMean
    ensures r.costDelta == r.costBMean - r.costAMean
    ensures r.tokensDeltaPct == RelativeChange(r.tokensDelta, r.tokensAMean)
    ensures r.durationDeltaPct == RelativeChange(r.durationDelta, r.durationAMean)
    ensures r.costDeltaPct == RelativeChange(r.costDelta, r.costAMean)
    ensures |resultsA| >= 2 && |resultsB| >= 2 ==> r.tokensPValue == tokensTest && r.durationPValue == durationTest
    ensures |resultsA| < 2 || |resultsB| < 2 ==> r.tokensPValue == None && r.durationPValue == None
    ensures r.recommendation == EfficiencyRecommendation(r.tokensDeltaPct, r.durationDeltaPct,
      r.tokensPValue, r.durationPValue, |resultsA|, |resultsB|)
  {
    var bothSized := |resultsA| >= 2 && |resultsB| >= 2;
    EfficiencyOfMeans(MeanOrZero(TokensOf(resultsA)), MeanOrZero(TokensOf(resultsB)),
      MeanOrZero(DurationsOf(resultsA)), MeanOrZero(DurationsOf(resultsB)),
      MeanOrZero(CostsOf(resultsA, costOf)), MeanOrZero(CostsOf(resultsB, costOf)),
      if bothSized then tokensTest else None, if bothSized then durationTest else None,
      |resultsA|, |resultsB|)
  }

  /** The comparison built from the six means and the two p-values. */
  function EfficiencyOfMeans(tA: real, tB: real, dA: real, dB: real, cA: real, cB: real,
                             tP: Option<real>, dP: Option<real>, nA: nat, nB: nat): (r: EfficiencyComparison)
    ensures r.tokensAMean == tA && r.tokensBMean == tB && r.tokensDelta == tB - tA
    ensures r.durationAMean == dA && r.durationBMean == dB && r.durationDelta == dB - dA
    ensures r.costAMean == cA && r.costBMean == cB && r.costDelta == cB - cA
    ensures r.tokensDeltaPct == RelativeChange(r.tokensDelta, r.tokensAMean)
    ensures r.durationDeltaPct == RelativeChange(r.durationDelta, r.durationAMean)
    ensures r.costDeltaPct == RelativeChange(r.costDelta, r.costAMean)
    ensures r.tokensPValue == tP && r.durationPValue == dP
    ensures r.recommendation == EfficiencyRecommendation(r.tokensDeltaPct, r.durationDeltaPct, tP, dP, nA, nB)
  {
    var tPct, dPct, cPct := RelativeChange(tB - tA, tA), RelativeChange(dB - dA, dA), RelativeChange(cB - cA, cA);
    EfficiencyComparison(tA, tB, tB - tA, tPct, dA, dB, dB - dA, dPct, cA, cB, cB - cA, cPct, tP, dP,
      EfficiencyRecommendation(tPct, dPct, tP, dP, nA, nB))
  }

  /** One sentence of the efficiency recommendation. */
  datatype EfficiencyNote =
    | TokenNote(percent: real, fewer: bool, significant: bool)
    | DurationNote(percent: real, faster: bool, significant: bool)
    | MoreEfficientOverall
    | LessEfficientOverall

  function NoteRank(n: EfficiencyNote): nat
  {
    match n
    case TokenNote(_, _, _) => 0
    case DurationNote(_, _, _) => 1
    case MoreEfficientOverall => 2
    case LessEfficientOverall => 3
  }

  /** A test result counts as significant below 0.05. */
  predicate SignificantP(p: Option<real>)
  {
    p.Some? && p.value < 0.05
  }

  /** The token note and the duration note, each present for a change beyond 10%. */
  function ChangeNotes(tokensPct: real, durationPct: real, tokensP: Option<real>, durationP: Option<real>): seq<EfficiencyNote>
  {
    (if Abs(tokensPct) > 10.0 then [TokenNote(Abs(tokensPct), tokensPct < 0.0, SignificantP(tokensP))] else [])
    + (if Abs(durationPct) > 10.0 then [DurationNote(Abs(durationPct), durationPct < 0.0, SignificantP(durationP))] else [])
  }

  /** The overall verdict that follows non-empty change notes. */
  function OverallNote(tokensPct: real, durationPct: real, parts: seq<EfficiencyNote>): seq<EfficiencyNote>
  {
    if parts == [] then []
    else if tokensPct < -10.0 && durationPct < -10.0 then [MoreEfficientOverall]
    else if tokensPct > 10.0 && durationPct > 10.0 then [LessEfficientOverall]
    else []
  }

  /**
   * The sentences `_generate_efficiency_recommendation` collects: a token note
   * and a duration note for changes beyond 10%, then an overall verdict when
   * both moved the same way by more than 10%.
   */
  function EfficiencyNotes(tokensPct: real, durationPct: real, tokensP: Option<real>, durationP: Option<real>): (r: seq<EfficiencyNote>)
    ensures (exists i :: 0 <= i < |r| && r[i].TokenNote?) <==> Abs(tokensPct) > 10.0
    ensures (exists i :: 0 <= i < |r| && r[i].DurationNote?) <==> Abs(durationPct) > 10.0
    ensures forall i :: 0 <= i < |r| && r[i].TokenNote? ==>
      r[i] == TokenNote(Abs(tokensPct), tokensPct < 0.0, SignificantP(tokensP))
    ensures forall i :: 0 <= i < |r| && r[i].DurationNote? ==>
      r[i] == DurationNote(Abs(durationPct), durationPct < 0.0, SignificantP(durationP))
    ensures MoreEfficientOverall in r <==> tokensPct < -10.0 && durationPct < -10.0
    ensures LessEfficientOverall in r <==> tokensPct > 10.0 && durationPct > 10.0
    ensures forall i, j :: 0 <= i < j < |r| ==> NoteRank(r[i]) < NoteRank(r[j])
  {
    var parts := ChangeNotes(tokensPct, durationPct, tokensP, durationP);
    assert forall i :: 0 <= i < |parts| ==> parts[i].TokenNote? || parts[i].DurationNote?;
    var r := parts + OverallNote(tokensPct, durationPct, parts);
    assert forall i :: 0 <= i < |parts| ==> r[i] == parts[i];
    assert Abs(tokensPct) > 10.0 ==> r[0].TokenNote?;
    assert Abs(durationPct) > 10.0 ==> r[|parts| - 1].DurationNote?;
    r
  }

  const SignificantSuffix: string := " (statistically significant)"

  function NoteText(n: EfficiencyNote): string
  {
    match n
    case TokenNote(pct, fewer, sig) =>
      "B uses " + FormatFixed(pct, 0) + "% " + (if fewer then "fewer" else "more") + " tokens"
      + (if sig then SignificantSuffix else "") + "."
    case DurationNote(pct, faster, sig) =>
      "B is " + FormatFixed(pct, 0) + "% " + (if faster then "faster" else "slower")
      + (if sig then SignificantSuffix else "") + "."
    case MoreEfficientOverall => "B is more efficient overall."
    case LessEfficientOverall => "B is less efficient overall."
  }

  function NoteTexts(notes: seq<EfficiencyNote>): (r: seq<string>)
    ensures |r| == |notes| && forall i :: 0 <= i < |r| ==> r[i] == NoteText(notes[i])
  {
    seq(|notes|, i requires 0 <= i < |notes| => NoteText(notes[i]))
  }

  const InsufficientEfficiencyText: string := "Insufficient samples for efficiency comparison (need at least 2 per group)."
  // Split after the first word so that the verifier sees its leading characters.
  const NoEfficiencyDifferenceText: string := "No " + "significant efficiency differences detected between configurations."

  /** `_generate_efficiency_recommendation`: the notes joined by single spaces. */
  function EfficiencyRecommendation(tokensPct: real, durationPct: real, tokensP: Option<real>, durationP: Option<real>,
                                    nA: nat, nB: nat): string
  {
    if Min(nA, nB) < 2 then InsufficientEfficiencyText
    else
      var notes := EfficiencyNotes(tokensPct, durationPct, tokensP, durationP);
      if notes == [] then NoEfficiencyDifferenceText else Join(NoteTexts(notes), " ")
  }

  /**
   * With two runs per side, the recommendation says "no difference" exactly
   * when neither tokens nor duration moved by more than 10%.
   */
  lemma EfficiencyQuietIff(tokensPct: real, durationPct: real, tokensP: Option<real>, durationP: Option<real>, nA: nat, nB: nat)
    requires Min(nA, nB) >= 2
    ensures EfficiencyRecommendation(tokensPct, durationPct, tokensP, durationP, nA, nB) == NoEfficiencyDifferenceText
      <==> Abs(tokensPct) <= 10.0 && Abs(durationPct) <= 10.0
  {
    var notes := EfficiencyNotes(tokensPct, durationPct, tokensP, durationP);
    if notes != [] {
      var texts := NoteTexts(notes);
      var text := Join(texts, " ");
      JoinStartsWithFirst(texts, " ");
      NoteNotQuiet(notes[0], text);
    }
  }

  lemma JoinStartsWithFirst(parts: seq<string>, sep: string)
    requires |parts| > 0
    ensures StartsWith(Join(parts, sep), parts[0])
  {
    if |parts| > 1 {
      assert Join(parts, sep) == parts[0] + (sep + Join(parts[1..], sep));
      PrefixOfConcat(parts[0], sep + Join(parts[1..], sep));
    } else {
      PrefixOfConcat(parts[0], "");
      assert parts[0] + "" == parts[0];
    }
  }

  /** A text that opens with a note's sentence is not the "no difference" text. */
  lemma NoteNotQuiet(n: EfficiencyNote, text: string)
    requires StartsWith(text, NoteText(n))
    ensures text != NoEfficiencyDifferenceText
  {
    var t := NoteText(n);
    assert t[0] == 'B';
    assert text[0] == t[0];
    assert NoEfficiencyDifferenceText[0] == 'N';
  }

  lemma NoteTextsSnoc(notes: seq<EfficiencyNote>, n: EfficiencyNote)
    ensures NoteTexts(notes + [n]) == NoteTexts(notes) + [NoteText(n)]
  {
  }

  /** The first half of `_generate_efficiency_recommendation`: the token and duration sentences. */
  method ChangeSentences(tokensPct: real, durationPct: real, tokensP: Option<real>, durationP: Option<real>)
    returns (parts: seq<string>)
    ensures parts == NoteTexts(ChangeNotes(tokensPct, durationPct, tokensP, durationP))
  {
    ghost var tokenNotes := if Abs(tokensPct) > 10.0 then [TokenNote(Abs(tokensPct), tokensPct < 0.0, SignificantP(tokensP))] else [];
    ghost var durationNotes := if Abs(durationPct) > 10.0 then [DurationNote(Abs(durationPct), durationPct < 0.0, SignificantP(durationP))] else [];
    parts := [];
    var tokensSig := tokensP.Some? && tokensP.value < 0.05;
    if Abs(tokensPct) > 10.0 {
      var direction := if tokensPct < 0.0 then "fewer" else "more";
      var sigNote := if tokensSig then SignificantSuffix else "";
      var sentence := "B uses " + FormatFixed(Abs(tokensPct), 0) + "% " + direction + " tokens" + sigNote + ".";
      assert sentence == NoteText(tokenNotes[0]);
      parts := parts + [sentence];
    }
    assert parts == NoteTexts(tokenNotes);
    var durationSig := durationP.Some? && durationP.value < 0.05;
    if Abs(durationPct) > 10.0 {
      var direction := if durationPct < 0.0 then "faster" else "slower";
      var sigNote := if durationSig then SignificantSuffix else "";
      var sentence := "B is " + FormatFixed(Abs(durationPct), 0) + "% " + direction + sigNote + ".";
      assert sentence == NoteText(durationNotes[0]);
      NoteTextsSnoc(tokenNotes, durationNotes[0]);
      parts := parts + [sentence];
    } else {
      assert tokenNotes + durationNotes == tokenNotes;
    }
  }

  /**
   * `_generate_efficiency_recommendation` as written: the sentences are
   * appended to `parts` one by one and joined by single spaces.
   */
  method GenerateEfficiencyRecommendation(tokensPct: real, durationPct: real, tokensP: Option<real>, durationP: Option<real>,
                                          nA: nat, nB: nat) returns (text: string)
    ensures text == EfficiencyRecommendation(tokensPct, durationPct, tokensP, durationP, nA, nB)
  {
    if Min(nA, nB) < 2 {
      return InsufficientEfficiencyText;
    }
    var parts := ChangeSentences(tokensPct, durationPct, tokensP, durationP);
    ghost var notes := ChangeNotes(tokensPct, durationPct, tokensP, durationP);
    ghost var all := EfficiencyNotes(tokensPct, durationPct, tokensP, durationP);
    assert all == notes + OverallNote(tokensPct, durationPct, notes);
    if parts == [] {
      assert all == [];
      return NoEfficiencyDifferenceText;
    }
    var bothBetter := tokensPct < -10.0 && durationPct < -10.0;
    var bothWorse := tokensPct > 10.0 && durationPct > 10.0;
    if bothBetter {
      parts := parts + ["B is more efficient overall."];
      NoteTextsSnoc(notes, MoreEfficientOverall);
    } else if bothWorse {
      parts := parts + ["B is less efficient overall."];
      NoteTextsSnoc(notes, LessEfficientOverall);
    } else {
      assert all == notes;
    }
    assert parts == NoteTexts(all) && all != [];
    text := Join(parts, " ");
  }

  // ---------------------------------------------------------------- power analysis

  /** `PowerAnalysisResult`. */
  datatype PowerAnalysisResult = PowerAnalysisResult(
    baselineRate: real,
    minDetectableEffect: real,
    recommendedSampleSize: int,
    power: real,
    alpha: real,
    notes: string)

  const InvalidBaselineNote: string := "Invalid baseline rate. Using minimum sample size of 30."
  const ZeroEffectNote: string := "Effect size is 0. Using minimum sample size of 30."

  /** `np.ceil` on an exact number. */
  function Ceil(x: real): (n: int)
    ensures x <= n as real < x + 1.0
  {
    -((-x).Floor)
  }

  /** `max(int(np.ceil(num / den)), 5)`: the least whole number of runs, at least 5, that reaches num/den. */
  function SampleSizeFor(num: real, den: real): (n: int)
    requires den > 0.0
    ensures n >= 5
    ensures n as real >= num / den
    ensures n == 5 || (n - 1) as real < num / den
  {
    var c := Ceil(num / den);
    if c < 5 then 5 else c
  }

  /** The rate under the alternative hypothesis, pulled back inside (0, 1) as the source does. */
  function AltRate(baseline: real, effect: real): (r: real)
    ensures baseline + effect >= 1.0 ==> r == 0.99
    ensures baseline + effect <= 0.0 ==> r == 0.01
    ensures 0.0 < baseline + effect < 1.0 ==> r == baseline + effect
  {
    var alt := baseline + effect;
    var alt1 := if alt >= 1.0 then 0.99 else alt;
    if alt1 <= 0.0 then 0.01 else alt1
  }

  /** The numerator of the two-proportion sample-size formula. */
  function SampleSizeNumerator(baseline: real, alt: real, zAlpha: real, zPower: real, sqrt: real -> real): real
  {
    var pooled := (baseline + alt) / 2.0;
    Square(zAlpha * sqrt(2.0 * pooled * (1.0 - pooled)) + zPower * sqrt(baseline * (1.0 - baseline) + alt * (1.0 - alt)))
  }

  /**
   * `minimum_sample_size`. The normal quantiles `norm.ppf(1 − alpha/2)` and
   * `norm.ppf(power)` are the inputs `zAlpha` and `zPower`, `math.sqrt` is `sqrt`.
   */
  function MinimumSampleSize(baseline: real, effect: real, power: real, alpha: real,
                             zAlpha: real, zPower: real, sqrt: real -> real): (r: PowerAnalysisResult)
    ensures r.baselineRate == baseline && r.minDetectableEffect == effect && r.power == power && r.alpha == alpha
    ensures !(0.0 < baseline < 1.0) ==> r.recommendedSampleSize == 30 && r.notes == InvalidBaselineNote
    ensures 0.0 < baseline < 1.0 && AltRate(baseline, effect) == baseline ==>
      r.recommendedSampleSize == 30 && r.notes == ZeroEffectNote
    ensures 0.0 < baseline < 1.0 && AltRate(baseline, effect) != baseline ==>
      var num := SampleSizeNumerator(baseline, AltRate(baseline, effect), zAlpha, zPower, sqrt);
      var den := Square(baseline - AltRate(baseline, effect));
      && den > 0.0
      && r.recommendedSampleSize == SampleSizeFor(num, den)
      && r.notes == "Sample size provides " + FormatPercent(power) + " power to detect " + FormatPercent(effect) + " change."
  {
    if !(0.0 < baseline < 1.0) then
      PowerAnalysisResult(baseline, effect, 30, power, alpha, InvalidBaselineNote)
    else
      var alt := AltRate(baseline, effect);
      var num := SampleSizeNumerator(baseline, alt, zAlpha, zPower, sqrt);
      var gap := baseline - alt;
      var den := Square(gap);
      SquareSign(gap);
      if den == 0.0 then
        PowerAnalysisResult(baseline, effect, 30, power, alpha, ZeroEffectNote)
      else
        PowerAnalysisResult(baseline, effect, SampleSizeFor(num, den), power, alpha,
          "Sample size provides " + FormatPercent(power) + " power to detect " + FormatPercent(effect) + " change.")
  }

  /** s is the (non-negative) square root of x. */
  predicate IsRootOf(s: real, x: real)
  {
    s >= 0.0 && Square(s) == x
  }

  lemma ScaleLe(a: real, b: real, c: real, x: real, y: real)
    requires a <= b && c >= 0.0 && x == a * c && y == b * c
    ensures x <= y
  {
    assert y - x == (b - a) * c;
  }

  lemma SquareLe(a: real, b: real)
    requires 0.0 <= a <= b
    ensures Square(a) <= Square(b)
  {
    var m := a * b;
    ScaleLe(a, b, a, Square(a), m);
    ScaleLe(a, b, b, m, Square(b));
  }

  lemma SquareLt(a: real, b: real)
    ensures 0.0 <= a < b ==> Square(a) < Square(b)
  {
    if 0.0 <= a < b {
      var m := a * b;
      ScaleLe(a, b, a, Square(a), m);
      assert Square(b) - m == (b - a) * b;
      ProductPositive(b - a, b, Square(b) - m);
    }
  }

  lemma RootAtLeast(s: real, x: real, lb: real)
    requires IsRootOf(s, x) && lb >= 0.0 && Square(lb) <= x
    ensures s >= lb
  {
    SquareLt(s, lb);
  }

  lemma RootAtMost(s: real, x: real, ub: real)
    requires IsRootOf(s, x) && ub >= 0.0 && x <= Square(ub)
    ensures s <= ub
  {
    SquareLt(ub, s);
  }

  /** Non-negative weights on terms of at least lb sum to at least lb times the weights. */
  lemma WeightedAtLeast(zA: real, zP: real, s1: real, s2: real, lb: real)
    requires zA >= 0.0 && zP >= 0.0 && s1 >= lb && s2 >= lb
    ensures zA * s1 + zP * s2 >= lb * (zA + zP)
  {
    ScaleLe(lb, s1, zA, lb * zA, s1 * zA);
    ScaleLe(lb, s2, zP, lb * zP, s2 * zP);
  }

  /** Non-negative weights on terms in [0, ub] sum to a value in [0, ub times the weights]. */
  lemma WeightedAtMost(zA: real, zP: real, s1: real, s2: real, ub: real)
    requires zA >= 0.0 && zP >= 0.0 && 0.0 <= s1 <= ub && 0.0 <= s2 <= ub
    ensures 0.0 <= zA * s1 + zP * s2 <= ub * (zA + zP)
  {
    ScaleLe(0.0, s1, zA, 0.0, s1 * zA);
    ScaleLe(0.0, s2, zP, 0.0, s2 * zP);
    ScaleLe(s1, ub, zA, s1 * zA, ub * zA);
    ScaleLe(s2, ub, zP, s2 * zP, ub * zP);
  }

  lemma ScaledSquare(c: real, z: real)
    ensures Square(c * z) == Square(c) * Square(z)
  {
  }

  /** The numerator for a 5-point change at a 70% baseline is at least 0.3969·(zAlpha + zPower)². */
  lemma FivePointNumerator(zAlpha: real, zPower: real, sqrt: real -> real)
    requires zAlpha >= 0.0 && zPower >= 0.0
    requires IsRootOf(sqrt(0.39875), 0.39875) && IsRootOf(sqrt(0.3975), 0.3975)
    ensures SampleSizeNumerator(0.7, 0.75, zAlpha, zPower, sqrt) >= 0.3969 * Square(zAlpha + zPower)
  {
    var z := zAlpha + zPower;
    var s1, s2 := sqrt(0.39875), sqrt(0.3975);
    RootAtLeast(s1, 0.39875, 0.63);
    RootAtLeast(s2, 0.3975, 0.63);
    WeightedAtLeast(zAlpha, zPower, s1, s2, 0.63);
    SquareLe(0.63 * z, zAlpha * s1 + zPower * s2);
    ScaledSquare(0.63, z);
    NumeratorAt(0.7, 0.75, zAlpha, zPower, sqrt, 0.39875, 0.3975);
  }

  /** The numerator for a 20-point change at a 70% baseline is at most 0.320356·(zAlpha + zPower)². */
  lemma TwentyPointNumerator(zAlpha: real, zPower: real, sqrt: real -> real)
    requires zAlpha >= 0.0 && zPower >= 0.0
    requires IsRootOf(sqrt(0.32), 0.32) && IsRootOf(sqrt(0.3), 0.3)
    ensures SampleSizeNumerator(0.7, 0.9, zAlpha, zPower, sqrt) <= 0.320356 * Square(zAlpha + zPower)
  {
    var z := zAlpha + zPower;
    var s3, s4 := sqrt(0.32), sqrt(0.3);
    RootAtMost(s3, 0.32, 0.566);
    RootAtMost(s4, 0.3, 0.566);
    WeightedAtMost(zAlpha, zPower, s3, s4, 0.566);
    SquareLe(zAlpha * s3 + zPower * s4, 0.566 * z);
    ScaledSquare(0.566, z);
    NumeratorAt(0.7, 0.9, zAlpha, zPower, sqrt, 0.32, 0.3);
  }

  /** The numerator with its two radicands named. */
  lemma NumeratorAt(baseline: real, alt: real, zAlpha: real, zPower: real, sqrt: real -> real, pooledTerm: real, splitTerm: real)
    requires pooledTerm == 2.0 * ((baseline + alt) / 2.0) * (1.0 - (baseline + alt) / 2.0)
    requires splitTerm == baseline * (1.0 - baseline) + alt * (1.0 - alt)
    ensures SampleSizeNumerator(baseline, alt, zAlpha, zPower, sqrt) == Square(zAlpha * sqrt(pooledTerm) + zPower * sqrt(splitTerm))
  {
  }

  /**
   * At a 70% baseline, detecting a 5-point change takes more runs than
   * detecting a 20-point change, for any non-negative z-scores summing to at
   * least 0.2 (the defaults are about 1.96 and 0.84) and any square root
   * that is exact at the four radicands the two calls use.
   */
  lemma SmallerEffectNeedsMoreSamples(power: real, alpha: real, zAlpha: real, zPower: real, sqrt: real -> real)
    requires zAlpha >= 0.0 && zPower >= 0.0 && zAlpha + zPower >= 0.2
    requires IsRootOf(sqrt(0.39875), 0.39875) && IsRootOf(sqrt(0.3975), 0.3975)
    requires IsRootOf(sqrt(0.32), 0.32) && IsRootOf(sqrt(0.3), 0.3)
    ensures MinimumSampleSize(0.7, 0.05, power, alpha, zAlpha, zPower, sqrt).recommendedSampleSize
          > MinimumSampleSize(0.7, 0.2, power, alpha, zAlpha, zPower, sqrt).recommendedSampleSize
  {
    SquareLe(0.2, zAlpha + zPower);
    assert Square(0.2) == 0.04;
    FivePointSampleSize(power, alpha, zAlpha, zPower, sqrt);
    TwentyPointSampleSize(power, alpha, zAlpha, zPower, sqrt);
  }

  /** At baseline 0.7, a five-point effect needs at least 158.76·(zAlpha + zPower)² runs. */
  lemma FivePointSampleSize(power: real, alpha: real, zAlpha: real, zPower: real, sqrt: real -> real)
    requires zAlpha >= 0.0 && zPower >= 0.0
    requires IsRootOf(sqrt(0.39875), 0.39875) && IsRootOf(sqrt(0.3975), 0.3975)
    ensures MinimumSampleSize(0.7, 0.05, power, alpha, zAlpha, zPower, sqrt).recommendedSampleSize as real
          >= 158.76 * Square(zAlpha + zPower)
  {
    FivePointNumerator(zAlpha, zPower, sqrt);
    assert AltRate(0.7, 0.05) == 0.75;
    assert Square(0.7 - 0.75) == 0.0025;
    var num := SampleSizeNumerator(0.7, 0.75, zAlpha, zPower, sqrt);
    assert num / 0.0025 == num * 400.0;
  }

  /** At baseline 0.7, a twenty-point effect needs 5 runs or fewer than 8.0089·(zAlpha + zPower)² + 1. */
  lemma TwentyPointSampleSize(power: real, alpha: real, zAlpha: real, zPower: real, sqrt: real -> real)
    requires zAlpha >= 0.0 && zPower >= 0.0
    requires IsRootOf(sqrt(0.32), 0.32) && IsRootOf(sqrt(0.3), 0.3)
    ensures var n := MinimumSampleSize(0.7, 0.2, power, alpha, zAlpha, zPower, sqrt).recommendedSampleSize;
      n == 5 || (n - 1) as real < 8.0089 * Square(zAlpha + zPower)
  {
    TwentyPointNumerator(zAlpha, zPower, sqrt);
    assert AltRate(0.7, 0.2) == 0.9;
    assert Square(0.7 - 0.9) == 0.04;
    var num := SampleSizeNumerator(0.7, 0.9, zAlpha, zPower, sqrt);
    assert num / 0.04 == num * 25.0;
  }
}
