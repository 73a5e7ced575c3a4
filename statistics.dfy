/**
 * The closed-form parts of the statistics engine (lib/statistics.ts): Bayesian
 * shrinkage of QC error rates towards the group mean, the stabilisation-delay
 * test, and the guards in front of the trend regression and the weakness
 * z-test. The regression and the normal CDF are floating-point numerics and
 * are given as functions.
 */
module Statistics {
  import opened Wrappers
  import opened Constants
  import Coaching

  /** (wa·a + wb·b) / (wa + wb). */
  function WeightedMean(a: real, wa: real, b: real, wb: real): (m: real)
    requires wa >= 0.0 && wb >= 0.0 && wa + wb > 0.0
    ensures (a <= b ==> a <= m <= b) && (b <= a ==> b <= m <= a)
    ensures wa == 0.0 ==> m == b
    ensures a == b ==> m == a
  {
    var m := (wa * a + wb * b) / (wa + wb);
    MeanBetween(a, wa, b, wb);
    m
  }

  lemma MeanBetween(a: real, wa: real, b: real, wb: real)
    requires wa >= 0.0 && wb >= 0.0 && wa + wb > 0.0
    ensures var m := (wa * a + wb * b) / (wa + wb);
      (a <= b ==> a <= m <= b) && (b <= a ==> b <= m <= a) && (wa == 0.0 ==> m == b) && (a == b ==> m == a)
  {
    var s := wa + wb;
    var m := (wa * a + wb * b) / s;
    assert m * s == wa * a + wb * b;
    if a <= b {
      assert wa * a + wb * a <= wa * a + wb * b <= wa * b + wb * b by {
        assert wb * a <= wb * b;
        assert wa * a <= wa * b;
      }
      assert a * s <= m * s <= b * s;
    }
    if b <= a {
      assert wa * b + wb * b <= wa * a + wb * b <= wa * a + wb * a by {
        assert wb * b <= wb * a;
        assert wa * b <= wa * a;
      }
      assert b * s <= m * s <= a * s;
    }
    if a == b {
      assert m * s == a * s;
    }
  }

  datatype BayesianQcRate = BayesianQcRate(
    rawRate: real, adjustedRate: real, evalCount: real, confidence: Coaching.Confidence, priorRate: real)

  /** bayesianShrinkage: the raw rate pulled towards the prior with the weight of five evaluations. */
  function BayesianShrinkage(rawRate: real, evalCount: real, priorRate: real): (r: BayesianQcRate)
    requires evalCount >= 0.0
    ensures r.rawRate == rawRate && r.evalCount == evalCount && r.priorRate == priorRate
    ensures r.adjustedRate * (evalCount + ShrinkageStrength) == evalCount * rawRate + ShrinkageStrength * priorRate
    ensures (rawRate <= priorRate ==> rawRate <= r.adjustedRate <= priorRate)
    ensures (priorRate <= rawRate ==> priorRate <= r.adjustedRate <= rawRate)
    ensures evalCount == 0.0 ==> r.adjustedRate == priorRate
    ensures r.confidence == Coaching.High <==> evalCount >= MinEvalsForHigh
    ensures r.confidence == Coaching.Moderate <==> MinEvalsForModerate <= evalCount < MinEvalsForHigh
    ensures r.confidence == Coaching.Low <==> evalCount < MinEvalsForModerate
  {
    var adjusted := WeightedMean(rawRate, evalCount, priorRate, ShrinkageStrength);
    var confidence :=
      if evalCount >= MinEvalsForHigh then Coaching.High
      else if evalCount >= MinEvalsForModerate then Coaching.Moderate
      else Coaching.Low;
    BayesianQcRate(rawRate, adjusted, evalCount, confidence, priorRate)
  }

  /** The shrinkage confidence is the one the weakness assessment uses. */
  lemma ShrinkageConfidenceAgrees(rawRate: real, evalCount: real, priorRate: real)
    requires evalCount >= 0.0
    ensures BayesianShrinkage(rawRate, evalCount, priorRate).confidence == Coaching.ConfidenceOf(evalCount)
  {
  }

  /** The more evaluations, the closer the estimate stays to the agent's own rate. */
  lemma ShrinkageCloserWithMoreEvals(rawRate: real, n1: real, n2: real, priorRate: real)
    requires 0.0 <= n1 <= n2 && rawRate <= priorRate
    ensures BayesianShrinkage(rawRate, n2, priorRate).adjustedRate <= BayesianShrinkage(rawRate, n1, priorRate).adjustedRate
  {
    var k := ShrinkageStrength;
    var a1 := BayesianShrinkage(rawRate, n1, priorRate).adjustedRate;
    var a2 := BayesianShrinkage(rawRate, n2, priorRate).adjustedRate;
    // a_i - prior = n_i (raw - prior) / (n_i + k), which falls as n_i grows when raw <= prior
    assert (a1 - priorRate) * (n1 + k) == n1 * (rawRate - priorRate);
    assert (a2 - priorRate) * (n2 + k) == n2 * (rawRate - priorRate);
    ShrinkStep(rawRate - priorRate, n1, n2, k, a1 - priorRate, a2 - priorRate);
  }

  lemma ShrinkStep(d: real, n1: real, n2: real, k: real, e1: real, e2: real)
    requires d <= 0.0 && 0.0 <= n1 <= n2 && k > 0.0
    requires e1 * (n1 + k) == n1 * d && e2 * (n2 + k) == n2 * d
    ensures e2 <= e1
  {
    // e_i = d · n_i / (n_i + k) and n / (n + k) grows with n
    assert e1 * (n1 + k) * (n2 + k) == n1 * d * (n2 + k);
    assert e2 * (n2 + k) * (n1 + k) == n2 * d * (n1 + k);
    assert n1 * d * (n2 + k) - n2 * d * (n1 + k) == d * k * (n1 - n2);
    assert d * k * (n1 - n2) >= 0.0 by {
      assert d * (n1 - n2) >= 0.0;
    }
    assert (e2 - e1) * ((n1 + k) * (n2 + k)) <= 0.0;
    assert (n1 + k) * (n2 + k) > 0.0;
  }

  datatype AgentRate = AgentRate(agentId: string, rawRate: real, evalCount: real)

  predicate CountsNonNegative(agents: seq<AgentRate>) {
    forall i :: 0 <= i < |agents| ==> agents[i].evalCount >= 0.0
  }

  /** bayesianShrinkageBatch: every agent shrunk towards the one group average. */
  function BayesianShrinkageBatch(agents: seq<AgentRate>, groupAvgRate: real): (r: seq<(string, BayesianQcRate)>)
    requires CountsNonNegative(agents)
    ensures |r| == |agents|
    ensures forall i :: 0 <= i < |agents| ==>
      r[i].0 == agents[i].agentId && r[i].1 == BayesianShrinkage(agents[i].rawRate, agents[i].evalCount, groupAvgRate)
  {
    seq(|agents|, i requires 0 <= i < |agents| reads {} =>
      (agents[i].agentId, BayesianShrinkage(agents[i].rawRate, agents[i].evalCount, groupAvgRate)))
  }

  /** isStabilizationDelayed: the current rate lies strictly above mean + σ·sd. */
  predicate IsStabilizationDelayed(currentRate: real, cohortAvg: real, cohortStdDev: real, thresholdSigma: real) {
    currentRate > cohortAvg + thresholdSigma * cohortStdDev
  }

  /** A higher threshold can only withdraw a delay flag, never raise one. */
  lemma StabilizationDelayMonotone(rate: real, avg: real, sd: real, s1: real, s2: real)
    requires sd >= 0.0 && s1 <= s2 && IsStabilizationDelayed(rate, avg, sd, s2)
    ensures IsStabilizationDelayed(rate, avg, sd, s1)
  {
    assert s1 * sd <= s2 * sd;
  }

  /** detectTrend: fewer than TREND_CONFIG.minWeeks points give null; otherwise the regression runs. */
  function DetectTrend<P, R>(points: seq<P>, regression: seq<P> -> R): (r: Option<R>)
    ensures r.None? <==> |points| < TrendMinWeeks
    ensures r.Some? ==> r.value == regression(points)
  {
    if |points| < TrendMinWeeks then None else Some(regression(points))
  }

  datatype Significance = Significance(isSignificant: bool, zScore: real, pValue: real)

  /**
   * testWeaknessSignificance up to the z-test: a pooled rate outside (0, 1) or
   * an agent with no evaluations gives "not significant" with z = 0 and p = 1;
   * otherwise the pooled rate goes to the z-test. Zero total counts make the
   * pooled rate NaN in the source, which fails both comparisons; only the zero
   * agent count then stops it, so the guard tests that first here.
   */
  function TestWeaknessSignificance(agentRate: real, agentCount: real, groupRate: real, groupCount: real,
                                    zTest: real -> Significance): (r: Significance)
    requires agentCount >= 0.0 && groupCount >= 0.0
    ensures agentCount == 0.0 ==> r == Significance(false, 0.0, 1.0)
    ensures agentCount > 0.0 ==>
      var pooled := WeightedMean(agentRate, agentCount, groupRate, groupCount);
      (pooled <= 0.0 || pooled >= 1.0 ==> r == Significance(false, 0.0, 1.0))
      && (0.0 < pooled < 1.0 ==> r == zTest(pooled))
  {
    if agentCount == 0.0 then Significance(false, 0.0, 1.0)
    else
      var pooled := WeightedMean(agentRate, agentCount, groupRate, groupCount);
      if pooled <= 0.0 || pooled >= 1.0 then Significance(false, 0.0, 1.0) else zTest(pooled)
  }

  /** With no errors for the agent or the group, the weakness is never significant. */
  lemma NoErrorsNotSignificant(agentCount: real, groupCount: real, zTest: real -> Significance)
    requires agentCount >= 0.0 && groupCount >= 0.0
    ensures TestWeaknessSignificance(0.0, agentCount, 0.0, groupCount, zTest) == Significance(false, 0.0, 1.0)
  {
  }
}
