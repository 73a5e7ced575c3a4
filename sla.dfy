/**
 * SLA scoring (lib/sla-config.ts): the grade table, tier matching for a
 * metric, the two centre configurations, and the score calculation that
 * accumulates productivity, quality and personnel scores plus deductions.
 */
module Sla {
  import opened Wrappers

  // ================================================================ grades

  datatype SlaGrade = S | A | B | C | D | E {
    /** 0 for the best grade, 5 for the worst. */
    function Rank(): nat {
      match this
      case S => 0
      case A => 1
      case B => 2
      case C => 3
      case D => 4
      case E => 5
    }
  }

  datatype GradeRow = GradeRow(grade: SlaGrade, minScore: real, rate: real)

  /** GRADE_TABLE, best grade first. */
  const GradeTable: seq<GradeRow> := [
    GradeRow(S, 94.0, 1.03), GradeRow(A, 92.0, 1.01), GradeRow(B, 90.0, 1.00),
    GradeRow(C, 85.0, 0.99), GradeRow(D, 80.0, 0.98), GradeRow(E, 0.0, 0.97)
  ]

  function FindGradeRow(rows: seq<GradeRow>, total: real, from: nat): (r: Option<nat>)
    requires from <= |rows|
    ensures r.Some? ==> from <= r.value < |rows| && total >= rows[r.value].minScore
    ensures r.Some? ==> forall j :: from <= j < r.value ==> total < rows[j].minScore
    ensures r.None? ==> forall j :: from <= j < |rows| ==> total < rows[j].minScore
    decreases |rows| - from
  {
    if from == |rows| then None
    else if total >= rows[from].minScore then Some(from)
    else FindGradeRow(rows, total, from + 1)
  }

  /** getGrade: the first row whose minimum the total reaches, else E at 0.97. */
  function GetGrade(totalScore: real): (GradeRow) {
    match FindGradeRow(GradeTable, totalScore, 0)
    case Some(i) => GradeTable[i]
    case None => GradeRow(E, 0.0, 0.97)
  }

  /** The grade bands: S from 94, A from 92, B from 90, C from 85, D from 80, and E (rate 0.97) below. */
  lemma GetGradeBands(t: real)
    ensures GetGrade(t).grade == S <==> t >= 94.0
    ensures GetGrade(t).grade == A <==> 92.0 <= t < 94.0
    ensures GetGrade(t).grade == B <==> 90.0 <= t < 92.0
    ensures GetGrade(t).grade == C <==> 85.0 <= t < 90.0
    ensures GetGrade(t).grade == D <==> 80.0 <= t < 85.0
    ensures GetGrade(t).grade == E <==> t < 80.0
    ensures t < 80.0 ==> GetGrade(t).rate == 0.97
  {
  }

  /** A higher total never gets a worse grade or a lower rate. */
  lemma GetGradeMonotone(t1: real, t2: real)
    requires t1 <= t2
    ensures GetGrade(t2).grade.Rank() <= GetGrade(t1).grade.Rank()
    ensures GetGrade(t1).rate <= GetGrade(t2).rate
  {
    GetGradeBands(t1);
    GetGradeBands(t2);
  }

  // ================================================================ tiers

  datatype Direction = HigherBetter | LowerBetter

  datatype Tier = Tier(minValue: Option<real>, maxValue: Option<real>, score: real)

  datatype SlaMetric = SlaMetric(id: string, name: string, maxScore: real, tiers: seq<Tier>, unit: string, direction: Direction)

  /** Whether a tier accepts the value: at least its minimum when higher is better, at most its maximum otherwise. */
  predicate Matches(t: Tier, dir: Direction, actual: real) {
    if dir == HigherBetter then t.minValue.Some? && actual >= t.minValue.value
    else t.maxValue.Some? && actual <= t.maxValue.value
  }

  function FirstMatch(tiers: seq<Tier>, dir: Direction, actual: real, from: nat): (r: Option<nat>)
    requires from <= |tiers|
    ensures r.Some? ==> from <= r.value < |tiers| && Matches(tiers[r.value], dir, actual)
    ensures r.Some? ==> forall j :: from <= j < r.value ==> !Matches(tiers[j], dir, actual)
    ensures r.None? ==> forall j :: from <= j < |tiers| ==> !Matches(tiers[j], dir, actual)
    decreases |tiers| - from
  {
    if from == |tiers| then None
    else if Matches(tiers[from], dir, actual) then Some(from)
    else FirstMatch(tiers, dir, actual, from + 1)
  }

  /** matchTier: the score of the first accepting tier, else the last tier's score, else 0. */
  function MatchTier(m: SlaMetric, actual: real): real {
    match FirstMatch(m.tiers, m.direction, actual, 0)
    case Some(i) => m.tiers[i].score
    case None => if |m.tiers| > 0 then m.tiers[|m.tiers| - 1].score else 0.0
  }

  /** One step down the tier list: the score does not rise, and the threshold moves the way the direction says. */
  predicate Step(t: Tier, next: Tier, dir: Direction) {
    next.score <= t.score
    && (dir == HigherBetter ==>
          t.minValue.Some? && next.minValue.Some? && next.minValue.value <= t.minValue.value)
    && (dir == LowerBetter ==>
          t.maxValue.Some? && next.maxValue.Some? && t.maxValue.value <= next.maxValue.value)
  }

  /** Tiers listed best first. */
  predicate Ordered(m: SlaMetric) {
    forall i :: 0 <= i < |m.tiers| - 1 ==> Step(m.tiers[i], m.tiers[i + 1], m.direction)
  }

  predicate HasThreshold(t: Tier, dir: Direction) {
    if dir == HigherBetter then t.minValue.Some? else t.maxValue.Some?
  }

  lemma {:induction false} OrderedPairwise(m: SlaMetric, i: nat, j: nat)
    requires Ordered(m) && |m.tiers| >= 2 && i <= j < |m.tiers|
    ensures m.tiers[j].score <= m.tiers[i].score
    ensures HasThreshold(m.tiers[i], m.direction) && HasThreshold(m.tiers[j], m.direction)
    ensures m.direction == HigherBetter ==> m.tiers[j].minValue.value <= m.tiers[i].minValue.value
    ensures m.direction == LowerBetter ==> m.tiers[i].maxValue.value <= m.tiers[j].maxValue.value
    decreases j - i
  {
    if i < j {
      OrderedPairwise(m, i + 1, j);
      assert Step(m.tiers[i], m.tiers[i + 1], m.direction);
    } else if i + 1 < |m.tiers| {
      assert Step(m.tiers[i], m.tiers[i + 1], m.direction);
    } else {
      assert Step(m.tiers[i - 1], m.tiers[i - 1 + 1], m.direction);
    }
  }

  /**
   * With tiers listed best first, a better actual value never scores less:
   * a higher value when higher is better, a lower one otherwise.
   */
  lemma MatchTierMonotone(m: SlaMetric, worse: real, better: real)
    requires Ordered(m) && |m.tiers| >= 2
    requires if m.direction == HigherBetter then worse <= better else better <= worse
    ensures MatchTier(m, worse) <= MatchTier(m, better)
  {
    var n := |m.tiers|;
    var iw := FirstMatch(m.tiers, m.direction, worse, 0);
    var ib := FirstMatch(m.tiers, m.direction, better, 0);
    match iw {
      case Some(w) =>
        OrderedPairwise(m, w, w);
        assert Matches(m.tiers[w], m.direction, better);
        assert ib.Some? && ib.value <= w;
        OrderedPairwise(m, ib.value, w);
      case None =>
        match ib {
          case Some(b) => OrderedPairwise(m, b, n - 1);
          case None =>
        }
    }
  }

  /** A score drawn from tiers whose scores lie in [0, maxScore] lies there too. */
  predicate ScoresWithin(m: SlaMetric) {
    forall i :: 0 <= i < |m.tiers| ==> 0.0 <= m.tiers[i].score <= m.maxScore
  }

  lemma MatchTierWithin(m: SlaMetric, actual: real)
    requires ScoresWithin(m) && m.maxScore >= 0.0
    ensures 0.0 <= MatchTier(m, actual) <= m.maxScore
  {
  }

  // ================================================================ configurations

  function HigherTier(minValue: real, score: real): Tier { Tier(Some(minValue), None, score) }
  function LowerTier(maxValue: real, score: real): Tier { Tier(None, Some(maxValue), score) }

  const VoiceResponseRate := SlaMetric("voice_response_rate", "응대율(유선)", 15.0,
    [HigherTier(85.0, 15.0), HigherTier(83.0, 13.0), HigherTier(81.0, 11.0), HigherTier(79.0, 9.0),
     HigherTier(77.0, 7.0), HigherTier(75.0, 5.0), HigherTier(73.0, 3.0), HigherTier(0.0, 1.0)], "%", HigherBetter)
  const ChatResponseRate := SlaMetric("chat_response_rate", "응대율(채팅)", 5.0,
    [HigherTier(90.0, 5.0), HigherTier(88.0, 4.0), HigherTier(86.0, 3.0), HigherTier(84.0, 2.0),
     HigherTier(0.0, 1.0)], "%", HigherBetter)
  const TaxiVoiceHandling := SlaMetric("taxi_voice_handling", "택시(유선) 처리시간", 10.0,
    [LowerTier(193.0, 10.0), LowerTier(203.0, 9.0), LowerTier(213.0, 8.0), LowerTier(224.0, 7.0),
     LowerTier(234.0, 6.0), LowerTier(244.0, 5.0), LowerTier(254.0, 4.0), LowerTier(99999.0, 1.0)], "초", LowerBetter)
  const DriverVoiceHandling := SlaMetric("driver_voice_handling", "대리(유선) 처리시간", 10.0,
    [LowerTier(185.0, 10.0), LowerTier(195.0, 9.0), LowerTier(205.0, 8.0), LowerTier(215.0, 7.0),
     LowerTier(225.0, 6.0), LowerTier(235.0, 5.0), LowerTier(245.0, 4.0), LowerTier(99999.0, 1.0)], "초", LowerBetter)
  const TaxiChatHandling := SlaMetric("taxi_chat_handling", "택시(채팅) 처리시간", 10.0,
    [LowerTier(525.0, 10.0), LowerTier(535.0, 9.0), LowerTier(545.0, 8.0), LowerTier(555.0, 7.0),
     LowerTier(565.0, 6.0), LowerTier(575.0, 5.0), LowerTier(585.0, 4.0), LowerTier(99999.0, 1.0)], "초", LowerBetter)
  const DriverChatHandling := SlaMetric("driver_chat_handling", "대리(채팅) 처리시간", 10.0,
    [LowerTier(476.0, 10.0), LowerTier(486.0, 9.0), LowerTier(496.0, 8.0), LowerTier(506.0, 7.0),
     LowerTier(516.0, 6.0), LowerTier(526.0, 5.0), LowerTier(536.0, 4.0), LowerTier(99999.0, 1.0)], "초", LowerBetter)
  const QaScore := SlaMetric("qa_score", "QA 평가", 15.0,
    [HigherTier(87.0, 15.0), HigherTier(85.0, 13.0), HigherTier(83.0, 11.0), HigherTier(81.0, 9.0),
     HigherTier(79.0, 7.0), HigherTier(77.0, 5.0), HigherTier(75.0, 3.0), HigherTier(0.0, 1.0)], "점", HigherBetter)
  const CsatScore := SlaMetric("csat_score", "상담평점", 15.0,
    [HigherTier(4.8, 15.0), HigherTier(4.7, 13.0), HigherTier(4.6, 11.0), HigherTier(4.5, 9.0),
     HigherTier(4.4, 7.0), HigherTier(4.3, 5.0), HigherTier(4.2, 3.0), HigherTier(0.0, 1.0)], "점", HigherBetter)
  const QuizScore := SlaMetric("quiz_score", "직무테스트", 10.0,
    [HigherTier(90.0, 10.0), HigherTier(88.0, 8.0), HigherTier(86.0, 6.0), HigherTier(84.0, 4.0),
     HigherTier(0.0, 2.0)], "점", HigherBetter)
  const TurnoverRate := SlaMetric("turnover_rate", "상담사 퇴사율", 7.0,
    [LowerTier(5.0, 7.0), LowerTier(6.0, 6.0), LowerTier(7.0, 5.0), LowerTier(8.0, 4.0),
     LowerTier(9.0, 3.0), LowerTier(10.0, 2.0), LowerTier(99999.0, 1.0)], "%", LowerBetter)

  datatype SlaDeduction = SlaDeduction(id: string, name: string, score: real)

  datatype SlaConfig = SlaConfig(
    center: string, year: int, productivity: seq<SlaMetric>, quality: seq<SlaMetric>,
    personnel: seq<SlaMetric>, deductions: seq<SlaDeduction>)

  const ProductivityMetrics: seq<SlaMetric> :=
    [VoiceResponseRate, ChatResponseRate, TaxiVoiceHandling, DriverVoiceHandling, TaxiChatHandling, DriverChatHandling]
  const QualityMetrics: seq<SlaMetric> := [QaScore, CsatScore, QuizScore]
  const PersonnelMetrics: seq<SlaMetric> := [TurnoverRate]

  /** YONGSAN_CONFIG and GWANGJU_CONFIG list the same metrics and tiers; only the centre differs. */
  const YongsanConfig := SlaConfig("용산", 2026, ProductivityMetrics, QualityMetrics, PersonnelMetrics, [])
  const GwangjuConfig := SlaConfig("광주", 2026, ProductivityMetrics, QualityMetrics, PersonnelMetrics, [])

  /** Each configured metric lists its tiers best first, and its first tier scores exactly its maxScore. */
  predicate WellFormedMetric(m: SlaMetric) {
    |m.tiers| >= 2 && m.tiers[0].score == m.maxScore && Ordered(m) && m.tiers[|m.tiers| - 1].score >= 0.0
  }

  lemma WellFormedIsWithin(m: SlaMetric)
    requires WellFormedMetric(m)
    ensures ScoresWithin(m) && m.maxScore >= 0.0
  {
    forall i | 0 <= i < |m.tiers| ensures 0.0 <= m.tiers[i].score <= m.maxScore {
      OrderedPairwise(m, 0, i);
      OrderedPairwise(m, i, |m.tiers| - 1);
    }
  }

  lemma VoiceResponseRateWellFormed() ensures WellFormedMetric(VoiceResponseRate) {
    var t := VoiceResponseRate.tiers;
    assert forall i :: 0 <= i < |t| - 1 ==> Step(t[i], t[i + 1], VoiceResponseRate.direction);
  }

  lemma ChatResponseRateWellFormed() ensures WellFormedMetric(ChatResponseRate) {
    var t := ChatResponseRate.tiers;
    assert forall i :: 0 <= i < |t| - 1 ==> Step(t[i], t[i + 1], ChatResponseRate.direction);
  }

  lemma TaxiVoiceHandlingWellFormed() ensures WellFormedMetric(TaxiVoiceHandling) {
    var t := TaxiVoiceHandling.tiers;
    assert forall i :: 0 <= i < |t| - 1 ==> Step(t[i], t[i + 1], TaxiVoiceHandling.direction);
  }

  lemma DriverVoiceHandlingWellFormed() ensures WellFormedMetric(DriverVoiceHandling) {
    var t := DriverVoiceHandling.tiers;
    assert forall i :: 0 <= i < |t| - 1 ==> Step(t[i], t[i + 1], DriverVoiceHandling.direction);
  }

  lemma TaxiChatHandlingWellFormed() ensures WellFormedMetric(TaxiChatHandling) {
    var t := TaxiChatHandling.tiers;
    assert forall i :: 0 <= i < |t| - 1 ==> Step(t[i], t[i + 1], TaxiChatHandling.direction);
  }

  lemma DriverChatHandlingWellFormed() ensures WellFormedMetric(DriverChatHandling) {
    var t := DriverChatHandling.tiers;
    assert forall i :: 0 <= i < |t| - 1 ==> Step(t[i], t[i + 1], DriverChatHandling.direction);
  }

  lemma QaScoreWellFormed() ensures WellFormedMetric(QaScore) {
    var t := QaScore.tiers;
    assert forall i :: 0 <= i < |t| - 1 ==> Step(t[i], t[i + 1], QaScore.direction);
  }

  lemma CsatScoreWellFormed() ensures WellFormedMetric(CsatScore) {
    var t := CsatScore.tiers;
    assert forall i :: 0 <= i < |t| - 1 ==> Step(t[i], t[i + 1], CsatScore.direction);
  }

  lemma QuizScoreWellFormed() ensures WellFormedMetric(QuizScore) {
    var t := QuizScore.tiers;
    assert forall i :: 0 <= i < |t| - 1 ==> Step(t[i], t[i + 1], QuizScore.direction);
  }

  lemma TurnoverRateWellFormed() ensures WellFormedMetric(TurnoverRate) {
    var t := TurnoverRate.tiers;
    assert forall i :: 0 <= i < |t| - 1 ==> Step(t[i], t[i + 1], TurnoverRate.direction);
  }

  lemma ConfiguredMetricsWellFormed()
    ensures forall k :: 0 <= k < |ProductivityMetrics| ==> WellFormedMetric(ProductivityMetrics[k])
    ensures forall k :: 0 <= k < |QualityMetrics| ==> WellFormedMetric(QualityMetrics[k])
    ensures forall k :: 0 <= k < |PersonnelMetrics| ==> WellFormedMetric(PersonnelMetrics[k])
  {
    VoiceResponseRateWellFormed();
    ChatResponseRateWellFormed();
    TaxiVoiceHandlingWellFormed();
    DriverVoiceHandlingWellFormed();
    TaxiChatHandlingWellFormed();
    DriverChatHandlingWellFormed();
    QaScoreWellFormed();
    CsatScoreWellFormed();
    QuizScoreWellFormed();
    TurnoverRateWellFormed();
  }

  function SumMaxScores(ms: seq<SlaMetric>): real
    decreases |ms|
  {
    if ms == [] then 0.0 else SumMaxScores(ms[..|ms| - 1]) + ms[|ms| - 1].maxScore
  }

  /** Productivity carries 60 points and quality 40. */
  lemma ConfiguredMaxScores()
    ensures SumMaxScores(ProductivityMetrics) == 60.0
    ensures SumMaxScores(QualityMetrics) == 40.0
  {
    var p := ProductivityMetrics;
    var p1, p2, p3, p4, p5 := p[..1], p[..2], p[..3], p[..4], p[..5];
    assert p1[..0] == [] && p2[..1] == p1 && p3[..2] == p2 && p4[..3] == p3 && p5[..4] == p4 && p[..5] == p5;
    assert SumMaxScores(p1) == 15.0;
    assert SumMaxScores(p2) == 20.0;
    assert SumMaxScores(p3) == 30.0;
    assert SumMaxScores(p4) == 40.0;
    assert SumMaxScores(p5) == 50.0;
    var q := QualityMetrics;
    var q1, q2 := q[..1], q[..2];
    assert q1[..0] == [] && q2[..1] == q1 && q[..2] == q2;
    assert SumMaxScores(q1) == 15.0;
    assert SumMaxScores(q2) == 30.0;
  }

  // ================================================================ calculation

  datatype SlaCategory = Productivity | Quality | Personnel

  datatype SlaScoreDetail = SlaScoreDetail(
    metricId: string, name: string, category: SlaCategory, maxScore: real,
    actualValue: real, score: real, unit: string, achievementRate: real, direction: Direction)

  datatype SlaResult = SlaResult(
    center: string, productivityScore: real, qualityScore: real, personnelScore: real,
    deductionScore: real, totalScore: real, grade: SlaGrade, rate: real,
    details: seq<SlaScoreDetail>, deductions: seq<SlaDeduction>)

  /** `actualValues[id] ?? 0`. */
  function ActualOr0(actualValues: map<string, real>, id: string): real {
    if id in actualValues then actualValues[id] else 0.0
  }

  /** The score a loop over all the metrics accumulates, absent values counting as 0. */
  function ScoreSum(ms: seq<SlaMetric>, actualValues: map<string, real>): real
    decreases |ms|
  {
    if ms == [] then 0.0
    else ScoreSum(ms[..|ms| - 1], actualValues) + MatchTier(ms[|ms| - 1], ActualOr0(actualValues, ms[|ms| - 1].id))
  }

  /** The score the personnel loop accumulates: only metrics whose key is present. */
  function PresentScoreSum(ms: seq<SlaMetric>, actualValues: map<string, real>): real
    decreases |ms|
  {
    if ms == [] then 0.0
    else
      var m := ms[|ms| - 1];
      PresentScoreSum(ms[..|ms| - 1], actualValues) + (if m.id in actualValues then MatchTier(m, actualValues[m.id]) else 0.0)
  }

  /** achievementRate: the score as a whole percentage of maxScore (Math.round), 0 when maxScore is not positive. */
  function AchievementRate(score: real, maxScore: real): real {
    if maxScore > 0.0 then (score / maxScore * 100.0 + 0.5).Floor as real else 0.0
  }

  /** A score within [0, maxScore] has a rate within [0, 100], and a full positive score has 100. */
  lemma AchievementRateBounds(score: real, maxScore: real)
    requires 0.0 <= score <= maxScore
    ensures 0.0 <= AchievementRate(score, maxScore) <= 100.0
    ensures 0.0 < maxScore == score ==> AchievementRate(score, maxScore) == 100.0
  {
    if maxScore > 0.0 {
      var q := score / maxScore;
      var x := q * 100.0;
      assert q * maxScore == score;
      FactorSign(q, maxScore);
      FactorSign(1.0 - q, maxScore);
      assert 0.0 <= x <= 100.0;
      assert (x + 0.5).Floor <= 100;
      if score == maxScore {
        assert (q - 1.0) * maxScore == 0.0;
        FactorSign(q - 1.0, maxScore);
        assert q == 1.0;
        assert (x + 0.5).Floor == 100;
      }
    }
  }

  /** A product with a positive factor has the sign of the other factor. */
  lemma FactorSign(a: real, m: real)
    requires m > 0.0
    ensures a * m >= 0.0 ==> a >= 0.0
  {
  }

  function Detail(m: SlaMetric, cat: SlaCategory, actual: real): SlaScoreDetail {
    var score := MatchTier(m, actual);
    SlaScoreDetail(m.id, m.name, cat, m.maxScore, actual, score, m.unit, AchievementRate(score, m.maxScore), m.direction)
  }

  /** Every detail row of a well-formed metric carries a rate within [0, 100]. */
  lemma DetailRateWithin(m: SlaMetric, cat: SlaCategory, actual: real)
    requires WellFormedMetric(m)
    ensures 0.0 <= Detail(m, cat, actual).achievementRate <= 100.0
  {
    WellFormedIsWithin(m);
    MatchTierWithin(m, actual);
    AchievementRateBounds(MatchTier(m, actual), m.maxScore);
  }

  function Details(ms: seq<SlaMetric>, cat: SlaCategory, actualValues: map<string, real>): (r: seq<SlaScoreDetail>)
    ensures |r| == |ms|
    decreases |ms|
  {
    if ms == [] then []
    else Details(ms[..|ms| - 1], cat, actualValues) + [Detail(ms[|ms| - 1], cat, ActualOr0(actualValues, ms[|ms| - 1].id))]
  }

  function PresentDetails(ms: seq<SlaMetric>, actualValues: map<string, real>): (r: seq<SlaScoreDetail>)
    ensures |r| <= |ms|
    decreases |ms|
  {
    if ms == [] then []
    else
      var m := ms[|ms| - 1];
      PresentDetails(ms[..|ms| - 1], actualValues)
      + (if m.id in actualValues then [Detail(m, Personnel, actualValues[m.id])] else [])
  }

  function DeductionSum(ds: seq<SlaDeduction>): real
    decreases |ds|
  {
    if ds == [] then 0.0 else DeductionSum(ds[..|ds| - 1]) + ds[|ds| - 1].score
  }

  /** One scoring loop: the subtotal and the detail rows for a list of always-scored metrics. */
  method ScoreMetrics(ms: seq<SlaMetric>, cat: SlaCategory, actualValues: map<string, real>)
    returns (total: real, details: seq<SlaScoreDetail>)
    ensures total == ScoreSum(ms, actualValues)
    ensures details == Details(ms, cat, actualValues)
  {
    total := 0.0;
    details := [];
    var i := 0;
    while i < |ms|
      invariant 0 <= i <= |ms|
      invariant total == ScoreSum(ms[..i], actualValues)
      invariant details == Details(ms[..i], cat, actualValues)
    {
      var m := ms[i];
      var actual := ActualOr0(actualValues, m.id);
      var score := MatchTier(m, actual);
      assert ms[..i + 1][..i] == ms[..i];
      total := total + score;
      details := details + [SlaScoreDetail(m.id, m.name, cat, m.maxScore, actual, score, m.unit,
                                              AchievementRate(score, m.maxScore), m.direction)];
      i := i + 1;
    }
    assert ms[..i] == ms;
  }

  /** The personnel loop: a metric whose key is absent is skipped. */
  method ScorePresentMetrics(ms: seq<SlaMetric>, actualValues: map<string, real>)
    returns (total: real, details: seq<SlaScoreDetail>)
    ensures total == PresentScoreSum(ms, actualValues)
    ensures details == PresentDetails(ms, actualValues)
  {
    total := 0.0;
    details := [];
    var i := 0;
    while i < |ms|
      invariant 0 <= i <= |ms|
      invariant total == PresentScoreSum(ms[..i], actualValues)
      invariant details == PresentDetails(ms[..i], actualValues)
    {
      var m := ms[i];
      assert ms[..i + 1][..i] == ms[..i];
      if m.id in actualValues {
        var actual := actualValues[m.id];
        var score := MatchTier(m, actual);
        total := total + score;
        details := details + [SlaScoreDetail(m.id, m.name, Personnel, m.maxScore, actual, score, m.unit,
                                                  AchievementRate(score, m.maxScore), m.direction)];
      }
      i := i + 1;
    }
    assert ms[..i] == ms;
  }

  /**
   * calculateSLA: the three subtotals, the deduction sum, their total, the
   * grade and rate of that total, and the details in configuration order.
   */
  method CalculateSla(config: SlaConfig, actualValues: map<string, real>, deductions: seq<SlaDeduction>)
    returns (r: SlaResult)
    ensures r.productivityScore == ScoreSum(config.productivity, actualValues)
    ensures r.qualityScore == ScoreSum(config.quality, actualValues)
    ensures r.personnelScore == PresentScoreSum(config.personnel, actualValues)
    ensures r.deductionScore == DeductionSum(deductions)
    ensures r.totalScore == r.productivityScore + r.qualityScore + r.personnelScore + r.deductionScore
    ensures r.grade == GetGrade(r.totalScore).grade && r.rate == GetGrade(r.totalScore).rate
    ensures r.details == Details(config.productivity, Productivity, actualValues)
                       + Details(config.quality, Quality, actualValues)
                       + PresentDetails(config.personnel, actualValues)
    ensures r.center == config.center && r.deductions == deductions
  {
    var productivityScore, d1 := ScoreMetrics(config.productivity, Productivity, actualValues);
    var qualityScore, d2 := ScoreMetrics(config.quality, Quality, actualValues);
    var personnelScore, d3 := ScorePresentMetrics(config.personnel, actualValues);
    var deductionScore := 0.0;
    var k := 0;
    while k < |deductions|
      invariant 0 <= k <= |deductions|
      invariant deductionScore == DeductionSum(deductions[..k])
    {
      assert deductions[..k + 1][..k] == deductions[..k];
      deductionScore := deductionScore + deductions[k].score;
      k := k + 1;
    }
    assert deductions[..k] == deductions;
    var totalScore := productivityScore + qualityScore + personnelScore + deductionScore;
    var g := GetGrade(totalScore);
    r := SlaResult(config.center, productivityScore, qualityScore, personnelScore, deductionScore, totalScore,
                   g.grade, g.rate, d1 + d2 + d3, deductions);
  }

  lemma {:induction false} ScoreSumBounds(ms: seq<SlaMetric>, actualValues: map<string, real>)
    requires forall k :: 0 <= k < |ms| ==> WellFormedMetric(ms[k])
    ensures 0.0 <= ScoreSum(ms, actualValues) <= SumMaxScores(ms)
    decreases |ms|
  {
    if ms != [] {
      var m := ms[|ms| - 1];
      ScoreSumBounds(ms[..|ms| - 1], actualValues);
      WellFormedIsWithin(m);
      MatchTierWithin(m, ActualOr0(actualValues, m.id));
    }
  }

  lemma {:induction false} PresentScoreSumBounds(ms: seq<SlaMetric>, actualValues: map<string, real>)
    requires forall k :: 0 <= k < |ms| ==> WellFormedMetric(ms[k])
    ensures 0.0 <= PresentScoreSum(ms, actualValues) <= SumMaxScores(ms)
    decreases |ms|
  {
    if ms != [] {
      var m := ms[|ms| - 1];
      PresentScoreSumBounds(ms[..|ms| - 1], actualValues);
      WellFormedIsWithin(m);
      if m.id in actualValues {
        MatchTierWithin(m, actualValues[m.id]);
      }
    }
  }

  /**
   * Under either centre's configuration productivity scores in [0, 60],
   * quality in [0, 40] and personnel in [0, 7], whatever the actual values.
   */
  lemma ConfiguredScoreBounds(config: SlaConfig, actualValues: map<string, real>)
    requires config == YongsanConfig || config == GwangjuConfig
    ensures 0.0 <= ScoreSum(config.productivity, actualValues) <= 60.0
    ensures 0.0 <= ScoreSum(config.quality, actualValues) <= 40.0
    ensures 0.0 <= PresentScoreSum(config.personnel, actualValues) <= 7.0
  {
    ConfiguredMetricsWellFormed();
    ConfiguredMaxScores();
    ScoreSumBounds(ProductivityMetrics, actualValues);
    ScoreSumBounds(QualityMetrics, actualValues);
    PresentScoreSumBounds(PersonnelMetrics, actualValues);
    assert PersonnelMetrics[..0] == [];
  }
}
