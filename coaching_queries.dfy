/**
 * The pure logic applied to query results in lib/bigquery-coaching.ts: weekly
 * flags and the trailing run of flagged weeks, heatmap weak/critical counts,
 * the error-type drilldown, coaching effectiveness counts, and the tenure and
 * frequency mapping of the coaching plans. The SQL itself is not modelled.
 */
module CoachingQueries {
  import opened Wrappers
  import opened Constants
  import Coaching

  // ================================================================ weekly flags

  datatype WeekRow = WeekRow(qcEvalCount: real, qcAttitudeRate: real, qcOpsRate: real, csatLowCount: real, flaggedCriteria: seq<CriterionId>)

  /** Position of a criterion in the weekly push order. */
  function PushOrder(c: CriterionId): nat {
    match c
    case QcAttitude => 0
    case QcOps => 1
    case CsatLowScore => 2
    case QaKnowledge => 3
  }

  /** The flags pushed for one week, in the order attitude, ops, CSAT. */
  function WeekFlags(evalCount: real, attRate: real, opsRate: real, csatLow: real): (flagged: seq<CriterionId>)
    ensures QcAttitude in flagged <==> evalCount >= 10.0 && attRate >= 15.0
    ensures QcOps in flagged <==> evalCount >= 10.0 && opsRate >= 10.0
    ensures CsatLowScore in flagged <==> csatLow >= 3.0
    ensures QaKnowledge !in flagged
    ensures forall i, j :: 0 <= i < j < |flagged| ==> PushOrder(flagged[i]) < PushOrder(flagged[j])
  {
    (if evalCount >= 10.0 && attRate >= 15.0 then [QcAttitude] else [])
    + (if evalCount >= 10.0 && opsRate >= 10.0 then [QcOps] else [])
    + (if csatLow >= 3.0 then [CsatLowScore] else [])
  }

  /**
   * The weekly flags agree with the underperformer criteria: a QC flag is set
   * exactly when the weekly criterion is flagged, and a weekly CSAT flag is
   * enough to flag the CSAT criterion.
   */
  lemma WeekFlagsAgreeWithCriteria(evalCount: real, attRate: real, opsRate: real, csatLow: real, m: Coaching.MonthlyData, t: real)
    ensures var w := Coaching.WeeklyData(attRate, opsRate, evalCount, csatLow);
      var flags := WeekFlags(evalCount, attRate, opsRate, csatLow);
      (QcAttitude in flags <==> Coaching.EvaluateAll(w, m, t)[1].flagged)
      && (QcOps in flags <==> Coaching.EvaluateAll(w, m, t)[2].flagged)
      && (CsatLowScore in flags ==> Coaching.EvaluateAll(w, m, t)[3].flagged)
  {
    var w := Coaching.WeeklyData(attRate, opsRate, evalCount, csatLow);
    Coaching.QcCriteriaRule(w, m, t);
    Coaching.CsatCriterionRule(w, m, t);
  }

  /**
   * countConsecutiveFlaggedWeeks: walk back from the latest week while weeks are
   * flagged. The count is the length of the longest flagged suffix.
   */
  method CountConsecutiveFlaggedWeeks(weeklyFlags: seq<WeekRow>) returns (count: nat)
    ensures count <= |weeklyFlags|
    ensures forall k :: |weeklyFlags| - count <= k < |weeklyFlags| ==> |weeklyFlags[k].flaggedCriteria| > 0
    ensures count < |weeklyFlags| ==> |weeklyFlags[|weeklyFlags| - 1 - count].flaggedCriteria| == 0
  {
    count := 0;
    var i := |weeklyFlags| - 1;
    while i >= 0
      invariant -1 <= i < |weeklyFlags| && count == |weeklyFlags| - 1 - i
      invariant forall k :: i < k < |weeklyFlags| ==> |weeklyFlags[k].flaggedCriteria| > 0
    {
      if |weeklyFlags[i].flaggedCriteria| > 0 {
        count := count + 1;
      } else {
        break;
      }
      i := i - 1;
    }
  }

  /** The longest flagged suffix, as a function. */
  function TrailingFlagged(weeks: seq<WeekRow>): (n: nat)
    ensures n <= |weeks|
    decreases |weeks|
  {
    if weeks == [] || |weeks[|weeks| - 1].flaggedCriteria| == 0 then 0
    else TrailingFlagged(weeks[..|weeks| - 1]) + 1
  }

  /** Any count with the two properties the method promises is the function's value: the longest run is unique. */
  lemma {:induction false} TrailingFlaggedUnique(weeks: seq<WeekRow>, count: nat)
    requires count <= |weeks|
    requires forall k :: |weeks| - count <= k < |weeks| ==> |weeks[k].flaggedCriteria| > 0
    requires count < |weeks| ==> |weeks[|weeks| - 1 - count].flaggedCriteria| == 0
    ensures count == TrailingFlagged(weeks)
    decreases |weeks|
  {
    if weeks != [] && count > 0 {
      var init := weeks[..|weeks| - 1];
      assert |weeks[|weeks| - 1].flaggedCriteria| > 0;
      forall k | |init| - (count - 1) <= k < |init| ensures |init[k].flaggedCriteria| > 0 {
        assert init[k] == weeks[k];
      }
      if count - 1 < |init| {
        assert init[|init| - 1 - (count - 1)] == weeks[|weeks| - 1 - count];
      }
      TrailingFlaggedUnique(init, count - 1);
    }
  }

  // ================================================================ heatmap

  datatype AgentCategoryRow = AgentCategoryRow(
    greeting: real, empathy: real, inquiry: real, knowledge: real, processing: real, records: real, totalEvals: real)

  /** `qcCatField`: the per-agent error column of a category; satisfaction and communication have none. */
  function QcField(a: AgentCategoryRow, cat: CategoryId): Option<real> {
    match cat
    case Greeting => Some(a.greeting)
    case Empathy => Some(a.empathy)
    case Inquiry => Some(a.inquiry)
    case Knowledge => Some(a.knowledge)
    case Processing => Some(a.processing)
    case Records => Some(a.records)
    case Satisfaction => None
    case Communication => None
  }

  function AgentErrorRate(a: AgentCategoryRow, errors: real): real {
    if a.totalEvals > 0.0 then (errors / a.totalEvals) * 100.0 else 0.0
  }

  /** Critical above 10 %, weak above 5 %, else neither. */
  predicate IsCritical(a: AgentCategoryRow, cat: CategoryId) {
    QcField(a, cat).Some? && AgentErrorRate(a, QcField(a, cat).value) > 10.0
  }

  predicate IsWeak(a: AgentCategoryRow, cat: CategoryId) {
    QcField(a, cat).Some? && 5.0 < AgentErrorRate(a, QcField(a, cat).value) <= 10.0
  }

  function CountCritical(agents: seq<AgentCategoryRow>, cat: CategoryId): (n: nat)
    ensures n <= |agents|
    decreases |agents|
  {
    if agents == [] then 0
    else CountCritical(agents[..|agents| - 1], cat) + (if IsCritical(agents[|agents| - 1], cat) then 1 else 0)
  }

  function CountWeak(agents: seq<AgentCategoryRow>, cat: CategoryId): (n: nat)
    ensures n <= |agents|
    decreases |agents|
  {
    if agents == [] then 0
    else CountWeak(agents[..|agents| - 1], cat) + (if IsWeak(agents[|agents| - 1], cat) then 1 else 0)
  }

  /** No agent is both weak and critical, so the two counts together never exceed the group size. */
  lemma {:induction false} WeakPlusCriticalBounded(agents: seq<AgentCategoryRow>, cat: CategoryId)
    ensures CountWeak(agents, cat) + CountCritical(agents, cat) <= |agents|
    decreases |agents|
  {
    if agents != [] {
      WeakPlusCriticalBounded(agents[..|agents| - 1], cat);
    }
  }

  datatype HeatCell = HeatCell(categoryId: CategoryId, weakAgentCount: nat, criticalAgentCount: nat, totalAgents: nat)

  /** The per-category counting loop of the heatmap. */
  method CountCategory(agents: seq<AgentCategoryRow>, cat: CategoryId) returns (weak: nat, critical: nat)
    ensures weak == CountWeak(agents, cat) && critical == CountCritical(agents, cat)
    ensures weak + critical <= |agents|
    ensures QcField(AgentCategoryRow(0.0, 0.0, 0.0, 0.0, 0.0, 0.0, 0.0), cat).None? ==> weak == 0 && critical == 0
  {
    weak, critical := 0, 0;
    var field := QcField(AgentCategoryRow(0.0, 0.0, 0.0, 0.0, 0.0, 0.0, 0.0), cat);
    if field.Some? {
      var i := 0;
      while i < |agents|
        invariant 0 <= i <= |agents|
        invariant weak == CountWeak(agents[..i], cat) && critical == CountCritical(agents[..i], cat)
      {
        var a := agents[i];
        var value := QcField(a, cat).value;
        var errorRate := if a.totalEvals > 0.0 then (value / a.totalEvals) * 100.0 else 0.0;
        assert agents[..i + 1][..i] == agents[..i];
        if errorRate > 10.0 {
          critical := critical + 1;
        } else if errorRate > 5.0 {
          weak := weak + 1;
        }
        i := i + 1;
      }
      assert agents[..i] == agents;
    } else {
      NoFieldNoCounts(agents, cat);
    }
    WeakPlusCriticalBounded(agents, cat);
  }

  lemma {:induction false} NoFieldNoCounts(agents: seq<AgentCategoryRow>, cat: CategoryId)
    requires cat == Satisfaction || cat == Communication
    ensures CountWeak(agents, cat) == 0 && CountCritical(agents, cat) == 0
    decreases |agents|
  {
    if agents != [] {
      NoFieldNoCounts(agents[..|agents| - 1], cat);
    }
  }

  /** The category keys of the heatmap, in order. */
  const HeatmapCategories: seq<CategoryId> :=
    [Greeting, Empathy, Inquiry, Knowledge, Processing, Records, Satisfaction, Communication]

  /** One heatmap group: a cell per category key, each over all the group's agents. */
  method HeatmapGroup(agents: seq<AgentCategoryRow>) returns (cells: seq<HeatCell>)
    ensures |cells| == |HeatmapCategories|
    ensures forall i :: 0 <= i < |cells| ==>
      cells[i].categoryId == HeatmapCategories[i] && cells[i].totalAgents == |agents|
      && cells[i].weakAgentCount == CountWeak(agents, HeatmapCategories[i])
      && cells[i].criticalAgentCount == CountCritical(agents, HeatmapCategories[i])
      && cells[i].weakAgentCount + cells[i].criticalAgentCount <= cells[i].totalAgents
  {
    cells := [];
    var i := 0;
    while i < |HeatmapCategories|
      invariant 0 <= i <= |HeatmapCategories| && |cells| == i
      invariant forall k :: 0 <= k < i ==>
        cells[k].categoryId == HeatmapCategories[k] && cells[k].totalAgents == |agents|
        && cells[k].weakAgentCount == CountWeak(agents, HeatmapCategories[k])
        && cells[k].criticalAgentCount == CountCritical(agents, HeatmapCategories[k])
        && cells[k].weakAgentCount + cells[k].criticalAgentCount <= cells[k].totalAgents
    {
      var weak, critical := CountCategory(agents, HeatmapCategories[i]);
      cells := cells + [HeatCell(HeatmapCategories[i], weak, critical, |agents|)];
      i := i + 1;
    }
  }

  // ================================================================ drilldown

  /** A query row of the error-type drilldown; `None` is SQL NULL. */
  datatype DrillRow = DrillRow(depth2: Option<string>, depth3: Option<string>, errorCount: real)

  datatype DrillResult = DrillResult(depth2: string, depth3: Option<string>, errorCount: real, errorPct: real, groupAvgErrorPct: real, isHighlighted: bool)

  /** `r.depth3 || ''`: NULL and the empty string both give "". */
  function Depth3Text(d: Option<string>): string { if d.Some? then d.value else "" }

  /** The group-side key: `${r.depth2}` renders NULL as "null". */
  function GroupKey(r: DrillRow): string {
    (if r.depth2.Some? then r.depth2.value else "null") + "|" + Depth3Text(r.depth3)
  }

  /** The agent-side key, after `String(r.depth2 || '')`. */
  function AgentKey(depth2: string, depth3: Option<string>): string {
    depth2 + "|" + Depth3Text(depth3)
  }

  function SumErrors(rows: seq<DrillRow>): real
    decreases |rows|
  {
    if rows == [] then 0.0 else SumErrors(rows[..|rows| - 1]) + rows[|rows| - 1].errorCount
  }

  /** The group distribution map; a later row with the same key replaces an earlier one. */
  function GroupMap(rows: seq<DrillRow>): (m: map<string, real>)
    ensures forall r :: r in rows ==> GroupKey(r) in m
    decreases |rows|
  {
    if rows == [] then map[]
    else GroupMap(rows[..|rows| - 1])[GroupKey(rows[|rows| - 1]) := rows[|rows| - 1].errorCount]
  }

  /** The index of the last row with key `k`, or -1 when no row has it. */
  function LastKeyIndex(rows: seq<DrillRow>, k: string): (i: int)
    ensures -1 <= i < |rows|
    ensures i >= 0 ==> GroupKey(rows[i]) == k
    ensures forall j :: i < j < |rows| ==> GroupKey(rows[j]) != k
    decreases |rows|
  {
    if rows == [] then -1
    else if GroupKey(rows[|rows| - 1]) == k then |rows| - 1
    else LastKeyIndex(rows[..|rows| - 1], k)
  }

  /**
   * A key is in the group map exactly when some group row has it, and its value is the error count
   * of the last such row (Map.set overwrites).
   */
  lemma {:induction false} GroupMapLast(rows: seq<DrillRow>, k: string)
    ensures k in GroupMap(rows) <==> LastKeyIndex(rows, k) >= 0
    ensures k in GroupMap(rows) ==> GroupMap(rows)[k] == rows[LastKeyIndex(rows, k)].errorCount
    decreases |rows|
  {
    if rows != [] {
      var n := |rows| - 1;
      var front := rows[..n];
      GroupMapLast(front, k);
      if GroupKey(rows[n]) != k && k in GroupMap(front) {
        assert rows[LastKeyIndex(front, k)] == front[LastKeyIndex(front, k)];
      }
    }
  }

  function Pct(count: real, total: real): real {
    if total > 0.0 then (count / total) * 100.0 else 0.0
  }

  function DrillOne(r: DrillRow, totalAgentErrors: real, totalGroupErrors: real, groups: map<string, real>): DrillResult {
    var depth2 := if r.depth2.Some? then r.depth2.value else "";
    var depth3 := if r.depth3.Some? && r.depth3.value != "" then r.depth3 else None;
    var errorPct := Pct(r.errorCount, totalAgentErrors);
    var key := AgentKey(depth2, depth3);
    var groupCount := if key in groups then groups[key] else 0.0;
    var groupAvg := Pct(groupCount, totalGroupErrors);
    DrillResult(depth2, depth3, r.errorCount, errorPct, groupAvg, errorPct > groupAvg * 1.5)
  }

  /** The drilldown rows, one per agent row, in order. */
  function Drilldown(agentRows: seq<DrillRow>, groupRows: seq<DrillRow>): (r: seq<DrillResult>)
    ensures |r| == |agentRows|
    ensures forall i :: 0 <= i < |r| ==>
      && r[i].depth2 == (if agentRows[i].depth2.Some? then agentRows[i].depth2.value else "")
      && (r[i].depth3.Some? <==> agentRows[i].depth3.Some? && agentRows[i].depth3.value != "")
      && (r[i].depth3.Some? ==> r[i].depth3 == agentRows[i].depth3)
      && r[i].errorCount == agentRows[i].errorCount
    ensures forall i :: 0 <= i < |r| ==> r[i].errorPct == Pct(agentRows[i].errorCount, SumErrors(agentRows))
    ensures forall i :: 0 <= i < |r| ==>
      var key := AgentKey(r[i].depth2, r[i].depth3);
      r[i].groupAvgErrorPct == Pct(if key in GroupMap(groupRows) then GroupMap(groupRows)[key] else 0.0, SumErrors(groupRows))
    ensures forall i :: 0 <= i < |r| ==> (r[i].isHighlighted <==> r[i].errorPct > r[i].groupAvgErrorPct * 1.5)
    ensures SumErrors(agentRows) <= 0.0 ==> forall i :: 0 <= i < |r| ==> r[i].errorPct == 0.0
    ensures SumErrors(groupRows) <= 0.0 ==> forall i :: 0 <= i < |r| ==> r[i].groupAvgErrorPct == 0.0
  {
    var ta := SumErrors(agentRows);
    var tg := SumErrors(groupRows);
    var groups := GroupMap(groupRows);
    seq(|agentRows|, i requires 0 <= i < |agentRows| => DrillOne(agentRows[i], ta, tg, groups))
  }

  function SumPct(rs: seq<DrillResult>): real
    decreases |rs|
  {
    if rs == [] then 0.0 else SumPct(rs[..|rs| - 1]) + rs[|rs| - 1].errorPct
  }

  lemma PctAdd(a: real, b: real, t: real)
    requires t > 0.0
    ensures (a / t) * 100.0 + (b / t) * 100.0 == ((a + b) / t) * 100.0
  {
  }

  lemma {:induction false} SumPctPrefix(r: seq<DrillResult>, agentRows: seq<DrillRow>, n: nat)
    requires |r| == |agentRows| && n <= |r| && SumErrors(agentRows) > 0.0
    requires forall i :: 0 <= i < |r| ==> r[i].errorPct == Pct(agentRows[i].errorCount, SumErrors(agentRows))
    ensures SumPct(r[..n]) == (SumErrors(agentRows[..n]) / SumErrors(agentRows)) * 100.0
    decreases n
  {
    var t := SumErrors(agentRows);
    if n == 0 {
      assert r[..0] == [];
      assert agentRows[..0] == [];
    } else {
      SumPctPrefix(r, agentRows, n - 1);
      assert r[..n][..n - 1] == r[..n - 1];
      assert agentRows[..n][..n - 1] == agentRows[..n - 1];
      assert r[n - 1].errorPct == (agentRows[n - 1].errorCount / t) * 100.0;
      PctAdd(SumErrors(agentRows[..n - 1]), agentRows[n - 1].errorCount, t);
    }
  }

  /** When the agent has any errors, the (unrounded) error percentages add up to 100. */
  lemma DrilldownPercentagesSumTo100(agentRows: seq<DrillRow>, groupRows: seq<DrillRow>)
    requires SumErrors(agentRows) > 0.0
    ensures SumPct(Drilldown(agentRows, groupRows)) == 100.0
  {
    var r := Drilldown(agentRows, groupRows);
    SumPctPrefix(r, agentRows, |agentRows|);
    assert r[..|r|] == r;
    assert agentRows[..|agentRows|] == agentRows;
    RatioOfSelf(SumErrors(agentRows));
  }

  lemma RatioOfSelf(t: real)
    requires t > 0.0
    ensures (t / t) * 100.0 == 100.0
  {
  }

  // ================================================================ effectiveness

  /** One agent's current and previous month: overall rates and the six per-category counts (missing counts read as 0). */
  datatype EffRow = EffRow(currRate: real, prevRate: real, curr: seq<real>, prev: seq<real>)

  function At(s: seq<real>, i: nat): real { if i < |s| then s[i] else 0.0 }

  function CountImproved(rows: seq<EffRow>): (n: nat)
    ensures n <= |rows|
    decreases |rows|
  {
    if rows == [] then 0
    else CountImproved(rows[..|rows| - 1]) + (if rows[|rows| - 1].currRate < rows[|rows| - 1].prevRate then 1 else 0)
  }

  /** Coached in a category: the previous month had errors there. */
  function CountCoached(rows: seq<EffRow>, c: nat): (n: nat)
    ensures n <= |rows|
    decreases |rows|
  {
    if rows == [] then 0
    else CountCoached(rows[..|rows| - 1], c) + (if At(rows[|rows| - 1].prev, c) > 0.0 then 1 else 0)
  }

  /** Improved in a category: coached there, and fewer errors this month. */
  function CountCategoryImproved(rows: seq<EffRow>, c: nat): (n: nat)
    ensures n <= |rows|
    decreases |rows|
  {
    if rows == [] then 0
    else
      var r := rows[|rows| - 1];
      CountCategoryImproved(rows[..|rows| - 1], c) + (if At(r.prev, c) > 0.0 && At(r.curr, c) < At(r.prev, c) then 1 else 0)
  }

  lemma {:induction false} ImprovedAtMostCoached(rows: seq<EffRow>, c: nat)
    ensures CountCategoryImproved(rows, c) <= CountCoached(rows, c)
    decreases |rows|
  {
    if rows != [] {
      ImprovedAtMostCoached(rows[..|rows| - 1], c);
    }
  }

  datatype CategoryEffect = CategoryEffect(categoryId: CategoryId, coached: nat, improved: nat, rate: real)

  datatype Effectiveness = Effectiveness(totalCoached: nat, improvedCount: nat, improvementRate: real, categoryBreakdown: seq<CategoryEffect>)

  /** Math.round((part / whole) * 100) for a non-negative ratio, 0 when there is no whole. */
  function Ratio100(part: nat, whole: nat): real {
    if whole > 0 then ((part as real / whole as real) * 100.0 + 0.5).Floor as real else 0.0
  }

  /** The six QC categories of the breakdown, in order. */
  const EffectCategories: seq<CategoryId> := [Greeting, Empathy, Inquiry, Knowledge, Processing, Records]

  /** The effectiveness summary, rates rounded to whole percentages. */
  function CoachingEffectiveness(rows: seq<EffRow>): (e: Effectiveness)
    ensures |e.categoryBreakdown| == 6
    ensures e.improvedCount <= e.totalCoached == |rows|
    ensures e.improvedCount == CountImproved(rows) && e.improvementRate == Ratio100(CountImproved(rows), |rows|)
    ensures forall k :: 0 <= k < 6 ==>
      && e.categoryBreakdown[k].categoryId == EffectCategories[k]
      && e.categoryBreakdown[k].coached == CountCoached(rows, k)
      && e.categoryBreakdown[k].improved == CountCategoryImproved(rows, k)
      && e.categoryBreakdown[k].rate == Ratio100(CountCategoryImproved(rows, k), CountCoached(rows, k))
    ensures e.totalCoached == 0 ==> e.improvementRate == 0.0
    ensures forall k :: 0 <= k < 6 ==> e.categoryBreakdown[k].improved <= e.categoryBreakdown[k].coached
    ensures forall k :: 0 <= k < 6 ==> e.categoryBreakdown[k].coached == 0 ==> e.categoryBreakdown[k].rate == 0.0
    ensures forall k :: 0 <= k < 6 ==> 0.0 <= e.categoryBreakdown[k].rate <= 100.0
  {
    var breakdown := seq(6, k requires 0 <= k < 6 =>
      CategoryEffect(EffectCategories[k], CountCoached(rows, k), CountCategoryImproved(rows, k),
                     Ratio100(CountCategoryImproved(rows, k), CountCoached(rows, k))));
    forall k | 0 <= k < 6 ensures breakdown[k].improved <= breakdown[k].coached && 0.0 <= breakdown[k].rate <= 100.0 {
      ImprovedAtMostCoached(rows, k);
      RatioBounded(breakdown[k].improved, breakdown[k].coached);
    }
    Effectiveness(|rows|, CountImproved(rows), Ratio100(CountImproved(rows), |rows|), breakdown)
  }

  lemma RatioBounded(part: nat, whole: nat)
    requires part <= whole
    ensures 0.0 <= Ratio100(part, whole) <= 100.0
  {
    if whole > 0 {
      var x := (part as real / whole as real) * 100.0;
      assert (part as real / whole as real) * whole as real == part as real;
      assert 0.0 <= x <= 100.0;
      assert (x + 0.5).Floor <= 100;
    }
  }

  // ================================================================ plans

  /** The hire date as a year and a month, when it parses. */
  datatype YearMonth = YearMonth(year: int, month: int)

  /** The plan's tenure: 12 without a usable hire date, else the calendar-month difference clamped at 0. */
  function PlanTenureMonths(now: YearMonth, hireDate: Option<YearMonth>): (t: int)
    ensures t >= 0
    ensures hireDate.None? ==> t == 12
    ensures hireDate.Some? ==> t == if (now.year - hireDate.value.year) * 12 + (now.month - hireDate.value.month) < 0 then 0
                                    else (now.year - hireDate.value.year) * 12 + (now.month - hireDate.value.month)
  {
    match hireDate
    case None => 12
    case Some(hd) =>
      var diff := (now.year - hd.year) * 12 + (now.month - hd.month);
      if diff > 0 then diff else 0
  }

  /** The plan's coaching frequency, looked up by tier. */
  function CoachingFrequency(tier: TierLevel): string {
    match tier
    case Normal => "자율"
    case Caution => "월1회"
    case AtRisk => "격주"
    case Severe => "주1회"
    case Urgent => "주2회"
  }

  /** The lookup gives the frequency COACHING_TIERS lists for the same tier, and tells tiers apart. */
  lemma CoachingFrequencyMatchesTiers(t1: TierLevel, t2: TierLevel)
    ensures CoachingFrequency(t1) == CoachingTiers[t1.Rank()].frequency
    ensures t1 != t2 ==> CoachingFrequency(t1) != CoachingFrequency(t2)
  {
    CoachingTiersPartition(0.0);
  }
}
