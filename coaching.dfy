/**
 * The coaching rule engine (lib/coaching-categories.ts): QC error counts and
 * QA scores aggregated into the eight coaching categories, the category
 * weakness assessment, the coaching tier, the report mode and phase, and the
 * underperformer criteria with their resolution and low-quality rules.
 */
module Coaching {
  import opened Wrappers
  import opened Text
  import opened Constants

  // ================================================================ QC aggregation

  /** One `[columnKey, count]` pair of the QC error-count record. */
  datatype Entry = Entry(key: string, count: real)

  datatype QcAgg = QcAgg(categoryId: CategoryId, errorCount: real, errorRate: real)

  /**
   * What one entry adds to category `id`: its count, when its key maps there and
   * the count is positive. `toCategory` is QC_ERROR_TO_CATEGORY, the map the
   * module-load loop builds (Constants.BuildQcErrorToCategory); it is passed in
   * rather than held as a constant here.
   */
  function Contribution(toCategory: map<string, CategoryId>, e: Entry, id: CategoryId): (c: real)
    ensures c >= 0.0
  {
    if e.key in toCategory && toCategory[e.key] == id && e.count > 0.0 then e.count else 0.0
  }

  /** The total the accumulation loop reaches for category `id`. */
  function CategoryErrorSum(toCategory: map<string, CategoryId>, entries: seq<Entry>, id: CategoryId): (s: real)
    ensures s >= 0.0
    decreases |entries|
  {
    if entries == [] then 0.0
    else CategoryErrorSum(toCategory, entries[..|entries| - 1], id) + Contribution(toCategory, entries[|entries| - 1], id)
  }

  /** `COACHING_CATEGORIES.filter(c => c.qcItems.length > 0)`. */
  function WithQcItems(cats: seq<CategoryDef>): (r: seq<CategoryDef>)
    ensures |r| <= |cats|
    decreases |cats|
  {
    if cats == [] then []
    else (if |cats[0].qcItems| > 0 then [cats[0]] else []) + WithQcItems(cats[1..])
  }

  function QcRow(toCategory: map<string, CategoryId>, c: CategoryDef, entries: seq<Entry>, totalEvals: real): QcAgg {
    var n := CategoryErrorSum(toCategory, entries, c.id);
    QcAgg(c.id, n, if totalEvals > 0.0 then n / totalEvals else 0.0)
  }

  /** The list aggregateQcByCategory returns: one row per category that has QC items, in order. */
  function QcAggregate(toCategory: map<string, CategoryId>, entries: seq<Entry>, totalEvals: real): seq<QcAgg> {
    var cats := WithQcItems(CoachingCategories);
    seq(|cats|, i requires 0 <= i < |cats| => QcRow(toCategory, cats[i], entries, totalEvals))
  }

  lemma WithQcItemsOfCoachingCategories()
    ensures WithQcItems(CoachingCategories) == CoachingCategories[..6]
  {
    var c := CoachingCategories;
    assert forall i :: 0 <= i < 6 ==> |c[i].qcItems| > 0;
    assert |c[6].qcItems| == 0 && |c[7].qcItems| == 0;
    WithQcItemsPrefix(c, 6);
  }

  /** When exactly the first `n` categories have QC items, the filter keeps exactly those. */
  lemma {:induction false} WithQcItemsPrefix(cats: seq<CategoryDef>, n: nat)
    requires n <= |cats|
    requires forall i :: 0 <= i < n ==> |cats[i].qcItems| > 0
    requires forall i :: n <= i < |cats| ==> |cats[i].qcItems| == 0
    ensures WithQcItems(cats) == cats[..n]
    decreases |cats|
  {
    if cats != [] {
      var rest := cats[1..];
      assert forall i :: 0 <= i < |rest| ==> rest[i] == cats[i + 1];
      if n == 0 {
        WithQcItemsPrefix(rest, 0);
      } else {
        WithQcItemsPrefix(rest, n - 1);
        assert cats[..n] == [cats[0]] + rest[..n - 1];
      }
    }
  }

  /**
   * Six rows, for 인사/예절 … 이력/기록관리 in order; counts are never negative, and
   * the rate is count / totalEvals when there are evaluations and 0 otherwise.
   */
  lemma QcAggregateShape(toCategory: map<string, CategoryId>, entries: seq<Entry>, totalEvals: real)
    ensures |QcAggregate(toCategory, entries, totalEvals)| == 6
    ensures forall i :: 0 <= i < 6 ==>
      QcAggregate(toCategory, entries, totalEvals)[i].categoryId == CoachingCategories[i].id
      && WellFormedRow(QcAggregate(toCategory, entries, totalEvals)[i], totalEvals)
  {
    QcAggregateRows(toCategory, entries, totalEvals);
    var rows := QcAggregate(toCategory, entries, totalEvals);
    forall i | 0 <= i < 6 ensures rows[i].categoryId == CoachingCategories[i].id && WellFormedRow(rows[i], totalEvals) {
      QcRowFacts(toCategory, CoachingCategories[i], entries, totalEvals);
    }
  }

  /** A QC row's count is never negative; its rate is count / totalEvals when there are evaluations, else 0. */
  predicate WellFormedRow(r: QcAgg, totalEvals: real) {
    r.errorCount >= 0.0
    && (totalEvals > 0.0 ==> r.errorRate * totalEvals == r.errorCount && r.errorRate >= 0.0)
    && (totalEvals <= 0.0 ==> r.errorRate == 0.0)
  }

  lemma QcAggregateRows(toCategory: map<string, CategoryId>, entries: seq<Entry>, totalEvals: real)
    ensures |QcAggregate(toCategory, entries, totalEvals)| == 6
    ensures forall i :: 0 <= i < 6 ==>
      QcAggregate(toCategory, entries, totalEvals)[i] == QcRow(toCategory, CoachingCategories[i], entries, totalEvals)
  {
    WithQcItemsOfCoachingCategories();
  }

  lemma QcRowFacts(toCategory: map<string, CategoryId>, c: CategoryDef, entries: seq<Entry>, totalEvals: real)
    ensures QcRow(toCategory, c, entries, totalEvals).categoryId == c.id
    ensures WellFormedRow(QcRow(toCategory, c, entries, totalEvals), totalEvals)
  {
    var r := QcRow(toCategory, c, entries, totalEvals);
    if totalEvals > 0.0 {
      RateTimesTotal(r.errorCount, totalEvals);
    }
  }

  lemma RateTimesTotal(n: real, t: real)
    requires n >= 0.0 && t > 0.0
    ensures (n / t) * t == n && n / t >= 0.0
  {
  }

  /** Every category id is the id of some entry of COACHING_CATEGORIES. */
  function CategoryIndex(id: CategoryId): (i: nat)
    ensures i < |CoachingCategories| && CoachingCategories[i].id == id
  {
    match id
    case Greeting => 0
    case Empathy => 1
    case Inquiry => 2
    case Knowledge => 3
    case Processing => 4
    case Records => 5
    case Satisfaction => 6
    case Communication => 7
  }

  /** aggregateQcByCategory: zero every category, add each positive mapped count, read out the QC categories. */
  method AggregateQcByCategory(toCategory: map<string, CategoryId>, entries: seq<Entry>, totalEvals: real)
    returns (rows: seq<QcAgg>)
    ensures rows == QcAggregate(toCategory, entries, totalEvals)
  {
    var result := ZeroTotals(CoachingCategories);
    assert forall id: CategoryId :: id in result by {
      forall id: CategoryId ensures id in result {
        assert CoachingCategories[CategoryIndex(id)].id == id;
      }
    }
    result := AccumulateErrors(toCategory, entries, result);
    rows := ReadOutRows(toCategory, WithQcItems(CoachingCategories), result, entries, totalEvals);
  }

  /** The first loop: a zero total for the id of every category. */
  method ZeroTotals(cats: seq<CategoryDef>) returns (result: map<CategoryId, real>)
    ensures forall k :: 0 <= k < |cats| ==> cats[k].id in result
    ensures forall id :: id in result ==> result[id] == 0.0
  {
    result := map[];
    var i := 0;
    while i < |cats|
      invariant 0 <= i <= |cats|
      invariant forall k :: 0 <= k < i ==> cats[k].id in result
      invariant forall id :: id in result ==> result[id] == 0.0
    {
      result := result[cats[i].id := 0.0];
      i := i + 1;
    }
  }

  /** The second loop: each entry with a mapped key and a positive count adds to its category. */
  method AccumulateErrors(toCategory: map<string, CategoryId>, entries: seq<Entry>, zero: map<CategoryId, real>)
    returns (result: map<CategoryId, real>)
    requires forall id: CategoryId :: id in zero && zero[id] == 0.0
    ensures forall id: CategoryId :: id in result && result[id] == CategoryErrorSum(toCategory, entries, id)
  {
    result := zero;
    var k := 0;
    while k < |entries|
      invariant 0 <= k <= |entries|
      invariant forall id: CategoryId :: id in result && result[id] == CategoryErrorSum(toCategory, entries[..k], id)
    {
      var e := entries[k];
      assert entries[..k + 1][..k] == entries[..k];
      if e.key in toCategory && e.count > 0.0 {
        var catId := toCategory[e.key];
        result := result[catId := result[catId] + e.count];
      }
      k := k + 1;
    }
    assert entries[..k] == entries;
  }

  /** The read-out: one row per given category, its total and its rate. */
  method ReadOutRows(
    toCategory: map<string, CategoryId>, qcCats: seq<CategoryDef>, result: map<CategoryId, real>,
    entries: seq<Entry>, totalEvals: real)
    returns (rows: seq<QcAgg>)
    requires forall id: CategoryId :: id in result && result[id] == CategoryErrorSum(toCategory, entries, id)
    ensures rows == seq(|qcCats|, i requires 0 <= i < |qcCats| => QcRow(toCategory, qcCats[i], entries, totalEvals))
  {
    rows := [];
    var j := 0;
    while j < |qcCats|
      invariant 0 <= j <= |qcCats|
      invariant |rows| == j
      invariant forall t :: 0 <= t < j ==> rows[t] == QcRow(toCategory, qcCats[t], entries, totalEvals)
    {
      var c := qcCats[j];
      var n := result[c.id];
      rows := rows + [QcAgg(c.id, n, if totalEvals > 0.0 then n / totalEvals else 0.0)];
      j := j + 1;
    }
  }

  // ================================================================ QA aggregation

  datatype QaItem = QaItem(name: string, score: real, maxScore: real)

  datatype QaAgg = QaAgg(categoryId: CategoryId, items: seq<QaItem>, avgRate: real)

  /** The items kept: keys with a defined, positive maximum, scored `scoreData[key] ?? 0`. */
  function QaItems(keys: seq<string>, scores: map<string, Option<real>>, maxes: map<string, real>): (r: seq<QaItem>)
    ensures |r| <= |keys|
    ensures forall it :: it in r ==> it.name in keys && it.name in maxes && it.maxScore == maxes[it.name] > 0.0
    decreases |keys|
  {
    if keys == [] then []
    else
      var k := keys[0];
      var rest := QaItems(keys[1..], scores, maxes);
      if k in maxes && maxes[k] > 0.0 then
        [QaItem(k, if k in scores && scores[k].Some? then scores[k].value else 0.0, maxes[k])] + rest
      else rest
  }

  function SumScores(items: seq<QaItem>): real
    decreases |items|
  {
    if items == [] then 0.0 else items[0].score + SumScores(items[1..])
  }

  function SumMax(items: seq<QaItem>): real
    decreases |items|
  {
    if items == [] then 0.0 else items[0].maxScore + SumMax(items[1..])
  }

  /** aggregateQaByCategory for one category: the score ratio, 1 when no item has a maximum. */
  function QaCategory(c: CategoryDef, scores: map<string, Option<real>>, maxes: map<string, real>): QaAgg {
    var items := QaItems(c.qaItems, scores, maxes);
    var totalMax := SumMax(items);
    QaAgg(c.id, items, if totalMax > 0.0 then SumScores(items) / totalMax else 1.0)
  }

  /** aggregateQaByCategory: every category has QA items, so one row per category. */
  function QaAggregate(scores: map<string, Option<real>>, maxes: map<string, real>): seq<QaAgg> {
    seq(|CoachingCategories|, i requires 0 <= i < |CoachingCategories| => QaCategory(CoachingCategories[i], scores, maxes))
  }

  predicate ScoresWithinMax(items: seq<QaItem>) {
    forall k :: 0 <= k < |items| ==> 0.0 <= items[k].score <= items[k].maxScore
  }

  lemma {:induction false} SumsBounded(items: seq<QaItem>)
    requires ScoresWithinMax(items)
    ensures 0.0 <= SumScores(items) <= SumMax(items)
    decreases |items|
  {
    if items != [] {
      assert ScoresWithinMax(items[1..]) by {
        forall k | 0 <= k < |items[1..]| ensures 0.0 <= items[1..][k].score <= items[1..][k].maxScore {
          assert items[1..][k] == items[k + 1];
        }
      }
      SumsBounded(items[1..]);
    }
  }

  /** With every score between 0 and its maximum, a category's score ratio lies in [0, 1]. */
  lemma QaRateInUnitInterval(c: CategoryDef, scores: map<string, Option<real>>, maxes: map<string, real>)
    requires forall k :: k in scores && scores[k].Some? && k in maxes ==> 0.0 <= scores[k].value <= maxes[k]
    ensures 0.0 <= QaCategory(c, scores, maxes).avgRate <= 1.0
  {
    var items := QaItems(c.qaItems, scores, maxes);
    QaItemsWithin(c.qaItems, scores, maxes);
    SumsBounded(items);
    if SumMax(items) > 0.0 {
      RatioInUnitInterval(SumScores(items), SumMax(items));
    }
  }

  lemma RatioOfEqual(a: real, b: real)
    requires a == b && b > 0.0
    ensures a / b == 1.0
  {
  }

  lemma RatioInUnitInterval(a: real, b: real)
    requires 0.0 <= a <= b && b > 0.0
    ensures 0.0 <= a / b <= 1.0
  {
    assert (a / b) * b == a;
  }

  lemma {:induction false} QaItemsWithin(keys: seq<string>, scores: map<string, Option<real>>, maxes: map<string, real>)
    requires forall k :: k in scores && scores[k].Some? && k in maxes ==> 0.0 <= scores[k].value <= maxes[k]
    ensures ScoresWithinMax(QaItems(keys, scores, maxes))
    decreases |keys|
  {
    if keys != [] {
      QaItemsWithin(keys[1..], scores, maxes);
      var rest := QaItems(keys[1..], scores, maxes);
      var r := QaItems(keys, scores, maxes);
      if r != rest {
        forall k | 0 <= k < |r| ensures 0.0 <= r[k].score <= r[k].maxScore {
          if k > 0 {
            assert r[k] == rest[k - 1];
          }
        }
      }
    }
  }

  /** Full marks on every item give each item score equal to its maximum, hence a ratio of exactly 1. */
  lemma {:induction false} FullMarksSums(keys: seq<string>, scores: map<string, Option<real>>, maxes: map<string, real>)
    requires forall k :: k in maxes ==> k in scores && scores[k] == Some(maxes[k])
    ensures SumScores(QaItems(keys, scores, maxes)) == SumMax(QaItems(keys, scores, maxes))
    decreases |keys|
  {
    if keys != [] {
      FullMarksSums(keys[1..], scores, maxes);
    }
  }

  // ================================================================ weaknesses

  datatype Severity = Critical | Weak | NormalSeverity
  datatype Confidence = Low | Moderate | High

  datatype Weakness = Weakness(
    categoryId: CategoryId, score: real, severity: Severity,
    qcErrorCount: real, qcErrorRate: real, qaItems: seq<QaItem>, qaAvgRate: real, confidence: Confidence)

  function FindQc(rows: seq<QcAgg>, id: CategoryId): Option<QcAgg>
    decreases |rows|
  {
    if rows == [] then None else if rows[0].categoryId == id then Some(rows[0]) else FindQc(rows[1..], id)
  }

  function FindQa(rows: seq<QaAgg>, id: CategoryId): Option<QaAgg>
    decreases |rows|
  {
    if rows == [] then None else if rows[0].categoryId == id then Some(rows[0]) else FindQa(rows[1..], id)
  }

  function Clamp(x: real, lo: real, hi: real): (r: real)
    requires lo <= hi
    ensures lo <= r <= hi
    ensures lo <= x <= hi ==> r == x
  {
    if x < lo then lo else if x > hi then hi else x
  }

  function SeverityOf(score: real): Severity {
    if score < 60.0 then Critical else if score < 80.0 then Weak else NormalSeverity
  }

  function ConfidenceOf(evals: real): Confidence {
    if evals >= 15.0 then High else if evals >= 5.0 then Moderate else Low
  }

  function Assess(c: CategoryDef, qcRows: seq<QcAgg>, qaRows: seq<QaAgg>, qcTotalEvals: real): (w: Weakness)
    ensures w.categoryId == c.id && 0.0 <= w.score <= 100.0
    ensures w.severity == Critical <==> w.score < 60.0
    ensures w.severity == Weak <==> 60.0 <= w.score < 80.0
    ensures w.severity == NormalSeverity <==> 80.0 <= w.score
    ensures w.confidence == High <==> qcTotalEvals >= 15.0
    ensures w.confidence == Low <==> qcTotalEvals < 5.0
  {
    var qc := FindQc(qcRows, c.id);
    var qa := FindQa(qaRows, c.id);
    var qcBad := if qc.Some? then qc.value.errorRate else 0.0;
    var qaBad := if qa.Some? then 1.0 - qa.value.avgRate else 0.0;
    var combined := c.qcWeight * qcBad + c.qaWeight * qaBad;
    var score := Clamp((1.0 - combined) * 100.0, 0.0, 100.0);
    Weakness(c.id, score, SeverityOf(score),
             if qc.Some? then qc.value.errorCount else 0.0,
             if qc.Some? then qc.value.errorRate else 0.0,
             if qa.Some? then qa.value.items else [],
             if qa.Some? then qa.value.avgRate else 1.0,
             ConfidenceOf(qcTotalEvals))
  }

  /** assessCategoryWeaknesses: one entry per category, in table order. */
  function AssessCategoryWeaknesses(
    toCategory: map<string, CategoryId>, qcErrors: seq<Entry>, qcTotalEvals: real, qaScores: map<string, Option<real>>, qaMaxScores: map<string, real>)
    : (r: seq<Weakness>)
    ensures |r| == 8
  {
    AssessAll(CoachingCategories, QcAggregate(toCategory, qcErrors, qcTotalEvals), QaAggregate(qaScores, qaMaxScores), qcTotalEvals)
  }

  /**
   * Every category is assessed in table order, its score clamped to [0, 100],
   * severity critical below 60, weak below 80, normal otherwise, and confidence
   * from the QC evaluation count (15 / 5).
   */
  lemma AssessCategoryWeaknessesFacts(
    toCategory: map<string, CategoryId>, qcErrors: seq<Entry>, qcTotalEvals: real, qaScores: map<string, Option<real>>, qaMaxScores: map<string, real>)
    ensures var r := AssessCategoryWeaknesses(toCategory, qcErrors, qcTotalEvals, qaScores, qaMaxScores);
      forall i :: 0 <= i < |r| ==>
        r[i].categoryId == CoachingCategories[i].id && 0.0 <= r[i].score <= 100.0
        && (r[i].severity == Critical <==> r[i].score < 60.0)
        && (r[i].severity == Weak <==> 60.0 <= r[i].score < 80.0)
        && (r[i].severity == NormalSeverity <==> 80.0 <= r[i].score)
        && (r[i].confidence == High <==> qcTotalEvals >= 15.0)
        && (r[i].confidence == Low <==> qcTotalEvals < 5.0)
  {
  }

  function AssessAll(cats: seq<CategoryDef>, qcRows: seq<QcAgg>, qaRows: seq<QaAgg>, qcTotalEvals: real): (r: seq<Weakness>)
    ensures |r| == |cats|
    ensures forall i :: 0 <= i < |r| ==> r[i] == Assess(cats[i], qcRows, qaRows, qcTotalEvals)
  {
    seq(|cats|, i requires 0 <= i < |cats| => Assess(cats[i], qcRows, qaRows, qcTotalEvals))
  }

  lemma {:induction false} FindQcRate(rows: seq<QcAgg>, id: CategoryId)
    requires forall k :: 0 <= k < |rows| ==> rows[k].errorRate == 0.0
    ensures FindQc(rows, id).Some? ==> FindQc(rows, id).value.errorRate == 0.0
    decreases |rows|
  {
    if rows != [] {
      FindQcRate(rows[1..], id);
    }
  }

  /** A category with no QC error rate and a full QA ratio scores 100. */
  lemma AssessPerfect(c: CategoryDef, qcRows: seq<QcAgg>, qaRows: seq<QaAgg>, t: real)
    requires FindQc(qcRows, c.id).Some? ==> FindQc(qcRows, c.id).value.errorRate == 0.0
    requires FindQa(qaRows, c.id).Some? ==> FindQa(qaRows, c.id).value.avgRate == 1.0
    ensures Assess(c, qcRows, qaRows, t).score == 100.0
  {
  }

  lemma QcAggregateOfNoEntries(toCategory: map<string, CategoryId>, t: real)
    ensures forall k :: 0 <= k < |QcAggregate(toCategory, [], t)| ==> QcAggregate(toCategory, [], t)[k].errorRate == 0.0
  {
    QcAggregateRows(toCategory, [], t);
    forall k | 0 <= k < 6 ensures QcAggregate(toCategory, [], t)[k].errorRate == 0.0 {
      QcRowOfNoEntries(toCategory, CoachingCategories[k], t);
    }
  }

  lemma QcRowOfNoEntries(toCategory: map<string, CategoryId>, c: CategoryDef, t: real)
    ensures QcRow(toCategory, c, [], t).errorRate == 0.0
  {
    assert CategoryErrorSum(toCategory, [], c.id) == 0.0;
  }

  lemma QaAggregateFullMarks(scores: map<string, Option<real>>, maxes: map<string, real>)
    requires forall k :: k in maxes ==> k in scores && scores[k] == Some(maxes[k])
    ensures forall k :: 0 <= k < |QaAggregate(scores, maxes)| ==> QaAggregate(scores, maxes)[k].avgRate == 1.0
  {
    forall k | 0 <= k < |QaAggregate(scores, maxes)| ensures QaAggregate(scores, maxes)[k].avgRate == 1.0 {
      QaCategoryFullMarks(CoachingCategories[k], scores, maxes);
    }
  }

  lemma QaCategoryFullMarks(c: CategoryDef, scores: map<string, Option<real>>, maxes: map<string, real>)
    requires forall k :: k in maxes ==> k in scores && scores[k] == Some(maxes[k])
    ensures QaCategory(c, scores, maxes).avgRate == 1.0
  {
    var items := QaItems(c.qaItems, scores, maxes);
    FullMarksSums(c.qaItems, scores, maxes);
    if SumMax(items) > 0.0 {
      RatioOfEqual(SumScores(items), SumMax(items));
    }
  }

  lemma {:induction false} FindQaRate(rows: seq<QaAgg>, id: CategoryId)
    requires forall k :: 0 <= k < |rows| ==> rows[k].avgRate == 1.0
    ensures FindQa(rows, id).Some? ==> FindQa(rows, id).value.avgRate == 1.0
    decreases |rows|
  {
    if rows != [] {
      FindQaRate(rows[1..], id);
    }
  }

  /** No QC errors recorded and full marks on every QA item: every category scores 100 and is normal. */
  lemma NoErrorsFullMarksIsNormal(
    toCategory: map<string, CategoryId>, qcTotalEvals: real, qaScores: map<string, Option<real>>, qaMaxScores: map<string, real>)
    requires forall k :: k in qaMaxScores ==> k in qaScores && qaScores[k] == Some(qaMaxScores[k])
    ensures var r := AssessCategoryWeaknesses(toCategory, [], qcTotalEvals, qaScores, qaMaxScores);
      forall i :: 0 <= i < |r| ==> r[i].score == 100.0 && r[i].severity == NormalSeverity
  {
    var r := AssessCategoryWeaknesses(toCategory, [], qcTotalEvals, qaScores, qaMaxScores);
    var qcRows := QcAggregate(toCategory, [], qcTotalEvals);
    var qaRows := QaAggregate(qaScores, qaMaxScores);
    QcAggregateOfNoEntries(toCategory, qcTotalEvals);
    QaAggregateFullMarks(qaScores, qaMaxScores);
    AssessCategoryWeaknessesFacts(toCategory, [], qcTotalEvals, qaScores, qaMaxScores);
    forall i | 0 <= i < |r| ensures r[i].score == 100.0 {
      var c := CoachingCategories[i];
      FindQcRate(qcRows, c.id);
      FindQaRate(qaRows, c.id);
      AssessPerfect(c, qcRows, qaRows, qcTotalEvals);
    }
  }

  // ================================================================ coaching tier

  /** The first band whose [minRisk, maxRisk) holds the risk. */
  function FindTier(tiers: seq<TierConfig>, risk: real, from: nat): (r: Option<nat>)
    requires from <= |tiers|
    ensures r.Some? ==> from <= r.value < |tiers| && InBand(tiers[r.value], risk)
    ensures r.None? ==> forall j :: from <= j < |tiers| ==> !InBand(tiers[j], risk)
    decreases |tiers| - from
  {
    if from == |tiers| then None
    else if InBand(tiers[from], risk) then Some(from)
    else FindTier(tiers, risk, from + 1)
  }

  /** The base tier: the band holding the risk, or the last tier (긴급) when none does. */
  function BaseTier(risk: real): TierLevel {
    match FindTier(CoachingTiers, risk, 0)
    case Some(i) => CoachingTiers[i].tier
    case None => CoachingTiers[|CoachingTiers| - 1].tier
  }

  lemma BaseTierBands(risk: real)
    ensures 0.0 <= risk < 100.0 ==> (BaseTier(risk).Rank() * 20) as real <= risk < (BaseTier(risk).Rank() + 1) as real * 20.0
    ensures !(0.0 <= risk < 100.0) ==> BaseTier(risk) == Urgent
  {
    CoachingTiersPartition(risk);
  }

  datatype TierReason =
    | RiskBand(risk: real, base: TierLevel)
    | NewHireMinimum
    | EarlyStepUp
    | Worsened(delta: real)
    | ExistingUnderperformerMinimum

  function Min(a: nat, b: nat): nat { if a < b then a else b }

  function Max(a: nat, b: nat): nat { if a < b then b else a }

  /** A risk at least 10 above the previous month's. */
  predicate Worsened10(riskScore: real, prevRiskScore: Option<real>) {
    prevRiskScore.Some? && riskScore - prevRiskScore.value >= 10.0
  }

  /**
   * The tier rank the four rules give, in closed form: a new hire is lifted to at least 주의, an early
   * agent and a worsening each add one step, the sum is capped at 긴급, and an existing underperformer
   * is lifted to at least 위험.
   */
  function ExpectedTierRank(base: nat, tenureBand: TenureBand, worsened: bool, isExistingUnderperformer: bool): nat {
    var lifted := Max(base, if tenureBand == NewHire then 1 else 0);
    var steps := (if tenureBand == Early then 1 else 0) + (if worsened then 1 else 0);
    Max(Min(lifted + steps, 4), if isExistingUnderperformer then 2 else 0)
  }

  /**
   * determineCoachingTier: the tier is reassigned by four rules in order. The
   * rules only raise the tier, new hires get at least 주의 and existing
   * underperformers at least 위험, and without any rule the base tier stands.
   */
  method DetermineCoachingTier(riskScore: real, tenureBand: TenureBand, prevRiskScore: Option<real>, isExistingUnderperformer: bool)
    returns (tier: TierLevel, reasons: seq<TierReason>)
    ensures tier.Rank() >= BaseTier(riskScore).Rank()
    ensures tier.Rank() <= BaseTier(riskScore).Rank() + 2
    ensures tenureBand == NewHire ==> tier.Rank() >= 1
    ensures tenureBand == Early ==> tier.Rank() >= Min(BaseTier(riskScore).Rank() + 1, 4)
    ensures isExistingUnderperformer ==> tier.Rank() >= 2
    ensures tenureBand != NewHire && tenureBand != Early && !isExistingUnderperformer
            && !(prevRiskScore.Some? && riskScore - prevRiskScore.value >= 10.0)
            ==> tier == BaseTier(riskScore) && reasons == [RiskBand(riskScore, tier)]
    ensures Worsened10(riskScore, prevRiskScore) && !isExistingUnderperformer && tenureBand != NewHire && tenureBand != Early
            ==> tier.Rank() == Min(BaseTier(riskScore).Rank() + 1, 4)
    ensures tier.Rank() == ExpectedTierRank(BaseTier(riskScore).Rank(), tenureBand, Worsened10(riskScore, prevRiskScore), isExistingUnderperformer)
    ensures |reasons| >= 1 && reasons[0] == RiskBand(riskScore, BaseTier(riskScore))
    ensures NewHireMinimum in reasons <==> tenureBand == NewHire && BaseTier(riskScore) == Normal
    ensures EarlyStepUp in reasons <==> tenureBand == Early && BaseTier(riskScore) != Urgent
  {
    var baseTier := BaseTier(riskScore);
    tier := baseTier;
    reasons := [RiskBand(riskScore, tier)];
    var tierIdx := tier.Rank();

    if tenureBand == NewHire && tierIdx < 1 {
      tier := Caution;
      reasons := reasons + [NewHireMinimum];
    }

    if tenureBand == Early && tierIdx < 4 {
      tier := TierAt(Min(tierIdx + 1, 4));
      reasons := reasons + [EarlyStepUp];
    }

    if prevRiskScore.Some? && riskScore - prevRiskScore.value >= 10.0 {
      var currentIdx := tier.Rank();
      if currentIdx < 4 {
        tier := TierAt(currentIdx + 1);
        reasons := reasons + [Worsened(riskScore - prevRiskScore.value)];
      }
    }

    if isExistingUnderperformer && tier.Rank() < 2 {
      tier := AtRisk;
      reasons := reasons + [ExistingUnderperformerMinimum];
    }
  }

  // ================================================================ report mode and phase

  datatype ReportMode = DailyIntensive | DailyConditional | WeeklyPhased

  /** determineReportMode. */
  function DetermineReportMode(tenureMonths: real, isUnderperforming: bool): (m: ReportMode)
    ensures m == DailyIntensive <==> tenureMonths < 1.0
    ensures m == DailyConditional <==> 1.0 <= tenureMonths < 2.0 && isUnderperforming
  {
    if tenureMonths < 1.0 then DailyIntensive
    else if tenureMonths < 2.0 && isUnderperforming then DailyConditional
    else WeeklyPhased
  }

  /** From two months on the mode is weekly whatever the performance; the daily modes need tenure below two. */
  lemma ReportModeWeeklyFromTwoMonths(t: real, u: bool)
    requires t >= 2.0
    ensures DetermineReportMode(t, u) == WeeklyPhased
  {
  }

  datatype ReportPhase = MonthStart | Week2 | Week3 | MonthEnd {
    function Rank(): nat {
      match this
      case MonthStart => 0
      case Week2 => 1
      case Week3 => 2
      case MonthEnd => 3
    }
  }

  /** getWeeklyReportPhase: days 1–7, 8–14, 15–21, then the rest of the month. */
  function GetWeeklyReportPhase(dayOfMonth: real): ReportPhase {
    if dayOfMonth <= 7.0 then MonthStart
    else if dayOfMonth <= 14.0 then Week2
    else if dayOfMonth <= 21.0 then Week3
    else MonthEnd
  }

  /** For a whole day number the phase is the week of the month, capped at the fourth, and it only advances. */
  lemma WeeklyReportPhaseIsWeekOfMonth(day: nat, later: nat)
    requires 1 <= day <= later
    ensures GetWeeklyReportPhase(day as real).Rank() == Min((day - 1) / 7, 3)
    ensures GetWeeklyReportPhase(day as real).Rank() <= GetWeeklyReportPhase(later as real).Rank()
  {
  }

  // ================================================================ underperformer criteria

  datatype WeeklyData = WeeklyData(qcAttitudeRate: real, qcOpsRate: real, qcEvalCount: real, csatLowScoreWeekly: real)

  datatype MonthlyData = MonthlyData(qaKnowledgeScore: Option<real>, csatLowScoreMonthly: real)

  datatype CriterionResult = CriterionResult(
    criterionId: CriterionId, flagged: bool, value: real, threshold: real,
    evalCount: Option<real>, minEvals: Option<real>, excluded: bool)

  /** A numeric option that JavaScript would treat as truthy (defined and non-zero). */
  predicate Truthy(o: Option<real>) { o.Some? && o.value != 0.0 }

  /** The switch of evaluateUnderperformingCriteria for one criterion; an excluded criterion is never flagged. */
  function EvalCriterion(c: CriterionConfig, w: WeeklyData, m: MonthlyData, tenureMonths: real): (r: CriterionResult)
    ensures r.criterionId == c.id && r.threshold == c.threshold && r.minEvals == c.minEvals
    ensures r.flagged ==> !r.excluded
    ensures r.evalCount.Some? <==> StartsWith(c.id.Text(), "qc_")
  {
    var evalCount := if StartsWith(c.id.Text(), "qc_") then Some(w.qcEvalCount) else None;
    var (value, flagged, excluded) :=
      match c.id
      case QaKnowledge =>
        if Truthy(c.minTenureMonths) && tenureMonths < c.minTenureMonths.value then
          (m.qaKnowledgeScore.GetOr(0.0), false, true)
        else if m.qaKnowledgeScore.None? then (0.0, false, true)
        else (m.qaKnowledgeScore.value, m.qaKnowledgeScore.value <= c.threshold, false)
      case QcAttitude =>
        if Truthy(c.minEvals) && w.qcEvalCount < c.minEvals.value then (w.qcAttitudeRate, false, true)
        else (w.qcAttitudeRate, w.qcAttitudeRate >= c.threshold, false)
      case QcOps =>
        if Truthy(c.minEvals) && w.qcEvalCount < c.minEvals.value then (w.qcOpsRate, false, true)
        else (w.qcOpsRate, w.qcOpsRate >= c.threshold, false)
      case CsatLowScore =>
        var weeklyFlagged := w.csatLowScoreWeekly >= c.threshold;
        var monthlyFlagged := m.csatLowScoreMonthly >= MonthlyThreshold(c.id).GetOr(c.threshold);
        (w.csatLowScoreWeekly, weeklyFlagged || monthlyFlagged, false);
    CriterionResult(c.id, if excluded then false else flagged, value, c.threshold, evalCount, c.minEvals, excluded)
  }

  /** evaluateUnderperformingCriteria: one result pushed per configured criterion, in configuration order. */
  method EvaluateUnderperformingCriteria(w: WeeklyData, m: MonthlyData, tenureMonths: real)
    returns (results: seq<CriterionResult>)
    ensures |results| == |UnderperformingCriteria|
    ensures forall i :: 0 <= i < |results| ==> results[i] == EvalCriterion(UnderperformingCriteria[i], w, m, tenureMonths)
  {
    results := [];
    var i := 0;
    while i < |UnderperformingCriteria|
      invariant 0 <= i <= |UnderperformingCriteria|
      invariant |results| == i
      invariant forall k :: 0 <= k < i ==> results[k] == EvalCriterion(UnderperformingCriteria[k], w, m, tenureMonths)
    {
      results := results + [EvalCriterion(UnderperformingCriteria[i], w, m, tenureMonths)];
      i := i + 1;
    }
  }

  function EvaluateAll(w: WeeklyData, m: MonthlyData, tenureMonths: real): seq<CriterionResult> {
    seq(|UnderperformingCriteria|, i requires 0 <= i < |UnderperformingCriteria| =>
      EvalCriterion(UnderperformingCriteria[i], w, m, tenureMonths))
  }

  /** QA knowledge: excluded below one month of tenure or without a score, otherwise flagged at 7 points or less. */
  lemma QaKnowledgeRule(w: WeeklyData, m: MonthlyData, t: real)
    ensures var r := EvaluateAll(w, m, t)[0];
      r.criterionId == QaKnowledge
      && (r.excluded <==> t < 1.0 || m.qaKnowledgeScore.None?)
      && (r.flagged <==> t >= 1.0 && m.qaKnowledgeScore.Some? && m.qaKnowledgeScore.value <= 7.0)
  {
  }

  /** QC attitude and QC ops: excluded below 10 evaluations, otherwise flagged from 15 % / 10 %. */
  lemma QcCriteriaRule(w: WeeklyData, m: MonthlyData, t: real)
    ensures var a := EvaluateAll(w, m, t)[1];
      a.criterionId == QcAttitude && a.evalCount == Some(w.qcEvalCount)
      && (a.excluded <==> w.qcEvalCount < 10.0)
      && (a.flagged <==> w.qcEvalCount >= 10.0 && w.qcAttitudeRate >= 15.0)
    ensures var o := EvaluateAll(w, m, t)[2];
      o.criterionId == QcOps && o.evalCount == Some(w.qcEvalCount)
      && (o.excluded <==> w.qcEvalCount < 10.0)
      && (o.flagged <==> w.qcEvalCount >= 10.0 && w.qcOpsRate >= 10.0)
  {
  }

  /** CSAT low scores: never excluded, flagged at 3 a week or 12 a month. */
  lemma CsatCriterionRule(w: WeeklyData, m: MonthlyData, t: real)
    ensures var r := EvaluateAll(w, m, t)[3];
      r.criterionId == CsatLowScore && !r.excluded && r.evalCount.None?
      && (r.flagged <==> w.csatLowScoreWeekly >= 3.0 || m.csatLowScoreMonthly >= 12.0)
  {
    assert "csat_low_score"[..3][0] == 'c';
  }

  // ================================================================ resolution

  function FindCriterion(criteria: seq<CriterionConfig>, id: string): (r: Option<CriterionConfig>)
    ensures r.Some? ==> r.value in criteria && r.value.id.Text() == id
    ensures r.None? ==> forall c :: c in criteria ==> c.id.Text() != id
    decreases |criteria|
  {
    if criteria == [] then None
    else if criteria[0].id.Text() == id then Some(criteria[0])
    else FindCriterion(criteria[1..], id)
  }

  predicate AllAtMost(values: seq<real>, threshold: real) {
    forall k :: 0 <= k < |values| ==> values[k] <= threshold
  }

  /** checkResolution: the next-month rule when it applies and a value is given, else the consecutive-weeks rule. */
  function CheckResolution(criterionId: string, recentWeeklyValues: seq<real>, nextMonthValue: Option<real>): bool {
    match FindCriterion(UnderperformingCriteria, criterionId)
    case None => false
    case Some(c) =>
      var res := c.resolution;
      if res.nextMonth && nextMonthValue.Some? && c.id == QaKnowledge then
        nextMonthValue.value >= res.threshold
      else if res.nextMonth && nextMonthValue.Some? && c.id == CsatLowScore then
        nextMonthValue.value <= MonthlyResolution(c.id).GetOr(res.threshold)
      else if res.consecutiveWeeks.Some? && res.consecutiveWeeks.value != 0 then
        var needed := res.consecutiveWeeks.value;
        if |recentWeeklyValues| < needed then false
        else AllAtMost(recentWeeklyValues[|recentWeeklyValues| - needed..], res.threshold)
      else false
  }

  predicate LastTwoAtMost(values: seq<real>, threshold: real) {
    |values| >= 2 && values[|values| - 1] <= threshold && values[|values| - 2] <= threshold
  }

  lemma AllAtMostLastTwo(values: seq<real>, threshold: real)
    requires |values| >= 2
    ensures AllAtMost(values[|values| - 2..], threshold) <==> LastTwoAtMost(values, threshold)
  {
    assert values[|values| - 2..][0] == values[|values| - 2];
    assert values[|values| - 2..][1] == values[|values| - 1];
  }

  /** The resolution rule of each criterion, and false for an id that is not configured. */
  lemma CheckResolutionRules(id: string, recent: seq<real>, next: Option<real>)
    ensures FindCriterion(UnderperformingCriteria, id).None? ==> !CheckResolution(id, recent, next)
    ensures id == "qa_knowledge" ==> (CheckResolution(id, recent, next) <==> next.Some? && next.value >= 7.0)
    ensures id == "qc_attitude" ==> (CheckResolution(id, recent, next) <==> LastTwoAtMost(recent, 15.0))
    ensures id == "qc_ops" ==> (CheckResolution(id, recent, next) <==> LastTwoAtMost(recent, 10.0))
    ensures id == "csat_low_score" && next.Some? ==> (CheckResolution(id, recent, next) <==> next.value <= 12.0)
    ensures id == "csat_low_score" && next.None? ==> (CheckResolution(id, recent, next) <==> LastTwoAtMost(recent, 3.0))
  {
    if id == "qa_knowledge" {
      QaKnowledgeResolution(recent, next);
    } else if id == "qc_attitude" {
      QcAttitudeResolution(recent, next);
    } else if id == "qc_ops" {
      QcOpsResolution(recent, next);
    } else if id == "csat_low_score" {
      CsatResolution(recent, next);
    }
  }

  lemma QaKnowledgeResolution(recent: seq<real>, next: Option<real>)
    ensures CheckResolution("qa_knowledge", recent, next) <==> next.Some? && next.value >= 7.0
  {
  }

  lemma QcAttitudeResolution(recent: seq<real>, next: Option<real>)
    ensures CheckResolution("qc_attitude", recent, next) <==> LastTwoAtMost(recent, 15.0)
  {
    if |recent| >= 2 {
      AllAtMostLastTwo(recent, 15.0);
    }
  }

  lemma QcOpsResolution(recent: seq<real>, next: Option<real>)
    ensures CheckResolution("qc_ops", recent, next) <==> LastTwoAtMost(recent, 10.0)
  {
    if |recent| >= 2 {
      AllAtMostLastTwo(recent, 10.0);
    }
  }

  lemma CsatResolution(recent: seq<real>, next: Option<real>)
    ensures next.Some? ==> (CheckResolution("csat_low_score", recent, next) <==> next.value <= 12.0)
    ensures next.None? ==> (CheckResolution("csat_low_score", recent, next) <==> LastTwoAtMost(recent, 3.0))
  {
    if |recent| >= 2 {
      AllAtMostLastTwo(recent, 3.0);
    }
  }

  // ================================================================ low quality and status

  datatype LowQualityReason = ConsecutiveFlaggedWeeks(weeks: real) | SimultaneousCriteria(count: real)

  datatype LowQualityStatus = LowQualityStatus(isLowQuality: bool, reason: Option<LowQualityReason>, isNewHireExempt: bool)

  /**
   * determineLowQualityStatus: low quality from 3 consecutive flagged weeks
   * (checked first) or 3 criteria flagged in the month; the new-hire exemption
   * is decided by tenure alone.
   */
  function DetermineLowQualityStatus(consecutiveWeeks: real, monthlyFlaggedCriteriaCount: real, tenureMonths: real)
    : (s: LowQualityStatus)
    ensures s.isLowQuality <==> consecutiveWeeks >= 3.0 || monthlyFlaggedCriteriaCount >= 3.0
    ensures s.reason.Some? <==> s.isLowQuality
    ensures consecutiveWeeks >= 3.0 ==> s.reason == Some(ConsecutiveFlaggedWeeks(consecutiveWeeks))
    ensures s.isNewHireExempt <==> tenureMonths < 3.0
  {
    var exempt := tenureMonths < NewHireExemptMonths;
    if consecutiveWeeks >= ConsecutiveWeeksForLowQuality then
      LowQualityStatus(true, Some(ConsecutiveFlaggedWeeks(consecutiveWeeks)), exempt)
    else if monthlyFlaggedCriteriaCount >= SimultaneousCriteriaForImmediate then
      LowQualityStatus(true, Some(SimultaneousCriteria(monthlyFlaggedCriteriaCount)), exempt)
    else LowQualityStatus(false, None, exempt)
  }

  datatype Agent = Agent(agentId: string, agentName: string, center: string, service: string, channel: string, tenureMonths: real)

  datatype UnderperformingStatus = UnderperformingStatus(
    agent: Agent, criteria: seq<CriterionResult>, flaggedCount: nat, isFlagged: bool, consecutiveWeeks: real,
    isLowQuality: bool, lowQualityReason: Option<LowQualityReason>, isNewHireExempt: bool,
    resolvedCriteria: seq<CriterionId>, allResolved: bool)

  function CountFlagged(rs: seq<CriterionResult>): (n: nat)
    ensures n <= |rs|
    decreases |rs|
  {
    if rs == [] then 0 else (if rs[0].flagged then 1 else 0) + CountFlagged(rs[1..])
  }

  /** buildUnderperformingStatus. */
  function BuildUnderperformingStatus(
    agent: Agent, w: WeeklyData, m: MonthlyData, consecutiveWeeks: real, monthlyFlaggedCriteriaCount: real,
    resolvedCriteria: seq<CriterionId>): UnderperformingStatus
  {
    var criteria := EvaluateAll(w, m, agent.tenureMonths);
    var flaggedCount := CountFlagged(criteria);
    var low := DetermineLowQualityStatus(consecutiveWeeks, monthlyFlaggedCriteriaCount, agent.tenureMonths);
    UnderperformingStatus(agent, criteria, flaggedCount, flaggedCount > 0, consecutiveWeeks,
      low.isLowQuality, low.reason, low.isNewHireExempt, resolvedCriteria,
      |resolvedCriteria| >= flaggedCount && flaggedCount > 0)
  }

  lemma CountFlaggedOfFour(rs: seq<CriterionResult>)
    requires |rs| == 4
    ensures CountFlagged(rs) == (if rs[0].flagged then 1 else 0) + (if rs[1].flagged then 1 else 0)
                              + (if rs[2].flagged then 1 else 0) + (if rs[3].flagged then 1 else 0)
  {
    var r1, r2, r3 := rs[1..], rs[2..], rs[3..];
    assert r3[1..] == [];
    assert r2[1..] == r3;
    assert r1[1..] == r2;
    assert CountFlagged(r3) == if rs[3].flagged then 1 else 0;
    assert CountFlagged(r2) == (if rs[2].flagged then 1 else 0) + CountFlagged(r3);
    assert CountFlagged(r1) == (if rs[1].flagged then 1 else 0) + CountFlagged(r2);
  }

  /** A positive count means some criterion is flagged, and conversely. */
  lemma {:induction false} CountFlaggedPositive(rs: seq<CriterionResult>)
    ensures CountFlagged(rs) > 0 <==> exists k :: 0 <= k < |rs| && rs[k].flagged
    decreases |rs|
  {
    if rs != [] {
      CountFlaggedPositive(rs[1..]);
      if exists k :: 0 <= k < |rs| && rs[k].flagged {
        var k :| 0 <= k < |rs| && rs[k].flagged;
        if k > 0 {
          assert rs[1..][k - 1].flagged;
        }
      }
      if exists k :: 0 <= k < |rs| - 1 && rs[1..][k].flagged {
        var k :| 0 <= k < |rs| - 1 && rs[1..][k].flagged;
        assert rs[k + 1].flagged;
      }
    }
  }

  /**
   * The status holds the four evaluated criteria and counts the flagged ones;
   * it is flagged iff some criterion is, and all-resolved iff it is flagged and
   * at least as many criteria are resolved as are flagged; the low-quality
   * fields are determineLowQualityStatus's; an agent under one month with fewer
   * than 10 QC evaluations can be flagged on CSAT only.
   */
  lemma UnderperformingStatusFacts(
    agent: Agent, w: WeeklyData, m: MonthlyData, cw: real, mc: real, resolved: seq<CriterionId>)
    ensures var s := BuildUnderperformingStatus(agent, w, m, cw, mc, resolved);
      && s.agent == agent && s.consecutiveWeeks == cw && s.resolvedCriteria == resolved
      && s.criteria == EvaluateAll(w, m, agent.tenureMonths) && |s.criteria| == 4
      && s.flaggedCount == (if s.criteria[0].flagged then 1 else 0) + (if s.criteria[1].flagged then 1 else 0)
                         + (if s.criteria[2].flagged then 1 else 0) + (if s.criteria[3].flagged then 1 else 0)
      && (s.isFlagged <==> exists k :: 0 <= k < 4 && s.criteria[k].flagged)
      && (s.allResolved <==> s.flaggedCount > 0 && |resolved| >= s.flaggedCount)
      && (s.isLowQuality, s.lowQualityReason, s.isNewHireExempt)
         == (var low := DetermineLowQualityStatus(cw, mc, agent.tenureMonths); (low.isLowQuality, low.reason, low.isNewHireExempt))
      && (agent.tenureMonths < 1.0 && w.qcEvalCount < 10.0 ==> s.flaggedCount <= 1)
  {
    var rs := EvaluateAll(w, m, agent.tenureMonths);
    CountFlaggedPositive(rs);
    CountFlaggedOfFour(rs);
    QaKnowledgeRule(w, m, agent.tenureMonths);
    QcCriteriaRule(w, m, agent.tenureMonths);
  }
}
