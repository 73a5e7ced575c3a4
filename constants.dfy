/**
 * Shared constants and threshold helpers of the dashboard (lib/constants.ts):
 * QC item counts, centre target rates, service-name normalisation, tenure
 * bands, QA score grades, the eight coaching categories with the QC-item to
 * category map, the coaching tiers and the four underperformer criteria.
 */
module Constants {
  import opened Wrappers
  import opened Text

  const QcAttitudeItemCount: nat := 5
  const QcConsultationItemCount: nat := 11
  const QcTotalItemCount: nat := QcAttitudeItemCount + QcConsultationItemCount

  // ---------------------------------------------------------------- centre targets

  datatype QcTargets = QcTargets(att: real, ops: real)

  /** CENTER_TARGET_RATES: attitude and consultation-error target rates (%) per centre. */
  const CenterTargetRates: map<string, QcTargets> :=
    map["용산" := QcTargets(3.3, 3.9), "광주" := QcTargets(2.7, 1.7), "전체" := QcTargets(3.0, 3.0)]

  /** getCenterQCTargets: explicit cases for the two centres, the all-centre row otherwise. */
  function CenterQcTargets(center: string): QcTargets {
    if center == "용산" then QcTargets(3.3, 3.9)
    else if center == "광주" then QcTargets(2.7, 1.7)
    else QcTargets(3.0, 3.0)
  }

  /** The helper agrees with a lookup in the rate table that falls back to its "전체" row. */
  lemma CenterQcTargetsIsTableLookup(center: string)
    ensures CenterQcTargets(center)
         == if center in CenterTargetRates then CenterTargetRates[center] else CenterTargetRates["전체"]
  {
  }

  // ---------------------------------------------------------------- service names

  /** SERVICE_NORMALIZE_MAP: raw or combined service names to the display name. */
  const ServiceNormalizeMap: map<string, string> := map[
    "퀵" := "배송", "퀵배송" := "배송", "퀵·배송" := "배송", "도보배송" := "배송", "한차배송" := "배송",
    "심사" := "택시",
    "바이크" := "바이크/마스", "마스" := "바이크/마스", "MaaS" := "바이크/마스",
    "바이크&MaaS" := "바이크/마스", "바이크/MaaS" := "바이크/마스",
    "주차" := "주차/카오너", "카오너" := "주차/카오너", "주차/카오너 채팅" := "주차/카오너",
    "주차&카오너" := "주차/카오너",
    "택시 / 유선" := "택시", "택시 / 채팅" := "택시",
    "대리 / 유선" := "대리", "대리 / 채팅" := "대리",
    "주차&카오너 / 채팅" := "주차/카오너", "주차&카오너 / 유선" := "주차/카오너",
    "바이크&MaaS / 채팅" := "바이크/마스", "바이크&MaaS / 유선" := "바이크/마스"
  ]

  /** INVALID_SERVICE_NAMES. */
  const InvalidServiceNames: seq<string> := ["파트너가이드", "카카오 T", "카카오T", "#VALUE!", "", "지금여기", "Staff"]

  /** `SERVICE_NORMALIZE_MAP[raw] || raw`: every mapped value is non-empty, so this is a lookup with default. */
  function NormalizeService(raw: string): (r: string)
    ensures raw in ServiceNormalizeMap ==> r == ServiceNormalizeMap[raw]
    ensures raw !in ServiceNormalizeMap ==> r == raw
  {
    if raw in ServiceNormalizeMap && ServiceNormalizeMap[raw] != "" then ServiceNormalizeMap[raw] else raw
  }

  /** displayServiceName: the empty name is returned as is, any other goes through the map. */
  function DisplayServiceName(raw: string): string {
    if raw == "" then raw else NormalizeService(raw)
  }

  /** No display name is itself a key of the map, so normalising twice changes nothing. */
  lemma DisplayServiceNameIdempotent(raw: string)
    ensures DisplayServiceName(DisplayServiceName(raw)) == DisplayServiceName(raw)
  {
    if raw in ServiceNormalizeMap {
      var v := ServiceNormalizeMap[raw];
      assert v in {"배송", "택시", "바이크/마스", "주차/카오너", "대리"};
      assert v !in ServiceNormalizeMap;
    }
  }

  // ---------------------------------------------------------------- tenure

  datatype TenureBand = NewHire | Early | Standard | Experienced {
    function Rank(): nat {
      match this
      case NewHire => 0
      case Early => 1
      case Standard => 2
      case Experienced => 3
    }
  }

  /** getTenureBand: below 2 months new hire, below 6 early, below 12 standard, else experienced. */
  function GetTenureBand(months: real): (b: TenureBand)
    ensures b == NewHire <==> months < 2.0
    ensures b == Early <==> 2.0 <= months < 6.0
    ensures b == Standard <==> 6.0 <= months < 12.0
    ensures b == Experienced <==> 12.0 <= months
  {
    if months < 2.0 then NewHire
    else if months < 6.0 then Early
    else if months < 12.0 then Standard
    else Experienced
  }

  lemma TenureBandMonotone(m1: real, m2: real)
    requires m1 <= m2
    ensures GetTenureBand(m1).Rank() <= GetTenureBand(m2).Rank()
  {
  }

  const TenureCategories: seq<string> := ["3개월 미만", "3개월 이상", "6개월 이상", "12개월 이상"]

  /** getTenureCategory: index into TenureCategories by the thresholds 3, 6 and 12. */
  function GetTenureCategory(months: real): (c: string)
    ensures c in TenureCategories
    ensures c == TenureCategories[TenureCategoryIndex(months)]
  {
    if months < 3.0 then "3개월 미만"
    else if months < 6.0 then "3개월 이상"
    else if months < 12.0 then "6개월 이상"
    else "12개월 이상"
  }

  function TenureCategoryIndex(months: real): (i: nat)
    ensures i < |TenureCategories|
    ensures (i == 0 <==> months < 3.0) && (i <= 1 <==> months < 6.0) && (i <= 2 <==> months < 12.0)
  {
    if months < 3.0 then 0 else if months < 6.0 then 1 else if months < 12.0 then 2 else 3
  }

  /** The category is the entry at a band index that never decreases with tenure. */
  lemma TenureCategoryMonotone(m1: real, m2: real)
    requires m1 <= m2
    ensures GetTenureCategory(m1) == TenureCategories[TenureCategoryIndex(m1)]
    ensures TenureCategoryIndex(m1) <= TenureCategoryIndex(m2)
  {
  }

  // ---------------------------------------------------------------- QA grades

  datatype Grade = Grade(name: string, min: real)

  const QaScoreGrades: seq<Grade> :=
    [Grade("우수", 92.0), Grade("양호", 90.0), Grade("보통", 88.0), Grade("미흡", 85.0), Grade("부진", 0.0)]

  /** Array.prototype.find over the grades: the index of the first grade whose minimum the score reaches. */
  function FindGrade(grades: seq<Grade>, score: real, from: nat): (r: Option<nat>)
    requires from <= |grades|
    ensures r.Some? ==> from <= r.value < |grades| && score >= grades[r.value].min
    ensures r.Some? ==> forall j :: from <= j < r.value ==> score < grades[j].min
    ensures r.None? ==> forall j :: from <= j < |grades| ==> score < grades[j].min
    decreases |grades| - from
  {
    if from == |grades| then None
    else if score >= grades[from].min then Some(from)
    else FindGrade(grades, score, from + 1)
  }

  /** getQAScoreGrade: the first grade reached, or the last entry when none is. */
  function GetQaScoreGrade(score: real): (g: Grade)
    ensures g in QaScoreGrades
    ensures g.name == "우수" <==> score >= 92.0
    ensures g.name == "양호" <==> 90.0 <= score < 92.0
    ensures g.name == "보통" <==> 88.0 <= score < 90.0
    ensures g.name == "미흡" <==> 85.0 <= score < 88.0
    ensures g.name == "부진" <==> score < 85.0
  {
    match FindGrade(QaScoreGrades, score, 0)
    case Some(i) => QaScoreGrades[i]
    case None => QaScoreGrades[|QaScoreGrades| - 1]
  }

  /** Every score of at least 0 is graded by the table itself, and a higher score never gets a lower grade. */
  lemma QaScoreGradeTotalAndMonotone(s1: real, s2: real)
    requires 0.0 <= s1 <= s2
    ensures FindGrade(QaScoreGrades, s1, 0).Some? && FindGrade(QaScoreGrades, s2, 0).Some?
    ensures FindGrade(QaScoreGrades, s2, 0).value <= FindGrade(QaScoreGrades, s1, 0).value
  {
    var i2 := FindGrade(QaScoreGrades, s2, 0);
    assert s2 >= QaScoreGrades[4].min;
    var i1 := FindGrade(QaScoreGrades, s1, 0);
    assert s1 >= QaScoreGrades[4].min;
    assert s2 >= QaScoreGrades[i1.value].min;
  }

  // ---------------------------------------------------------------- coaching categories

  datatype CategoryId = Greeting | Empathy | Inquiry | Knowledge | Processing | Records | Satisfaction | Communication

  datatype CategoryDef = CategoryDef(
    id: CategoryId, title: string, qcItems: seq<string>, qaItems: seq<string>, qcWeight: real, qaWeight: real)

  /** COACHING_CATEGORIES, in declaration order. */
  const CoachingCategories: seq<CategoryDef> := [
    CategoryDef(Greeting, "인사/예절", ["첫인사끝인사누락", "추가문의누락"], ["greetingScore"], 0.6, 0.4),
    CategoryDef(Empathy, "공감/감성케어", ["공감표현누락", "사과표현누락", "불친절"],
                ["empathyCare", "listeningFocus", "responseExpression"], 0.5, 0.5),
    CategoryDef(Inquiry, "문의파악/탐색", ["본인확인누락", "필수탐색누락"],
                ["identityCheck", "requiredSearch", "inquiryComprehension"], 0.5, 0.5),
    CategoryDef(Knowledge, "업무지식/안내", ["오안내", "가이드미준수"], ["businessKnowledge", "explanationAbility"], 0.4, 0.4),
    CategoryDef(Processing, "전산처리", ["전산처리누락", "전산처리미흡정정", "전산조작미흡오류", "콜픽트립ID매핑누락오기재"],
                ["systemProcessing"], 0.6, 0.4),
    CategoryDef(Records, "이력/기록관리", ["상담이력기재미흡", "플래그키워드누락오기재", "상담유형오설정"],
                ["consultationHistory"], 0.6, 0.4),
    CategoryDef(Satisfaction, "체감만족/신속성", [], ["perceivedSatisfaction", "promptness"], 0.0, 0.6),
    CategoryDef(Communication, "의사소통", [], ["languageExpression", "voicePerformance", "spelling"], 0.0, 1.0)
  ]

  function ItemsMap(items: seq<string>, id: CategoryId): (m: map<string, CategoryId>)
    ensures forall x :: x in m <==> x in items
    ensures forall x :: x in m ==> m[x] == id
  {
    map x | x in items :: id
  }

  /** The map the module-load loop builds: later categories overwrite earlier ones for a shared item. */
  function ErrorMap(cats: seq<CategoryDef>): map<string, CategoryId>
    decreases |cats|
  {
    if cats == [] then map[]
    else ErrorMap(cats[..|cats| - 1]) + ItemsMap(cats[|cats| - 1].qcItems, cats[|cats| - 1].id)
  }

  /** The loop that fills QC_ERROR_TO_CATEGORY, category by category and item by item. */
  lemma ItemsMapExtend(base: map<string, CategoryId>, items: seq<string>, j: nat, id: CategoryId)
    requires j < |items|
    ensures (base + ItemsMap(items[..j], id))[items[j] := id] == base + ItemsMap(items[..j + 1], id)
  {
    assert items[..j + 1] == items[..j] + [items[j]];
  }

  method BuildQcErrorToCategory(cats: seq<CategoryDef>) returns (m: map<string, CategoryId>)
    ensures m == ErrorMap(cats)
  {
    m := map[];
    var i := 0;
    while i < |cats|
      invariant 0 <= i <= |cats|
      invariant m == ErrorMap(cats[..i])
    {
      var items := cats[i].qcItems;
      ghost var base := m;
      var j := 0;
      while j < |items|
        invariant 0 <= j <= |items|
        invariant m == base + ItemsMap(items[..j], cats[i].id)
      {
        ItemsMapExtend(base, items, j, cats[i].id);
        m := m[items[j] := cats[i].id];
        j := j + 1;
      }
      assert items[..j] == items;
      assert cats[..i + 1][..i] == cats[..i];
      i := i + 1;
    }
    assert cats[..i] == cats;
  }

  predicate QcItemsDisjoint(cats: seq<CategoryDef>) {
    forall i, j, x :: 0 <= i < j < |cats| && x in cats[i].qcItems ==> x !in cats[j].qcItems
  }

  /** With disjoint item lists, the map sends each item to the one category that lists it. */
  lemma {:induction false} ErrorMapLookup(cats: seq<CategoryDef>, i: nat, x: string)
    requires QcItemsDisjoint(cats) && i < |cats| && x in cats[i].qcItems
    ensures x in ErrorMap(cats) && ErrorMap(cats)[x] == cats[i].id
    decreases |cats|
  {
    var n := |cats| - 1;
    if i < n {
      assert QcItemsDisjoint(cats[..n]);
      assert cats[..n][i] == cats[i];
      ErrorMapLookup(cats[..n], i, x);
      assert x !in cats[n].qcItems;
    }
  }

  lemma {:induction false} ErrorMapKeys(cats: seq<CategoryDef>, x: string)
    ensures x in ErrorMap(cats) <==> exists i :: 0 <= i < |cats| && x in cats[i].qcItems
    decreases |cats|
  {
    if cats != [] {
      var n := |cats| - 1;
      ErrorMapKeys(cats[..n], x);
      if x in ErrorMap(cats[..n]) {
        var i :| 0 <= i < n && x in cats[..n][i].qcItems;
        assert x in cats[i].qcItems;
      }
      if exists i :: 0 <= i < |cats| && x in cats[i].qcItems {
        var i :| 0 <= i < |cats| && x in cats[i].qcItems;
        if i < n {
          assert x in cats[..n][i].qcItems;
        }
      }
    }
  }

  /** The categories' QC item lists, concatenated in order. */
  function AllQcItems(cats: seq<CategoryDef>): seq<string>
    decreases |cats|
  {
    if cats == [] then [] else cats[0].qcItems + AllQcItems(cats[1..])
  }

  function CountQcItems(cats: seq<CategoryDef>): nat
    decreases |cats|
  {
    if cats == [] then 0 else |cats[0].qcItems| + CountQcItems(cats[1..])
  }

  lemma {:induction false} CountQcItemsIsLength(cats: seq<CategoryDef>)
    ensures |AllQcItems(cats)| == CountQcItems(cats)
    decreases |cats|
  {
    if cats != [] {
      CountQcItemsIsLength(cats[1..]);
    }
  }

  predicate Distinct(s: seq<string>) {
    forall a, b :: 0 <= a < b < |s| ==> s[a] != s[b]
  }

  lemma {:induction false} InAllQcItems(cats: seq<CategoryDef>, j: nat, x: string)
    requires j < |cats| && x in cats[j].qcItems
    ensures x in AllQcItems(cats)
    decreases |cats|
  {
    if j > 0 {
      assert cats[1..][j - 1] == cats[j];
      InAllQcItems(cats[1..], j - 1, x);
    }
  }

  lemma DistinctSplit(a: seq<string>, r: seq<string>)
    requires Distinct(a + r)
    ensures Distinct(r)
    ensures forall x :: x in a ==> x !in r
  {
    forall p, q | 0 <= p < q < |r| ensures r[p] != r[q] {
      assert (a + r)[|a| + p] == r[p] && (a + r)[|a| + q] == r[q];
    }
    forall x | x in a ensures x !in r {
      var p :| 0 <= p < |a| && a[p] == x;
      forall q | 0 <= q < |r| ensures r[q] != x {
        assert (a + r)[p] == x && (a + r)[|a| + q] == r[q];
      }
    }
  }

  /** No QC item repeated across the concatenated lists means no item in two categories. */
  lemma {:induction false} DisjointFromDistinct(cats: seq<CategoryDef>)
    requires Distinct(AllQcItems(cats))
    ensures QcItemsDisjoint(cats)
    decreases |cats|
  {
    if cats != [] {
      DistinctSplit(cats[0].qcItems, AllQcItems(cats[1..]));
      DisjointFromDistinct(cats[1..]);
      forall i, j, x | 0 <= i < j < |cats| && x in cats[i].qcItems ensures x !in cats[j].qcItems {
        if i == 0 {
          if x in cats[j].qcItems {
            InAllQcItems(cats[1..], j - 1, x);
          }
        } else {
          assert cats[1..][i - 1] == cats[i] && cats[1..][j - 1] == cats[j];
        }
      }
    }
  }

  const QcItemKeys: seq<string> := [
    "첫인사끝인사누락", "추가문의누락", "공감표현누락", "사과표현누락", "불친절", "본인확인누락", "필수탐색누락",
    "오안내", "가이드미준수", "전산처리누락", "전산처리미흡정정", "전산조작미흡오류", "콜픽트립ID매핑누락오기재",
    "상담이력기재미흡", "플래그키워드누락오기재", "상담유형오설정"
  ]

  lemma QcItemKeysDistinct()
    ensures Distinct(QcItemKeys)
  {
  }

  lemma AllQcItemsOfCoachingCategories()
    ensures AllQcItems(CoachingCategories) == QcItemKeys
  {
    var c := CoachingCategories;
    assert c == c[..3] + c[3..];
    AllQcItemsAppend(c[..3], c[3..]);
    FirstCategoriesItems();
    LastCategoriesItems();
    assert QcItemKeys == QcItemKeys[..7] + QcItemKeys[7..];
  }

  lemma FirstCategoriesItems()
    ensures AllQcItems(CoachingCategories[..3]) == QcItemKeys[..7]
  {
    var c := CoachingCategories[..3];
    var d := c[1..];
    var e := d[1..];
    assert e[1..] == [];
    assert AllQcItems(e) == e[0].qcItems;
    assert AllQcItems(c) == c[0].qcItems + (d[0].qcItems + e[0].qcItems);
  }

  lemma LastCategoriesItems()
    ensures AllQcItems(CoachingCategories[3..]) == QcItemKeys[7..]
  {
    var c := CoachingCategories[3..];
    var c1, c2, c3, c4 := c[1..], c[2..], c[3..], c[4..];
    assert c4[1..] == [];
    assert c3[1..] == c4;
    assert c2[1..] == c3;
    assert c1[1..] == c2;
    assert AllQcItems(c4) == [];
    assert AllQcItems(c3) == [];
    assert AllQcItems(c2) == c2[0].qcItems;
    assert AllQcItems(c) == c[0].qcItems + (c1[0].qcItems + c2[0].qcItems);
  }

  lemma {:induction false} AllQcItemsAppend(xs: seq<CategoryDef>, ys: seq<CategoryDef>)
    ensures AllQcItems(xs + ys) == AllQcItems(xs) + AllQcItems(ys)
    decreases |xs|
  {
    if xs == [] {
      assert xs + ys == ys;
    } else {
      assert (xs + ys)[1..] == xs[1..] + ys;
      AllQcItemsAppend(xs[1..], ys);
      assert AllQcItems(xs + ys) == xs[0].qcItems + (AllQcItems(xs[1..]) + AllQcItems(ys));
    }
  }

  lemma CoachingCategoriesDisjoint()
    ensures QcItemsDisjoint(CoachingCategories)
  {
    AllQcItemsOfCoachingCategories();
    QcItemKeysDistinct();
    DisjointFromDistinct(CoachingCategories);
  }

  lemma CoachingCategoriesItemCount()
    ensures CountQcItems(CoachingCategories) == 16
  {
    var c := CoachingCategories;
    var c1, c2, c3, c4, c5, c6, c7 := c[1..], c[2..], c[3..], c[4..], c[5..], c[6..], c[7..];
    assert c7[1..] == [];
    assert c6[1..] == c7;
    assert c5[1..] == c6;
    assert c4[1..] == c5;
    assert c3[1..] == c4;
    assert c2[1..] == c3;
    assert c1[1..] == c2;
  }

  /** The eight categories list 16 QC items, one per QC column, and no item in two categories. */
  lemma CoachingCategoriesCoverQcItems()
    ensures QcItemsDisjoint(CoachingCategories)
    ensures |AllQcItems(CoachingCategories)| == QcTotalItemCount
  {
    CoachingCategoriesDisjoint();
    CoachingCategoriesItemCount();
    CountQcItemsIsLength(CoachingCategories);
  }

  /** QC_ERROR_TO_CATEGORY: each listed item maps to the category that lists it, unlisted strings are absent. */
  lemma QcErrorToCategoryCorrect(i: nat, x: string)
    requires i < |CoachingCategories| && x in CoachingCategories[i].qcItems
    ensures x in ErrorMap(CoachingCategories) && ErrorMap(CoachingCategories)[x] == CoachingCategories[i].id
  {
    CoachingCategoriesCoverQcItems();
    ErrorMapLookup(CoachingCategories, i, x);
  }

  // ---------------------------------------------------------------- coaching tiers

  datatype TierLevel = Normal | Caution | AtRisk | Severe | Urgent {
    /** Position in the escalation order 일반 < 주의 < 위험 < 심각 < 긴급. */
    function Rank(): nat {
      match this
      case Normal => 0
      case Caution => 1
      case AtRisk => 2
      case Severe => 3
      case Urgent => 4
    }
    function Label(): string {
      match this
      case Normal => "일반"
      case Caution => "주의"
      case AtRisk => "위험"
      case Severe => "심각"
      case Urgent => "긴급"
    }
  }

  /** The level at a rank of the escalation order (`tierOrder[i]`). */
  function TierAt(rank: nat): (t: TierLevel)
    requires rank <= 4
    ensures t.Rank() == rank
  {
    if rank == 0 then Normal else if rank == 1 then Caution else if rank == 2 then AtRisk
    else if rank == 3 then Severe else Urgent
  }

  datatype TierConfig = TierConfig(tier: TierLevel, minRisk: real, maxRisk: real, frequency: string)

  const CoachingTiers: seq<TierConfig> := [
    TierConfig(Normal, 0.0, 20.0, "자율"),
    TierConfig(Caution, 20.0, 40.0, "월1회"),
    TierConfig(AtRisk, 40.0, 60.0, "격주"),
    TierConfig(Severe, 60.0, 80.0, "주1회"),
    TierConfig(Urgent, 80.0, 100.0, "주2회")
  ]

  predicate InBand(t: TierConfig, risk: real) { t.minRisk <= risk < t.maxRisk }

  /** The bands are ordered by rank and every risk in [0, 100) lies in exactly one of them. */
  lemma CoachingTiersPartition(risk: real)
    ensures forall i :: 0 <= i < |CoachingTiers| ==> CoachingTiers[i].tier.Rank() == i
    ensures 0.0 <= risk < 100.0 ==> exists i :: 0 <= i < |CoachingTiers| && InBand(CoachingTiers[i], risk)
    ensures forall i, j :: 0 <= i < j < |CoachingTiers| ==> !(InBand(CoachingTiers[i], risk) && InBand(CoachingTiers[j], risk))
  {
    if 0.0 <= risk < 100.0 {
      var i: nat := if risk < 20.0 then 0 else if risk < 40.0 then 1 else if risk < 60.0 then 2 else if risk < 80.0 then 3 else 4;
      assert InBand(CoachingTiers[i], risk);
    }
  }

  // ---------------------------------------------------------------- underperformer criteria

  datatype CriterionId = QaKnowledge | QcAttitude | QcOps | CsatLowScore {
    function Text(): string {
      match this
      case QaKnowledge => "qa_knowledge"
      case QcAttitude => "qc_attitude"
      case QcOps => "qc_ops"
      case CsatLowScore => "csat_low_score"
    }
  }

  datatype Direction = Lte | Gte

  datatype Resolution = Resolution(threshold: real, consecutiveWeeks: Option<nat>, nextMonth: bool)

  datatype CriterionConfig = CriterionConfig(
    id: CriterionId, threshold: real, direction: Direction,
    minTenureMonths: Option<real>, minEvals: Option<real>, resolution: Resolution)

  /** UNDERPERFORMING_CRITERIA, in configuration order. */
  const UnderperformingCriteria: seq<CriterionConfig> := [
    CriterionConfig(QaKnowledge, 7.0, Lte, Some(1.0), None, Resolution(7.0, None, true)),
    CriterionConfig(QcAttitude, 15.0, Gte, None, Some(10.0), Resolution(15.0, Some(2), false)),
    CriterionConfig(QcOps, 10.0, Gte, None, Some(10.0), Resolution(10.0, Some(2), false)),
    CriterionConfig(CsatLowScore, 3.0, Gte, None, None, Resolution(3.0, Some(2), true))
  ]

  /** UNDERPERFORMING_MONTHLY_THRESHOLDS and UNDERPERFORMING_MONTHLY_RESOLUTION (csat only). */
  function MonthlyThreshold(id: CriterionId): Option<real> {
    if id == CsatLowScore then Some(12.0) else None
  }
  function MonthlyResolution(id: CriterionId): Option<real> {
    if id == CsatLowScore then Some(12.0) else None
  }

  /** LOW_QUALITY_RULES. */
  const ConsecutiveWeeksForLowQuality: real := 3.0
  const SimultaneousCriteriaForImmediate: real := 3.0
  const NewHireExemptMonths: real := 3.0

  /** BAYESIAN_CONFIG. */
  const MinEvalsForHigh: real := 15.0
  const MinEvalsForModerate: real := 5.0
  const ShrinkageStrength: real := 5.0

  /** TREND_CONFIG.minWeeks. */
  const TrendMinWeeks: nat := 3
}
