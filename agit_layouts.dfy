/**
 * The two underperformer workbook layouts of the Agit importer
 * (scripts/parse-agit-v2.py): the Yongsan sheet (Y/N flags under a week
 * header row, the low-quality flag in column W) and the Gwangju sheet
 * (numbered service sections, count columns, flag columns found by their
 * headers).
 */
module AgitLayouts {
  import opened Wrappers
  import opened Text
  import opened AgitSheets
  import AgitReport

  // ================================================================ records

  datatype Date = Date(year: int, month: nat, day: nat)

  /** What a sheet name gives every record of that sheet. */
  datatype SheetInfo = SheetInfo(name: string, month: nat, week: nat, weekLabel: string, reportDate: Option<Date>, file: string)

  /** One underperforming agent of one week (the record id digest and ISO week are not modelled). */
  datatype UnderRecord = UnderRecord(
    center: string, sheet: string, weekLabel: string, reportDate: Option<Date>,
    agentName: string, agentId: string, vertical: string, service: string, channel: string,
    tenure: Option<int>, attError: Option<bool>, opsError: Option<bool>,
    reason: string, note: Option<string>, sourceFile: string)

  // ================================================================ sheet names

  /** `\(?\s*(\d{2})년\s*\)?\s*` at `p`: the two year digits and where the group ends. */
  function YearGroupAt(s: string, p: nat): (r: Option<(string, nat)>)
    requires p <= |s|
    ensures r.Some? ==> |r.value.0| == 2 && AllDigits(r.value.0) && p + 3 <= r.value.1 <= |s|
  {
    var a := if p < |s| && s[p] == '(' then p + 1 else p;
    var q := SkipBy(s, a, IsPySpace);
    if q + 2 < |s| && IsDigit(s[q]) && IsDigit(s[q + 1]) && s[q + 2] == '년' then
      var j := SkipBy(s, q + 3, IsPySpace);
      var e := if j < |s| && s[j] == ')' then SkipBy(s, j + 1, IsPySpace) else j;
      Some((s[q..q + 2], e))
    else None
  }

  /** The three groups of a match: an optional two-digit year, one or two month digits, one week digit. */
  predicate PeriodGroups(g: (Option<string>, string, string)) {
    (g.0.Some? ==> |g.0.value| == 2 && AllDigits(g.0.value))
    && 1 <= |g.1| <= 2 && AllDigits(g.1) && |g.2| == 1 && AllDigits(g.2)
  }

  /**
   * `(?:\(?\s*(\d{2})년\s*\)?\s*)?(\d{1,2})월\s*(\d)주차` at `p`: with the year
   * group when what follows it matches, else without it.
   */
  function YearPeriodAt(s: string, p: nat): (r: Option<(Option<string>, string, string)>)
    requires p <= |s|
    ensures r.Some? ==> PeriodGroups(r.value)
    ensures MonthWeekAt(s, p).Some? ==> r.Some?
    ensures r.Some? && r.value.0.None? ==> MonthWeekAt(s, p) == Some((r.value.1, r.value.2))
    ensures r.Some? && r.value.0.Some? ==> exists e :: p < e <= |s| && MonthWeekAt(s, e) == Some((r.value.1, r.value.2))
  {
    var y := YearGroupAt(s, p);
    if y.Some? && MonthWeekAt(s, y.value.1).Some? then
      Some((Some(y.value.0), MonthWeekAt(s, y.value.1).value.0, MonthWeekAt(s, y.value.1).value.1))
    else if MonthWeekAt(s, p).Some? then
      Some((None, MonthWeekAt(s, p).value.0, MonthWeekAt(s, p).value.1))
    else None
  }

  /** re.search for the Yongsan sheet pattern: the groups of the leftmost match. */
  function SearchYearPeriod(s: string): (r: Option<(Option<string>, string, string)>)
    ensures r.None? <==> forall q :: 0 <= q <= |s| ==> YearPeriodAt(s, q).None?
    ensures r.Some? ==> exists q :: 0 <= q <= |s| && YearPeriodAt(s, q) == r
    ensures r.Some? ==> PeriodGroups(r.value)
  {
    var ok := (q: nat) => q <= |s| && YearPeriodAt(s, q).Some?;
    var q := FirstWhere(|s|, 0, ok);
    assert forall q :: 0 <= q <= |s| ==> (ok(q) <==> YearPeriodAt(s, q).Some?);
    if q.Some? then YearPeriodAt(s, q.value) else None
  }

  /**
   * A sheet name has the Yongsan pattern exactly when it has the plain
   * month/week pattern that the week-column search uses.
   */
  lemma YearPatternIffPlain(s: string)
    ensures SearchYearPeriod(s).Some? <==> SearchMonthWeek(s).Some?
  {
    if SearchMonthWeek(s).Some? {
      var q :| 0 <= q <= |s| && MonthWeekAt(s, q) == SearchMonthWeek(s);
      assert YearPeriodAt(s, q).Some?;
    }
    if SearchYearPeriod(s).Some? {
      var q :| 0 <= q <= |s| && YearPeriodAt(s, q) == SearchYearPeriod(s);
      if YearPeriodAt(s, q).value.0.Some? {
        var e :| q < e <= |s| && MonthWeekAt(s, e).Some?;
        assert !(forall q :: 0 <= q <= |s| ==> MonthWeekAt(s, q).None?);
      } else {
        assert MonthWeekAt(s, q).Some?;
      }
    }
  }

  /** A sheet without a year: July to December is 2025, January to June 2026. */
  function GuessYear(month: nat): (y: int)
    ensures y == 2025 <==> month >= 7
    ensures y == 2025 || y == 2026
  {
    if month >= 7 then 2025 else 2026
  }

  /** The Gwangju year rule, which looks at the file name first. */
  function GwangjuYear(file: string, month: nat): (y: int)
    ensures y == GuessYear(month)
  {
    if Contains(file, "2026") || Contains(file, "26년") then (if month <= 6 then 2026 else 2025)
    else GuessYear(month)
  }

  /** datetime(year, month, min(week * 7, 28)); None where datetime raises. */
  function ApproxDate(year: int, month: nat, week: nat): (r: Option<Date>)
    ensures r.Some? <==> 1 <= year <= 9999 && 1 <= month <= 12 && week >= 1
    ensures r.Some? ==> r.value.year == year && r.value.month == month && 7 <= r.value.day <= 28
    ensures r.Some? && week <= 4 ==> r.value.day == 7 * week
  {
    if 1 <= year <= 9999 && 1 <= month <= 12 && week >= 1 then
      Some(Date(year, month, if week * 7 < 28 then week * 7 else 28))
    else None
  }

  /** `f"{month}월 {week}주차"` of the parsed numbers. */
  function WeekLabelOf(month: nat, week: nat): string {
    NatToString(month) + "월 " + NatToString(week) + "주차"
  }

  /**
   * An underperformer week label is read back by the action-plan week
   * pattern as the same month and week.
   */
  lemma WeekLabelReadBack(month: nat, week: nat)
    ensures AgitReport.FindWeek(WeekLabelOf(month, week)).Some?
    ensures var (m, w) := AgitReport.FindWeek(WeekLabelOf(month, week)).value;
      AllDigits(m) && AllDigits(w) && DigitsValue(m) == month && DigitsValue(w) == week
  {
    assert WeekLabelOf(month, week) == AgitReport.RenderWeek(NatToString(month), NatToString(week));
    AgitReport.WeekOfRendered(NatToString(month), NatToString(week));
    NatToStringValue(month);
    NatToStringValue(week);
  }

  /** The (year, month, week) a Yongsan sheet name gives. */
  function YongsanPeriod(name: string): (r: Option<(int, nat, nat)>)
    ensures r.Some? <==> SearchYearPeriod(name).Some?
    ensures r.Some? ==> r.value.1 < 100 && r.value.2 < 10
    ensures r.Some? && SearchYearPeriod(name).value.0.Some? ==> 2000 <= r.value.0 < 2100
    ensures r.Some? && SearchYearPeriod(name).value.0.None? ==> r.value.0 == GuessYear(r.value.1)
  {
    match SearchYearPeriod(name)
    case None => None
    case Some((yy, m, w)) =>
      MonthDigitsBelow100(m);
      MonthDigitsBelow100(w);
      var month := DigitsValue(m);
      var year := if yy.Some? then (MonthDigitsBelow100(yy.value); 2000 + DigitsValue(yy.value)) else GuessYear(month);
      Some((year, month, DigitsValue(w)))
  }

  /** The (month, week) a Gwangju sheet name gives. */
  function GwangjuPeriod(name: string): (r: Option<(nat, nat)>)
    ensures r.Some? <==> SearchMonthWeek(name).Some?
    ensures r.Some? ==> r.value.0 < 100 && r.value.1 < 10
  {
    match SearchMonthWeek(name)
    case None => None
    case Some((m, w)) =>
      MonthDigitsBelow100(m);
      MonthDigitsBelow100(w);
      Some((DigitsValue(m), DigitsValue(w)))
  }

  /** A sheet of a month other than the one the file was selected for is skipped. */
  predicate OtherMonth(targetMonth: Option<nat>, month: nat) {
    targetMonth.Some? && month != targetMonth.value
  }

  /** The facts of a Yongsan sheet, or None when the sheet is skipped. */
  function YongsanSheet(name: string, file: string, targetMonth: Option<nat>): (r: Option<SheetInfo>)
    ensures r.None? <==> (Contains(name, "개요") || Contains(name, "요약") || YongsanPeriod(name).None?
                          || OtherMonth(targetMonth, YongsanPeriod(name).value.1))
    ensures r.Some? ==> var (year, month, week) := YongsanPeriod(name).value;
      r.value == SheetInfo(name, month, week, WeekLabelOf(month, week), ApproxDate(year, month, week), file)
  {
    if Contains(name, "개요") || Contains(name, "요약") then None
    else match YongsanPeriod(name)
      case None => None
      case Some((year, month, week)) =>
        if OtherMonth(targetMonth, month) then None
        else Some(SheetInfo(name, month, week, WeekLabelOf(month, week), ApproxDate(year, month, week), file))
  }

  /** The facts of a Gwangju sheet, or None when the sheet is skipped. */
  function GwangjuSheet(name: string, file: string, targetMonth: Option<nat>): (r: Option<SheetInfo>)
    ensures r.None? <==> (Contains(name, "개요") || Contains(name, "요약") || Contains(name, "기준")
                          || GwangjuPeriod(name).None? || OtherMonth(targetMonth, GwangjuPeriod(name).value.0))
    ensures r.Some? ==> var (month, week) := GwangjuPeriod(name).value;
      r.value == SheetInfo(name, month, week, WeekLabelOf(month, week), ApproxDate(GuessYear(month), month, week), file)
  {
    if Contains(name, "개요") || Contains(name, "요약") || Contains(name, "기준") then None
    else match GwangjuPeriod(name)
      case None => None
      case Some((month, week)) =>
        if OtherMonth(targetMonth, month) then None
        else Some(SheetInfo(name, month, week, WeekLabelOf(month, week), ApproxDate(GwangjuYear(file, month), month, week), file))
  }

  /** A record carries its center, its sheet's facts and an agent id. */
  predicate OfSheet(rec: UnderRecord, center: string, info: SheetInfo) {
    rec.center == center && rec.sheet == info.name && rec.weekLabel == info.weekLabel
    && rec.reportDate == info.reportDate && rec.sourceFile == info.file && rec.agentId != ""
  }

  // ================================================================ cell readings

  /** Column `c` of a row, None past its end. */
  function At(row: Row, c: nat): Option<Cell> {
    if c < |row| then row[c] else None
  }

  /** The cell reads Y: safe_str(v).upper() == "Y". */
  predicate IsY(v: Option<Cell>) {
    ToUpper(SafeStr(v)) == "Y"
  }

  /** A Y/N cell: True for Y, False for N, None for anything else. */
  function YesNo(v: Option<Cell>): (r: Option<bool>)
    ensures r == Some(true) <==> IsY(v)
    ensures r == Some(false) <==> ToUpper(SafeStr(v)) == "N"
    ensures v.None? ==> r.None?
  {
    var t := ToUpper(SafeStr(v));
    if t == "Y" then Some(true) else if t == "N" then Some(false) else None
  }

  /** `",".join(reasons) if reasons else fallback`. */
  function ReasonText(reasons: seq<string>, fallback: string): (r: string)
    requires ',' !in fallback
    requires forall k :: 0 <= k < |reasons| ==> ',' !in reasons[k] && reasons[k] != fallback
    ensures r == fallback <==> reasons == []
    ensures reasons != [] ==> Split(r, ',') == reasons
  {
    if reasons == [] then fallback
    else
      SplitJoin(reasons, ',');
      SplitWithout(fallback, ',');
      Join(reasons, ",")
  }

  // ================================================================ Yongsan layout

  /** The 0-indexed QA, attitude, ops, weekly and monthly evaluation columns of one week. */
  datatype WeekColumns = WeekColumns(qa: nat, att: nat, ops: nat, evalWeek: nat, evalMonth: nat)

  function GroupAt(b: nat): WeekColumns {
    WeekColumns(b, b + 1, b + 2, b + 3, b + 4)
  }

  /** A present cell whose str() contains `t`. */
  predicate Shows(v: Option<Cell>, t: string) {
    v.Some? && Contains(Str(v.value), t)
  }

  /** The first column from `c` on that shows `t`. */
  function FirstShowing(row: Row, t: string, c: nat): (r: Option<nat>)
    requires c <= |row|
    ensures r.Some? ==> c <= r.value < |row| && Shows(row[r.value], t)
    ensures r.Some? ==> forall k :: c <= k < r.value ==> !Shows(row[k], t)
    ensures r.None? ==> forall k :: c <= k < |row| ==> !Shows(row[k], t)
    decreases |row| - c
  {
    if c == |row| then None else if Shows(row[c], t) then Some(c) else FirstShowing(row, t, c + 1)
  }

  /** The last column before `n` that shows `t`. */
  function LastShowing(row: Row, t: string, n: nat): (r: Option<nat>)
    requires n <= |row|
    ensures r.Some? ==> r.value < n && Shows(row[r.value], t)
    ensures r.Some? ==> forall k :: r.value < k < n ==> !Shows(row[k], t)
    ensures r.None? ==> forall k :: 0 <= k < n ==> !Shows(row[k], t)
  {
    if n == 0 then None
    else if Shows(row[n - 1], t) then Some(n - 1)
    else LastShowing(row, t, n - 1)
  }

  /** A text containing `a + b` contains `b`. */
  lemma ContainsTail(s: string, a: string, b: string)
    requires Contains(s, a + b)
    ensures Contains(s, b)
  {
    var i := IndexFrom(s, a + b, 0).value;
    assert s[i + |a|..i + |a| + |b|] == s[i..i + |a| + |b|][|a|..];
    assert OccursAt(s, b, i + |a|);
  }

  /** The week header label searched for: the sheet name's own month and week digits. */
  function HeaderLabel(sheetName: string): string
    requires SearchMonthWeek(sheetName).Some?
  {
    AgitReport.RenderWeek(SearchMonthWeek(sheetName).value.0, SearchMonthWeek(sheetName).value.1)
  }

  /**
   * find_yongsan_week_columns: in header row 2, the first cell showing the
   * sheet's week want, else the last cell showing "주차"; the week's five
   * columns start there.
   */
  function YongsanColumns(rows: Grid, sheetName: string): Option<WeekColumns> {
    if SearchMonthWeek(sheetName).None? || |rows| < 3 then None
    else
      var first := FirstShowing(rows[2], HeaderLabel(sheetName), 0);
      if first.Some? then Some(GroupAt(first.value))
      else
        var last := LastShowing(rows[2], "주차", |rows[2]|);
        if last.Some? then Some(GroupAt(last.value)) else None
  }

  /**
   * The week columns are missing exactly when the sheet name has no week,
   * there is no header row 2 or no header cell shows "주차"; otherwise they
   * start at the first cell showing the label, else at the last showing "주차".
   */
  lemma YongsanColumnsChoice(rows: Grid, sheetName: string)
    ensures var r := YongsanColumns(rows, sheetName);
      r.None? <==> (SearchMonthWeek(sheetName).None? || |rows| < 3
                    || forall k :: 0 <= k < |rows[2]| ==> !Shows(rows[2][k], "주차"))
    ensures var r := YongsanColumns(rows, sheetName);
      r.Some? ==> r.value == GroupAt(r.value.qa) && r.value.qa < |rows[2]|
    ensures var r := YongsanColumns(rows, sheetName);
      r.Some? ==> var row := rows[2]; var b := r.value.qa; var want := HeaderLabel(sheetName);
      (Shows(row[b], want) && forall k :: 0 <= k < b ==> !Shows(row[k], want))
      || ((forall k :: 0 <= k < |row| ==> !Shows(row[k], want))
          && Shows(row[b], "주차") && forall k :: b < k < |row| ==> !Shows(row[k], "주차"))
  {
    if SearchMonthWeek(sheetName).Some? && |rows| >= 3 {
      var first := FirstShowing(rows[2], HeaderLabel(sheetName), 0);
      if first.Some? {
        ShowsWeek(rows[2][first.value], sheetName);
      }
    }
  }

  /** A cell showing the week label shows "주차". */
  lemma ShowsWeek(v: Option<Cell>, sheetName: string)
    requires SearchMonthWeek(sheetName).Some? && Shows(v, HeaderLabel(sheetName))
    ensures Shows(v, "주차")
  {
    var (m, w) := SearchMonthWeek(sheetName).value;
    assert HeaderLabel(sheetName) == (m + "월 " + w) + "주차";
    ContainsTail(Str(v.value), m + "월 " + w, "주차");
  }

  /** The scan of header row 2 for the week label, stopping at the first hit. */
  method ScanFirstShowing(row: Row, t: string) returns (r: Option<nat>)
    ensures r == FirstShowing(row, t, 0)
  {
    var ci := 0;
    while ci < |row| && !Shows(row[ci], t)
      invariant 0 <= ci <= |row|
      invariant FirstShowing(row, t, ci) == FirstShowing(row, t, 0)
    {
      ci := ci + 1;
    }
    r := if ci < |row| then Some(ci) else None;
  }

  /** The fallback scan of header row 2, keeping the last hit. */
  method ScanLastShowing(row: Row, t: string) returns (r: Option<nat>)
    ensures r == LastShowing(row, t, |row|)
  {
    r := None;
    var ci := 0;
    while ci < |row|
      invariant 0 <= ci <= |row|
      invariant r == LastShowing(row, t, ci)
    {
      if Shows(row[ci], t) {
        r := Some(ci);
      }
      ci := ci + 1;
    }
  }

  method FindYongsanWeekColumns(rows: Grid, sheetName: string) returns (cols: Option<WeekColumns>)
    ensures cols == YongsanColumns(rows, sheetName)
  {
    var sm := SearchMonthWeek(sheetName);
    if sm.None? || |rows| < 3 {
      return None;
    }
    var base := ScanFirstShowing(rows[2], AgitReport.RenderWeek(sm.value.0, sm.value.1));
    if base.None? {
      base := ScanLastShowing(rows[2], "주차");
    }
    cols := if base.Some? then Some(GroupAt(base.value)) else None;
  }

  /** The row numbered 1, where the data starts. */
  predicate NumberedOne(row: Row) {
    |row| > 1 && row[1].Some? && PyInt(row[1].value) == Some(1)
  }

  /** The first row from `i` on numbered 1. */
  function FirstDataRow(rows: Grid, i: nat): (r: Option<nat>)
    requires i <= |rows|
    ensures r.Some? ==> i <= r.value < |rows|
    decreases |rows| - i
  {
    if i == |rows| then None else if NumberedOne(rows[i]) then Some(i) else FirstDataRow(rows, i + 1)
  }

  /** The data start is the first row numbered 1, if there is one. */
  lemma {:induction false} FirstDataRowFirst(rows: Grid, i: nat)
    requires i <= |rows|
    ensures var r := FirstDataRow(rows, i);
      r.Some? ==> i <= r.value < |rows| && NumberedOne(rows[r.value]) && forall k :: i <= k < r.value ==> !NumberedOne(rows[k])
    ensures FirstDataRow(rows, i).None? ==> forall k :: i <= k < |rows| ==> !NumberedOne(rows[k])
    decreases |rows| - i
  {
    if i < |rows| && !NumberedOne(rows[i]) {
      FirstDataRowFirst(rows, i + 1);
    }
  }

  method FindDataStart(rows: Grid) returns (start: Option<nat>)
    ensures start == FirstDataRow(rows, 0)
  {
    var idx := 0;
    while idx < |rows| && !NumberedOne(rows[idx])
      invariant 0 <= idx <= |rows|
      invariant FirstDataRow(rows, idx) == FirstDataRow(rows, 0)
    {
      idx := idx + 1;
    }
    start := if idx < |rows| then Some(idx) else None;
  }

  /** The weekly evaluation flags when float(v) > 0, or, where float() raises, when it reads Y. */
  predicate EvalFlag(v: Option<Cell>) {
    v.Some? && match PyFloat(v.value) case Some(x) => x > 0.0 case None => IsY(v)
  }

  /** What the week's columns say of a row: (QA flagged, attitude error, ops error, evaluation flagged). */
  function YongsanFlags(row: Row, cols: Option<WeekColumns>): (bool, Option<bool>, Option<bool>, bool) {
    match cols
    case None => (false, None, None, false)
    case Some(c) => (IsY(At(row, c.qa)), YesNo(At(row, c.att)), YesNo(At(row, c.ops)), EvalFlag(At(row, c.evalWeek)))
  }

  const YongsanReasonOrder: seq<string> := ["QA미달", "QC미달_태도", "QC미달_상담", "상담평점"]

  /** The position of a Yongsan reason in the fixed order. */
  function ReasonRank(x: string): nat {
    if x == "QA미달" then 0 else if x == "QC미달_태도" then 1 else if x == "QC미달_상담" then 2 else 3
  }

  /** The reasons of the flags from `i` on, in the fixed order. */
  function ReasonsFrom(flags: seq<bool>, i: nat): seq<string>
    requires |flags| == |YongsanReasonOrder| && i <= |flags|
    decreases |flags| - i
  {
    if i == |flags| then [] else (if flags[i] then [YongsanReasonOrder[i]] else []) + ReasonsFrom(flags, i + 1)
  }

  lemma ReasonRanks()
    ensures forall j :: 0 <= j < |YongsanReasonOrder| ==> ReasonRank(YongsanReasonOrder[j]) == j
  {
  }

  /** The reasons from `i` on are the set flags' reasons at positions `i` and later, in strictly increasing order. */
  lemma {:induction false} ReasonsFromOrdered(flags: seq<bool>, i: nat)
    requires |flags| == |YongsanReasonOrder| && i <= |flags|
    ensures var r := ReasonsFrom(flags, i);
      && (forall k :: 0 <= k < |r| ==> i <= ReasonRank(r[k]) < |flags| && r[k] == YongsanReasonOrder[ReasonRank(r[k])])
      && (forall k :: 0 <= k < |r| - 1 ==> ReasonRank(r[k]) < ReasonRank(r[k + 1]))
      && (forall j :: i <= j < |flags| ==> (YongsanReasonOrder[j] in r <==> flags[j]))
    decreases |flags| - i
  {
    if i < |flags| {
      ReasonsFromOrdered(flags, i + 1);
      ReasonRanks();
    }
  }

  /** The Yongsan selection reasons: each present exactly when its flag is set, in the fixed order. */
  function YongsanReasons(qa: bool, att: Option<bool>, ops: Option<bool>, eval: bool): (r: seq<string>)
    ensures forall k :: 0 <= k < |r| ==> r[k] in YongsanReasonOrder
    ensures forall k :: 0 <= k < |r| - 1 ==> ReasonRank(r[k]) < ReasonRank(r[k + 1])
    ensures ("QA미달" in r <==> qa) && ("QC미달_태도" in r <==> att == Some(true))
    ensures ("QC미달_상담" in r <==> ops == Some(true)) && ("상담평점" in r <==> eval)
  {
    var r := ReasonsFrom([qa, att == Some(true), ops == Some(true), eval], 0);
    ReasonsFromOrdered([qa, att == Some(true), ops == Some(true), eval], 0);
    assert YongsanReasonOrder[0] == "QA미달" && YongsanReasonOrder[1] == "QC미달_태도";
    assert YongsanReasonOrder[2] == "QC미달_상담" && YongsanReasonOrder[3] == "상담평점";
    r
  }

  /** A numbered data row that names an agent and an id. */
  predicate YongsanAgentRow(row: Row) {
    |row| >= 7 && row[1].Some? && PyInt(row[1].value).Some? && SafeStr(row[3]) != "" && SafeStr(row[4]) != ""
  }

  /** The reason text of a Yongsan record: the set flags' reasons joined by commas, else 기타. */
  function YongsanReason(qa: bool, att: Option<bool>, ops: Option<bool>, ev: bool): (r: string)
    ensures r == "기타" <==> !qa && att != Some(true) && ops != Some(true) && !ev
    ensures r != "기타" ==> Split(r, ',') == YongsanReasons(qa, att, ops, ev)
  {
    var rs := YongsanReasons(qa, att, ops, ev);
    ReasonOrderClean();
    assert rs != [] ==> rs[0] in rs;
    ReasonText(rs, "기타")
  }

  /** No Yongsan reason holds a comma or is the fallback. */
  lemma ReasonOrderClean()
    ensures forall x :: x in YongsanReasonOrder ==> ',' !in x && x != "기타"
  {
    forall x | x in YongsanReasonOrder
      ensures ',' !in x && x != "기타"
    {
      var j :| 0 <= j < 4 && YongsanReasonOrder[j] == x;
      assert j == 0 || j == 1 || j == 2 || j == 3;
    }
  }

  /** One data row of a Yongsan sheet: a record for an agent row whose column W reads Y. */
  function YongsanRow(row: Row, cols: Option<WeekColumns>, info: SheetInfo): Option<UnderRecord> {
    if !YongsanAgentRow(row) || !IsY(At(row, 22)) then None
    else
      var vertical := SafeStr(row[2]);
      var sc := AgitReport.ParseVertical(vertical);
      var f := YongsanFlags(row, cols);
      var note := if At(row, 23).Some? then Some(SafeStr(At(row, 23))) else None;
      Some(UnderRecord("용산", info.name, info.weekLabel, info.reportDate, SafeStr(row[3]), SafeStr(row[4]),
        vertical, sc.0, sc.1, Tenure(row[6]), f.1, f.2, YongsanReason(f.0, f.1, f.2, f.3), note, info.file))
  }

  /**
   * A Yongsan row gives a record exactly when it is an agent row whose
   * column W reads Y; the record carries the sheet's facts, the week's
   * error flags and the reasons they give.
   */
  lemma YongsanRowRecord(row: Row, cols: Option<WeekColumns>, info: SheetInfo)
    ensures YongsanRow(row, cols, info).Some? <==> FlaggedRow(row, SafeStr(At(row, 4)))
    ensures var r := YongsanRow(row, cols, info);
      r.Some? ==> OfSheet(r.value, "용산", info) && FlaggedRow(row, r.value.agentId) && r.value.agentName == SafeStr(row[3])
    ensures var r := YongsanRow(row, cols, info);
      r.Some? ==> var (qa, att, ops, ev) := YongsanFlags(row, cols);
      r.value.attError == att && r.value.opsError == ops && r.value.reason == YongsanReason(qa, att, ops, ev)
  {
  }

  /** A Yongsan agent row of the given id whose column W reads Y. */
  predicate FlaggedRow(row: Row, id: string) {
    YongsanAgentRow(row) && IsY(At(row, 22)) && id == SafeStr(row[4])
  }

  /** The rows' results, position by position. */
  function YongsanResults(rows: Grid, cols: Option<WeekColumns>, info: SheetInfo): (r: seq<Option<UnderRecord>>)
    ensures |r| == |rows|
  {
    seq(|rows|, i requires 0 <= i < |rows| => YongsanRow(rows[i], cols, info))
  }

  /** The records of a Yongsan sheet: its flagged agent rows from the row numbered 1 on. */
  function YongsanSheetRecords(name: string, rows: Grid, file: string, targetMonth: Option<nat>): seq<UnderRecord> {
    match YongsanSheet(name, file, targetMonth)
    case None => []
    case Some(info) => YongsanDataRecords(rows, YongsanColumns(rows, name), info)
  }

  /** The records of the rows of a sheet that was not skipped. */
  function YongsanDataRecords(rows: Grid, cols: Option<WeekColumns>, info: SheetInfo): seq<UnderRecord> {
    match FirstDataRow(rows, 0)
    case None => []
    case Some(ds) => Somes(YongsanResults(rows[ds..], cols, info))
  }

  method ParseYongsanRows(rows: Grid, cols: Option<WeekColumns>, info: SheetInfo) returns (records: seq<UnderRecord>)
    ensures records == Somes(YongsanResults(rows, cols, info))
  {
    ghost var results := YongsanResults(rows, cols, info);
    records := [];
    var i := 0;
    while i < |rows|
      invariant 0 <= i <= |rows|
      invariant records == Somes(results[..i])
    {
      var rec := YongsanRow(rows[i], cols, info);
      SomesStep(results, i);
      if rec.Some? {
        records := records + [rec.value];
      }
      i := i + 1;
    }
    assert results[..i] == results;
  }

  method ParseYongsanSheet(name: string, rows: Grid, file: string, targetMonth: Option<nat>) returns (records: seq<UnderRecord>)
    ensures records == YongsanSheetRecords(name, rows, file, targetMonth)
  {
    var info := YongsanSheet(name, file, targetMonth);
    if info.None? {
      return [];
    }
    var cols := FindYongsanWeekColumns(rows, name);
    var ds := FindDataStart(rows);
    if ds.None? {
      return [];
    }
    records := ParseYongsanRows(rows[ds.value..], cols, info.value);
  }

  /** parse_yongsan_xlsx: the records of the sheets, in sheet order. */
  function YongsanWorkbook(sheets: seq<(string, Grid)>, file: string, targetMonth: Option<nat>): seq<UnderRecord>
    decreases |sheets|
  {
    if sheets == [] then []
    else
      var last := sheets[|sheets| - 1];
      YongsanWorkbook(sheets[..|sheets| - 1], file, targetMonth) + YongsanSheetRecords(last.0, last.1, file, targetMonth)
  }

  method ParseYongsanXlsx(sheets: seq<(string, Grid)>, file: string, targetMonth: Option<nat>) returns (records: seq<UnderRecord>)
    ensures records == YongsanWorkbook(sheets, file, targetMonth)
  {
    records := [];
    var i := 0;
    while i < |sheets|
      invariant 0 <= i <= |sheets|
      invariant records == YongsanWorkbook(sheets[..i], file, targetMonth)
    {
      YongsanWorkbookStep(sheets, file, targetMonth, i);
      var more := ParseYongsanSheet(sheets[i].0, sheets[i].1, file, targetMonth);
      records := records + more;
      i := i + 1;
    }
    assert sheets[..i] == sheets;
  }

  lemma YongsanWorkbookStep(sheets: seq<(string, Grid)>, file: string, targetMonth: Option<nat>, i: nat)
    requires i < |sheets|
    ensures YongsanWorkbook(sheets[..i + 1], file, targetMonth)
      == YongsanWorkbook(sheets[..i], file, targetMonth) + YongsanSheetRecords(sheets[i].0, sheets[i].1, file, targetMonth)
  {
    assert sheets[..i + 1][..i] == sheets[..i];
  }

  /** Every kept row result is a record of the sheet from a row whose column W reads Y. */
  lemma YongsanRowsRecord(rows: Grid, cols: Option<WeekColumns>, info: SheetInfo, k: nat)
    requires k < |Somes(YongsanResults(rows, cols, info))|
    ensures var rec := Somes(YongsanResults(rows, cols, info))[k];
      OfSheet(rec, "용산", info)
      && exists i :: 0 <= i < |rows| && FlaggedRow(rows[i], rec.agentId)
  {
    var i := YongsanRowsSource(rows, cols, info, k);
  }

  /** The row a kept row result comes from. */
  lemma YongsanRowsSource(rows: Grid, cols: Option<WeekColumns>, info: SheetInfo, k: nat) returns (i: nat)
    requires k < |Somes(YongsanResults(rows, cols, info))|
    ensures var rec := Somes(YongsanResults(rows, cols, info))[k];
      i < |rows| && OfSheet(rec, "용산", info) && FlaggedRow(rows[i], rec.agentId)
  {
    var results := YongsanResults(rows, cols, info);
    i := SomesIndex(results, k);
    YongsanRowRecord(rows[i], cols, info);
  }

  /** Every record of a Yongsan sheet comes from a row of it whose column W reads Y. */
  lemma YongsanSheetRecord(rows: Grid, cols: Option<WeekColumns>, info: SheetInfo, k: nat)
    requires k < |YongsanDataRecords(rows, cols, info)|
    ensures var rec := YongsanDataRecords(rows, cols, info)[k];
      OfSheet(rec, "용산", info)
      && exists i :: 0 <= i < |rows| && FlaggedRow(rows[i], rec.agentId)
  {
    var ds := FirstDataRow(rows, 0).value;
    var i := YongsanTailSource(rows, ds, cols, info, k);
  }

  /** The row of a sheet a kept result of its rows from `ds` on comes from. */
  lemma YongsanTailSource(rows: Grid, ds: nat, cols: Option<WeekColumns>, info: SheetInfo, k: nat) returns (i: nat)
    requires ds <= |rows| && k < |Somes(YongsanResults(rows[ds..], cols, info))|
    ensures var rec := Somes(YongsanResults(rows[ds..], cols, info))[k];
      i < |rows| && OfSheet(rec, "용산", info) && FlaggedRow(rows[i], rec.agentId)
  {
    var tail := rows[ds..];
    var j := YongsanRowsSource(tail, cols, info, k);
    assert tail[j] == rows[ds + j];
    i := ds + j;
  }

  /**
   * Every record of a Yongsan workbook belongs to one of its sheets that was
   * not skipped, and so to the month the file was selected for.
   */
  lemma {:induction false} YongsanWorkbookRecord(sheets: seq<(string, Grid)>, file: string, targetMonth: Option<nat>, k: nat)
    requires k < |YongsanWorkbook(sheets, file, targetMonth)|
    ensures exists s :: (0 <= s < |sheets| && YongsanSheet(sheets[s].0, file, targetMonth).Some?
                         && OfSheet(YongsanWorkbook(sheets, file, targetMonth)[k], "용산", YongsanSheet(sheets[s].0, file, targetMonth).value))
    ensures targetMonth.Some? ==> exists w: nat :: YongsanWorkbook(sheets, file, targetMonth)[k].weekLabel == WeekLabelOf(targetMonth.value, w)
    decreases |sheets|
  {
    var init := sheets[..|sheets| - 1];
    var last := sheets[|sheets| - 1];
    var rec := YongsanWorkbook(sheets, file, targetMonth)[k];
    if k < |YongsanWorkbook(init, file, targetMonth)| {
      YongsanWorkbookRecord(init, file, targetMonth, k);
      var s :| 0 <= s < |init| && YongsanSheet(init[s].0, file, targetMonth).Some?
        && OfSheet(rec, "용산", YongsanSheet(init[s].0, file, targetMonth).value);
      assert init[s] == sheets[s];
    } else {
      var j := k - |YongsanWorkbook(init, file, targetMonth)|;
      var info := YongsanSheet(last.0, file, targetMonth).value;
      YongsanSheetRecord(last.1, YongsanColumns(last.1, last.0), info, j);
      assert rec == YongsanDataRecords(last.1, YongsanColumns(last.1, last.0), info)[j];
      assert rec.weekLabel == WeekLabelOf(info.month, info.week);
    }
  }

  // ================================================================ Gwangju layout

  /** ws.cell(row=r, column=c).value: 1-indexed, None outside the rows loaded. */
  function Cell1(g: Grid, r: nat, c: nat): Option<Cell> {
    if 1 <= r <= |g| && 1 <= c then At(g[r - 1], c - 1) else None
  }

  /** ws.max_column: the width of the widest row. */
  function MaxColumn(g: Grid): (n: nat)
    ensures forall r :: 0 <= r < |g| ==> |g[r]| <= n
    decreases |g|
  {
    if g == [] then 0
    else
      var m := MaxColumn(g[..|g| - 1]);
      if |g[|g| - 1]| > m then |g[|g| - 1]| else m
  }

  /** `v and t in str(v)`: a truthy cell whose text contains `t`. */
  predicate Marks(v: Option<Cell>, t: string) {
    Truthy(v) && Contains(Str(v.value), t)
  }

  /** Whether column c of row r is marked with `t`, as a function of c. */
  function MarkFn(g: Grid, r: nat, t: string): nat -> bool {
    (c: nat) => Marks(Cell1(g, r, c), t)
  }

  /** The first position in c..n satisfying `ok`. */
  function FirstIn(c: nat, n: nat, ok: nat -> bool): Option<nat>
    requires 1 <= c <= n + 1
    decreases n + 1 - c
  {
    if c == n + 1 then None else if ok(c) then Some(c) else FirstIn(c + 1, n, ok)
  }

  /** FirstIn finds the first position in c..n satisfying `ok`, and None when there is none. */
  lemma {:induction false} FirstInSpec(c: nat, n: nat, ok: nat -> bool)
    requires 1 <= c <= n + 1
    ensures FirstIn(c, n, ok).Some? ==> (c <= FirstIn(c, n, ok).value <= n && ok(FirstIn(c, n, ok).value)
                                         && forall k :: c <= k < FirstIn(c, n, ok).value ==> !ok(k))
    ensures FirstIn(c, n, ok).None? ==> forall k :: c <= k <= n ==> !ok(k)
    decreases n + 1 - c
  {
    if c <= n && !ok(c) {
      FirstInSpec(c + 1, n, ok);
    }
  }

  /** The last position in 1..n satisfying `ok`. */
  function LastIn(n: nat, ok: nat -> bool): Option<nat> {
    if n == 0 then None else if ok(n) then Some(n) else LastIn(n - 1, ok)
  }

  /** LastIn finds the last position in 1..n satisfying `ok`, and None when there is none. */
  lemma {:induction false} LastInSpec(n: nat, ok: nat -> bool)
    ensures LastIn(n, ok).Some? ==> (1 <= LastIn(n, ok).value <= n && ok(LastIn(n, ok).value)
                                     && forall k :: LastIn(n, ok).value < k <= n ==> !ok(k))
    ensures LastIn(n, ok).None? ==> forall k :: 1 <= k <= n ==> !ok(k)
  {
    if n > 0 && !ok(n) {
      LastInSpec(n - 1, ok);
    }
  }

  /** The positions in 1..n satisfying `ok`, in order. */
  function AllIn(n: nat, ok: nat -> bool): seq<nat> {
    if n == 0 then [] else AllIn(n - 1, ok) + (if ok(n) then [n] else [])
  }

  /** The positions kept are exactly those in 1..n satisfying `ok`, in increasing order. */
  lemma {:induction false} AllInSpec(n: nat, ok: nat -> bool)
    ensures forall i :: 0 <= i < |AllIn(n, ok)| ==> 1 <= AllIn(n, ok)[i] <= n && ok(AllIn(n, ok)[i])
    ensures forall i, j :: 0 <= i < j < |AllIn(n, ok)| ==> AllIn(n, ok)[i] < AllIn(n, ok)[j]
    ensures forall r :: 1 <= r <= n && ok(r) ==> r in AllIn(n, ok)
  {
    if n > 0 {
      AllInSpec(n - 1, ok);
    }
  }

  /** A scan of 1..n that stops at the first hit. */
  method ScanFirst(n: nat, ok: nat -> bool) returns (res: Option<nat>)
    ensures res == FirstIn(1, n, ok)
  {
    var c := 1;
    while c <= n && !ok(c)
      invariant 1 <= c <= n + 1
      invariant FirstIn(c, n, ok) == FirstIn(1, n, ok)
    {
      c := c + 1;
    }
    res := if c <= n then Some(c) else None;
  }

  /** A scan of 1..n that collects every hit. */
  method ScanAll(n: nat, ok: nat -> bool) returns (res: seq<nat>)
    ensures res == AllIn(n, ok)
  {
    res := [];
    var r := 1;
    while r <= n
      invariant 1 <= r <= n + 1
      invariant res == AllIn(r - 1, ok)
    {
      if ok(r) {
        res := res + [r];
      }
      r := r + 1;
    }
  }

  /** The first column of row r marked with `t`. */
  function FirstMarked(g: Grid, r: nat, t: string, n: nat): Option<nat> {
    FirstIn(1, n, MarkFn(g, r, t))
  }

  /** The scan that overwrites `prev` at every column of row r marked with `t`. */
  function LastMarked(g: Grid, r: nat, t: string, n: nat, prev: Option<nat>): Option<nat> {
    if LastIn(n, MarkFn(g, r, t)).Some? then LastIn(n, MarkFn(g, r, t)) else prev
  }

  /** The low-quality flag column and the low-quality type column. */
  datatype FlagCols = FlagCols(under: Option<nat>, note: Option<nat>)

  const UnderHeader := "저품질 상담사"
  const TypeHeader := "저품질 유형"

  /** One pass over row r: the last column of each header, each kept from `prev` where absent. */
  function FlagColsAt(g: Grid, r: nat, n: nat, prev: FlagCols): FlagCols {
    FlagCols(LastMarked(g, r, UnderHeader, n, prev.under), LastMarked(g, r, TypeHeader, n, prev.note))
  }

  method ScanFlagColumns(g: Grid, r: nat, n: nat, prev: FlagCols) returns (fc: FlagCols)
    ensures fc == FlagColsAt(g, r, n, prev)
  {
    var isUnder, isType := MarkFn(g, r, UnderHeader), MarkFn(g, r, TypeHeader);
    var under, note := prev.under, prev.note;
    var c := 1;
    while c <= n
      invariant 1 <= c <= n + 1
      invariant under == LastMarked(g, r, UnderHeader, c - 1, prev.under)
      invariant note == LastMarked(g, r, TypeHeader, c - 1, prev.note)
    {
      if isUnder(c) {
        under := Some(c);
      }
      if isType(c) {
        note := Some(c);
      }
      c := c + 1;
    }
    fc := FlagCols(under, note);
  }

  /** The sheet's flag columns: from header row 6, or from row 7 when row 6 has no flag column. */
  function SheetFlagCols(g: Grid, n: nat): FlagCols {
    var at6 := FlagColsAt(g, 6, n, FlagCols(None, None));
    if at6.under.Some? then at6 else FlagColsAt(g, 7, n, FlagCols(None, at6.note))
  }

  method FindSheetFlagColumns(g: Grid, n: nat) returns (fc: FlagCols)
    ensures fc == SheetFlagCols(g, n)
  {
    fc := ScanFlagColumns(g, 6, n, FlagCols(None, None));
    if fc.under.None? {
      fc := ScanFlagColumns(g, 7, n, FlagCols(None, fc.note));
    }
  }

  /** `re.match(r'\d+\.', t)`: digits, then a dot. */
  predicate DotNumbered(t: string) {
    var k := DigitRun(t, 0);
    k > 0 && k < |t| && t[k] == '.'
  }

  /** A section header row: column 3 is truthy and its stripped text starts with a number and a dot. */
  predicate SectionRow(g: Grid, r: nat) {
    Truthy(Cell1(g, r, 3)) && DotNumbered(Strip(Str(Cell1(g, r, 3).value)))
  }

  /** Whether row r is a section header row, as a function of r. */
  function SectionFn(g: Grid): nat -> bool {
    (r: nat) => SectionRow(g, r)
  }

  /** The section header rows among rows 1..n, in order. */
  function SectionStarts(g: Grid, n: nat): seq<nat> {
    AllIn(n, SectionFn(g))
  }

  /** The section starts are exactly the header rows among 1..n, in increasing order. */
  lemma SectionStartsSpec(g: Grid, n: nat)
    ensures forall i :: 0 <= i < |SectionStarts(g, n)| ==> 1 <= SectionStarts(g, n)[i] <= n && SectionRow(g, SectionStarts(g, n)[i])
    ensures forall i, j :: 0 <= i < j < |SectionStarts(g, n)| ==> SectionStarts(g, n)[i] < SectionStarts(g, n)[j]
    ensures forall r :: 1 <= r <= n && SectionRow(g, r) ==> r in SectionStarts(g, n)
  {
    AllInSpec(n, SectionFn(g));
  }

  /** int(float(str(v))) > 0 for a present cell; None where it is absent or the conversion raises. */
  function Positive(v: Option<Cell>): (res: Option<bool>)
    ensures res.Some? <==> v.Some? && CountValue(v.value).Some?
    ensures res == Some(true) ==> CountValue(v.value).value >= 1
  {
    if v.Some? && CountValue(v.value).Some? then Some(CountValue(v.value).value > 0) else None
  }

  /** The Gwangju selection reasons, read from the low-quality type text. */
  function GwangjuReasons(underType: Option<string>): seq<string> {
    if underType.Some? && underType.value != "" then
      (if Contains(underType.value, "태도") then ["QC미달_태도"] else [])
      + (if Contains(underType.value, "상담") then ["QC미달_상담"] else [])
    else []
  }

  /**
   * The reason text of a Gwangju record: attitude and/or counselling by the
   * type text, else QC미달.
   */
  function GwangjuReason(underType: Option<string>): string {
    ReasonText(GwangjuReasons(underType), "QC미달")
  }

  /**
   * The Gwangju reason is QC미달 exactly when the type text names neither
   * attitude nor counselling; otherwise it lists those it names, in that order.
   */
  lemma GwangjuReasonSpec(underType: Option<string>)
    ensures var r := GwangjuReason(underType);
      && (r == "QC미달" <==> !(underType.Some? && (Contains(underType.value, "태도") || Contains(underType.value, "상담"))))
      && (r != "QC미달" ==> Split(r, ',') == GwangjuReasons(underType))
      && (r != "QC미달" ==> ("QC미달_태도" in Split(r, ',') <==> Contains(underType.value, "태도")))
      && (r != "QC미달" ==> ("QC미달_상담" in Split(r, ',') <==> Contains(underType.value, "상담")))
  {
    var att := underType.Some? && Contains(underType.value, "태도");
    var ops := underType.Some? && Contains(underType.value, "상담");
    assert underType.Some? && underType.value == "" ==> !att && !ops;
    assert GwangjuReasons(underType) == TaggedReasons(att, ops);
    TaggedReasonText(att, ops);
  }

  /** The attitude and counselling reasons, each present when its flag is set. */
  function TaggedReasons(att: bool, ops: bool): seq<string> {
    (if att then ["QC미달_태도"] else []) + (if ops then ["QC미달_상담"] else [])
  }

  lemma TaggedReasonText(att: bool, ops: bool)
    ensures var r := ReasonText(TaggedReasons(att, ops), "QC미달");
      && (r == "QC미달" <==> !att && !ops)
      && (r != "QC미달" ==> Split(r, ',') == TaggedReasons(att, ops))
      && (r != "QC미달" ==> ("QC미달_태도" in Split(r, ',') <==> att) && ("QC미달_상담" in Split(r, ',') <==> ops))
  {
    var x, y := "QC미달_태도", "QC미달_상담";
    assert x != y && x != "QC미달" && y != "QC미달";
    assert ',' !in x && ',' !in y && ',' !in "QC미달";
    var rs := TaggedReasons(att, ops);
    if att && ops {
      assert rs == [x, y];
    } else if att {
      assert rs == [x];
    } else if ops {
      assert rs == [y];
    } else {
      assert rs == [];
    }
  }

  /** A Gwangju agent row: a number in column 2, a name in column 4 and an id in column 5. */
  predicate GwangjuAgentRow(g: Grid, r: nat) {
    Cell1(g, r, 2).Some? && PyInt(Cell1(g, r, 2).value).Some?
    && SafeStr(Cell1(g, r, 4)) != "" && SafeStr(Cell1(g, r, 5)) != ""
  }

  /** The low-quality type of a row: the stripped text of a truthy type cell. */
  function UnderType(g: Grid, r: nat, fc: FlagCols): Option<string> {
    if fc.note.Some? && Truthy(Cell1(g, r, fc.note.value)) then Some(SafeStr(Cell1(g, r, fc.note.value))) else None
  }

  /** The flag column of the row reads Y. */
  predicate FlaggedUnder(g: Grid, r: nat, fc: FlagCols) {
    fc.under.Some? && IsY(Cell1(g, r, fc.under.value))
  }

  /** One data row of a Gwangju section. */
  function GwangjuRow(g: Grid, r: nat, twc: Option<nat>, fc: FlagCols, info: SheetInfo): Option<UnderRecord> {
    if !GwangjuAgentRow(g, r) || !FlaggedUnder(g, r, fc) then None
    else
      var vertical := SafeStr(Cell1(g, r, 3));
      var sc := AgitReport.ParseVertical(vertical);
      var att := if twc.Some? then Positive(Cell1(g, r, twc.value + 1)) else None;
      var ops := if twc.Some? then Positive(Cell1(g, r, twc.value + 2)) else None;
      var ut := UnderType(g, r, fc);
      Some(UnderRecord("광주", info.name, info.weekLabel, info.reportDate, SafeStr(Cell1(g, r, 4)), SafeStr(Cell1(g, r, 5)),
        vertical, sc.0, sc.1, Tenure(Cell1(g, r, 7)), att, ops, GwangjuReason(ut), ut, info.file))
  }

  /**
   * A Gwangju row gives a record exactly when it is an agent row whose flag
   * column reads Y; the record's reason and note come from the type column,
   * and its error flags from the two columns after the week's label.
   */
  lemma GwangjuRowRecord(g: Grid, r: nat, twc: Option<nat>, fc: FlagCols, info: SheetInfo)
    ensures GwangjuRow(g, r, twc, fc, info).Some? <==> GwangjuAgentRow(g, r) && FlaggedUnder(g, r, fc)
    ensures var rec := GwangjuRow(g, r, twc, fc, info);
      rec.Some? ==> (OfSheet(rec.value, "광주", info) && rec.value.agentId == SafeStr(Cell1(g, r, 5))
                     && rec.value.note == UnderType(g, r, fc) && rec.value.reason == GwangjuReason(UnderType(g, r, fc)))
    ensures var rec := GwangjuRow(g, r, twc, fc, info);
      rec.Some? && twc.None? ==> rec.value.attError.None? && rec.value.opsError.None?
    ensures var rec := GwangjuRow(g, r, twc, fc, info);
      rec.Some? && twc.Some? ==> (rec.value.attError == Positive(Cell1(g, r, twc.value + 1))
                                  && rec.value.opsError == Positive(Cell1(g, r, twc.value + 2)))
  {
  }

  /** The result of each row, as a function of the row. */
  function GwangjuRowFn(g: Grid, twc: Option<nat>, fc: FlagCols, info: SheetInfo): nat -> Option<UnderRecord> {
    (r: nat) => GwangjuRow(g, r, twc, fc, info)
  }

  /** The results of f on lo, lo+1, ..., lo+count-1. */
  function RangeResults<T>(lo: nat, count: nat, f: nat -> Option<T>): seq<Option<T>> {
    seq(count, k requires 0 <= k < count => f(lo + k))
  }

  /** A loop over lo..lo+count-1 that keeps what `f` finds. */
  method CollectRange<T>(lo: nat, count: nat, f: nat -> Option<T>) returns (kept: seq<T>)
    ensures kept == Somes(RangeResults(lo, count, f))
  {
    ghost var results := RangeResults(lo, count, f);
    kept := [];
    var i := 0;
    while i < count
      invariant 0 <= i <= count
      invariant kept == Somes(results[..i])
    {
      var res := f(lo + i);
      SomesStep(results, i);
      if res.Some? {
        kept := kept + [res.value];
      }
      i := i + 1;
    }
    assert results[..i] == results;
  }

  /** The results of rows lo..hi-1 (none when hi <= lo). */
  function GwangjuResults(g: Grid, lo: nat, hi: nat, twc: Option<nat>, fc: FlagCols, info: SheetInfo): seq<Option<UnderRecord>> {
    RangeResults(lo, if hi > lo then hi - lo else 0, GwangjuRowFn(g, twc, fc, info))
  }

  method ParseGwangjuRows(g: Grid, lo: nat, hi: nat, twc: Option<nat>, fc: FlagCols, info: SheetInfo) returns (records: seq<UnderRecord>)
    ensures records == Somes(GwangjuResults(g, lo, hi, twc, fc, info))
  {
    records := CollectRange(lo, if hi > lo then hi - lo else 0, GwangjuRowFn(g, twc, fc, info));
  }

  /** Where section `si` ends: the next section's header row, else past the last row. */
  function SectionEnd(g: Grid, starts: seq<nat>, si: nat): nat
    requires si < |starts|
  {
    if si + 1 < |starts| then starts[si + 1] else |g| + 1
  }

  /** The records of section `si`: rows from three below its header to its end, with its own flag columns. */
  function SectionRecords(g: Grid, n: nat, twc: Option<nat>, fc0: FlagCols, starts: seq<nat>, si: nat, info: SheetInfo): seq<UnderRecord>
    requires si < |starts|
  {
    Somes(GwangjuResults(g, starts[si] + 3, SectionEnd(g, starts, si), twc, FlagColsAt(g, starts[si] + 1, n, fc0), info))
  }

  /** The records of the first `m` sections, in order. */
  function SectionsRecords(g: Grid, n: nat, twc: Option<nat>, fc0: FlagCols, starts: seq<nat>, m: nat, info: SheetInfo): seq<UnderRecord>
    requires m <= |starts|
  {
    if m == 0 then [] else SectionsRecords(g, n, twc, fc0, starts, m - 1, info) + SectionRecords(g, n, twc, fc0, starts, m - 1, info)
  }

  lemma SectionsRecordsStep(g: Grid, n: nat, twc: Option<nat>, fc0: FlagCols, starts: seq<nat>, si: nat, info: SheetInfo)
    requires si < |starts|
    ensures SectionsRecords(g, n, twc, fc0, starts, si + 1, info)
      == SectionsRecords(g, n, twc, fc0, starts, si, info) + SectionRecords(g, n, twc, fc0, starts, si, info)
  {
  }

  /** The records of a Gwangju sheet. */
  function GwangjuSheetRecords(name: string, g: Grid, file: string, targetMonth: Option<nat>): seq<UnderRecord> {
    match GwangjuSheet(name, file, targetMonth)
    case None => []
    case Some(info) => GwangjuDataRecords(g, info)
  }

  /** `f"{month}월 {week}주"`: the week label of the Gwangju header row 6. */
  function GwangjuWeekHeader(info: SheetInfo): string {
    NatToString(info.month) + "월 " + NatToString(info.week) + "주"
  }

  /** The records of the sections of a sheet that was not skipped. */
  function GwangjuDataRecords(g: Grid, info: SheetInfo): seq<UnderRecord> {
    var n := MaxColumn(g);
    var starts := SectionStarts(g, |g|);
    SectionsRecords(g, n, FirstMarked(g, 6, GwangjuWeekHeader(info), n), SheetFlagCols(g, n), starts, |starts|, info)
  }

  method ParseGwangjuSections(g: Grid, info: SheetInfo) returns (records: seq<UnderRecord>)
    ensures records == GwangjuDataRecords(g, info)
  {
    var n := MaxColumn(g);
    var twc := ScanFirst(n, MarkFn(g, 6, GwangjuWeekHeader(info)));
    var fc0 := FindSheetFlagColumns(g, n);
    var starts := ScanAll(|g|, SectionFn(g));
    records := ParseSectionRows(g, n, twc, fc0, starts, info);
  }

  /** The loop over the sections, each read with its own flag columns from the row below its header. */
  method ParseSectionRows(g: Grid, n: nat, twc: Option<nat>, fc0: FlagCols, starts: seq<nat>, info: SheetInfo) returns (records: seq<UnderRecord>)
    ensures records == SectionsRecords(g, n, twc, fc0, starts, |starts|, info)
  {
    records := [];
    var si := 0;
    while si < |starts|
      invariant 0 <= si <= |starts|
      invariant records == SectionsRecords(g, n, twc, fc0, starts, si, info)
    {
      var more := ParseSection(g, n, twc, fc0, starts, si, info);
      SectionsRecordsStep(g, n, twc, fc0, starts, si, info);
      records := records + more;
      si := si + 1;
    }
  }

  /** One section: its flag columns from the row below its header, then its data rows. */
  method ParseSection(g: Grid, n: nat, twc: Option<nat>, fc0: FlagCols, starts: seq<nat>, si: nat, info: SheetInfo) returns (records: seq<UnderRecord>)
    requires si < |starts|
    ensures records == SectionRecords(g, n, twc, fc0, starts, si, info)
  {
    var fc := ScanFlagColumns(g, starts[si] + 1, n, fc0);
    var hi := if si + 1 < |starts| then starts[si + 1] else |g| + 1;
    records := ParseGwangjuRows(g, starts[si] + 3, hi, twc, fc, info);
  }

  method ParseGwangjuSheet(name: string, g: Grid, file: string, targetMonth: Option<nat>) returns (records: seq<UnderRecord>)
    ensures records == GwangjuSheetRecords(name, g, file, targetMonth)
  {
    var info := GwangjuSheet(name, file, targetMonth);
    if info.None? {
      return [];
    }
    records := ParseGwangjuSections(g, info.value);
  }

  /** A Gwangju agent row of the given id whose flag column reads Y. */
  predicate FlaggedGwangjuRow(g: Grid, r: nat, fc: FlagCols, id: string) {
    GwangjuAgentRow(g, r) && FlaggedUnder(g, r, fc) && id == SafeStr(Cell1(g, r, 5))
  }

  /** A record of a row is a record of the sheet from that row, which is a flagged agent row. */
  lemma GwangjuRowOfSheet(g: Grid, r: nat, twc: Option<nat>, fc: FlagCols, info: SheetInfo)
    ensures var rec := GwangjuRow(g, r, twc, fc, info);
      rec.Some? ==> OfSheet(rec.value, "광주", info) && FlaggedGwangjuRow(g, r, fc, rec.value.agentId)
  {
  }

  /** What holds of every result of f on lo..lo+count-1 holds of every kept one, at its position. */
  lemma {:induction false} RangeKept<T>(lo: nat, count: nat, f: nat -> Option<T>, P: (nat, T) -> bool, k: nat)
    requires k < |Somes(RangeResults(lo, count, f))|
    requires forall r :: lo <= r < lo + count && f(r).Some? ==> P(r, f(r).value)
    ensures exists r :: lo <= r < lo + count && P(r, Somes(RangeResults(lo, count, f))[k])
  {
    var results := RangeResults(lo, count, f);
    SomesFrom(results, k);
    var i :| 0 <= i < |results| && results[i] == Some(Somes(results)[k]);
    assert f(lo + i) == results[i];
  }

  /** Every kept row result of rows lo..hi-1 is a record of the sheet from a flagged agent row among them. */
  lemma GwangjuRowsRecord(g: Grid, lo: nat, hi: nat, twc: Option<nat>, fc: FlagCols, info: SheetInfo, k: nat)
    requires k < |Somes(GwangjuResults(g, lo, hi, twc, fc, info))|
    ensures var rec := Somes(GwangjuResults(g, lo, hi, twc, fc, info))[k];
      OfSheet(rec, "광주", info) && exists r :: lo <= r < hi && FlaggedGwangjuRow(g, r, fc, rec.agentId)
  {
    var f := GwangjuRowFn(g, twc, fc, info);
    var count := if hi > lo then hi - lo else 0;
    var P := (r: nat, rec: UnderRecord) => OfSheet(rec, "광주", info) && FlaggedGwangjuRow(g, r, fc, rec.agentId);
    forall r | lo <= r < lo + count && f(r).Some?
      ensures P(r, f(r).value)
    {
      GwangjuRowOfSheet(g, r, twc, fc, info);
    }
    RangeKept(lo, count, f, P, k);
  }

  /** Every record of section `si` is a record of the sheet. */
  lemma SectionRecordOfSheet(g: Grid, n: nat, twc: Option<nat>, fc0: FlagCols, starts: seq<nat>, si: nat, info: SheetInfo, k: nat)
    requires si < |starts| && k < |SectionRecords(g, n, twc, fc0, starts, si, info)|
    ensures OfSheet(SectionRecords(g, n, twc, fc0, starts, si, info)[k], "광주", info)
  {
    GwangjuRowsRecord(g, starts[si] + 3, SectionEnd(g, starts, si), twc, FlagColsAt(g, starts[si] + 1, n, fc0), info, k);
  }

  /** Every record of the first `m` sections is a record of the sheet. */
  lemma {:induction false} SectionsRecordsOfSheet(g: Grid, n: nat, twc: Option<nat>, fc0: FlagCols, starts: seq<nat>, m: nat, info: SheetInfo, k: nat)
    requires m <= |starts| && k < |SectionsRecords(g, n, twc, fc0, starts, m, info)|
    ensures OfSheet(SectionsRecords(g, n, twc, fc0, starts, m, info)[k], "광주", info)
    decreases m
  {
    var before := SectionsRecords(g, n, twc, fc0, starts, m - 1, info);
    if k < |before| {
      SectionsRecordsOfSheet(g, n, twc, fc0, starts, m - 1, info, k);
    } else {
      SectionRecordOfSheet(g, n, twc, fc0, starts, m - 1, info, k - |before|);
    }
  }

  /**
   * Every record of a Gwangju workbook belongs to one of its sheets that was
   * not skipped, and so to the month the file was selected for.
   */
  lemma {:induction false} GwangjuWorkbookRecord(sheets: seq<(string, Grid)>, file: string, targetMonth: Option<nat>, k: nat)
    requires k < |GwangjuWorkbook(sheets, file, targetMonth)|
    ensures exists s :: (0 <= s < |sheets| && GwangjuSheet(sheets[s].0, file, targetMonth).Some?
                         && OfSheet(GwangjuWorkbook(sheets, file, targetMonth)[k], "광주", GwangjuSheet(sheets[s].0, file, targetMonth).value))
    ensures targetMonth.Some? ==> exists w: nat :: GwangjuWorkbook(sheets, file, targetMonth)[k].weekLabel == WeekLabelOf(targetMonth.value, w)
    decreases |sheets|
  {
    var init := sheets[..|sheets| - 1];
    var last := sheets[|sheets| - 1];
    var rec := GwangjuWorkbook(sheets, file, targetMonth)[k];
    if k < |GwangjuWorkbook(init, file, targetMonth)| {
      GwangjuWorkbookRecord(init, file, targetMonth, k);
      var s :| 0 <= s < |init| && GwangjuSheet(init[s].0, file, targetMonth).Some?
        && OfSheet(rec, "광주", GwangjuSheet(init[s].0, file, targetMonth).value);
      assert init[s] == sheets[s];
    } else {
      var j := k - |GwangjuWorkbook(init, file, targetMonth)|;
      var info := GwangjuSheet(last.0, file, targetMonth).value;
      var g := last.1;
      var n := MaxColumn(g);
      var starts := SectionStarts(g, |g|);
      SectionsRecordsOfSheet(g, n, FirstMarked(g, 6, GwangjuWeekHeader(info), n), SheetFlagCols(g, n), starts, |starts|, info, j);
      assert rec == GwangjuDataRecords(g, info)[j];
      assert rec.weekLabel == WeekLabelOf(info.month, info.week);
    }
  }

  /** parse_gwangju_xlsx: the records of the sheets, in sheet order. */
  function GwangjuWorkbook(sheets: seq<(string, Grid)>, file: string, targetMonth: Option<nat>): seq<UnderRecord>
    decreases |sheets|
  {
    if sheets == [] then []
    else
      var last := sheets[|sheets| - 1];
      GwangjuWorkbook(sheets[..|sheets| - 1], file, targetMonth) + GwangjuSheetRecords(last.0, last.1, file, targetMonth)
  }

  lemma GwangjuWorkbookStep(sheets: seq<(string, Grid)>, file: string, targetMonth: Option<nat>, i: nat)
    requires i < |sheets|
    ensures GwangjuWorkbook(sheets[..i + 1], file, targetMonth)
      == GwangjuWorkbook(sheets[..i], file, targetMonth) + GwangjuSheetRecords(sheets[i].0, sheets[i].1, file, targetMonth)
  {
    assert sheets[..i + 1][..i] == sheets[..i];
  }

  method ParseGwangjuXlsx(sheets: seq<(string, Grid)>, file: string, targetMonth: Option<nat>) returns (records: seq<UnderRecord>)
    ensures records == GwangjuWorkbook(sheets, file, targetMonth)
  {
    records := [];
    var i := 0;
    while i < |sheets|
      invariant 0 <= i <= |sheets|
      invariant records == GwangjuWorkbook(sheets[..i], file, targetMonth)
    {
      GwangjuWorkbookStep(sheets, file, targetMonth, i);
      var more := ParseGwangjuSheet(sheets[i].0, sheets[i].1, file, targetMonth);
      records := records + more;
      i := i + 1;
    }
    assert sheets[..i] == sheets;
  }
}
