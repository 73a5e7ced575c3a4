/**
 * The spreadsheet half of the Agit importer (scripts/parse-agit-v2.py),
 * shared part: the cell values a workbook loader hands over and Python's
 * str()/int()/float() on them, the month/week patterns of file and sheet
 * names, and the month-end file selection.
 */
module AgitSheets {
  import opened Wrappers
  import opened Text

  // ================================================================ cells

  /**
   * A loaded cell value. A float keeps the text str() gives for it, since
   * Python's shortest round-trip float printing is not modelled.
   */
  datatype Cell = CInt(i: int) | CFloat(x: real, text: string) | CStr(s: string) | CBool(b: bool)

  /** A sheet row (None for an empty cell) and a sheet, 0-indexed. */
  type Row = seq<Option<Cell>>
  type Grid = seq<Row>

  /** str(v). */
  function Str(c: Cell): string {
    match c
    case CInt(i) => IntToString(i)
    case CFloat(_, t) => t
    case CStr(s) => s
    case CBool(b) => if b then "True" else "False"
  }

  /** safe_str: "" for None, else str(v).strip(). */
  function SafeStr(v: Option<Cell>): (r: string)
    ensures r == [] || (!IsPySpace(r[0]) && !IsPySpace(r[|r| - 1]))
    ensures v.None? ==> r == ""
  {
    if v.None? then "" else Strip(Str(v.value))
  }

  /** Python truthiness of a cell: None, 0, 0.0, "" and False are false. */
  predicate Truthy(v: Option<Cell>) {
    match v
    case None => false
    case Some(CInt(i)) => i != 0
    case Some(CFloat(x, _)) => x != 0.0
    case Some(CStr(s)) => s != ""
    case Some(CBool(b)) => b
  }

  /** int(x) of a float: truncation toward zero. */
  function Trunc(x: real): (r: int)
    ensures x >= 0.0 ==> r as real <= x < r as real + 1.0
    ensures x < 0.0 ==> r as real - 1.0 < x <= r as real
  {
    if x >= 0.0 then x.Floor else -((-x).Floor)
  }

  /** A sign, then a body, of a stripped numeral. */
  function SignOf(t: string): (r: (bool, string))
    ensures |r.1| <= |t|
  {
    if t != [] && (t[0] == '+' || t[0] == '-') then (t[0] == '-', t[1..]) else (false, t)
  }

  /** int(s) for a string: surrounding whitespace, one optional sign, decimal digits. */
  function PyIntStr(s: string): (r: Option<int>)
    ensures r.Some? ==> AllDigits(SignOf(Strip(s)).1) && SignOf(Strip(s)).1 != ""
  {
    var (neg, d) := SignOf(Strip(s));
    if d != [] && AllDigits(d) then Some(if neg then -(DigitsValue(d) as int) else DigitsValue(d)) else None
  }

  /** int(v) of a loaded value; None where Python raises. */
  function PyInt(c: Cell): Option<int> {
    match c
    case CInt(i) => Some(i)
    case CFloat(x, _) => Some(Trunc(x))
    case CStr(s) => PyIntStr(s)
    case CBool(b) => Some(if b then 1 else 0)
  }

  /** Where the '.' of a numeral body is, if any. */
  function DotIndex(d: string, i: nat): (r: Option<nat>)
    requires i <= |d|
    ensures r.Some? ==> i <= r.value < |d| && d[r.value] == '.'
    ensures r.None? ==> forall k :: i <= k < |d| ==> d[k] != '.'
    decreases |d| - i
  {
    if i == |d| then None else if d[i] == '.' then Some(i) else DotIndex(d, i + 1)
  }

  /** The value of `digits[.digits]` (either side may be empty, not both); None otherwise. */
  function DecimalValue(d: string): (r: Option<real>)
    ensures r.Some? ==> r.value >= 0.0
  {
    match DotIndex(d, 0)
    case None => if d != [] && AllDigits(d) then Some(DigitsValue(d) as real) else None
    case Some(k) =>
      var a, b := d[..k], d[k + 1..];
      if AllDigits(a) && AllDigits(b) && (a != [] || b != []) then
        FractionNonNeg(DigitsValue(b), Pow10(|b|));
        Some(DigitsValue(a) as real + DigitsValue(b) as real / Pow10(|b|) as real)
      else None
  }

  /** float(s) for a string, on decimal notation (no exponent, inf or nan). */
  function PyFloatStr(s: string): Option<real> {
    var (neg, d) := SignOf(Strip(s));
    match DecimalValue(d)
    case None => None
    case Some(v) => Some(if neg then -v else v)
  }

  /** float(v) of a loaded value. */
  function PyFloat(c: Cell): Option<real> {
    match c
    case CInt(i) => Some(i as real)
    case CFloat(x, _) => Some(x)
    case CStr(s) => PyFloatStr(s)
    case CBool(b) => Some(if b then 1.0 else 0.0)
  }

  /** The texts safe_float reads as missing. */
  const MissingTexts: set<string> := {"", "-", "N/A", "n/a"}

  /** safe_float: float() of the stripped text with every '%' removed; None for a missing value, a missing text or text float() rejects. */
  function SafeFloat(v: Option<Cell>): (r: Option<real>)
    ensures v.None? ==> r.None?
    ensures v.Some? && Strip(RemoveAll(Str(v.value), "%")) in MissingTexts ==> r.None?
    ensures v.Some? && Strip(RemoveAll(Str(v.value), "%")) !in MissingTexts ==> r == PyFloatStr(RemoveAll(Str(v.value), "%"))
  {
    match v
    case None => None
    case Some(c) =>
      var t := RemoveAll(Str(c), "%");
      if Strip(t) in MissingTexts then None else PyFloatStr(t)
  }

  /** An integer cell is read by safe_float as itself. */
  lemma SafeFloatOfInt(i: int)
    ensures SafeFloat(Some(CInt(i))) == Some(i as real)
  {
    var s := IntToString(i);
    assert Str(CInt(i)) == s;
    NoPercentInInt(i);
    RemoveAllAbsent(s, "%");
    RenderedIsStripped(i);
    RenderedNotMissing(i);
    IntRoundTrip(i);
  }

  lemma NoPercentInInt(i: int)
    ensures !Contains(IntToString(i), "%")
  {
    var s := IntToString(i);
    var n: nat := if i < 0 then -i else i;
    var d := NatToString(n);
    NatToStringValue(n);
  }

  lemma RenderedNotMissing(i: int)
    ensures IntToString(i) !in MissingTexts
  {
    var n: nat := if i < 0 then -i else i;
    var d := NatToString(n);
    NatToStringValue(n);
    assert IsDigit(d[0]);
    if i < 0 {
      assert |IntToString(i)| == |d| + 1 >= 2 && IntToString(i)[0] == '-';
    } else {
      assert IntToString(i)[0] == d[0];
    }
  }

  /** str() of an integer is read back by int() and by float(). */
  lemma IntRoundTrip(i: int)
    ensures PyIntStr(IntToString(i)) == Some(i)
    ensures PyFloatStr(IntToString(i)) == Some(i as real)
  {
    var n: nat := if i < 0 then -i else i;
    var d := NatToString(n);
    NatToStringValue(n);
    RenderedIsStripped(i);
    RenderedSign(i);
    DigitsHaveNoDot(d);
  }

  lemma RenderedIsStripped(i: int)
    ensures Strip(IntToString(i)) == IntToString(i)
  {
    var n: nat := if i < 0 then -i else i;
    var d := NatToString(n);
    var s := IntToString(i);
    assert IsDigit(d[|d| - 1]);
    assert s[|s| - 1] == d[|d| - 1];
    assert !IsPySpace(s[0]) by { if i >= 0 { assert IsDigit(d[0]); } }
    TrimByOfTrimmed(s, IsPySpace);
  }

  lemma RenderedSign(i: int)
    ensures SignOf(IntToString(i)) == (i < 0, NatToString(if i < 0 then -i else i))
  {
    var n: nat := if i < 0 then -i else i;
    var d := NatToString(n);
    var s := IntToString(i);
    if i < 0 {
      assert s[1..] == d;
    } else {
      assert IsDigit(d[0]);
    }
  }

  lemma DigitsHaveNoDot(d: string)
    requires AllDigits(d)
    ensures DotIndex(d, 0).None?
  {
  }

  /** The value of int(float(str(v))), as the Gwangju parser reads counts; None where Python raises. */
  function CountValue(c: Cell): Option<int> {
    match PyFloatStr(Str(c))
    case None => None
    case Some(x) => Some(Trunc(x))
  }

  /** An integer cell is read as itself. */
  lemma CountValueOfInt(i: int)
    ensures CountValue(CInt(i)) == Some(i)
  {
    IntRoundTrip(i);
    assert Str(CInt(i)) == IntToString(i);
    TruncOfInt(i);
  }

  lemma TruncOfInt(i: int)
    ensures Trunc(i as real) == i
  {
    if i < 0 {
      assert (-i as real).Floor == -i;
    }
  }

  /** A boolean cell raises: str() gives a word, which float() rejects. */
  lemma CountValueOfBool(b: bool)
    ensures CountValue(CBool(b)).None?
  {
    var t := if b then "True" else "False";
    assert Str(CBool(b)) == t;
    assert (t[0] == 'T' || t[0] == 'F') && t[|t| - 1] == 'e';
    assert forall k :: 0 <= k < |t| ==> t[k] != '.';
    WordNotFloat(t);
  }

  /** A word that starts and ends with a letter and holds no '.' is not a float. */
  lemma WordNotFloat(t: string)
    requires t != [] && 'A' <= t[0] <= 'Z' && 'a' <= t[|t| - 1] <= 'z'
    requires forall k :: 0 <= k < |t| ==> t[k] != '.'
    ensures PyFloatStr(t).None?
  {
    assert !IsPySpace(t[0]) && !IsPySpace(t[|t| - 1]);
    TrimByOfTrimmed(t, IsPySpace);
    assert SignOf(t) == (false, t);
    assert DotIndex(t, 0).None?;
    assert !IsDigit(t[0]);
  }

  /** The tenure of a row: int(float(str(v).replace("개월", ""))). */
  function Tenure(v: Option<Cell>): Option<int> {
    match v
    case None => None
    case Some(c) =>
      match PyFloatStr(RemoveAll(Str(c), "개월"))
      case None => None
      case Some(x) => Some(Trunc(x))
  }

  // ================================================================ month and week patterns

  /** The first position in p..n satisfying `ok`: re.search over positions. */
  function FirstWhere(n: nat, p: nat, ok: nat -> bool): (r: Option<nat>)
    requires p <= n
    ensures r.Some? ==> p <= r.value <= n && ok(r.value) && forall q :: p <= q < r.value ==> !ok(q)
    ensures r.None? ==> forall q :: p <= q <= n ==> !ok(q)
    decreases n - p
  {
    if ok(p) then Some(p) else if p == n then None else FirstWhere(n, p + 1, ok)
  }

  /**
   * `(\d{1,2})월` matched at `p`: the month digits and where the match ends.
   * Two digits are tried first; at most one of the two lengths can match.
   */
  function MonthAt(s: string, p: nat): (r: Option<(string, nat)>)
    requires p <= |s|
    ensures r.Some? ==> 1 <= |r.value.0| <= 2 && AllDigits(r.value.0) && r.value.1 == p + |r.value.0| + 1 <= |s|
  {
    if p + 2 < |s| && IsDigit(s[p]) && IsDigit(s[p + 1]) && s[p + 2] == '월' then Some((s[p..p + 2], p + 3))
    else if p + 1 < |s| && IsDigit(s[p]) && s[p + 1] == '월' then Some((s[p..p + 1], p + 2))
    else None
  }

  /** `(\d{1,2})월\s*(\d)주차` matched at `p`: the month digits and the week digit. */
  function MonthWeekAt(s: string, p: nat): (r: Option<(string, string)>)
    requires p <= |s|
    ensures r.Some? ==> 1 <= |r.value.0| <= 2 && AllDigits(r.value.0) && |r.value.1| == 1 && AllDigits(r.value.1)
  {
    match MonthAt(s, p)
    case None => None
    case Some((m, e)) =>
      var j := SkipBy(s, e, IsPySpace);
      if j + 2 < |s| && IsDigit(s[j]) && s[j + 1] == '주' && s[j + 2] == '차' then Some((m, s[j..j + 1])) else None
  }

  /** re.search for `(\d{1,2})월\s*(\d)주차`: the groups of the leftmost match. */
  function SearchMonthWeek(s: string): (r: Option<(string, string)>)
    ensures r.None? <==> forall q :: 0 <= q <= |s| ==> MonthWeekAt(s, q).None?
    ensures r.Some? ==> exists q :: 0 <= q <= |s| && MonthWeekAt(s, q) == r
    ensures r.Some? ==> 1 <= |r.value.0| <= 2 && AllDigits(r.value.0) && |r.value.1| == 1 && AllDigits(r.value.1)
  {
    var ok := (q: nat) => q <= |s| && MonthWeekAt(s, q).Some?;
    var q := FirstWhere(|s|, 0, ok);
    assert forall q :: 0 <= q <= |s| ==> (ok(q) <==> MonthWeekAt(s, q).Some?);
    if q.Some? then MonthWeekAt(s, q.value) else None
  }

  /** re.search for `(\d{1,2})월`: the month digits of the leftmost match. */
  function SearchMonth(s: string): (r: Option<string>)
    ensures r.None? <==> forall q :: 0 <= q <= |s| ==> MonthAt(s, q).None?
    ensures r.Some? ==> exists q :: 0 <= q <= |s| && MonthAt(s, q).Some? && MonthAt(s, q).value.0 == r.value
    ensures r.Some? ==> 1 <= |r.value| <= 2 && AllDigits(r.value)
  {
    var ok := (q: nat) => q <= |s| && MonthAt(s, q).Some?;
    var q := FirstWhere(|s|, 0, ok);
    assert forall q :: 0 <= q <= |s| ==> (ok(q) <==> MonthAt(s, q).Some?);
    if q.Some? then Some(MonthAt(s, q.value).value.0) else None
  }

  /** The (month, week) of a file name: the week pattern, else a bare month with week 0, else none. */
  function FilePeriod(name: string): (r: Option<(nat, nat)>)
    ensures r.Some? ==> r.value.0 < 100 && r.value.1 < 10
    ensures r.None? <==> SearchMonth(name).None?
    ensures SearchMonthWeek(name).None? && r.Some? ==> r.value.1 == 0
  {
    if SearchMonthWeek(name).Some? then MonthWeekHasMonth(name); PeriodOf(SearchMonthWeek(name), SearchMonth(name))
    else PeriodOf(SearchMonthWeek(name), SearchMonth(name))
  }

  /** int() of the groups: the week match, else the bare month with week 0. */
  function PeriodOf(mw: Option<(string, string)>, mo: Option<string>): (r: Option<(nat, nat)>)
    requires mw.Some? ==> 1 <= |mw.value.0| <= 2 && AllDigits(mw.value.0) && |mw.value.1| == 1 && AllDigits(mw.value.1) && mo.Some?
    requires mo.Some? ==> 1 <= |mo.value| <= 2 && AllDigits(mo.value)
    ensures r.Some? ==> r.value.0 < 100 && r.value.1 < 10
    ensures r.None? <==> mo.None?
    ensures mw.None? && r.Some? ==> r.value.1 == 0
  {
    match mw
    case Some((m, w)) =>
      MonthDigitsBelow100(m);
      MonthDigitsBelow100(w);
      Some((DigitsValue(m), DigitsValue(w)))
    case None =>
      match mo
      case Some(m) => MonthDigitsBelow100(m); Some((DigitsValue(m), 0))
      case None => None
  }

  lemma MonthDigitsBelow100(m: string)
    requires 1 <= |m| <= 2 && AllDigits(m)
    ensures DigitsValue(m) < 100 && (|m| == 1 ==> DigitsValue(m) < 10)
  {
    if |m| == 2 {
      assert m[..1][..0] == [];
    } else {
      assert m[..0] == [];
    }
  }

  /** Where the week pattern matches, its month part matches too. */
  lemma MonthWeekHasMonth(s: string)
    requires SearchMonthWeek(s).Some?
    ensures SearchMonth(s).Some?
  {
    var q :| 0 <= q <= |s| && MonthWeekAt(s, q) == SearchMonthWeek(s);
    assert MonthAt(s, q).Some?;
  }

  // ================================================================ file selection

  predicate EndsWith(s: string, t: string) {
    |t| <= |s| && s[|s| - |t|..] == t
  }

  /** The name filter of find_underperforming_excels: an .xlsx file, with the center's keyword. */
  predicate CenterAccepts(center: string, name: string) {
    EndsWith(name, ".xlsx")
    && (center == "용산" ==> Contains(name, "미흡") || Contains(name, "부진"))
    && (center == "광주" ==> Contains(name, "집중관리"))
  }

  datatype FileEntry = FileEntry(month: nat, week: nat, name: string)

  /** One walked file name: kept when the center accepts it and it names a month. */
  function ExcelEntry(center: string, name: string): (r: Option<FileEntry>)
    ensures r.Some? <==> CenterAccepts(center, name) && FilePeriod(name).Some?
    ensures r.Some? ==> r.value == FileEntry(FilePeriod(name).value.0, FilePeriod(name).value.1, name)
  {
    if CenterAccepts(center, name) then
      match FilePeriod(name)
      case Some((m, w)) => Some(FileEntry(m, w, name))
      case None => None
    else None
  }

  /** find_underperforming_excels over the walked names, in walk order. */
  function ExcelFiles(center: string, names: seq<string>): seq<FileEntry> {
    Somes(seq(|names|, i requires 0 <= i < |names| => ExcelEntry(center, names[i])))
  }

  /** Every selected file passed the filter and carries its name's period. */
  lemma ExcelFilesSound(center: string, names: seq<string>, k: nat)
    requires k < |ExcelFiles(center, names)|
    ensures var e := ExcelFiles(center, names)[k];
      e.name in names && CenterAccepts(center, e.name) && FilePeriod(e.name) == Some((e.month, e.week))
  {
    var rs := seq(|names|, i requires 0 <= i < |names| => ExcelEntry(center, names[i]));
    SomesFrom(rs, k);
    var i :| 0 <= i < |rs| && rs[i] == Some(Somes(rs)[k]);
    assert rs[i] == ExcelEntry(center, names[i]);
  }

  /** by_month[m]: the files of month `m`, in order. */
  function MonthFiles(files: seq<FileEntry>, m: nat): (r: seq<FileEntry>)
    ensures forall k :: 0 <= k < |r| ==> r[k].month == m && r[k] in files
    decreases |files|
  {
    if files == [] then []
    else
      var init := MonthFiles(files[..|files| - 1], m);
      assert forall k :: 0 <= k < |init| ==> init[k] in files;
      init + (if files[|files| - 1].month == m then [files[|files| - 1]] else [])
  }

  function Months(files: seq<FileEntry>): set<nat> {
    set k | 0 <= k < |files| :: files[k].month
  }

  lemma {:induction false} MonthFilesPresent(files: seq<FileEntry>, m: nat)
    ensures MonthFiles(files, m) != [] <==> m in Months(files)
    decreases |files|
  {
    if files != [] {
      var init := files[..|files| - 1];
      MonthFilesPresent(init, m);
      assert forall k :: 0 <= k < |init| ==> init[k] == files[k];
      assert Months(files) == Months(init) + {files[|files| - 1].month};
    }
  }

  /**
   * `sorted(items, key=week)[-1]`: with a stable sort, the last item of the
   * highest week in input order.
   */
  function LastMax(items: seq<FileEntry>): (r: FileEntry)
    requires items != []
    ensures exists i :: 0 <= i < |items| && items[i] == r && forall j :: i < j < |items| ==> items[j].week < r.week
    ensures forall j :: 0 <= j < |items| ==> items[j].week <= r.week
    decreases |items|
  {
    if |items| == 1 then items[0]
    else
      var init := items[..|items| - 1];
      var b := LastMax(init);
      assert forall j :: 0 <= j < |init| ==> init[j] == items[j];
      if items[|items| - 1].week >= b.week then items[|items| - 1] else b
  }

  /**
   * select_month_end_files: the files grouped by month, then the months in
   * ascending order, each with its last file of the highest week.
   */
  method SelectMonthEndFiles(files: seq<FileEntry>) returns (selected: seq<FileEntry>)
    ensures forall i, j :: 0 <= i < j < |selected| ==> selected[i].month < selected[j].month
    ensures Months(selected) == Months(files)
    ensures forall i :: 0 <= i < |selected| ==>
      MonthFiles(files, selected[i].month) != [] && selected[i] == LastMax(MonthFiles(files, selected[i].month))
  {
    var byMonth := GroupByMonth(files);
    selected := LastPerMonth(byMonth);
    forall m ensures m in Months(files) <==> m in byMonth {
      MonthFilesPresent(files, m);
    }
    assert byMonth.Keys == Months(files);
  }

  /** The loop over sorted(by_month): one LastMax per month, months ascending. */
  method LastPerMonth(byMonth: map<nat, seq<FileEntry>>) returns (selected: seq<FileEntry>)
    requires forall m :: m in byMonth ==> byMonth[m] != [] && forall k :: 0 <= k < |byMonth[m]| ==> byMonth[m][k].month == m
    ensures forall i, j :: 0 <= i < j < |selected| ==> selected[i].month < selected[j].month
    ensures Months(selected) == byMonth.Keys
    ensures forall i :: 0 <= i < |selected| ==> selected[i].month in byMonth && selected[i] == LastMax(byMonth[selected[i].month])
  {
    var ends := map m | m in byMonth :: LastMax(byMonth[m]);
    assert forall m :: m in ends ==> ends[m] in byMonth[m];
    selected := InMonthOrder(ends);
  }

  /** The values of a month-keyed map, in ascending key order. */
  method InMonthOrder(ends: map<nat, FileEntry>) returns (selected: seq<FileEntry>)
    requires forall m :: m in ends ==> ends[m].month == m
    ensures forall i, j :: 0 <= i < j < |selected| ==> selected[i].month < selected[j].month
    ensures Months(selected) == ends.Keys
    ensures forall i :: 0 <= i < |selected| ==> selected[i].month in ends && selected[i] == ends[selected[i].month]
  {
    var rest := ends.Keys;
    selected := [];
    while rest != {}
      invariant OrderInv(ends, rest, selected)
      decreases |rest|
    {
      MinExists(rest);
      var m :| m in rest && forall x :: x in rest ==> m <= x;
      OrderStep(ends, rest, selected, m);
      selected := selected + [ends[m]];
      rest := rest - {m};
    }
    assert ends.Keys - {} == ends.Keys;
  }

  /** The loop state of InMonthOrder: the picked months are exactly the done keys, ascending, below the rest. */
  predicate OrderInv(ends: map<nat, FileEntry>, rest: set<nat>, selected: seq<FileEntry>) {
    && rest <= ends.Keys
    && Months(selected) == ends.Keys - rest
    && (forall i, j :: 0 <= i < j < |selected| ==> selected[i].month < selected[j].month)
    && (forall k :: 0 <= k < |selected| ==> selected[k].month in ends && selected[k] == ends[selected[k].month])
    && (forall k, m :: 0 <= k < |selected| && m in rest ==> selected[k].month < m)
  }

  lemma OrderStep(ends: map<nat, FileEntry>, rest: set<nat>, selected: seq<FileEntry>, m: nat)
    requires forall m :: m in ends ==> ends[m].month == m
    requires OrderInv(ends, rest, selected)
    requires m in rest && forall x :: x in rest ==> m <= x
    ensures OrderInv(ends, rest - {m}, selected + [ends[m]])
  {
    var s := selected + [ends[m]];
    MonthsAppend(selected, ends[m]);
    assert forall k :: 0 <= k < |selected| ==> s[k] == selected[k];
    assert s[|selected|].month == m;
  }

  lemma MonthsAppend(files: seq<FileEntry>, f: FileEntry)
    ensures Months(files + [f]) == Months(files) + {f.month}
  {
    var g := files + [f];
    assert forall k :: 0 <= k < |files| ==> g[k] == files[k];
    assert g[|files|] == f;
  }

  /** The by_month dictionary: every month present, with its files in order. */
  method GroupByMonth(files: seq<FileEntry>) returns (byMonth: map<nat, seq<FileEntry>>)
    ensures forall m :: m in byMonth <==> MonthFiles(files, m) != []
    ensures forall m :: m in byMonth ==> byMonth[m] == MonthFiles(files, m)
  {
    byMonth := map[];
    var i := 0;
    while i < |files|
      invariant 0 <= i <= |files|
      invariant forall m :: m in byMonth <==> MonthFiles(files[..i], m) != []
      invariant forall m :: m in byMonth ==> byMonth[m] == MonthFiles(files[..i], m)
    {
      var f := files[i];
      assert files[..i + 1][..i] == files[..i];
      if f.month in byMonth {
        byMonth := byMonth[f.month := byMonth[f.month] + [f]];
      } else {
        byMonth := byMonth[f.month := [f]];
      }
      i := i + 1;
    }
    assert files[..i] == files;
  }
}
