/**
 * The QC evaluation sheet parsers (lib/google-sheets.ts): the header map, the
 * column resolvers (exact and partial), date normalisation, the error-mark
 * cells and their counts, and the two row parsers (the general one and the
 * 2025 one). The sheet is a header row and rows of cell texts; JavaScript's
 * `new Date(text)` is the `parseDate` parameter.
 */
module GoogleSheets {
  import opened Wrappers
  import opened Text
  import Constants

  // ================================================================ header map

  /** A header map: normalised header text to column, keys in first-insertion order. */
  type Entries = seq<(string, nat)>

  /** `headerMap[key] = value`: an existing key keeps its place and takes the new value. */
  function Put(es: Entries, key: string, value: nat): (r: Entries)
    ensures |r| == |es| || |r| == |es| + 1
    decreases |es|
  {
    if es == [] then [(key, value)]
    else if es[0].0 == key then [(key, value)] + es[1..]
    else [es[0]] + Put(es[1..], key, value)
  }

  /** `headerMap[key]`. */
  function Lookup(es: Entries, key: string): (r: Option<nat>)
    decreases |es|
  {
    if es == [] then None else if es[0].0 == key then Some(es[0].1) else Lookup(es[1..], key)
  }

  lemma {:induction false} PutLookup(es: Entries, key: string, value: nat, k: string)
    ensures Lookup(Put(es, key, value), k) == if k == key then Some(value) else Lookup(es, k)
    decreases |es|
  {
    if es != [] && es[0].0 != key {
      PutLookup(es[1..], key, value, k);
    }
  }

  /** `h.trim().toLowerCase().replace(/\s+/g, ' ')`. */
  function HeaderKey(h: string): string {
    CollapseBy(ToLower(Trim(h)), IsJsSpace)
  }

  function HeaderKeys(headers: seq<string>): (keys: seq<string>)
    ensures |keys| == |headers| && forall i :: 0 <= i < |keys| ==> keys[i] == HeaderKey(headers[i])
  {
    seq(|headers|, i requires 0 <= i < |headers| => HeaderKey(headers[i]))
  }

  /** The map after the first `n` keys have been put, each at its own column. */
  function HeaderEntries(keys: seq<string>, n: nat): Entries
    requires n <= |keys|
  {
    if n == 0 then [] else Put(HeaderEntries(keys, n - 1), keys[n - 1], n - 1)
  }

  /** The last of the first `n` columns whose key is `k`. */
  function LastIndex(keys: seq<string>, n: nat, k: string): (r: Option<nat>)
    requires n <= |keys|
    ensures r.Some? ==> r.value < n && keys[r.value] == k && forall j :: r.value < j < n ==> keys[j] != k
    ensures r.None? ==> forall j :: 0 <= j < n ==> keys[j] != k
  {
    if n == 0 then None else if keys[n - 1] == k then Some(n - 1) else LastIndex(keys, n - 1, k)
  }

  /** A repeated header maps to its last column. */
  lemma {:induction false} HeaderEntriesLookup(keys: seq<string>, n: nat, k: string)
    requires n <= |keys|
    ensures Lookup(HeaderEntries(keys, n), k) == LastIndex(keys, n, k)
  {
    if n > 0 {
      HeaderEntriesLookup(keys, n - 1, k);
      PutLookup(HeaderEntries(keys, n - 1), keys[n - 1], n - 1, k);
    }
  }

  /** The forEach that fills headerMap, over the headers' keys. */
  method PutAll(keys: seq<string>) returns (es: Entries)
    ensures es == HeaderEntries(keys, |keys|)
  {
    es := [];
    var i := 0;
    while i < |keys|
      invariant 0 <= i <= |keys|
      invariant es == HeaderEntries(keys, i)
    {
      es := Put(es, keys[i], i);
      i := i + 1;
    }
  }

  /** The header map of a sheet's header row. */
  method BuildHeaderMap(headers: seq<string>) returns (es: Entries)
    ensures es == HeaderEntries(HeaderKeys(headers), |headers|)
  {
    es := PutAll(HeaderKeys(headers));
  }

  // ================================================================ column resolution

  /** How a column name is resolved when no header equals it. */
  datatype MatchMode =
    | Exact             // no fallback
    | Partial           // the first key containing the name or contained in it
    | Inquiry           // the first key containing "추가문의" or the name

  predicate Fallback(mode: MatchMode, k: string, name: string) {
    match mode
    case Exact => false
    case Partial => Contains(k, name) || Contains(name, k)
    case Inquiry => Contains(k, "추가문의") || Contains(k, name)
  }

  /** The first entry, in map order, that the fallback accepts. */
  function FirstFallback(es: Entries, name: string, mode: MatchMode): (r: Option<nat>)
    ensures r.Some? ==> exists i :: 0 <= i < |es| && es[i].1 == r.value && Fallback(mode, es[i].0, name)
    ensures r.None? ==> forall i :: 0 <= i < |es| ==> !Fallback(mode, es[i].0, name)
    decreases |es|
  {
    if es == [] then None
    else if Fallback(mode, es[0].0, name) then Some(es[0].1)
    else
      var r := FirstFallback(es[1..], name, mode);
      assert forall i :: 1 <= i < |es| ==> es[i] == es[1..][i - 1];
      r
  }

  /** The column for one name: an exact key first, then the fallback. */
  function Resolve(es: Entries, name: string, mode: MatchMode): (r: Option<nat>)
    ensures Lookup(es, name).Some? ==> r == Lookup(es, name)
    ensures mode == Exact ==> r == Lookup(es, name)
  {
    if Lookup(es, name).Some? then Lookup(es, name) else FirstFallback(es, name, mode)
  }

  /** getColumnIndex / getIdx: the column of the first name that resolves. */
  function ColumnIndex(es: Entries, names: seq<string>, mode: MatchMode): (r: Option<nat>)
    ensures r.None? <==> forall i :: 0 <= i < |names| ==> Resolve(es, names[i], mode).None?
    decreases |names|
  {
    if names == [] then None
    else if Resolve(es, names[0], mode).Some? then Resolve(es, names[0], mode)
    else
      var r := ColumnIndex(es, names[1..], mode);
      assert forall i :: 1 <= i < |names| ==> names[i] == names[1..][i - 1];
      r
  }

  // ================================================================ cells

  /** `row[idx]`: a cell past the end of the row is undefined, read as "". */
  function Cell(row: seq<string>, i: nat): string {
    if i < |row| then row[i] else ""
  }

  /**
   * `idx !== null ? row[idx]?.toString().trim() : ''`, except that a cell past the end of a short
   * row, undefined there, is read as "" here.
   */
  function Value(row: seq<string>, idx: Option<nat>): string {
    if idx.Some? then Trim(Cell(row, idx.value)) else ""
  }

  /** `parseInt(row[idx]?.toString() || '0', 10)`, 0 when there is no column. */
  function IntCell(row: seq<string>, idx: Option<nat>): Option<int> {
    if idx.None? then Some(0)
    else ParseIntJs(if Cell(row, idx.value) == "" then "0" else Cell(row, idx.value))
  }

  /** `value || null`. */
  function NonEmpty(s: string): (r: Option<string>)
    ensures r.None? <==> s == ""
  {
    if s == "" then None else Some(s)
  }

  /** An error mark: the upper-cased, trimmed cell is Y, TRUE, 1 or 예. */
  predicate IsErrorMark(v: string) {
    var u := Trim(ToUpper(v));
    u == "Y" || u == "TRUE" || u == "1" || u == "예"
  }

  /** Lower-case "y" counts: the comparison is case-insensitive. */
  lemma LowerYIsErrorMark()
    ensures IsErrorMark("y") && !IsErrorMark("N") && !IsErrorMark("")
  {
    assert ToUpper("y") == "Y";
    TrimByOfTrimmed("Y", IsJsSpace);
    assert ToUpper("N") == "N";
    TrimByOfTrimmed("N", IsJsSpace);
  }

  /** The cell of a column satisfies `mark` (IsErrorMark in every caller). */
  predicate Marked(row: seq<string>, idx: Option<nat>, mark: string -> bool) {
    idx.Some? && mark(Cell(row, idx.value))
  }

  // ================================================================ error counts

  const AttitudeColumns: seq<string> := ["첫인사/끝인사 누락", "공감표현 누락", "사과표현 누락", "추가문의 누락", "불친절"]
  const AttitudeColumns2025: seq<string> :=
    ["첫인사/끝인사 누락", "공감표현 누락", "사과표현 누락", "추가문의 누락", "추가문의 누락(채팅)", "불친절"]
  const BusinessColumns: seq<string> := [
    "상담유형 오설정", "가이드 미준수", "본인확인 누락", "필수탐색 누락", "오안내", "전산 처리 누락",
    "전산 처리 미흡/정정", "전산 조작 미흡/오류", "콜/픽/트립id 매핑누락&오기재", "플래그/키워드 누락&오기재",
    "상담이력 기재 미흡"
  ]

  /** The number of the first `n` columns that resolve to a marked cell. */
  function ErrorCount(row: seq<string>, es: Entries, cols: seq<string>, n: nat, mode: MatchMode,
                      mark: string -> bool): (c: nat)
    requires n <= |cols|
    ensures c <= n
  {
    if n == 0 then 0
    else ErrorCount(row, es, cols, n - 1, mode, mark) + (if Marked(row, Resolve(es, cols[n - 1], mode), mark) then 1 else 0)
  }

  /** The forEach of calculateAttitudeErrors, calculateBusinessErrors and calculateAttitudeErrors2025. */
  method CountErrors(row: seq<string>, es: Entries, cols: seq<string>, mode: MatchMode, mark: string -> bool)
    returns (count: nat)
    ensures count == ErrorCount(row, es, cols, |cols|, mode, mark)
  {
    count := 0;
    var i := 0;
    while i < |cols|
      invariant 0 <= i <= |cols|
      invariant count == ErrorCount(row, es, cols, i, mode, mark)
    {
      var idx := Resolve(es, cols[i], mode);
      assert ErrorCount(row, es, cols, i + 1, mode, mark)
        == ErrorCount(row, es, cols, i, mode, mark) + (if Marked(row, idx, mark) then 1 else 0);
      if idx.Some? && mark(Cell(row, idx.value)) {
        count := count + 1;
      }
      i := i + 1;
    }
  }

  /** calculateAttitudeErrors: exact header matches only, at most 5. */
  function AttitudeErrors(row: seq<string>, es: Entries): (c: nat)
    ensures c <= 5
  {
    ErrorCount(row, es, AttitudeColumns, 5, Exact, IsErrorMark)
  }

  /** calculateBusinessErrors: exact, then partial matches, at most 11. */
  function BusinessErrors(row: seq<string>, es: Entries): (c: nat)
    ensures c <= 11
  {
    ErrorCount(row, es, BusinessColumns, 11, Partial, IsErrorMark)
  }

  /** calculateAttitudeErrors2025: exact, then the "추가문의" fallback, at most 6. */
  function AttitudeErrors2025(row: seq<string>, es: Entries): (c: nat)
    ensures c <= 6
  {
    ErrorCount(row, es, AttitudeColumns2025, 6, Inquiry, IsErrorMark)
  }

  /** The count reaches `n` exactly when every column is marked, and 0 exactly when none is. */
  lemma ErrorCountExtremes(row: seq<string>, es: Entries, cols: seq<string>, n: nat, mode: MatchMode,
                           mark: string -> bool)
    requires n <= |cols|
    ensures ErrorCount(row, es, cols, n, mode, mark) == n <==>
      forall i :: 0 <= i < n ==> Marked(row, Resolve(es, cols[i], mode), mark)
    ensures ErrorCount(row, es, cols, n, mode, mark) == 0 <==>
      forall i :: 0 <= i < n ==> !Marked(row, Resolve(es, cols[i], mode), mark)
  {
    var p := (i: nat) => i < |cols| && Marked(row, Resolve(es, cols[i], mode), mark);
    ErrorCountAsCount(row, es, cols, n, mode, mark);
    CountBelowExtremes(n, p);
    assert forall i :: 0 <= i < n ==> (p(i) <==> Marked(row, Resolve(es, cols[i], mode), mark));
  }

  /** How many of 0..n-1 satisfy `p`. */
  function CountBelow(n: nat, p: nat -> bool): nat {
    if n == 0 then 0 else CountBelow(n - 1, p) + (if p(n - 1) then 1 else 0)
  }

  lemma {:induction false} CountBelowExtremes(n: nat, p: nat -> bool)
    ensures CountBelow(n, p) <= n
    ensures CountBelow(n, p) == n <==> forall i :: 0 <= i < n ==> p(i)
    ensures CountBelow(n, p) == 0 <==> forall i :: 0 <= i < n ==> !p(i)
  {
    if n > 0 {
      CountBelowExtremes(n - 1, p);
    }
  }

  lemma {:induction false} ErrorCountAsCount(row: seq<string>, es: Entries, cols: seq<string>, n: nat, mode: MatchMode,
                                             mark: string -> bool)
    requires n <= |cols|
    ensures ErrorCount(row, es, cols, n, mode, mark)
         == CountBelow(n, (i: nat) => i < |cols| && Marked(row, Resolve(es, cols[i], mode), mark))
  {
    if n > 0 {
      ErrorCountAsCount(row, es, cols, n - 1, mode, mark);
    }
  }

  // ================================================================ individual errors

  /** checkError: some name resolves (exact, then partial) to a marked cell. */
  function CheckError(row: seq<string>, es: Entries, names: seq<string>): (b: bool)
    ensures b <==> exists i :: 0 <= i < |names| && Marked(row, Resolve(es, names[i], Partial), IsErrorMark)
    decreases |names|
  {
    if names == [] then false
    else if Marked(row, Resolve(es, names[0], Partial), IsErrorMark) then true
    else
      var b := CheckError(row, es, names[1..]);
      assert forall i :: 1 <= i < |names| ==> names[i] == names[1..][i - 1];
      b
  }

  /** The sixteen flags of extractIndividualErrors, attitude items first. */
  const IndividualErrorNames: seq<seq<string>> := [
    ["첫인사/끝인사 누락", "첫인사끝인사누락", "greeting_error"],
    ["공감표현 누락", "공감표현누락", "empathy_error"],
    ["사과표현 누락", "사과표현누락", "apology_error"],
    ["추가문의 누락", "추가문의누락", "additional_inquiry_error"],
    ["불친절", "unkind_error"],
    ["상담유형 오설정", "상담유형오설정", "consult_type_error"],
    ["가이드 미준수", "가이드미준수", "guide_error"],
    ["본인확인 누락", "본인확인누락", "identity_check_error"],
    ["필수탐색 누락", "필수탐색누락", "required_search_error"],
    ["오안내", "wrong_guide_error"],
    ["전산 처리 누락", "전산처리누락", "process_missing_error"],
    ["전산 처리 미흡/정정", "전산처리미흡정정", "process_incomplete_error"],
    ["전산 조작 미흡/오류", "전산조작미흡오류", "system_error"],
    ["콜/픽/트립id 매핑누락&오기재", "콜픽트립id매핑누락오기재", "id_mapping_error"],
    ["플래그/키워드 누락&오기재", "플래그키워드누락오기재", "flag_keyword_error"],
    ["상담이력 기재 미흡", "상담이력기재미흡", "history_error"]
  ]

  /** extractIndividualErrors. */
  function IndividualErrors(row: seq<string>, es: Entries): (flags: seq<bool>)
    ensures |flags| == 16
    ensures forall i :: 0 <= i < 16 ==> flags[i] == CheckError(row, es, IndividualErrorNames[i])
  {
    seq(16, i requires 0 <= i < 16 => CheckError(row, es, IndividualErrorNames[i]))
  }

  // ================================================================ dates

  /** `/^\d{4}-\d{2}-\d{2}$/`. */
  predicate IsIsoDate(s: string) {
    |s| == 10 && AllDigits(s[..4]) && s[4] == '-' && AllDigits(s[5..7]) && s[7] == '-' && AllDigits(s[8..])
  }

  /**
   * The date pattern `(\d{4})<sep><ws>(\d{1,2})<sep><ws>(\d{1,2})` matched at
   * position `i`, where `<ws>` is `\s*` when `spaces` holds and nothing
   * otherwise. The month group must be followed by the separator, so it is a
   * whole run of one or two digits; the day group is greedy, at most two digits.
   */
  function DateMatchAt(s: string, i: nat, sep: char, spaces: bool): (r: Option<(string, string, string)>)
    requires i <= |s|
    ensures r.Some? ==> |r.value.0| == 4 && AllDigits(r.value.0)
    ensures r.Some? ==> 1 <= |r.value.1| <= 2 && AllDigits(r.value.1)
    ensures r.Some? ==> 1 <= |r.value.2| <= 2 && AllDigits(r.value.2)
  {
    if i + 4 < |s| && AllDigits(s[i..i + 4]) && s[i + 4] == sep then
      var j := if spaces then SkipBy(s, i + 5, IsJsSpace) else i + 5;
      var m := DigitRun(s, j);
      if 1 <= m <= 2 && j + m < |s| && s[j + m] == sep then
        var k := if spaces then SkipBy(s, j + m + 1, IsJsSpace) else j + m + 1;
        var d := DigitRun(s, k);
        var n := if d < 2 then d else 2;
        DigitRunPrefix(s, j, m);
        DigitRunPrefix(s, k, n);
        if d >= 1 then Some((s[i..i + 4], s[j..j + m], s[k..k + n])) else None
      else None
    else None
  }

  /** `s.match(pattern)`: the leftmost match at or after `i`. */
  function FindDate(s: string, i: nat, sep: char, spaces: bool): (r: Option<(string, string, string)>)
    requires i <= |s|
    ensures r.Some? ==> exists k :: i <= k <= |s| && DateMatchAt(s, k, sep, spaces) == r
    ensures r.None? ==> forall k :: i <= k <= |s| ==> DateMatchAt(s, k, sep, spaces).None?
    decreases |s| - i
  {
    if DateMatchAt(s, i, sep, spaces).Some? then DateMatchAt(s, i, sep, spaces)
    else if i == |s| then None
    else FindDate(s, i + 1, sep, spaces)
  }

  /** `"2025. 10. 2"` and `"2025.10.2"`. */
  function DotDate(s: string): Option<(string, string, string)> { FindDate(s, 0, '.', true) }

  /** `"2025/10/2"`. */
  function SlashDate(s: string): Option<(string, string, string)> { FindDate(s, 0, '/', false) }

  /** `String(n).padStart(2, '0')`. */
  function Pad2(n: nat): string { PadStart2(NatToString(n)) }

  lemma DigitsValueTwo(s: string)
    requires |s| == 2 && AllDigits(s)
    ensures DigitsValue(s) == 10 * DigitValue(s[0]) + DigitValue(s[1])
  {
    var h := s[..1];
    assert h[..0] == [] && h[0] == s[0];
    assert DigitsValue(h) == DigitValue(s[0]);
    assert s[..|s| - 1] == h;
  }

  /** A number below 100 pads to two digits that read back as the number. */
  lemma Pad2Value(n: nat)
    requires n < 100
    ensures |Pad2(n)| == 2 && AllDigits(Pad2(n)) && DigitsValue(Pad2(n)) == n
  {
    var p := Pad2(n);
    if n >= 10 {
      assert NatToString(n) == [DigitChar(n / 10), DigitChar(n % 10)];
    } else {
      assert p == ['0', DigitChar(n)];
    }
    DigitsValueTwo(p);
  }

  /** One or two digits are worth less than 100. */
  lemma ShortDigitsBelow100(s: string)
    requires 1 <= |s| <= 2 && AllDigits(s)
    ensures DigitsValue(s) < 100
  {
    if |s| == 2 {
      DigitsValueTwo(s);
    } else {
      assert s[..0] == [];
    }
  }

  /** `${year}-${month}-${day}` of a matched date, month and day through parseInt and padStart. */
  function RenderDate(g: (string, string, string)): (r: string)
    requires AllDigits(g.1) && AllDigits(g.2)
  {
    g.0 + "-" + Pad2(DigitsValue(g.1)) + "-" + Pad2(DigitsValue(g.2))
  }

  /** A matched date renders as an ISO date with the same year, month and day. */
  lemma RenderDateIso(g: (string, string, string))
    requires |g.0| == 4 && AllDigits(g.0)
    requires 1 <= |g.1| <= 2 && AllDigits(g.1) && 1 <= |g.2| <= 2 && AllDigits(g.2)
    ensures IsIsoDate(RenderDate(g))
    ensures RenderDate(g)[..4] == g.0
    ensures DigitsValue(RenderDate(g)[5..7]) == DigitsValue(g.1)
    ensures DigitsValue(RenderDate(g)[8..]) == DigitsValue(g.2)
  {
    ShortDigitsBelow100(g.1);
    ShortDigitsBelow100(g.2);
    Pad2Value(DigitsValue(g.1));
    Pad2Value(DigitsValue(g.2));
    var r := RenderDate(g);
    assert r[5..7] == Pad2(DigitsValue(g.1));
    assert r[8..] == Pad2(DigitsValue(g.2));
  }

  /**
   * normalizeDate. `parseDate` stands for `new Date(s)`: the calendar year,
   * month (1 to 12) and day of the parsed time, or `None` for an invalid date.
   */
  function NormalizeDate(s: string, parseDate: string -> Option<(int, nat, nat)>): (r: Option<string>)
    ensures s == "" ==> r.None?
    ensures IsIsoDate(s) ==> r == Some(s)
    ensures s != "" && !IsIsoDate(s) && (DotDate(s).Some? || SlashDate(s).Some?) ==> r.Some? && IsIsoDate(r.value)
    ensures s != "" && !IsIsoDate(s) && DotDate(s).None? && SlashDate(s).None? ==> (r.None? <==> parseDate(s).None?)
  {
    if s == "" then None
    else if IsIsoDate(s) then Some(s)
    else if DotDate(s).Some? then
      RenderDateIso(DotDate(s).value);
      Some(RenderDate(DotDate(s).value))
    else if SlashDate(s).Some? then
      RenderDateIso(SlashDate(s).value);
      Some(RenderDate(SlashDate(s).value))
    else if parseDate(s).Some? then
      var d := parseDate(s).value;
      Some(IntToString(d.0) + "-" + Pad2(d.1) + "-" + Pad2(d.2))
    else None
  }

  /** A dotted date keeps its year, month and day. */
  lemma NormalizeDotDate(s: string, parseDate: string -> Option<(int, nat, nat)>)
    requires !IsIsoDate(s) && DotDate(s).Some?
    ensures var g := DotDate(s).value; var r := NormalizeDate(s, parseDate);
      r.Some? && r.value[..4] == g.0
      && DigitsValue(r.value[5..7]) == DigitsValue(g.1) && DigitsValue(r.value[8..]) == DigitsValue(g.2)
  {
    RenderDateIso(DotDate(s).value);
  }

  /** A slashed date (with no dotted date in it) keeps its year, month and day. */
  lemma NormalizeSlashDate(s: string, parseDate: string -> Option<(int, nat, nat)>)
    requires !IsIsoDate(s) && DotDate(s).None? && SlashDate(s).Some?
    ensures var g := SlashDate(s).value; var r := NormalizeDate(s, parseDate);
      r.Some? && r.value[..4] == g.0
      && DigitsValue(r.value[5..7]) == DigitsValue(g.1) && DigitsValue(r.value[8..]) == DigitsValue(g.2)
  {
    RenderDateIso(SlashDate(s).value);
  }

  /** Normalising a dotted or slashed date a second time returns it unchanged. */
  lemma NormalizeDateIdempotent(s: string, parseDate: string -> Option<(int, nat, nat)>)
    requires IsIsoDate(s) || DotDate(s).Some? || SlashDate(s).Some?
    ensures NormalizeDate(s, parseDate).Some?
    ensures NormalizeDate(NormalizeDate(s, parseDate).value, parseDate) == NormalizeDate(s, parseDate)
  {
  }

  // ================================================================ rows

  /** One parsed evaluation: the record pushed for a row. */
  datatype SheetEvaluation = SheetEvaluation(
    evaluationId: string,
    date: string,
    agentId: string,
    agentName: string,
    center: string,
    service: string,
    channel: string,
    consultId: string,
    hireDate: string,
    tenureMonths: Option<int>,        // None is NaN
    attitudeErrors: int,
    businessErrors: int,
    totalErrors: int,
    errorDetails: seq<bool>,           // the sixteen extractIndividualErrors flags
    consultTypes: seq<Option<string>>, // before-correction depths 1-4, then after-correction depths 1-4
    rawRow: seq<string>)

  /** The columns a parser looks up (the same for every row of a sheet). */
  datatype Columns = Columns(
    name: Option<nat>, id: Option<nat>, evalDate: Option<nat>, consultId: Option<nat>,
    service: Option<nat>, serviceGroup: Option<nat>, depth1: Option<nat>, channel: Option<nat>,
    hireDate: Option<nat>, tenure: Option<nat>, depths: seq<Option<nat>>,
    attitudeTotal: Option<nat>, businessTotal: Option<nat>)

  /** The column names of parseSheetRowsToEvaluations, all already lower-case and trimmed. */
  function SheetColumns(es: Entries): (c: Columns)
    ensures |c.depths| == 8
    ensures c.name == ColumnIndex(es, ["이름", "상담사명", "name"], Exact)
    ensures c.channel == (if Lookup(es, "유선/채팅").Some? then Lookup(es, "유선/채팅")
                          else if Lookup(es, "유선채팅").Some? then Lookup(es, "유선채팅")
                          else ColumnIndex(es, ["채널", "channel"], Exact))
  {
    var channelType := ColumnIndex(es, ["유선/채팅", "유선채팅"], Exact);
    Columns(
      ColumnIndex(es, ["이름", "상담사명", "name"], Exact),
      ColumnIndex(es, ["id", "상담사id", "사번"], Exact),
      ColumnIndex(es, ["평가일", "날짜", "date", "evaluation_date"], Exact),
      ColumnIndex(es, ["상담id", "consult_id", "consultid"], Exact),
      ColumnIndex(es, ["서비스", "service"], Exact),
      ColumnIndex(es, ["서비스 그룹", "서비스그룹"], Exact),
      ColumnIndex(es, ["상담유형 1depth", "상담유형1", "상담유형", "consult_type"], Exact),
      if channelType.Some? then channelType else ColumnIndex(es, ["채널", "channel"], Exact),
      ColumnIndex(es, ["입사일", "hire_date", "hiredate"], Exact),
      ColumnIndex(es, ["근속개월", "tenure", "tenure_months"], Exact),
      [ ColumnIndex(es, ["상담유형-수정 전 1depth", "상담유형 수정 전 1depth", "수정 전 1depth", "상담유형 1depth", "상담유형1", "상담유형"], Exact),
        ColumnIndex(es, ["상담유형-수정 전 2depth", "상담유형 수정 전 2depth", "수정 전 2depth", "상담유형 2depth", "상담유형2"], Exact),
        ColumnIndex(es, ["상담유형-수정 전 3depth", "상담유형 수정 전 3depth", "수정 전 3depth", "상담유형 3depth", "상담유형3"], Exact),
        ColumnIndex(es, ["상담유형-수정 전 4depth", "상담유형 수정 전 4depth", "수정 전 4depth", "상담유형 4depth", "상담유형4"], Exact),
        ColumnIndex(es, ["상담유형-수정 후 1depth", "상담유형 수정 후 1depth", "수정 후 1depth"], Exact),
        ColumnIndex(es, ["상담유형-수정 후 2depth", "상담유형 수정 후 2depth", "수정 후 2depth"], Exact),
        ColumnIndex(es, ["상담유형-수정 후 3depth", "상담유형 수정 후 3depth", "수정 후 3depth"], Exact),
        ColumnIndex(es, ["상담유형-수정 후 4depth", "상담유형 수정 후 4depth", "수정 후 4depth"], Exact) ],
      None, None)
  }

  /** How a required column is tested for absence. */
  datatype RequiredCheck =
    | Falsy      // `!idx`: column 0 counts as absent too
    | NullCheck  // `idx === null`

  predicate Missing(idx: Option<nat>, check: RequiredCheck) {
    idx.None? || (check == Falsy && idx.value == 0)
  }

  /** A service candidate: normalised, and kept only when neither empty nor an invalid name. */
  function ServiceCandidate(v: string): (r: string)
    ensures r != "" ==> r == Constants.NormalizeService(v) && r !in Constants.InvalidServiceNames
    ensures r == "" ==> Constants.NormalizeService(v) in Constants.InvalidServiceNames
  {
    var n := Constants.NormalizeService(v);
    if n !in Constants.InvalidServiceNames then n else ""
  }

  /** The text before the first '_' of a 1depth value, trimmed. */
  function DepthHead(depth1: string): string {
    Trim(Split(depth1, '_')[0])
  }

  /**
   * The service of a row from its 1depth, service group and service values:
   * the 1depth service `head(depth1)` when valid, else the group when valid,
   * else the service value; then normalised. Every caller passes DepthHead.
   */
  function ServiceFrom(depth1: string, group: string, service: string, head: string -> string): string {
    var s1 := if depth1 != "" then ServiceCandidate(head(depth1)) else "";
    var s2 := if s1 != "" then s1 else if group != "" then ServiceCandidate(group) else "";
    var s3 := if s2 != "" then s2 else service;
    Constants.NormalizeService(s3)
  }

  function ServiceOf(row: seq<string>, c: Columns): string {
    ServiceFrom(Value(row, c.depth1), Value(row, c.serviceGroup), Value(row, c.service), DepthHead)
  }

  /** The service priority: a valid 1depth service wins, then a valid group, then the raw service value. */
  lemma ServicePriority(depth1: string, group: string, service: string, head: string -> string)
    ensures var r := ServiceFrom(depth1, group, service, head);
      (depth1 != "" && ServiceCandidate(head(depth1)) != "" ==> r == ServiceCandidate(head(depth1)))
      && ((depth1 == "" || ServiceCandidate(head(depth1)) == "") && group != "" && ServiceCandidate(group) != ""
          ==> r == ServiceCandidate(group))
      && ((depth1 == "" || ServiceCandidate(head(depth1)) == "") && (group == "" || ServiceCandidate(group) == "")
          ==> r == Constants.NormalizeService(service))
  {
    if depth1 != "" && ServiceCandidate(head(depth1)) != "" {
      Constants.DisplayServiceNameIdempotent(head(depth1));
    } else if group != "" && ServiceCandidate(group) != "" {
      Constants.DisplayServiceNameIdempotent(group);
    }
  }

  /** `consultId ? agentId_date_consultId : agentId_date_rowIndex`. */
  function EvaluationId(agentId: string, date: string, consultId: string, rowIndex: nat): (id: string)
    ensures consultId != "" ==> id == agentId + "_" + date + "_" + consultId
    ensures consultId == "" ==> id == agentId + "_" + date + "_" + NatToString(rowIndex)
  {
    agentId + "_" + date + "_" + (if consultId != "" then consultId else NatToString(rowIndex))
  }

  /** The record of a row whose required fields are present and whose date normalised to `date`. */
  function Evaluation(rowIndex: nat, row: seq<string>, es: Entries, c: Columns, center: string, date: string): SheetEvaluation
  {
    var consultId := Value(row, c.consultId);
    var att := AttitudeErrors(row, es);
    var bus := BusinessErrors(row, es);
    SheetEvaluation(
      EvaluationId(Value(row, c.id), date, consultId, rowIndex), date, Value(row, c.id), Value(row, c.name), center,
      ServiceOf(row, c), Value(row, c.channel), consultId, Value(row, c.hireDate), IntCell(row, c.tenure),
      att, bus, att + bus, IndividualErrors(row, es),
      seq(|c.depths|, i requires 0 <= i < |c.depths| => NonEmpty(Value(row, c.depths[i]))), row)
  }

  /** What a record holds: the row's identity, its error counts within their bounds and its texts. */
  lemma EvaluationSpec(rowIndex: nat, row: seq<string>, es: Entries, c: Columns, center: string, date: string)
    ensures var e := Evaluation(rowIndex, row, es, c, center, date);
      && e.agentId == Value(row, c.id) && e.agentName == Value(row, c.name) && e.date == date
      && e.evaluationId == EvaluationId(e.agentId, date, e.consultId, rowIndex)
      && e.service == ServiceOf(row, c) && e.center == center && e.rawRow == row
      && 0 <= e.attitudeErrors <= 5 && 0 <= e.businessErrors <= 11
      && e.totalErrors == e.attitudeErrors + e.businessErrors
      && e.errorDetails == IndividualErrors(row, es)
      && |e.consultTypes| == |c.depths|
      && forall i :: 0 <= i < |c.depths| ==> e.consultTypes[i] == NonEmpty(Value(row, c.depths[i]))
  {
  }

  /** One row of parseSheetRowsToEvaluations: `None` when the row is skipped. */
  function SheetRow(rowIndex: nat, row: seq<string>, es: Entries, c: Columns, center: string,
                    parseDate: string -> Option<(int, nat, nat)>, check: RequiredCheck): (r: Option<SheetEvaluation>)
    ensures r.Some? <==>
      !Missing(c.name, check) && !Missing(c.id, check) && !Missing(c.evalDate, check)
      && Value(row, c.name) != "" && Value(row, c.id) != ""
      && NormalizeDate(Value(row, c.evalDate), parseDate).Some?
    ensures r.Some? ==> r.value.date == NormalizeDate(Value(row, c.evalDate), parseDate).value
    ensures r.Some? ==> r.value == Evaluation(rowIndex, row, es, c, center, r.value.date)
  {
    match DateText(row, c, check)
    case None => None
    case Some(text) =>
      match NormalizeDate(text, parseDate)
      case None => None
      case Some(date) => Some(Evaluation(rowIndex, row, es, c, center, date))
  }

  /** The date cell of a row that has its required columns, a name, an id and a date. */
  function DateText(row: seq<string>, c: Columns, check: RequiredCheck): (r: Option<string>)
    ensures r.Some? <==>
      !Missing(c.name, check) && !Missing(c.id, check) && !Missing(c.evalDate, check)
      && Value(row, c.name) != "" && Value(row, c.id) != "" && Value(row, c.evalDate) != ""
    ensures r.Some? ==> r.value == Value(row, c.evalDate)
  {
    if Missing(c.name, check) || Missing(c.id, check) || Missing(c.evalDate, check) then None
    else if Value(row, c.name) == "" || Value(row, c.id) == "" || Value(row, c.evalDate) == "" then None
    else Some(Value(row, c.evalDate))
  }

  function SheetRows(rows: seq<seq<string>>, es: Entries, c: Columns, center: string,
                     parseDate: string -> Option<(int, nat, nat)>, check: RequiredCheck): (rs: seq<Option<SheetEvaluation>>)
    ensures |rs| == |rows| && forall i :: 0 <= i < |rows| ==> rs[i] == SheetRow(i, rows[i], es, c, center, parseDate, check)
  {
    seq(|rows|, i requires 0 <= i < |rows| => SheetRow(i, rows[i], es, c, center, parseDate, check))
  }

  /** As written, a name, id or date column at index 0 drops every row of the sheet. */
  lemma ColumnZeroDropsRows(rowIndex: nat, row: seq<string>, es: Entries, c: Columns, center: string,
                            parseDate: string -> Option<(int, nat, nat)>)
    requires c.name == Some(0) || c.id == Some(0) || c.evalDate == Some(0)
    ensures SheetRow(rowIndex, row, es, c, center, parseDate, Falsy).None?
  {
  }

  /** A concrete sheet whose first column is 이름: every complete row is still dropped as written. */
  lemma ColumnZeroExample(parseDate: string -> Option<(int, nat, nat)>)
    ensures SheetColumns([("이름", 0), ("id", 1), ("평가일", 2)]).name == Some(0)
    ensures SheetRow(0, ["홍길동", "A1", "2025-10-02"], [("이름", 0), ("id", 1), ("평가일", 2)],
                     SheetColumns([("이름", 0), ("id", 1), ("평가일", 2)]), "용산", parseDate, Falsy).None?
  {
    var es: Entries := [("이름", 0), ("id", 1), ("평가일", 2)];
    assert Lookup(es, "이름") == Some(0);
    assert Resolve(es, "이름", Exact) == Some(0);
  }

  /** With the null check, a sheet whose first column is the name is parsed: the intended behaviour. */
  lemma NullCheckKeepsColumnZero(rowIndex: nat, row: seq<string>, es: Entries, c: Columns, center: string,
                                 parseDate: string -> Option<(int, nat, nat)>)
    requires c.name == Some(0) && c.id.Some? && c.evalDate.Some?
    requires Value(row, c.name) != "" && Value(row, c.id) != ""
    requires NormalizeDate(Value(row, c.evalDate), parseDate).Some?
    ensures SheetRow(rowIndex, row, es, c, center, parseDate, NullCheck).Some?
  {
    assert !Missing(c.name, NullCheck) && !Missing(c.id, NullCheck) && !Missing(c.evalDate, NullCheck);
  }

  /** The null check keeps every row the falsy check keeps. */
  lemma NullCheckKeepsMore(rowIndex: nat, row: seq<string>, es: Entries, c: Columns, center: string,
                           parseDate: string -> Option<(int, nat, nat)>)
    ensures SheetRow(rowIndex, row, es, c, center, parseDate, Falsy).Some? ==>
      SheetRow(rowIndex, row, es, c, center, parseDate, NullCheck) == SheetRow(rowIndex, row, es, c, center, parseDate, Falsy)
  {
  }

  method ParseSheetRow(rowIndex: nat, row: seq<string>, es: Entries, c: Columns, center: string,
                       parseDate: string -> Option<(int, nat, nat)>)
    returns (r: Option<SheetEvaluation>)
    ensures r == SheetRow(rowIndex, row, es, c, center, parseDate, NullCheck)
  {
    var evalDate := RequiredDateText(row, c);
    if evalDate.None? {
      return None;
    }
    var date := NormalizeDate(evalDate.value, parseDate);
    if date.None? {
      return None;
    }
    return Some(Evaluation(rowIndex, row, es, c, center, date.value));
  }

  /** The early returns of the row callback: required columns, then a name, an id and a date. */
  method RequiredDateText(row: seq<string>, c: Columns) returns (evalDate: Option<string>)
    ensures evalDate == DateText(row, c, NullCheck)
  {
    if c.name.None? || c.id.None? || c.evalDate.None? {
      return None;
    }
    var agentName := Value(row, c.name);
    var agentId := Value(row, c.id);
    var text := Value(row, c.evalDate);
    if agentName == "" || agentId == "" || text == "" {
      return None;
    }
    return Some(text);
  }

  /**
   * parseSheetRowsToEvaluations, with required columns tested for absence
   * (`=== null`) rather than falsiness; see ColumnZeroDropsRows for the code as written.
   */
  method ParseSheetRows(headers: seq<string>, rows: seq<seq<string>>, center: string,
                        parseDate: string -> Option<(int, nat, nat)>)
    returns (evaluations: seq<SheetEvaluation>)
    ensures var es := HeaderEntries(HeaderKeys(headers), |headers|);
      evaluations == Somes(SheetRows(rows, es, SheetColumns(es), center, parseDate, NullCheck))
  {
    var es := BuildHeaderMap(headers);
    evaluations := ParseRowsWith(rows, es, SheetColumns(es), center, parseDate);
  }

  /** The rows.forEach of parseSheetRowsToEvaluations, once the columns are resolved. */
  method ParseRowsWith(rows: seq<seq<string>>, es: Entries, c: Columns, center: string,
                       parseDate: string -> Option<(int, nat, nat)>)
    returns (evaluations: seq<SheetEvaluation>)
    ensures evaluations == Somes(SheetRows(rows, es, c, center, parseDate, NullCheck))
  {
    ghost var results := SheetRows(rows, es, c, center, parseDate, NullCheck);
    evaluations := [];
    var ri := 0;
    while ri < |rows|
      invariant 0 <= ri <= |rows|
      invariant evaluations == Somes(results[..ri])
    {
      var r := ParseSheetRow(ri, rows[ri], es, c, center, parseDate);
      assert results[ri] == r;
      SomesStep(results, ri);
      if r.Some? {
        evaluations := evaluations + [r.value];
      }
      ri := ri + 1;
    }
    assert results[..ri] == results;
  }

  /** Every parsed evaluation comes from some row with a name, an id and an ISO-or-parsed date. */
  lemma ParsedEvaluationsSound(rows: seq<seq<string>>, es: Entries, c: Columns, center: string,
                                  parseDate: string -> Option<(int, nat, nat)>, k: nat)
    requires k < |Somes(SheetRows(rows, es, c, center, parseDate, NullCheck))|
    ensures var e := Somes(SheetRows(rows, es, c, center, parseDate, NullCheck))[k];
      e.agentName != "" && e.agentId != "" && e.totalErrors == e.attitudeErrors + e.businessErrors
      && exists i :: 0 <= i < |rows| && e.rawRow == rows[i]
  {
    var rs := SheetRows(rows, es, c, center, parseDate, NullCheck);
    var i := SomesIndex(rs, k);
    var e := Somes(rs)[k];
    assert SheetRow(i, rows[i], es, c, center, parseDate, NullCheck) == Some(e);
    EvaluationSpec(i, rows[i], es, c, center, e.date);
  }

  // ================================================================ 2025 sheets

  /** The column names of parseSheetRowsToEvaluations2025, resolved exactly or partially. */
  function Columns2025(es: Entries, hasChannel: bool): (c: Columns)
    ensures c.depths == [] && (!hasChannel ==> c.channel.None?)
    ensures c.name == ColumnIndex(es, ["이름", "상담사명"], Partial)
  {
    Columns(
      ColumnIndex(es, ["이름", "상담사명"], Partial),
      ColumnIndex(es, ["id", "상담사id"], Partial),
      ColumnIndex(es, ["평가일", "날짜"], Partial),
      ColumnIndex(es, ["상담id", "consultid"], Partial),
      ColumnIndex(es, ["서비스"], Partial),
      None, None,
      if hasChannel then ColumnIndex(es, ["채널", "유선/채팅"], Partial) else None,
      ColumnIndex(es, ["입사일"], Partial),
      ColumnIndex(es, ["근속개월"], Partial),
      [],
      ColumnIndex(es, ["태도오류"], Partial),
      ColumnIndex(es, ["오상담/오처리 오류"], Partial))
  }

  /** The pre-aggregated 태도오류 and 오상담/오처리 오류 counts, when both columns exist and both parse. */
  function PreAggregated(row: seq<string>, c: Columns): (r: Option<(int, int)>)
    ensures r.Some? <==> (c.attitudeTotal.Some? && c.businessTotal.Some?
                          && IntCell(row, c.attitudeTotal).Some? && IntCell(row, c.businessTotal).Some?)
    ensures r.Some? ==> r.value == (IntCell(row, c.attitudeTotal).value, IntCell(row, c.businessTotal).value)
  {
    if c.attitudeTotal.Some? && c.businessTotal.Some? then
      var t := IntCell(row, c.attitudeTotal);
      var o := IntCell(row, c.businessTotal);
      if t.Some? && o.Some? then Some((t.value, o.value)) else None
    else None
  }

  /** The counts of a 2025 row: the pre-aggregated pair unless absent or both zero, else recounted. */
  function Counts2025(row: seq<string>, es: Entries, c: Columns): (r: (int, int))
    ensures PreAggregated(row, c).Some? && PreAggregated(row, c).value != (0, 0) ==> r == PreAggregated(row, c).value
    ensures PreAggregated(row, c).None? || PreAggregated(row, c).value == (0, 0) ==>
      r == (AttitudeErrors2025(row, es), BusinessErrors(row, es)) && 0 <= r.0 <= 6 && 0 <= r.1 <= 11
  {
    var pre := PreAggregated(row, c);
    if pre.Some? && pre.value != (0, 0) then pre.value
    else (AttitudeErrors2025(row, es) as int, BusinessErrors(row, es) as int)
  }

  /** `hasChannel && channelIdx !== null ? value : 'unknown'`, then `|| 'unknown'`. */
  function Channel2025(row: seq<string>, c: Columns, hasChannel: bool): (ch: string)
    ensures ch != ""
    ensures !hasChannel || c.channel.None? ==> ch == "unknown"
    ensures hasChannel && c.channel.Some? && Value(row, c.channel) != "" ==> ch == Value(row, c.channel)
  {
    var v := if hasChannel && c.channel.Some? then Value(row, c.channel) else "unknown";
    if v == "" then "unknown" else v
  }

  /** The record of a 2025 row: the service column as is, no consultation-type depths. */
  function Evaluation2025(rowIndex: nat, row: seq<string>, es: Entries, c: Columns, center: string,
                          hasChannel: bool, date: string): (e: SheetEvaluation)
    ensures e.agentId == Value(row, c.id) && e.agentName == Value(row, c.name) && e.date == date
    ensures e.evaluationId == EvaluationId(e.agentId, date, e.consultId, rowIndex)
    ensures e.service == Value(row, c.service) && e.channel != "" && e.consultTypes == []
    ensures (e.attitudeErrors, e.businessErrors) == Counts2025(row, es, c)
    ensures e.totalErrors == e.attitudeErrors + e.businessErrors
    ensures |e.errorDetails| == 16
  {
    var consultId := Value(row, c.consultId);
    var counts := Counts2025(row, es, c);
    SheetEvaluation(
      EvaluationId(Value(row, c.id), date, consultId, rowIndex), date, Value(row, c.id), Value(row, c.name), center,
      Value(row, c.service), Channel2025(row, c, hasChannel), consultId, Value(row, c.hireDate), IntCell(row, c.tenure),
      counts.0, counts.1, counts.0 + counts.1, IndividualErrors(row, es), [], row)
  }

  /** One row of parseSheetRowsToEvaluations2025: `None` when the row is skipped. */
  function Sheet2025Row(rowIndex: nat, row: seq<string>, es: Entries, c: Columns, center: string, hasChannel: bool,
                        parseDate: string -> Option<(int, nat, nat)>): (r: Option<SheetEvaluation>)
    ensures r.Some? <==>
      c.name.Some? && c.id.Some? && c.evalDate.Some? && Value(row, c.name) != "" && Value(row, c.id) != ""
      && NormalizeDate(Value(row, c.evalDate), parseDate).Some?
    ensures r.Some? ==> r.value == Evaluation2025(rowIndex, row, es, c, center, hasChannel,
                                                  NormalizeDate(Value(row, c.evalDate), parseDate).value)
  {
    if c.name.None? || c.id.None? || c.evalDate.None? then None
    else if Value(row, c.name) == "" || Value(row, c.id) == "" || Value(row, c.evalDate) == "" then None
    else match NormalizeDate(Value(row, c.evalDate), parseDate)
      case None => None
      case Some(date) => Some(Evaluation2025(rowIndex, row, es, c, center, hasChannel, date))
  }

  function Sheet2025Rows(rows: seq<seq<string>>, es: Entries, c: Columns, center: string, hasChannel: bool,
                         parseDate: string -> Option<(int, nat, nat)>): (rs: seq<Option<SheetEvaluation>>)
    ensures |rs| == |rows|
    ensures forall i :: 0 <= i < |rows| ==> rs[i] == Sheet2025Row(i, rows[i], es, c, center, hasChannel, parseDate)
  {
    seq(|rows|, i requires 0 <= i < |rows| => Sheet2025Row(i, rows[i], es, c, center, hasChannel, parseDate))
  }

  method ParseSheet2025Row(rowIndex: nat, row: seq<string>, es: Entries, c: Columns, center: string, hasChannel: bool,
                           parseDate: string -> Option<(int, nat, nat)>)
    returns (r: Option<SheetEvaluation>)
    ensures r == Sheet2025Row(rowIndex, row, es, c, center, hasChannel, parseDate)
  {
    if c.name.None? || c.id.None? || c.evalDate.None? {
      return None;
    }
    var agentName := Value(row, c.name);
    var agentId := Value(row, c.id);
    var evalDate := Value(row, c.evalDate);
    if agentName == "" || agentId == "" || evalDate == "" {
      return None;
    }
    var date := NormalizeDate(evalDate, parseDate);
    if date.None? {
      return None;
    }
    return Some(Evaluation2025(rowIndex, row, es, c, center, hasChannel, date.value));
  }

  /** parseSheetRowsToEvaluations2025. */
  method ParseSheetRows2025(headers: seq<string>, rows: seq<seq<string>>, center: string, hasChannel: bool,
                            parseDate: string -> Option<(int, nat, nat)>)
    returns (evaluations: seq<SheetEvaluation>)
    ensures var es := HeaderEntries(HeaderKeys(headers), |headers|);
      evaluations == Somes(Sheet2025Rows(rows, es, Columns2025(es, hasChannel), center, hasChannel, parseDate))
  {
    var es := BuildHeaderMap(headers);
    evaluations := Parse2025RowsWith(rows, es, Columns2025(es, hasChannel), center, hasChannel, parseDate);
  }

  /** The rows.forEach of parseSheetRowsToEvaluations2025, once the columns are resolved. */
  method Parse2025RowsWith(rows: seq<seq<string>>, es: Entries, c: Columns, center: string, hasChannel: bool,
                           parseDate: string -> Option<(int, nat, nat)>)
    returns (evaluations: seq<SheetEvaluation>)
    ensures evaluations == Somes(Sheet2025Rows(rows, es, c, center, hasChannel, parseDate))
  {
    ghost var results := Sheet2025Rows(rows, es, c, center, hasChannel, parseDate);
    evaluations := [];
    var ri := 0;
    while ri < |rows|
      invariant 0 <= ri <= |rows|
      invariant evaluations == Somes(results[..ri])
    {
      var r := ParseSheet2025Row(ri, rows[ri], es, c, center, hasChannel, parseDate);
      assert results[ri] == r;
      SomesStep(results, ri);
      if r.Some? {
        evaluations := evaluations + [r.value];
      }
      ri := ri + 1;
    }
    assert results[..ri] == results;
  }

  /** A 2025 sheet without a channel column records every evaluation on channel "unknown". */
  lemma NoChannelIsUnknown(rows: seq<seq<string>>, es: Entries, center: string,
                           parseDate: string -> Option<(int, nat, nat)>, k: nat)
    requires k < |Somes(Sheet2025Rows(rows, es, Columns2025(es, false), center, false, parseDate))|
    ensures Somes(Sheet2025Rows(rows, es, Columns2025(es, false), center, false, parseDate))[k].channel == "unknown"
  {
    var c := Columns2025(es, false);
    var rs := Sheet2025Rows(rows, es, c, center, false, parseDate);
    SomesFrom(rs, k);
    var i :| 0 <= i < |rs| && rs[i] == Some(Somes(rs)[k]);
    assert rs[i] == Sheet2025Row(i, rows[i], es, c, center, false, parseDate);
  }
}
