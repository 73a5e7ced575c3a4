/**
 * Group-change repair (app/api/fix-groups/route.ts): parsing the free-text
 * group-change column of the roster sheets, collecting each agent's changes,
 * the group in force at an evaluation date, and the corrections emitted for
 * evaluations whose stored service or channel differs from it.
 */
module FixGroups {
  import opened Wrappers
  import opened Text

  // ================================================================ parsing

  /** One side of a change: "service,channel,shift". */
  datatype Group = Group(service: string, channel: string, shift: string)

  datatype GroupChange = GroupChange(date: string, from: Group, to: Group)

  /** A date separator of the pattern, `[-./]`. */
  predicate IsDateSep(c: char) { c == '-' || c == '.' || c == '/' }

  /** `->` (followed by at least one character) or `→` (likewise) starts at `a`. */
  predicate ArrowAt(s: string, a: nat) {
    (a + 2 < |s| && s[a] == '-' && s[a + 1] == '>') || (a + 1 < |s| && s[a] == '→')
  }

  function ArrowLen(s: string, a: nat): nat
    requires ArrowAt(s, a)
  {
    if s[a] == '-' then 2 else 1
  }

  /** The first position at or after `i` where an arrow starts. */
  function FirstArrow(s: string, i: nat): (r: Option<nat>)
    ensures r.Some? ==> i <= r.value && ArrowAt(s, r.value)
    ensures r.Some? ==> forall j :: i <= j < r.value ==> !ArrowAt(s, j)
    ensures r.None? ==> forall j :: i <= j ==> !ArrowAt(s, j)
    decreases |s| - i
  {
    if i >= |s| then None
    else if ArrowAt(s, i) then Some(i)
    else FirstArrow(s, i + 1)
  }

  /**
   * Where the date group `\d{4}[-./]\d{1,2}[-./]\d{1,2}` is matched at `p`:
   * the lengths of the month and day digit runs. Taking at most two digits
   * greedily is the only choice: a shorter run leaves a digit where a
   * separator, a blank or '/' must follow.
   */
  datatype DateMatch = DateMatch(start: nat, monthLen: nat, dayLen: nat) {
    function MonthAt(): nat { start + 5 }
    function DayAt(): nat { start + 6 + monthLen }
    function End(): nat { start + 6 + monthLen + dayLen }
  }

  function Min2(n: nat): nat { if n < 2 then n else 2 }

  predicate DateShape(s: string, d: DateMatch) {
    1 <= d.monthLen <= 2 && 1 <= d.dayLen <= 2 && d.End() <= |s|
    && AllDigits(s[d.start..d.start + 4]) && IsDateSep(s[d.start + 4])
    && AllDigits(s[d.MonthAt()..d.MonthAt() + d.monthLen]) && IsDateSep(s[d.MonthAt() + d.monthLen])
    && AllDigits(s[d.DayAt()..d.End()])
  }

  function DateAt(s: string, p: nat): (r: Option<DateMatch>)
    ensures r.Some? ==> r.value.start == p && DateShape(s, r.value)
  {
    if p + 5 <= |s| && AllDigits(s[p..p + 4]) && IsDateSep(s[p + 4]) then
      var m := Min2(DigitRun(s, p + 5));
      if 1 <= m && p + 5 + m < |s| && IsDateSep(s[p + 5 + m]) then
        var d := Min2(DigitRun(s, p + 6 + m));
        if 1 <= d then
          assert s[p + 6 + m..p + 6 + m + d] == s[p + 6 + m..][..d];
          Some(DateMatch(p, m, d))
        else None
      else None
    else None
  }

  /** `\s*[/]` from `r`: the position just after the slash. */
  function SlashAfter(s: string, r: nat): (q: Option<nat>)
    requires r <= |s|
    ensures q.Some? ==> r < q.value <= |s| && s[q.value - 1] == '/'
    ensures q.Some? ==> forall k :: r <= k < q.value - 1 ==> IsJsSpace(s[k])
  {
    var j := SkipBy(s, r, IsJsSpace);
    if j < |s| && s[j] == '/' then Some(j + 1) else None
  }

  /**
   * Where `\s*(.+?)\s*(?:->|→)\s*(.+)` finds its arrow from `q`. The lazy group
   * starts at the first non-blank `g` and grows until an arrow follows; only if
   * no arrow starts after `g` does the leading `\s*` give back a blank, which
   * lets an arrow at `g` itself be used.
   */
  function ArrowFor(s: string, q: nat): (a: Option<nat>)
    requires q <= |s|
    ensures a.Some? ==> q < a.value && ArrowAt(s, a.value)
  {
    var g := SkipBy(s, q, IsJsSpace);
    match FirstArrow(s, g + 1)
    case Some(a) => Some(a)
    case None => if g > q && ArrowAt(s, g) then Some(g) else None
  }

  /** A whole match at start position `p`: the date, the position after '/', and the arrow. */
  datatype LineMatch = LineMatch(date: DateMatch, afterSlash: nat, arrow: nat)

  predicate MatchShape(s: string, m: LineMatch) {
    DateShape(s, m.date) && m.date.End() < m.afterSlash < m.arrow && ArrowAt(s, m.arrow)
  }

  function MatchAt(s: string, p: nat): (r: Option<LineMatch>)
    ensures r.Some? ==> r.value.date.start == p && MatchShape(s, r.value)
  {
    match DateAt(s, p)
    case None => None
    case Some(d) =>
      match SlashAfter(s, d.End())
      case None => None
      case Some(q) =>
        match ArrowFor(s, q)
        case None => None
        case Some(a) => Some(LineMatch(d, q, a))
  }

  /** `line.match(...)`: the match at the leftmost start position that has one. */
  function FindMatch(s: string, p: nat): (r: Option<LineMatch>)
    ensures r.Some? ==> p <= r.value.date.start && MatchShape(s, r.value)
    ensures r.Some? ==> MatchAt(s, r.value.date.start) == r
    ensures r.None? ==> forall k :: p <= k ==> MatchAt(s, k).None?
    decreases |s| - p
  {
    if p >= |s| then
      assert forall k :: p <= k ==> DateAt(s, k).None?;
      None
    else match MatchAt(s, p)
      case Some(m) => Some(m)
      case None => FindMatch(s, p + 1)
  }

  /** The three captured groups of a match, with the surrounding blanks trimmed away. */
  function DateText(s: string, m: LineMatch): string
    requires MatchShape(s, m)
  {
    s[m.date.start..m.date.End()]
  }

  function FromText(s: string, m: LineMatch): string
    requires m.afterSlash <= m.arrow && ArrowAt(s, m.arrow)
  {
    Trim(s[m.afterSlash..m.arrow])
  }

  function ToText(s: string, m: LineMatch): string
    requires ArrowAt(s, m.arrow)
  {
    Trim(s[m.arrow + ArrowLen(s, m.arrow)..])
  }

  /** `parts.map(s => s.trim())[i] || ""`. */
  function TrimmedPart(parts: seq<string>, i: nat): (r: string)
    requires forall k :: 0 <= k < |parts| ==> ',' !in parts[k]
    ensures ',' !in r
  {
    if i < |parts| then
      var c := LeadCount(parts[i], IsJsSpace);
      var t := Trim(parts[i]);
      assert t == parts[i][c..c + |t|];
      t
    else ""
  }

  /** "service,channel,shift" with each part trimmed and missing parts empty. */
  function ParseGroup(text: string): (g: Group)
    ensures ',' !in g.service && ',' !in g.channel && ',' !in g.shift
  {
    var parts := Split(Trim(text), ',');
    Group(TrimmedPart(parts, 0), TrimmedPart(parts, 1), TrimmedPart(parts, 2))
  }

  /** The normalised date: year, zero-padded month and day, from a date whose separators split into three parts. */
  function NormalizeChangeDate(dateStr: string): (r: Option<string>)
    ensures r.None? <==> |Split(dateStr, '-')| != 3
    ensures r.Some? ==>
      var p, q := Split(dateStr, '-'), Split(r.value, '-');
      |q| == 3 && q[0] == p[0]
      && |q[1]| >= 2 && |q[1]| >= |p[1]| && q[1][|q[1]| - |p[1]|..] == p[1]
      && |q[2]| >= 2 && |q[2]| >= |p[2]| && q[2][|q[2]| - |p[2]|..] == p[2]
  {
    var parts := Split(dateStr, '-');
    if |parts| != 3 then None
    else
      PadKeepsDashFree(parts[1]);
      PadKeepsDashFree(parts[2]);
      SplitThree(parts[0], PadStart2(parts[1]), PadStart2(parts[2]));
      Some(parts[0] + "-" + PadStart2(parts[1]) + "-" + PadStart2(parts[2]))
  }

  lemma PadKeepsDashFree(a: string)
    requires '-' !in a
    ensures '-' !in PadStart2(a)
  {
    assert PadStart2(a) == a || PadStart2(a) == "0" + a || PadStart2(a) == "00";
  }

  /** The change a match describes, given its normalised date. */
  function ChangeOf(line: string, m: LineMatch, date: string): GroupChange
    requires MatchShape(line, m)
  {
    GroupChange(date, ParseGroup(FromText(line, m)), ParseGroup(ToText(line, m)))
  }

  /**
   * parseGroupChangeLine as written: '.' in the date becomes '-', and a date
   * that then does not split on '-' into exactly three parts is rejected.
   */
  function ParseGroupChangeLine(line: string): (r: Option<GroupChange>)
    ensures r.Some? ==>
      FindMatch(line, 0).Some?
      && Sep1(line, FindMatch(line, 0).value) != '/' && Sep2(line, FindMatch(line, 0).value) != '/'
    ensures r.Some? ==> CanonicalDate(r.value.date)
  {
    if line == [] then None
    else match FindMatch(line, 0)
      case None => None
      case Some(m) =>
        AsWrittenDate(line, m);
        MatchedDateCanonical(line, m);
        match NormalizeChangeDate(ReplaceChar(DateText(line, m), '.', '-'))
        case None => None
        case Some(date) => Some(ChangeOf(line, m, date))
  }

  /** The corrected parser: '/' in the date is normalised like '.', so every date the pattern accepts is used. */
  function ParseGroupChangeLineFixed(line: string): (r: Option<GroupChange>)
    ensures r.Some? <==> FindMatch(line, 0).Some?
    ensures r.Some? ==> CanonicalDate(r.value.date)
  {
    if line == [] then None
    else match FindMatch(line, 0)
      case None => None
      case Some(m) =>
        FixedDate(line, m);
        MatchedDateCanonical(line, m);
        match NormalizeChangeDate(ReplaceChar(ReplaceChar(DateText(line, m), '.', '-'), '/', '-'))
        case None => None
        case Some(date) => Some(ChangeOf(line, m, date))
  }

  // ---------------------------------------------------------------- parsing facts

  /** A date as stored: "YYYY-MM-DD". */
  predicate CanonicalDate(d: string) {
    |d| == 10 && d[4] == '-' && d[7] == '-'
    && IsDigit(d[0]) && IsDigit(d[1]) && IsDigit(d[2]) && IsDigit(d[3])
    && IsDigit(d[5]) && IsDigit(d[6]) && IsDigit(d[8]) && IsDigit(d[9])
  }

  /** The year, month and day digit runs of a match. */
  function Year(s: string, m: LineMatch): (r: string)
    requires MatchShape(s, m)
    ensures AllDigits(r) && |r| == 4
  {
    s[m.date.start..m.date.start + 4]
  }

  function Month(s: string, m: LineMatch): (r: string)
    requires MatchShape(s, m)
    ensures AllDigits(r) && 1 <= |r| <= 2
  {
    s[m.date.MonthAt()..m.date.MonthAt() + m.date.monthLen]
  }

  function Day(s: string, m: LineMatch): (r: string)
    requires MatchShape(s, m)
    ensures AllDigits(r) && 1 <= |r| <= 2
  {
    s[m.date.DayAt()..m.date.End()]
  }

  /** The two date separators of a match. */
  function Sep1(s: string, m: LineMatch): (c: char)
    requires MatchShape(s, m)
    ensures IsDateSep(c)
  {
    s[m.date.start + 4]
  }

  function Sep2(s: string, m: LineMatch): (c: char)
    requires MatchShape(s, m)
    ensures IsDateSep(c)
  {
    s[m.date.MonthAt() + m.date.monthLen]
  }

  /** The matched date in "YYYY-MM-DD" form. */
  function MatchedDate(s: string, m: LineMatch): string
    requires MatchShape(s, m)
  {
    Year(s, m) + "-" + PadStart2(Month(s, m)) + "-" + PadStart2(Day(s, m))
  }

  /** The matched date splits into year, separator, month, separator, day. */
  lemma DateTextParts(s: string, m: LineMatch)
    requires MatchShape(s, m)
    ensures DateText(s, m) == Year(s, m) + [Sep1(s, m)] + Month(s, m) + [Sep2(s, m)] + Day(s, m)
  {
  }

  lemma ReplaceCharConcat(a: string, b: string, x: char, y: char)
    ensures ReplaceChar(a + b, x, y) == ReplaceChar(a, x, y) + ReplaceChar(b, x, y)
  {
    assert ReplaceChar(a + b, x, y) == ReplaceChar(a, x, y) + ReplaceChar(b, x, y);
  }

  lemma ReplaceCharDigits(a: string, x: char, y: char)
    requires AllDigits(a) && !IsDigit(x)
    ensures ReplaceChar(a, x, y) == a
  {
  }

  /** The date after separator replacement, given what each separator became. */
  lemma ReplacedDate(ys: string, c1: char, ms: string, c2: char, ds: string, x: char, y: char)
    requires AllDigits(ys) && AllDigits(ms) && AllDigits(ds) && !IsDigit(x)
    ensures ReplaceChar(ys + [c1] + ms + [c2] + ds, x, y)
      == ys + [if c1 == x then y else c1] + ms + [if c2 == x then y else c2] + ds
  {
    ReplaceCharConcat(ys + [c1] + ms + [c2], ds, x, y);
    ReplaceCharConcat(ys + [c1] + ms, [c2], x, y);
    ReplaceCharConcat(ys + [c1], ms, x, y);
    ReplaceCharConcat(ys, [c1], x, y);
    ReplaceCharDigits(ys, x, y);
    ReplaceCharDigits(ms, x, y);
    ReplaceCharDigits(ds, x, y);
  }

  lemma NoDashInDigits(a: string)
    requires AllDigits(a)
    ensures '-' !in a
  {
    assert forall k :: 0 <= k < |a| ==> a[k] != '-';
  }

  /** Splitting year, month and day on '-': three parts exactly when both separators are '-'. */
  lemma NormalizeOfParts(ys: string, c1: char, ms: string, c2: char, ds: string)
    requires AllDigits(ys) && AllDigits(ms) && AllDigits(ds)
    requires c1 == '-' || c1 == '/'
    requires c2 == '-' || c2 == '/'
    ensures NormalizeChangeDate(ys + [c1] + ms + [c2] + ds)
      == if c1 == '-' && c2 == '-' then Some(ys + "-" + PadStart2(ms) + "-" + PadStart2(ds)) else None
  {
    NoDashInDigits(ys);
    NoDashInDigits(ms);
    NoDashInDigits(ds);
    if c1 == '-' && c2 == '-' {
      SplitThree(ys, ms, ds);
    } else if c1 == '-' {
      SplitTwo(ys, ms + [c2] + ds);
      assert ys + [c1] + ms + [c2] + ds == ys + ['-'] + (ms + [c2] + ds);
    } else if c2 == '-' {
      SplitTwo(ys + [c1] + ms, ds);
    } else {
      SplitOne(ys + [c1] + ms + [c2] + ds);
    }
  }

  lemma SplitOne(a: string)
    requires '-' !in a
    ensures |Split(a, '-')| == 1
  {
    SplitWithout(a, '-');
  }

  lemma SplitTwo(a: string, b: string)
    requires '-' !in a && '-' !in b
    ensures |Split(a + ['-'] + b, '-')| == 2
  {
    SplitWithout(a, '-');
    SplitWithout(b, '-');
    SplitConcat(a, '-', b);
  }

  lemma SplitThree(a: string, b: string, c: string)
    requires '-' !in a && '-' !in b && '-' !in c
    ensures Split(a + ['-'] + b + ['-'] + c, '-') == [a, b, c]
  {
    SplitWithout(a, '-');
    SplitWithout(b, '-');
    SplitWithout(c, '-');
    SplitConcat(b, '-', c);
    assert a + ['-'] + b + ['-'] + c == a + ['-'] + (b + ['-'] + c);
    SplitConcat(a, '-', b + ['-'] + c);
  }

  lemma PadDigits(a: string)
    requires AllDigits(a) && 1 <= |a| <= 2
    ensures AllDigits(PadStart2(a)) && |PadStart2(a)| == 2
  {
  }

  lemma CanonicalOfParts(ys: string, pm: string, pd: string)
    requires AllDigits(ys) && |ys| == 4
    requires AllDigits(pm) && |pm| == 2 && AllDigits(pd) && |pd| == 2
    ensures CanonicalDate(ys + "-" + pm + "-" + pd)
  {
    var d := ys + "-" + pm + "-" + pd;
    assert |d| == 10;
    assert d[4] == '-';
    assert d[7] == '-';
    assert d[..4] == ys && d[5..7] == pm && d[8..] == pd;
  }

  lemma MatchedDateCanonical(s: string, m: LineMatch)
    requires MatchShape(s, m)
    ensures CanonicalDate(MatchedDate(s, m))
  {
    PadDigits(Month(s, m));
    PadDigits(Day(s, m));
    CanonicalOfParts(Year(s, m), PadStart2(Month(s, m)), PadStart2(Day(s, m)));
  }

  /** As written, the date normalises exactly when neither separator is '/'. */
  lemma AsWrittenDate(s: string, m: LineMatch)
    requires MatchShape(s, m)
    ensures NormalizeChangeDate(ReplaceChar(DateText(s, m), '.', '-'))
      == if Sep1(s, m) != '/' && Sep2(s, m) != '/' then Some(MatchedDate(s, m)) else None
  {
    var ys, ms, ds, c1, c2 := Year(s, m), Month(s, m), Day(s, m), Sep1(s, m), Sep2(s, m);
    DateTextParts(s, m);
    ReplacedDate(ys, c1, ms, c2, ds, '.', '-');
    NormalizeOfParts(ys, if c1 == '.' then '-' else c1, ms, if c2 == '.' then '-' else c2, ds);
  }

  /** With '/' also replaced, the date always normalises. */
  lemma FixedDate(s: string, m: LineMatch)
    requires MatchShape(s, m)
    ensures NormalizeChangeDate(ReplaceChar(ReplaceChar(DateText(s, m), '.', '-'), '/', '-')) == Some(MatchedDate(s, m))
  {
    var ys, ms, ds, c1, c2 := Year(s, m), Month(s, m), Day(s, m), Sep1(s, m), Sep2(s, m);
    var e1, e2 := if c1 == '.' then '-' else c1, if c2 == '.' then '-' else c2;
    DateTextParts(s, m);
    ReplacedDate(ys, c1, ms, c2, ds, '.', '-');
    ReplacedDate(ys, e1, ms, e2, ds, '/', '-');
    NormalizeOfParts(ys, '-', ms, '-', ds);
  }

  /**
   * As written, a line is accepted exactly when the pattern matches and
   * neither date separator is '/'; the date is then canonical.
   */
  lemma ParseAccepts(line: string)
    ensures ParseGroupChangeLine(line).Some? <==>
      FindMatch(line, 0).Some? && Sep1(line, FindMatch(line, 0).value) != '/' && Sep2(line, FindMatch(line, 0).value) != '/'
    ensures ParseGroupChangeLine(line).Some? ==>
      ParseGroupChangeLine(line).value == ChangeOf(line, FindMatch(line, 0).value, MatchedDate(line, FindMatch(line, 0).value))
    ensures ParseGroupChangeLine(line).Some? ==> CanonicalDate(ParseGroupChangeLine(line).value.date)
  {
    var f := FindMatch(line, 0);
    var r := ParseGroupChangeLine(line);
    if f.Some? {
      var d := MatchedDate(line, f.value);
      assert r == (if Sep1(line, f.value) != '/' && Sep2(line, f.value) != '/' then Some(ChangeOf(line, f.value, d)) else None) by {
        AsWrittenDate(line, f.value);
      }
      MatchedDateCanonical(line, f.value);
    }
  }

  /** With the correction, every line the pattern matches is accepted, with a canonical date. */
  lemma FixedParseAccepts(line: string)
    ensures ParseGroupChangeLineFixed(line).Some? <==> FindMatch(line, 0).Some?
    ensures ParseGroupChangeLineFixed(line).Some? ==>
      ParseGroupChangeLineFixed(line).value == ChangeOf(line, FindMatch(line, 0).value, MatchedDate(line, FindMatch(line, 0).value))
    ensures ParseGroupChangeLineFixed(line).Some? ==> CanonicalDate(ParseGroupChangeLineFixed(line).value.date)
  {
    var f := FindMatch(line, 0);
    var r := ParseGroupChangeLineFixed(line);
    if f.Some? {
      var d := MatchedDate(line, f.value);
      assert r == Some(ChangeOf(line, f.value, d)) by {
        FixedDate(line, f.value);
      }
      MatchedDateCanonical(line, f.value);
    }
  }

  /**
   * The correction only adds lines: whatever the as-written parser accepts, the
   * corrected one accepts with the same change, and the two differ exactly on
   * matched lines with a '/' date separator.
   */
  lemma FixedExtendsAsWritten(line: string)
    ensures ParseGroupChangeLine(line).Some? ==> ParseGroupChangeLineFixed(line) == ParseGroupChangeLine(line)
    ensures ParseGroupChangeLine(line) != ParseGroupChangeLineFixed(line) <==>
      FindMatch(line, 0).Some? && (Sep1(line, FindMatch(line, 0).value) == '/' || Sep2(line, FindMatch(line, 0).value) == '/')
  {
    ParseAccepts(line);
    FixedParseAccepts(line);
  }

  /** An empty line, or one with no arrow anywhere, gives no change. */
  lemma NoArrowNoChange(line: string)
    requires forall a :: 0 <= a < |line| ==> !ArrowAt(line, a)
    ensures ParseGroupChangeLine(line).None? && ParseGroupChangeLineFixed(line).None?
  {
  }

  /** A change line whose date uses '/' separators. */
  const SlashDateLine := "2025/9/1 / A -> B"

  lemma SlashDateMatch()
    ensures FindMatch(SlashDateLine, 0) == Some(LineMatch(DateMatch(0, 1, 1), 10, 13))
  {
    SlashLineDate();
    SlashLineSlash();
    SlashLineArrow();
    assert MatchAt(SlashDateLine, 0) == Some(LineMatch(DateMatch(0, 1, 1), 10, 13));
  }

  lemma SlashLineDate()
    ensures DateAt(SlashDateLine, 0) == Some(DateMatch(0, 1, 1))
  {
    var s := SlashDateLine;
    assert s[0..4] == "2025";
    assert s[5] == '9' && s[6] == '/' && s[7] == '1' && s[8] == ' ';
    assert DigitRun(s, 5) == 1 && DigitRun(s, 7) == 1;
  }

  lemma SlashLineSlash()
    ensures SlashAfter(SlashDateLine, 8) == Some(10)
  {
    var s := SlashDateLine;
    assert s[8] == ' ' && s[9] == '/';
  }

  lemma SlashLineArrow()
    ensures ArrowFor(SlashDateLine, 10) == Some(13)
  {
    var s := SlashDateLine;
    assert s[10] == ' ' && s[11] == 'A' && s[12] == ' ' && s[13] == '-' && s[14] == '>';
    assert FirstArrow(s, 12) == Some(13);
  }

  lemma SingleFieldGroup(t: string)
    requires t != [] && !IsJsSpace(t[0]) && !IsJsSpace(t[|t| - 1]) && ',' !in t
    ensures ParseGroup(t) == Group(t, "", "")
  {
    TrimByOfTrimmed(t, IsJsSpace);
    SplitWithout(t, ',');
  }

  /** Where the pattern matches SlashDateLine. */
  const SlashDateMatchValue := LineMatch(DateMatch(0, 1, 1), 10, 13)

  lemma SlashDateShape()
    ensures MatchShape(SlashDateLine, SlashDateMatchValue)
  {
    SlashDateMatch();
  }

  lemma SlashDateDate()
    ensures MatchShape(SlashDateLine, SlashDateMatchValue) && MatchedDate(SlashDateLine, SlashDateMatchValue) == "2025-09-01"
  {
    SlashDateShape();
    var s, m := SlashDateLine, SlashDateMatchValue;
    assert Year(s, m) == "2025";
    assert Month(s, m) == "9";
    assert Day(s, m) == "1";
  }

  lemma SlashDateFrom()
    ensures MatchShape(SlashDateLine, SlashDateMatchValue) && FromText(SlashDateLine, SlashDateMatchValue) == "A"
  {
    SlashDateShape();
    var t := SlashDateLine[10..13];
    assert t == " " + "A" + " ";
    TrimAround("A");
  }

  lemma SlashDateTo()
    ensures MatchShape(SlashDateLine, SlashDateMatchValue) && ToText(SlashDateLine, SlashDateMatchValue) == "B"
  {
    SlashDateShape();
    var s := SlashDateLine;
    assert ArrowLen(s, 13) == 2;
    var t := s[15..];
    assert t == " " + "B";
    TrimAfterBlank("B");
  }

  /** A '/'-separated date: the pattern accepts the line, the as-written parser rejects it, the corrected one reads it. */
  lemma SlashDateCounterexample()
    ensures FindMatch(SlashDateLine, 0).Some?
    ensures ParseGroupChangeLine(SlashDateLine).None?
    ensures ParseGroupChangeLineFixed(SlashDateLine) == Some(GroupChange("2025-09-01", Group("A", "", ""), Group("B", "", "")))
  {
    var s, m := SlashDateLine, SlashDateMatchValue;
    SlashDateMatch();
    assert ParseGroupChangeLine(s).None? by {
      assert Sep1(s, m) == '/';
      ParseAccepts(s);
    }
    assert ParseGroupChangeLineFixed(s) == Some(ChangeOf(s, m, MatchedDate(s, m))) by {
      FixedParseAccepts(s);
    }
    SlashDateDate();
    SlashDateChange();
  }

  /** The change the corrected parser builds from SlashDateLine. */
  lemma SlashDateChange()
    ensures MatchShape(SlashDateLine, SlashDateMatchValue)
    ensures ChangeOf(SlashDateLine, SlashDateMatchValue, "2025-09-01") == GroupChange("2025-09-01", Group("A", "", ""), Group("B", "", ""))
  {
    SlashDateFrom();
    SlashDateTo();
    ChangeOfSingleFields(SlashDateLine, SlashDateMatchValue, "2025-09-01", "A", "B");
  }

  /** Both sides of a matched line are single clean fields: each becomes a group with only a service. */
  lemma ChangeOfSingleFields(line: string, m: LineMatch, date: string, a: string, b: string)
    requires MatchShape(line, m) && FromText(line, m) == a && ToText(line, m) == b
    requires a != [] && !IsJsSpace(a[0]) && !IsJsSpace(a[|a| - 1]) && ',' !in a
    requires b != [] && !IsJsSpace(b[0]) && !IsJsSpace(b[|b| - 1]) && ',' !in b
    ensures ChangeOf(line, m, date) == GroupChange(date, Group(a, "", ""), Group(b, "", ""))
  {
    SingleFieldGroup(a);
    SingleFieldGroup(b);
  }

  /** A clean text between single blanks trims to itself. */
  lemma TrimAround(t: string)
    requires t != [] && !IsJsSpace(t[0]) && !IsJsSpace(t[|t| - 1])
    ensures Trim(" " + t + " ") == t
  {
    assert (" " + t + " ")[1..] == t + " ";
    assert TrimStartBy(" " + t + " ", IsJsSpace) == t + " ";
    assert (t + " ")[..|t|] == t;
    assert TrimEndBy(t + " ", IsJsSpace) == TrimEndBy(t, IsJsSpace) == t;
  }

  lemma TrimAfterBlank(t: string)
    requires t != [] && !IsJsSpace(t[0]) && !IsJsSpace(t[|t| - 1])
    ensures Trim(" " + t) == t
  {
    assert (" " + t)[1..] == t;
    assert TrimStartBy(" " + t, IsJsSpace) == t;
    assert TrimEndBy(t, IsJsSpace) == t;
  }

  // ---------------------------------------------------------------- round trip

  /** The text of one side of a change, as the sheet writes it. */
  function GroupText(g: Group): string {
    g.service + "," + g.channel + "," + g.shift
  }

  /** A change line in the form the column uses: "date / from -> to". */
  function ChangeLine(c: GroupChange): string {
    c.date + " / " + GroupText(c.from) + " -> " + GroupText(c.to)
  }

  /** A field that survives splitting on ',' and trimming unchanged. */
  predicate CleanField(f: string) {
    ',' !in f && (f == [] || (!IsJsSpace(f[0]) && !IsJsSpace(f[|f| - 1])))
  }

  predicate CleanGroup(g: Group) {
    CleanField(g.service) && CleanField(g.channel) && CleanField(g.shift)
  }

  /** No arrow inside a text. */
  predicate ArrowFree(t: string) {
    '→' !in t && forall i :: 0 <= i < |t| - 1 ==> !(t[i] == '-' && t[i + 1] == '>')
  }

  lemma GroupTextEnds(g: Group)
    requires CleanGroup(g)
    ensures var t := GroupText(g); |t| >= 2 && !IsJsSpace(t[0]) && !IsJsSpace(t[|t| - 1])
  {
    var t := GroupText(g);
    if g.service != [] {
      assert t[0] == g.service[0];
    } else {
      assert t[0] == ',';
    }
    if g.shift != [] {
      assert t[|t| - 1] == g.shift[|g.shift| - 1];
    } else {
      assert t[|t| - 1] == ',';
    }
  }

  lemma CleanFieldTrim(f: string)
    requires CleanField(f)
    ensures Trim(f) == f
  {
    TrimByOfTrimmed(f, IsJsSpace);
  }

  /** Splitting a written group on ',' gives its three fields. */
  lemma GroupTextSplit(g: Group)
    requires ',' !in g.service && ',' !in g.channel && ',' !in g.shift
    ensures Split(GroupText(g), ',') == [g.service, g.channel, g.shift]
  {
    var rest := g.channel + "," + g.shift;
    SplitWithout(g.service, ',');
    SplitWithout(g.channel, ',');
    SplitWithout(g.shift, ',');
    SplitConcat(g.channel, ',', g.shift);
    assert GroupText(g) == g.service + [','] + rest;
    SplitConcat(g.service, ',', rest);
  }

  /** Reading a written group gives the group back. */
  lemma ParseGroupText(g: Group)
    requires CleanGroup(g)
    ensures ParseGroup(GroupText(g)) == g
  {
    var t := GroupText(g);
    GroupTextEnds(g);
    TrimByOfTrimmed(t, IsJsSpace);
    GroupTextSplit(g);
    var parts := Split(t, ',');
    TrimmedPartClean(parts, 0);
    TrimmedPartClean(parts, 1);
    TrimmedPartClean(parts, 2);
  }

  lemma TrimmedPartClean(parts: seq<string>, i: nat)
    requires forall k :: 0 <= k < |parts| ==> ',' !in parts[k]
    requires i < |parts| && CleanField(parts[i])
    ensures TrimmedPart(parts, i) == parts[i]
  {
    CleanFieldTrim(parts[i]);
  }

  /** Where the pieces of a written line sit. */
  lemma ChangeLineLayout(c: GroupChange)
    requires CanonicalDate(c.date)
    ensures var s, f := ChangeLine(c), GroupText(c.from);
      |s| == 17 + |f| + |GroupText(c.to)|
      && s[..10] == c.date && s[10..13] == " / " && s[13..13 + |f|] == f
      && s[13 + |f|..17 + |f|] == " -> " && s[17 + |f|..] == GroupText(c.to)
  {
  }

  lemma ChangeLineDate(c: GroupChange)
    requires CanonicalDate(c.date)
    ensures DateAt(ChangeLine(c), 0) == Some(DateMatch(0, 2, 2))
  {
    var s := ChangeLine(c);
    ChangeLineLayout(c);
    assert s[..10] == c.date;
    assert s[0..4] == c.date[0..4];
    assert s[4] == '-' && s[7] == '-' && s[10] == ' ';
    assert IsDigit(s[5]) && IsDigit(s[6]) && IsDigit(s[8]) && IsDigit(s[9]);
    assert DigitRun(s, 7) == 0;
    assert DigitRun(s, 5) == 2;
    assert DigitRun(s, 10) == 0;
    assert DigitRun(s, 8) == 2;
  }

  /** The first arrow of a written line is the one between the two groups. */
  lemma ChangeLineArrow(c: GroupChange)
    requires CanonicalDate(c.date) && CleanGroup(c.from) && CleanGroup(c.to) && ArrowFree(GroupText(c.from))
    ensures FirstArrow(ChangeLine(c), 14) == Some(14 + |GroupText(c.from)|)
  {
    var s, f := ChangeLine(c), GroupText(c.from);
    var a := 14 + |f|;
    ChangeLineLayout(c);
    GroupTextEnds(c.from);
    assert s[13 + |f|..17 + |f|] == " -> ";
    assert s[a] == '-' && s[a + 1] == '>' && s[a - 1] == ' ';
    assert ArrowAt(s, a);
    forall j | 14 <= j < a ensures !ArrowAt(s, j) {
      if j < a - 1 {
        assert s[j] == f[j - 13];
        assert f[j - 13] != '→' by {
          assert f[j - 13] in f;
        }
        if j < a - 2 {
          assert s[j + 1] == f[j - 12];
        }
      }
    }
  }

  /** Where the pattern matches a written line. */
  function ChangeLineMatch(c: GroupChange): LineMatch {
    LineMatch(DateMatch(0, 2, 2), 12, 14 + |GroupText(c.from)|)
  }

  lemma ChangeLineFound(c: GroupChange)
    requires CanonicalDate(c.date) && CleanGroup(c.from) && CleanGroup(c.to) && ArrowFree(GroupText(c.from))
    ensures FindMatch(ChangeLine(c), 0) == Some(ChangeLineMatch(c))
  {
    var s, f := ChangeLine(c), GroupText(c.from);
    ChangeLineLayout(c);
    GroupTextEnds(c.from);
    ChangeLineDate(c);
    assert SlashAfter(s, 10) == Some(12) by {
      assert s[10..13] == " / ";
      assert s[10] == ' ' && s[11] == '/';
    }
    assert ArrowFor(s, 12) == Some(14 + |f|) by {
      assert s[12] == ' ' && s[13] == f[0];
      assert SkipBy(s, 12, IsJsSpace) == 13;
      ChangeLineArrow(c);
    }
  }

  lemma ChangeLineShape(c: GroupChange)
    requires CanonicalDate(c.date) && CleanGroup(c.from) && CleanGroup(c.to) && ArrowFree(GroupText(c.from))
    ensures MatchShape(ChangeLine(c), ChangeLineMatch(c))
  {
    ChangeLineFound(c);
  }

  lemma ChangeLineFromText(c: GroupChange)
    requires CanonicalDate(c.date) && CleanGroup(c.from) && CleanGroup(c.to) && ArrowFree(GroupText(c.from))
    ensures MatchShape(ChangeLine(c), ChangeLineMatch(c))
    ensures FromText(ChangeLine(c), ChangeLineMatch(c)) == GroupText(c.from)
  {
    var s, f := ChangeLine(c), GroupText(c.from);
    ChangeLineShape(c);
    ChangeLineLayout(c);
    GroupTextEnds(c.from);
    assert s[12..14 + |f|] == " " + f + " " by {
      assert s[12..14 + |f|] == s[10..13][2..] + s[13..13 + |f|] + s[13 + |f|..17 + |f|][..1];
    }
    FromTextAround(s, ChangeLineMatch(c), f);
  }

  /** A clean text between the slash and the arrow, one blank either side, is what FromText returns. */
  lemma FromTextAround(s: string, m: LineMatch, f: string)
    requires m.afterSlash <= m.arrow && ArrowAt(s, m.arrow) && s[m.afterSlash..m.arrow] == " " + f + " "
    requires f != [] && !IsJsSpace(f[0]) && !IsJsSpace(f[|f| - 1])
    ensures FromText(s, m) == f
  {
    TrimAround(f);
  }

  /** A clean text after the arrow and one blank is what ToText returns. */
  lemma ToTextAfterBlank(s: string, m: LineMatch, t: string)
    requires ArrowAt(s, m.arrow) && s[m.arrow] == '-' && s[m.arrow + 2..] == " " + t
    requires t != [] && !IsJsSpace(t[0]) && !IsJsSpace(t[|t| - 1])
    ensures ToText(s, m) == t
  {
    var piece := s[m.arrow + ArrowLen(s, m.arrow)..];
    assert piece == " " + t;
    TrimAfterBlank(t);
  }

  lemma ChangeLineToText(c: GroupChange)
    requires CanonicalDate(c.date) && CleanGroup(c.from) && CleanGroup(c.to) && ArrowFree(GroupText(c.from))
    ensures MatchShape(ChangeLine(c), ChangeLineMatch(c))
    ensures ToText(ChangeLine(c), ChangeLineMatch(c)) == GroupText(c.to)
  {
    var s, f, t := ChangeLine(c), GroupText(c.from), GroupText(c.to);
    ChangeLineShape(c);
    ChangeLineLayout(c);
    GroupTextEnds(c.to);
    assert s[14 + |f|] == '-';
    assert s[16 + |f|..] == " " + t by {
      assert s[16 + |f|..] == s[13 + |f|..17 + |f|][3..] + s[17 + |f|..];
    }
    ToTextAfterBlank(s, ChangeLineMatch(c), t);
  }

  lemma ChangeLineDateText(c: GroupChange)
    requires CanonicalDate(c.date) && CleanGroup(c.from) && CleanGroup(c.to) && ArrowFree(GroupText(c.from))
    ensures MatchShape(ChangeLine(c), ChangeLineMatch(c))
    ensures MatchedDate(ChangeLine(c), ChangeLineMatch(c)) == c.date
    ensures Sep1(ChangeLine(c), ChangeLineMatch(c)) == '-' && Sep2(ChangeLine(c), ChangeLineMatch(c)) == '-'
  {
    ChangeLineShape(c);
    ChangeLineLayout(c);
    MatchedCanonicalDate(ChangeLine(c), ChangeLineMatch(c), c.date);
  }

  /** A canonical date at the start of a line, matched with two-digit month and day, reads back as itself. */
  lemma MatchedCanonicalDate(s: string, m: LineMatch, d: string)
    requires MatchShape(s, m) && m.date == DateMatch(0, 2, 2) && CanonicalDate(d) && s[..10] == d
    ensures MatchedDate(s, m) == d && Sep1(s, m) == '-' && Sep2(s, m) == '-'
  {
    assert Year(s, m) == d[..4] by { assert s[0..4] == s[..10][..4]; }
    assert Month(s, m) == d[5..7] by { assert s[5..7] == s[..10][5..7]; }
    assert Day(s, m) == d[8..] by { assert s[8..10] == s[..10][8..]; }
    assert s[4] == d[4] && s[7] == d[7];
    assert d == d[..4] + "-" + d[5..7] + "-" + d[8..];
  }

  /**
   * Round trip: a line written from a change with a canonical date and clean
   * fields parses back to that change, with either parser.
   */
  lemma ParseChangeLine(c: GroupChange)
    requires CanonicalDate(c.date) && CleanGroup(c.from) && CleanGroup(c.to) && ArrowFree(GroupText(c.from))
    ensures ParseGroupChangeLine(ChangeLine(c)) == Some(c)
    ensures ParseGroupChangeLineFixed(ChangeLine(c)) == Some(c)
  {
    var s, m := ChangeLine(c), ChangeLineMatch(c);
    ChangeLineFound(c);
    ChangeLineFromText(c);
    ChangeLineToText(c);
    ChangeLineDateText(c);
    ParseGroupText(c.from);
    ParseGroupText(c.to);
    assert ParseGroupChangeLine(s) == Some(ChangeOf(s, m, MatchedDate(s, m))) by {
      ParseAccepts(s);
    }
    assert ParseGroupChangeLineFixed(s) == Some(ChangeOf(s, m, MatchedDate(s, m))) by {
      FixedParseAccepts(s);
    }
  }

  // ================================================================ group at a date

  datatype ServiceChannel = ServiceChannel(service: string, channel: string)

  function FromOf(c: GroupChange): ServiceChannel { ServiceChannel(c.from.service, c.from.channel) }

  function ToOf(c: GroupChange): ServiceChannel { ServiceChannel(c.to.service, c.to.channel) }

  /** The last of the first `n` changes dated on or before `evalDate` (string order). */
  function LastNotAfter(evalDate: string, changes: seq<GroupChange>, n: nat): (r: Option<nat>)
    requires n <= |changes|
    ensures r.Some? ==> r.value < n && !LexLess(evalDate, changes[r.value].date)
    ensures r.Some? ==> forall k :: r.value < k < n ==> LexLess(evalDate, changes[k].date)
    ensures r.None? ==> forall k :: 0 <= k < n ==> LexLess(evalDate, changes[k].date)
  {
    if n == 0 then None
    else if !LexLess(evalDate, changes[n - 1].date) then Some(n - 1)
    else LastNotAfter(evalDate, changes, n - 1)
  }

  /**
   * The group in force at `evalDate`: the target of the last change dated on
   * or before it, or the origin of the first change when it precedes them all.
   */
  function GroupAtDate(evalDate: string, changes: seq<GroupChange>): Option<ServiceChannel> {
    if changes == [] then None
    else match LastNotAfter(evalDate, changes, |changes|)
      case Some(i) => Some(ToOf(changes[i]))
      case None => Some(FromOf(changes[0]))
  }

  /** getCorrectGroupAtDate: walk back from the latest change until one is not after the date. */
  method GetCorrectGroupAtDate(evalDate: string, changes: seq<GroupChange>) returns (r: Option<ServiceChannel>)
    ensures r == GroupAtDate(evalDate, changes)
  {
    if |changes| == 0 {
      return None;
    }
    var correct := ToOf(changes[|changes| - 1]);
    var i := |changes| - 1;
    while i >= 0
      invariant -1 <= i < |changes|
      invariant forall k :: i < k < |changes| ==> LexLess(evalDate, changes[k].date)
      invariant i < |changes| - 1 ==> correct == FromOf(changes[i + 1])
    {
      var change := changes[i];
      if LexLess(evalDate, change.date) {
        correct := FromOf(change);
      } else {
        correct := ToOf(change);
        break;
      }
      i := i - 1;
    }
    return Some(correct);
  }

  /** Changes in date order (each date not before the previous one). */
  predicate DateSorted(changes: seq<GroupChange>) {
    forall i, j :: 0 <= i < j < |changes| ==> !LexLess(changes[j].date, changes[i].date)
  }

  /**
   * On date-sorted changes: before the first change the origin of the first
   * applies, and between change k and the next one the target of change k.
   */
  lemma GroupAtDateSorted(evalDate: string, changes: seq<GroupChange>, k: nat)
    requires DateSorted(changes) && k < |changes|
    ensures LexLess(evalDate, changes[0].date) ==> GroupAtDate(evalDate, changes) == Some(FromOf(changes[0]))
    ensures !LexLess(evalDate, changes[k].date) && (k + 1 == |changes| || LexLess(evalDate, changes[k + 1].date))
      ==> GroupAtDate(evalDate, changes) == Some(ToOf(changes[k]))
  {
    if LexLess(evalDate, changes[0].date) {
      forall j | 0 <= j < |changes| ensures LexLess(evalDate, changes[j].date) {
        if j > 0 {
          var dj, d0 := changes[j].date, changes[0].date;
          if dj != d0 {
            LexLessTotal(dj, d0);
            LexLessTransitive(evalDate, d0, dj);
          }
        }
      }
    }
    if !LexLess(evalDate, changes[k].date) && (k + 1 == |changes| || LexLess(evalDate, changes[k + 1].date)) {
      forall j | k < j < |changes| ensures LexLess(evalDate, changes[j].date) {
        if j > k + 1 {
          var dj, d1 := changes[j].date, changes[k + 1].date;
          if dj != d1 {
            LexLessTotal(dj, d1);
            LexLessTransitive(evalDate, d1, dj);
          }
        }
      }
    }
  }

  // ================================================================ collecting changes

  /** One roster-sheet row: the sheet's centre and the id, name and group-change cell texts ("" when absent). */
  datatype SheetRow = SheetRow(center: string, agentId: string, agentName: string, groupChange: string)

  /** An agent's entry: name and centre from the first row that produced a change, then the changes. */
  datatype AgentChanges = AgentChanges(name: string, center: string, changes: seq<GroupChange>)

  /** Two changes the collection treats as the same: same date and same origin service. */
  predicate SameKey(a: GroupChange, b: GroupChange) {
    a.date == b.date && a.from.service == b.from.service
  }

  predicate KeysDistinct(cs: seq<GroupChange>) {
    forall i, j :: 0 <= i < j < |cs| ==> !SameKey(cs[i], cs[j])
  }

  /** Appends a change unless one with the same key is already recorded (the first is kept). */
  function AddChange(cs: seq<GroupChange>, c: GroupChange): (r: seq<GroupChange>)
    ensures (exists k :: 0 <= k < |cs| && SameKey(cs[k], c)) ==> r == cs
    ensures (forall k :: 0 <= k < |cs| ==> !SameKey(cs[k], c)) ==> r == cs + [c]
    ensures KeysDistinct(cs) ==> KeysDistinct(r)
    ensures exists k :: 0 <= k < |r| && SameKey(r[k], c)
  {
    if exists k :: 0 <= k < |cs| && SameKey(cs[k], c) then cs
    else
      assert SameKey((cs + [c])[|cs|], c);
      cs + [c]
  }

  /** `filter(l => l.trim())`: the pieces that are not blank, in order. */
  function NonBlank(pieces: seq<string>): (r: seq<string>)
    ensures |r| <= |pieces|
    ensures forall k :: 0 <= k < |r| ==> Trim(r[k]) != [] && r[k] in pieces
    decreases |pieces|
  {
    if pieces == [] then []
    else
      var rest := NonBlank(pieces[..|pieces| - 1]);
      if Trim(pieces[|pieces| - 1]) != [] then rest + [pieces[|pieces| - 1]] else rest
  }

  /**
   * The non-blank lines of a cell. Splitting on every '\n' and '\r' and
   * dropping blank pieces gives the same lines as splitting on runs of them.
   */
  function Lines(text: string): seq<string> {
    NonBlank(Split(ReplaceChar(text, '\r', '\n'), '\n'))
  }

  /** A new agent entry: name and centre of the row that produced its first change. */
  function NewEntry(row: SheetRow): AgentChanges {
    AgentChanges(Trim(row.agentName), row.center, [])
  }

  /** Records a parsed change under the agent, creating the entry on first use. */
  function AddParsed(acc: map<string, AgentChanges>, row: SheetRow, id: string, parsed: Option<GroupChange>): (r: map<string, AgentChanges>)
    ensures r.Keys == acc.Keys || r.Keys == acc.Keys + {id}
    ensures forall a :: a in acc && a != id ==> r[a] == acc[a]
    ensures id in acc ==> r[id].name == acc[id].name && r[id].center == acc[id].center
    ensures forall a :: a in acc && KeysDistinct(acc[a].changes) ==> KeysDistinct(r[a].changes)
    ensures id in r && id !in acc ==> KeysDistinct(r[id].changes)
  {
    match parsed
    case None => acc
    case Some(c) =>
      var e := if id in acc then acc[id] else NewEntry(row);
      acc[id := e.(changes := AddChange(e.changes, c))]
  }

  /**
   * What recording a parse does: nothing when the line did not parse; otherwise the agent's
   * changes (none for a new entry) get the change appended unless its key is known, and a new
   * entry takes the row's trimmed name and centre.
   */
  lemma AddParsedRecords(acc: map<string, AgentChanges>, row: SheetRow, id: string, parsed: Option<GroupChange>)
    ensures parsed.None? ==> AddParsed(acc, row, id, parsed) == acc
    ensures parsed.Some? ==>
      var r := AddParsed(acc, row, id, parsed);
      && id in r && r.Keys == acc.Keys + {id}
      && r[id].changes == AddChange((if id in acc then acc[id] else NewEntry(row)).changes, parsed.value)
      && (id !in acc ==> r[id].name == Trim(row.agentName) && r[id].center == row.center)
  {
  }

  /**
   * The line parser of the collection: the as-written parseGroupChangeLine that
   * the route calls (`fixed` false), or the corrected one (`fixed` true).
   */
  function ParseLine(fixed: bool, line: string): Option<GroupChange> {
    if fixed then ParseGroupChangeLineFixed(line) else ParseGroupChangeLine(line)
  }

  /** One line of a row, trimmed and parsed. */
  function AddLine(fixed: bool, acc: map<string, AgentChanges>, row: SheetRow, id: string, line: string): map<string, AgentChanges> {
    AddParsed(acc, row, id, ParseLine(fixed, Trim(line)))
  }

  /** The lines of one cell, recorded in order. */
  function AddLines(fixed: bool, acc: map<string, AgentChanges>, row: SheetRow, id: string, lines: seq<string>): map<string, AgentChanges>
    decreases |lines|
  {
    if lines == [] then acc
    else AddLine(fixed, AddLines(fixed, acc, row, id, lines[..|lines| - 1]), row, id, lines[|lines| - 1])
  }

  /** Recording the lines of a cell changes only the row's agent and keeps every agent's change keys distinct. */
  lemma {:induction false} AddLinesKeeps(fixed: bool, acc: map<string, AgentChanges>, row: SheetRow, id: string, lines: seq<string>)
    ensures var r := AddLines(fixed, acc, row, id, lines);
      && (forall a :: a in acc && a != id ==> a in r && r[a] == acc[a])
      && (forall a :: a in r ==> a in acc || a == id)
      && (forall a :: a in acc && KeysDistinct(acc[a].changes) ==> a in r && KeysDistinct(r[a].changes))
      && (id in r && id !in acc ==> KeysDistinct(r[id].changes))
    decreases |lines|
  {
    if lines != [] {
      AddLinesKeeps(fixed, acc, row, id, lines[..|lines| - 1]);
    }
  }

  /** One sheet row: skipped without an id or without a group-change text. */
  function AddRow(fixed: bool, acc: map<string, AgentChanges>, row: SheetRow): (r: map<string, AgentChanges>)
    ensures forall a :: a in acc && KeysDistinct(acc[a].changes) ==> a in r && KeysDistinct(r[a].changes)
    ensures forall a :: a in r && a !in acc ==> a == Trim(row.agentId) && KeysDistinct(r[a].changes)
    ensures Trim(row.agentId) == [] || Trim(row.groupChange) == [] ==> r == acc
  {
    var id := Trim(row.agentId);
    var text := Trim(row.groupChange);
    if id == [] || text == [] then acc else (AddLinesKeeps(fixed, acc, row, id, Lines(text)); AddLines(fixed, acc, row, id, Lines(text)))
  }

  /** The values `f` takes on the elements of `xs`, each with a witness index. */
  function Image<T>(xs: seq<T>, f: T -> string): (ids: set<string>)
    ensures forall a :: a in ids ==> exists k :: 0 <= k < |xs| && f(xs[k]) == a
  {
    if xs == [] then {}
    else
      var prev := Image(xs[..|xs| - 1], f);
      assert forall a :: a in prev ==> exists k :: 0 <= k < |xs| && f(xs[k]) == a by {
        forall a | a in prev ensures exists k :: 0 <= k < |xs| && f(xs[k]) == a {
          var k :| 0 <= k < |xs| - 1 && f(xs[..|xs| - 1][k]) == a;
          assert xs[..|xs| - 1][k] == xs[k];
        }
      }
      prev + {f(xs[|xs| - 1])}
  }

  /** The trimmed agent ids of the rows. */
  function RowIds(rows: seq<SheetRow>): (ids: set<string>)
    ensures forall a :: a in ids ==> exists k :: 0 <= k < |rows| && Trim(rows[k].agentId) == a
  {
    Image(rows, (row: SheetRow) => Trim(row.agentId))
  }

  /** Every agent's changes, collected over all rows in order. */
  function CollectSpec(fixed: bool, rows: seq<SheetRow>): (r: map<string, AgentChanges>)
    ensures forall a :: a in r ==> KeysDistinct(r[a].changes)
    ensures forall a :: a in r ==> a in RowIds(rows)
    decreases |rows|
  {
    if rows == [] then map[]
    else AddRow(fixed, CollectSpec(fixed, rows[..|rows| - 1]), rows[|rows| - 1])
  }

  /** Records one parsed change: create the agent's entry if needed, then append unless the key is known. */
  method RecordChange(agents: map<string, AgentChanges>, row: SheetRow, id: string, parsed: GroupChange)
    returns (r: map<string, AgentChanges>)
    ensures r == AddParsed(agents, row, id, Some(parsed))
  {
    r := agents;
    if id !in r {
      r := r[id := NewEntry(row)];
    }
    var known := r[id].changes;
    if !exists k :: 0 <= k < |known| && SameKey(known[k], parsed) {
      r := r[id := r[id].(changes := known + [parsed])];
    }
  }

  /** One line of a cell: parse it and record the change when it parses. */
  method RecordLine(fixed: bool, agents: map<string, AgentChanges>, row: SheetRow, id: string, line: string)
    returns (r: map<string, AgentChanges>)
    ensures r == AddLine(fixed, agents, row, id, line)
  {
    var parsed := ParseLine(fixed, Trim(line));
    assert AddLine(fixed, agents, row, id, line) == AddParsed(agents, row, id, parsed);
    r := agents;
    if parsed.Some? {
      r := RecordChange(r, row, id, parsed.value);
    }
  }

  /** Taking one more line adds that line's parsed change. */
  lemma AddLinesStep(fixed: bool, acc: map<string, AgentChanges>, row: SheetRow, id: string, lines: seq<string>, j: nat)
    requires j < |lines|
    ensures AddLines(fixed, acc, row, id, lines[..j + 1]) == AddLine(fixed, AddLines(fixed, acc, row, id, lines[..j]), row, id, lines[j])
  {
    assert lines[..j + 1][..j] == lines[..j];
  }

  /** The loop over the lines of one group-change cell. */
  method RecordLines(fixed: bool, agents: map<string, AgentChanges>, row: SheetRow, id: string, lines: seq<string>)
    returns (r: map<string, AgentChanges>)
    ensures r == AddLines(fixed, agents, row, id, lines)
  {
    r := agents;
    var j := 0;
    while j < |lines|
      invariant 0 <= j <= |lines|
      invariant r == AddLines(fixed, agents, row, id, lines[..j])
    {
      AddLinesStep(fixed, agents, row, id, lines, j);
      r := RecordLine(fixed, r, row, id, lines[j]);
      j := j + 1;
    }
    assert lines[..j] == lines;
  }

  /** Taking one more row adds that row's lines, or nothing when it is skipped. */
  lemma CollectStep(fixed: bool, rows: seq<SheetRow>, i: nat)
    requires i < |rows|
    ensures CollectSpec(fixed, rows[..i + 1]) ==
      var id, text := Trim(rows[i].agentId), Trim(rows[i].groupChange);
      var acc := CollectSpec(fixed, rows[..i]);
      if id == [] || text == [] then acc else AddLines(fixed, acc, rows[i], id, Lines(text))
  {
    CollectSnoc(fixed, rows, i);
    AddRowUnfold(fixed, CollectSpec(fixed, rows[..i]), rows[i]);
  }

  lemma CollectSnoc(fixed: bool, rows: seq<SheetRow>, i: nat)
    requires i < |rows|
    ensures CollectSpec(fixed, rows[..i + 1]) == AddRow(fixed, CollectSpec(fixed, rows[..i]), rows[i])
  {
    assert rows[..i + 1][..i] == rows[..i];
  }

  lemma AddRowUnfold(fixed: bool, acc: map<string, AgentChanges>, row: SheetRow)
    ensures AddRow(fixed, acc, row) ==
      var id, text := Trim(row.agentId), Trim(row.groupChange);
      if id == [] || text == [] then acc else AddLines(fixed, acc, row, id, Lines(text))
  {
  }

  /** The collection loop over the rows of every sheet. */
  method CollectChanges(fixed: bool, rows: seq<SheetRow>) returns (agents: map<string, AgentChanges>)
    ensures agents == CollectSpec(fixed, rows)
  {
    agents := map[];
    var i := 0;
    while i < |rows|
      invariant 0 <= i <= |rows|
      invariant agents == CollectSpec(fixed, rows[..i])
    {
      var row := rows[i];
      CollectStep(fixed, rows, i);
      var id := Trim(row.agentId);
      var text := Trim(row.groupChange);
      if id != [] && text != [] {
        agents := RecordLines(fixed, agents, row, id, Lines(text));
      }
      i := i + 1;
    }
    assert rows[..i] == rows;
  }

  // ---------------------------------------------------------------- what the collection holds

  /** Some recorded change has the key of `c`. */
  predicate HasKey(cs: seq<GroupChange>, c: GroupChange) {
    exists j :: 0 <= j < |cs| && SameKey(cs[j], c)
  }

  /** `r` keeps every agent of `acc` with its name and centre, and only appends to its changes. */
  predicate Extends(acc: map<string, AgentChanges>, r: map<string, AgentChanges>) {
    forall a :: a in acc ==>
      a in r && r[a].name == acc[a].name && r[a].center == acc[a].center && acc[a].changes <= r[a].changes
  }

  lemma HasKeyPrefix(p: seq<GroupChange>, q: seq<GroupChange>, c: GroupChange)
    requires HasKey(p, c) && p <= q
    ensures HasKey(q, c)
  {
    var j :| 0 <= j < |p| && SameKey(p[j], c);
    assert q[j] == p[j];
  }

  lemma ExtendsTrans(a: map<string, AgentChanges>, b: map<string, AgentChanges>, c: map<string, AgentChanges>)
    requires Extends(a, b) && Extends(b, c)
    ensures Extends(a, c)
  {
    forall x | x in a ensures x in c && a[x].changes <= c[x].changes {
      assert a[x].changes <= b[x].changes && b[x].changes <= c[x].changes;
    }
  }

  lemma AddParsedExtends(acc: map<string, AgentChanges>, row: SheetRow, id: string, parsed: Option<GroupChange>)
    ensures Extends(acc, AddParsed(acc, row, id, parsed))
  {
    var r := AddParsed(acc, row, id, parsed);
    if parsed.Some? && id in acc {
      assert acc[id].changes <= AddChange(acc[id].changes, parsed.value);
    }
  }

  lemma {:induction false} AddLinesExtends(fixed: bool, acc: map<string, AgentChanges>, row: SheetRow, id: string, lines: seq<string>)
    ensures Extends(acc, AddLines(fixed, acc, row, id, lines))
    decreases |lines|
  {
    if lines == [] {
      var r := AddLines(fixed, acc, row, id, lines);
      assert forall a :: a in acc ==> acc[a].changes <= r[a].changes;
    } else {
      var front := AddLines(fixed, acc, row, id, lines[..|lines| - 1]);
      AddLinesExtends(fixed, acc, row, id, lines[..|lines| - 1]);
      AddParsedExtends(front, row, id, ParseLine(fixed, Trim(lines[|lines| - 1])));
      ExtendsTrans(acc, front, AddLines(fixed, acc, row, id, lines));
    }
  }

  lemma AddRowExtends(fixed: bool, acc: map<string, AgentChanges>, row: SheetRow)
    ensures Extends(acc, AddRow(fixed, acc, row))
  {
    AddRowUnfold(fixed, acc, row);
    var id, text := Trim(row.agentId), Trim(row.groupChange);
    if id == [] || text == [] {
      assert forall a :: a in acc ==> acc[a].changes <= acc[a].changes;
    } else {
      AddLinesExtends(fixed, acc, row, id, Lines(text));
    }
  }

  /**
   * Later rows never remove an agent or a change: the collection over a prefix of the rows is
   * extended by the whole collection, so a change once recorded for a key stays the one recorded.
   */
  lemma {:induction false} CollectExtends(fixed: bool, rows: seq<SheetRow>, i: nat)
    requires i <= |rows|
    ensures Extends(CollectSpec(fixed, rows[..i]), CollectSpec(fixed, rows))
    decreases |rows|
  {
    if i == |rows| {
      assert rows[..i] == rows;
      var r := CollectSpec(fixed, rows);
      assert forall a :: a in r ==> r[a].changes <= r[a].changes;
    } else {
      var init := rows[..|rows| - 1];
      assert init[..i] == rows[..i];
      CollectExtends(fixed, init, i);
      AddRowExtends(fixed, CollectSpec(fixed, init), rows[|rows| - 1]);
      ExtendsTrans(CollectSpec(fixed, rows[..i]), CollectSpec(fixed, init), CollectSpec(fixed, rows));
    }
  }

  /** Each line of a cell, trimmed and parsed. */
  function ParsedLines(fixed: bool, lines: seq<string>): (ps: seq<Option<GroupChange>>)
    ensures |ps| == |lines|
    decreases |lines|
  {
    if lines == [] then [] else ParsedLines(fixed, lines[..|lines| - 1]) + [ParseLine(fixed, Trim(lines[|lines| - 1]))]
  }

  /** The parsed lines of a cell, recorded in order. */
  function AddAll(acc: map<string, AgentChanges>, row: SheetRow, id: string, ps: seq<Option<GroupChange>>): map<string, AgentChanges>
    decreases |ps|
  {
    if ps == [] then acc else AddParsed(AddAll(acc, row, id, ps[..|ps| - 1]), row, id, ps[|ps| - 1])
  }

  lemma AddAllSnoc(acc: map<string, AgentChanges>, row: SheetRow, id: string, ps: seq<Option<GroupChange>>, p: Option<GroupChange>)
    ensures AddAll(acc, row, id, ps + [p]) == AddParsed(AddAll(acc, row, id, ps), row, id, p)
  {
    assert (ps + [p])[..|ps|] == ps;
  }

  /** Recording the lines is recording their parses. */
  lemma {:induction false} AddLinesAll(fixed: bool, acc: map<string, AgentChanges>, row: SheetRow, id: string, lines: seq<string>)
    ensures AddLines(fixed, acc, row, id, lines) == AddAll(acc, row, id, ParsedLines(fixed, lines))
    decreases |lines|
  {
    if lines != [] {
      var n := |lines| - 1;
      AddLinesAll(fixed, acc, row, id, lines[..n]);
      AddAllSnoc(acc, row, id, ParsedLines(fixed, lines[..n]), ParseLine(fixed, Trim(lines[n])));
    }
  }

  lemma AddParsedHas(acc: map<string, AgentChanges>, row: SheetRow, id: string, parsed: Option<GroupChange>, c: GroupChange)
    requires parsed == Some(c) || (id in acc && HasKey(acc[id].changes, c))
    ensures id in AddParsed(acc, row, id, parsed) && HasKey(AddParsed(acc, row, id, parsed)[id].changes, c)
  {
    var r := AddParsed(acc, row, id, parsed);
    if parsed != Some(c) {
      AddParsedExtends(acc, row, id, parsed);
      HasKeyPrefix(acc[id].changes, r[id].changes, c);
    }
  }

  /** A parse among the recorded ones leaves its key among the agent's changes. */
  lemma {:induction false} AddAllHas(acc: map<string, AgentChanges>, row: SheetRow, id: string,
                                     ps: seq<Option<GroupChange>>, j: nat, c: GroupChange)
    requires j < |ps| && ps[j] == Some(c)
    ensures id in AddAll(acc, row, id, ps) && HasKey(AddAll(acc, row, id, ps)[id].changes, c)
    decreases |ps|
  {
    var n := |ps| - 1;
    var front := AddAll(acc, row, id, ps[..n]);
    if j < n {
      assert ps[..n][j] == ps[j];
      AddAllHas(acc, row, id, ps[..n], j, c);
    }
    AddParsedHas(front, row, id, ps[n], c);
  }

  /**
   * The first change recorded for a key is the one kept: a change recorded from the first `i` rows
   * is still recorded after all rows, and no other change with its date and origin service is.
   */
  lemma CollectKeepsFirst(fixed: bool, rows: seq<SheetRow>, i: nat, a: string, x: GroupChange)
    requires i <= |rows| && a in CollectSpec(fixed, rows[..i]) && x in CollectSpec(fixed, rows[..i])[a].changes
    ensures a in CollectSpec(fixed, rows) && x in CollectSpec(fixed, rows)[a].changes
    ensures forall y :: y in CollectSpec(fixed, rows)[a].changes && SameKey(x, y) ==> y == x
  {
    CollectExtends(fixed, rows, i);
    PrefixKeepsOnly(CollectSpec(fixed, rows[..i])[a].changes, CollectSpec(fixed, rows)[a].changes, x);
  }

  /** In a key-distinct extension of `early`, a change of `early` is the only one with its key. */
  lemma PrefixKeepsOnly(early: seq<GroupChange>, cs: seq<GroupChange>, x: GroupChange)
    requires early <= cs && KeysDistinct(cs) && x in early
    ensures x in cs && forall y :: y in cs && SameKey(x, y) ==> y == x
  {
    var j :| 0 <= j < |early| && early[j] == x;
    assert cs[j] == x;
    forall y | y in cs && SameKey(x, y) ensures y == x {
      var j' :| 0 <= j' < |cs| && cs[j'] == y;
    }
  }

  /** The row has the agent's id and a change text, and one of its lines parses to `x`. */
  predicate FromRow(fixed: bool, row: SheetRow, a: string, x: GroupChange) {
    Trim(row.agentId) == a && a != [] && Trim(row.groupChange) != []
    && Some(x) in ParsedLines(fixed, Lines(Trim(row.groupChange)))
  }

  /**
   * Completeness of the collection: every line of a row with an id and a change text that parses
   * has its key (date and origin service) among that agent's collected changes.
   */
  lemma CollectHas(fixed: bool, rows: seq<SheetRow>, k: nat, a: string, c: GroupChange)
    requires k < |rows| && FromRow(fixed, rows[k], a, c)
    ensures a in CollectSpec(fixed, rows) && HasKey(CollectSpec(fixed, rows)[a].changes, c)
  {
    var ps := ParsedLines(fixed, Lines(Trim(rows[k].groupChange)));
    var j :| 0 <= j < |ps| && ps[j] == Some(c);
    var before := CollectSpec(fixed, rows[..k]);
    CollectStep(fixed, rows, k);
    AddLinesAll(fixed, before, rows[k], a, Lines(Trim(rows[k].groupChange)));
    AddAllHas(before, rows[k], a, ps, j, c);
    CollectExtends(fixed, rows, k + 1);
    HasKeyPrefix(CollectSpec(fixed, rows[..k + 1])[a].changes, CollectSpec(fixed, rows)[a].changes, c);
  }

  lemma AddParsedSound(acc: map<string, AgentChanges>, row: SheetRow, id: string, parsed: Option<GroupChange>, a: string, x: GroupChange)
    requires a in AddParsed(acc, row, id, parsed) && x in AddParsed(acc, row, id, parsed)[a].changes
    ensures (a in acc && x in acc[a].changes) || (a == id && parsed == Some(x))
  {
    if parsed.Some? && a == id {
      var base := (if id in acc then acc[id] else NewEntry(row)).changes;
      assert AddParsed(acc, row, id, parsed)[a].changes == AddChange(base, parsed.value);
    }
  }

  lemma {:induction false} AddAllSound(acc: map<string, AgentChanges>, row: SheetRow, id: string,
                                       ps: seq<Option<GroupChange>>, a: string, x: GroupChange)
    requires a in AddAll(acc, row, id, ps) && x in AddAll(acc, row, id, ps)[a].changes
    ensures (a in acc && x in acc[a].changes) || (a == id && Some(x) in ps)
    decreases |ps|
  {
    if ps != [] {
      var n := |ps| - 1;
      var front := AddAll(acc, row, id, ps[..n]);
      AddParsedSound(front, row, id, ps[n], a, x);
      if a in front && x in front[a].changes {
        AddAllSound(acc, row, id, ps[..n], a, x);
        if a == id && Some(x) in ps[..n] {
          assert Some(x) in ps;
        }
      }
    }
  }

  /** A change after one more row was there before, or comes from that row. */
  lemma AddRowSound(fixed: bool, prev: map<string, AgentChanges>, row: SheetRow, a: string, x: GroupChange) returns (here: bool)
    requires a in AddRow(fixed, prev, row) && x in AddRow(fixed, prev, row)[a].changes
    ensures here ==> FromRow(fixed, row, a, x)
    ensures !here ==> a in prev && x in prev[a].changes
  {
    here := !(a in prev && x in prev[a].changes);
    AddRowUnfold(fixed, prev, row);
    var id, text := Trim(row.agentId), Trim(row.groupChange);
    if id != [] && text != [] {
      AddLinesAll(fixed, prev, row, id, Lines(text));
      AddAllSound(prev, row, id, ParsedLines(fixed, Lines(text)), a, x);
    }
  }

  lemma FromRowOfPrefix(fixed: bool, rows: seq<SheetRow>, n: nat, k: nat, a: string, x: GroupChange)
    requires k < n <= |rows| && FromRow(fixed, rows[..n][k], a, x)
    ensures FromRow(fixed, rows[k], a, x)
  {
    assert rows[..n][k] == rows[k];
  }

  /**
   * Soundness of the collection: every recorded change is the parse of a line of one of the
   * agent's own rows, row `k`.
   */
  lemma {:induction false} CollectSound(fixed: bool, rows: seq<SheetRow>, a: string, x: GroupChange) returns (k: nat)
    requires a in CollectSpec(fixed, rows) && x in CollectSpec(fixed, rows)[a].changes
    ensures k < |rows| && FromRow(fixed, rows[k], a, x)
    decreases |rows|
  {
    var n := |rows| - 1;
    var init := rows[..n];
    var here := AddRowSound(fixed, CollectSpec(fixed, init), rows[n], a, x);
    if here {
      k := n;
    } else {
      k := CollectSound(fixed, init, a, x);
      FromRowOfPrefix(fixed, rows, n, k, a, x);
    }
  }

  // ================================================================ sorting

  /** Inserts a change after every change not dated later, which keeps equal dates in arrival order. */
  function InsertByDate(x: GroupChange, sorted: seq<GroupChange>): (r: seq<GroupChange>)
    ensures multiset(r) == multiset(sorted) + multiset{x}
    decreases |sorted|
  {
    if sorted == [] then [x]
    else if LexLess(x.date, sorted[0].date) then [x] + sorted
    else
      assert sorted == [sorted[0]] + sorted[1..];
      [sorted[0]] + InsertByDate(x, sorted[1..])
  }

  /** `changes.sort((a, b) => a.date.localeCompare(b.date))`, a stable sort, on values. */
  function SortByDate(cs: seq<GroupChange>): (r: seq<GroupChange>)
    ensures multiset(r) == multiset(cs)
    decreases |cs|
  {
    if cs == [] then []
    else
      assert cs == cs[..|cs| - 1] + [cs[|cs| - 1]];
      InsertByDate(cs[|cs| - 1], SortByDate(cs[..|cs| - 1]))
  }

  /** No change in `cs` is dated before `d`. */
  predicate AllNotBefore(cs: seq<GroupChange>, d: string) {
    forall k :: 0 <= k < |cs| ==> !LexLess(cs[k].date, d)
  }

  lemma SortedCons(h: GroupChange, t: seq<GroupChange>)
    ensures DateSorted([h] + t) <==> AllNotBefore(t, h.date) && DateSorted(t)
  {
    var r := [h] + t;
    if AllNotBefore(t, h.date) && DateSorted(t) {
      forall i, j | 0 <= i < j < |r| ensures !LexLess(r[j].date, r[i].date) {
        assert r[j] == t[j - 1];
        if i > 0 {
          assert r[i] == t[i - 1];
        }
      }
    }
    if DateSorted(r) {
      forall k | 0 <= k < |t| ensures !LexLess(t[k].date, h.date) {
        assert r[k + 1] == t[k] && r[0] == h;
        assert !LexLess(r[k + 1].date, r[0].date);
      }
      forall i, j | 0 <= i < j < |t| ensures !LexLess(t[j].date, t[i].date) {
        assert r[i + 1] == t[i] && r[j + 1] == t[j];
      }
    }
  }

  lemma {:induction false} InsertNotBefore(x: GroupChange, sorted: seq<GroupChange>, d: string)
    requires AllNotBefore(sorted, d) && !LexLess(x.date, d)
    ensures AllNotBefore(InsertByDate(x, sorted), d)
    decreases |sorted|
  {
    if sorted != [] && !LexLess(x.date, sorted[0].date) {
      var tail := sorted[1..];
      assert AllNotBefore(tail, d) by {
        forall k | 0 <= k < |tail| ensures !LexLess(tail[k].date, d) {
          assert tail[k] == sorted[k + 1];
        }
      }
      InsertNotBefore(x, tail, d);
      var rest := InsertByDate(x, tail);
      forall k | 0 <= k < |rest| + 1 ensures !LexLess(([sorted[0]] + rest)[k].date, d) {
        if k > 0 {
          assert ([sorted[0]] + rest)[k] == rest[k - 1];
        }
      }
    }
  }

  lemma {:induction false} InsertByDateSorted(x: GroupChange, sorted: seq<GroupChange>)
    requires DateSorted(sorted)
    ensures DateSorted(InsertByDate(x, sorted))
    decreases |sorted|
  {
    if sorted != [] {
      var h, tail := sorted[0], sorted[1..];
      assert sorted == [h] + tail;
      SortedCons(h, tail);
      if LexLess(x.date, h.date) {
        forall k | 0 <= k < |sorted| ensures !LexLess(sorted[k].date, x.date) {
          if k == 0 {
            LexLessIrreflexive(h.date);
          } else {
            assert sorted[k] == tail[k - 1];
          }
          if LexLess(sorted[k].date, x.date) {
            LexLessTransitive(sorted[k].date, x.date, h.date);
            LexLessIrreflexive(h.date);
          }
        }
        SortedCons(x, sorted);
      } else {
        InsertByDateSorted(x, tail);
        InsertNotBefore(x, tail, h.date);
        SortedCons(h, InsertByDate(x, tail));
      }
    }
  }

  /** The sort puts changes in date order and keeps every change. */
  lemma {:induction false} SortByDateSorted(cs: seq<GroupChange>)
    ensures DateSorted(SortByDate(cs)) && multiset(SortByDate(cs)) == multiset(cs)
    decreases |cs|
  {
    if cs != [] {
      SortByDateSorted(cs[..|cs| - 1]);
      InsertByDateSorted(cs[|cs| - 1], SortByDate(cs[..|cs| - 1]));
    }
  }

  /** Sorting every agent's changes. */
  function SortAll(agents: map<string, AgentChanges>): (r: map<string, AgentChanges>)
    ensures r.Keys == agents.Keys
    ensures forall a :: a in r ==> r[a].name == agents[a].name && r[a].center == agents[a].center
    ensures forall a :: a in r ==> r[a].changes == SortByDate(agents[a].changes)
  {
    map a | a in agents :: agents[a].(changes := SortByDate(agents[a].changes))
  }

  // ================================================================ corrections

  /** An evaluation row; `None` is a SQL NULL. The date is the already extracted "YYYY-MM-DD" text. */
  datatype EvalRow = EvalRow(evaluationId: string, agentId: string, agentName: Option<string>,
                             evalDate: string, service: Option<string>, channel: Option<string>)

  datatype Correction = Correction(evaluationId: string, agentId: string, agentName: string, evalDate: string,
                                   currentService: string, currentChannel: string,
                                   correctService: string, correctChannel: string)

  /** Service values that are statuses rather than services and are never written as a correction. */
  const InvalidServices: seq<string> := ["신규입사", "퇴사", "휴직", ""]

  /** `x || ""`. */
  function OrEmpty(o: Option<string>): string { if o.Some? then o.value else "" }

  /** The correction for one evaluation, if its stored group differs from the group in force at its date. */
  function CorrectionFor(row: EvalRow, agents: map<string, AgentChanges>): (r: Option<Correction>)
    ensures r.Some? <==>
      row.agentId in agents && agents[row.agentId].changes != []
      && GroupAtDate(row.evalDate, agents[row.agentId].changes).value.service !in InvalidServices
      && ServiceChannel(OrEmpty(row.service), OrEmpty(row.channel)) != GroupAtDate(row.evalDate, agents[row.agentId].changes).value
    ensures r.Some? ==>
      r.value.evaluationId == row.evaluationId && r.value.agentId == row.agentId
      && r.value.currentService == OrEmpty(row.service) && r.value.currentChannel == OrEmpty(row.channel)
      && ServiceChannel(r.value.correctService, r.value.correctChannel) == GroupAtDate(row.evalDate, agents[row.agentId].changes).value
  {
    if row.agentId !in agents || agents[row.agentId].changes == [] then None
    else
      var g := GroupAtDate(row.evalDate, agents[row.agentId].changes).value;
      var current := ServiceChannel(OrEmpty(row.service), OrEmpty(row.channel));
      if g.service in InvalidServices || current == g then None
      else Some(Correction(row.evaluationId, row.agentId, OrEmpty(row.agentName), row.evalDate,
                           current.service, current.channel, g.service, g.channel))
  }

  /** The corrections for all evaluation rows, in row order. */
  function Corrections(rows: seq<EvalRow>, agents: map<string, AgentChanges>): (r: seq<Correction>)
    ensures |r| <= |rows|
    ensures forall k :: 0 <= k < |r| ==> r[k].correctService !in InvalidServices
    ensures forall k :: 0 <= k < |r| ==>
      r[k].currentService != r[k].correctService || r[k].currentChannel != r[k].correctChannel
    decreases |rows|
  {
    if rows == [] then []
    else
      var prev := Corrections(rows[..|rows| - 1], agents);
      match CorrectionFor(rows[|rows| - 1], agents)
      case None => prev
      case Some(c) => prev + [c]
  }

  /** The corrections are exactly the rows' own corrections that exist, in evaluation-row order. */
  lemma {:induction false} CorrectionsAreRowResults(rows: seq<EvalRow>, agents: map<string, AgentChanges>)
    ensures Corrections(rows, agents) == Somes(seq(|rows|, i requires 0 <= i < |rows| => CorrectionFor(rows[i], agents)))
    decreases |rows|
  {
    if rows != [] {
      var init := rows[..|rows| - 1];
      CorrectionsAreRowResults(init, agents);
      var xs := seq(|rows|, i requires 0 <= i < |rows| => CorrectionFor(rows[i], agents));
      assert xs[..|rows| - 1] == seq(|init|, i requires 0 <= i < |init| => CorrectionFor(init[i], agents));
    }
  }

  /** The correction loop over the evaluation rows. */
  method BuildCorrections(rows: seq<EvalRow>, agents: map<string, AgentChanges>) returns (corrections: seq<Correction>)
    ensures corrections == Corrections(rows, agents)
  {
    corrections := [];
    var i := 0;
    while i < |rows|
      invariant 0 <= i <= |rows|
      invariant corrections == Corrections(rows[..i], agents)
    {
      var row := rows[i];
      assert rows[..i + 1][..i] == rows[..i];
      if row.agentId in agents && |agents[row.agentId].changes| > 0 {
        var correct := GetCorrectGroupAtDate(row.evalDate, agents[row.agentId].changes);
        if correct.Some? {
          var currentService := OrEmpty(row.service);
          var currentChannel := OrEmpty(row.channel);
          if correct.value.service !in InvalidServices
            && (currentService != correct.value.service || currentChannel != correct.value.channel) {
            corrections := corrections + [Correction(row.evaluationId, row.agentId, OrEmpty(row.agentName), row.evalDate,
                                                     currentService, currentChannel, correct.value.service, correct.value.channel)];
          }
        }
      }
      i := i + 1;
    }
    assert rows[..i] == rows;
  }
}
