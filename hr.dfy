/**
 * Work-shift classification from an HR "work_hours" text such as
 * "08:00~17:00" (lib/bigquery-hr.ts): the TypeScript classifier, its Korean
 * labels and the SQL CASE expression that repeats its thresholds.
 */
module Hr {
  import opened Wrappers
  import opened Text

  datatype ShiftType = Day | Evening | Overnight

  /** The three bands of a start hour; a missing hour (NaN or SQL NULL) counts as day. */
  function ShiftOfHour(hour: Option<int>): (s: ShiftType)
    ensures s == Overnight <==> hour.Some? && (hour.value >= 22 || hour.value <= 3)
    ensures s == Evening <==> hour.Some? && 16 <= hour.value < 22
    ensures s == Day <==> hour.None? || 4 <= hour.value < 16
  {
    match hour
    case None => Day
    case Some(h) => if h >= 22 || h <= 3 then Overnight else if h >= 16 then Evening else Day
  }

  /** The text of the start hour: before the first '~', then before the first ':'. */
  function StartHourText(workHours: string): (t: string)
    ensures '~' !in t && ':' !in t
  {
    var beforeTilde := Split(workHours, '~')[0];
    var t := Split(beforeTilde, ':')[0];
    assert t == Split(beforeTilde, ':')[0];
    SplitFirstFree(workHours, beforeTilde);
    t
  }

  lemma SplitFirstFree(w: string, beforeTilde: string)
    requires beforeTilde == Split(w, '~')[0]
    ensures '~' !in Split(beforeTilde, ':')[0] && ':' !in Split(beforeTilde, ':')[0]
  {
    var t := Split(beforeTilde, ':')[0];
    SplitHeadPrefix(beforeTilde, ':');
    assert forall c :: c in t ==> c in beforeTilde;
  }

  lemma {:induction false} SplitHeadPrefix(s: string, d: char)
    ensures |Split(s, d)[0]| <= |s| && Split(s, d)[0] == s[..|Split(s, d)[0]|]
    decreases |s|
  {
    if s != [] {
      SplitHeadPrefix(s[1..], d);
    }
  }

  /** classifyShift: parseInt of the start-hour text, then the three bands. */
  function ClassifyShift(workHours: string): ShiftType {
    ShiftOfHour(ParseIntJs(StartHourText(workHours)))
  }

  /** Only the text before the first ':' matters once the hour holds neither '~' nor ':'. */
  lemma ClassifyShiftOfStart(h: string, rest: string)
    requires '~' !in h && ':' !in h
    ensures ClassifyShift(h + ":" + rest) == ShiftOfHour(ParseIntJs(h))
  {
    var w := h + ":" + rest;
    var tail := Split(rest, '~')[0];
    assert w == (h + ":") + rest;
    SplitHead(h + ":", '~', rest);
    assert Split(w, '~')[0] == h + [':'] + tail;
    SplitConcat(h, ':', tail);
    SplitWithout(h, ':');
    assert StartHourText(w) == h;
  }

  /** Two leading digits read as a decimal number. */
  lemma TwoDigitsValue(w: string)
    requires |w| >= 2 && IsDigit(w[0]) && IsDigit(w[1])
    ensures AllDigits(w[..2]) && DigitsValue(w[..2]) == 10 * DigitValue(w[0]) + DigitValue(w[1])
  {
    var h := w[..2];
    assert h[..1] == [w[0]] && h[1] == w[1];
    assert DigitsValue(h) == DigitsValue(h[..1]) * 10 + DigitValue(w[1]);
    assert DigitsValue(h[..1]) == DigitValue(w[0]) by {
      assert h[..1][..0] == [];
    }
  }

  /** The hours named in the source's own description fall in their bands. */
  lemma ClassifyShiftExamples()
    ensures ClassifyShift("08:00~17:00") == Day
    ensures ClassifyShift("16:00~01:00") == Evening
    ensures ClassifyShift("22:00~07:00") == Overnight
  {
    var day, evening, overnight := "08:00~17:00", "16:00~01:00", "22:00~07:00";
    assert day[0] == '0' && day[1] == '8' && day[2] == ':';
    ClassifyShiftOfTwoDigits(day);
    assert evening[0] == '1' && evening[1] == '6' && evening[2] == ':';
    ClassifyShiftOfTwoDigits(evening);
    assert overnight[0] == '2' && overnight[1] == '2' && overnight[2] == ':';
    ClassifyShiftOfTwoDigits(overnight);
  }

  /** shiftLabel. */
  function ShiftLabel(s: ShiftType): string {
    match s
    case Day => "주간"
    case Evening => "야간"
    case Overnight => "심야"
  }

  /** Distinct shifts get distinct labels. */
  lemma ShiftLabelInjective(a: ShiftType, b: ShiftType)
    requires ShiftLabel(a) == ShiftLabel(b)
    ensures a == b
  {
  }

  /** BigQuery's SAFE_CAST of a string to INT64: an optional sign and decimal digits, else NULL. */
  function SafeCastInt64(t: string): (r: Option<int>)
    ensures AllDigits(t) && t != [] ==> r == Some(DigitsValue(t))
  {
    if t != [] && AllDigits(t) then Some(DigitsValue(t))
    else if |t| > 1 && t[0] == '-' && AllDigits(t[1..]) then Some(-(DigitsValue(t[1..]) as int))
    else if |t| > 1 && t[0] == '+' && AllDigits(t[1..]) then Some(DigitsValue(t[1..]))
    else None
  }

  /** SHIFT_SQL: the same bands on the first two characters of work_hours. */
  function SqlShift(workHours: string): ShiftType {
    ShiftOfHour(SafeCastInt64(workHours[..if |workHours| < 2 then |workHours| else 2]))
  }

  /** On the "HH:MM~…" layout the SQL expression and the classifier agree. */
  lemma ClassifyShiftOfTwoDigits(w: string)
    requires |w| >= 3 && IsDigit(w[0]) && IsDigit(w[1]) && w[2] == ':'
    ensures ClassifyShift(w) == SqlShift(w) == ShiftOfHour(Some(10 * DigitValue(w[0]) + DigitValue(w[1])))
  {
    var h := w[..2];
    TwoDigitsValue(w);
    assert w == h + ":" + w[3..];
    ClassifyShiftOfStart(h, w[3..]);
    ParseIntJsOfDigits(h);
    assert SqlShift(w) == ShiftOfHour(SafeCastInt64(h));
  }

  /** A one-digit start hour parts them: the classifier reads 3 (overnight), the SQL cast of "3:" is NULL (day). */
  lemma SqlShiftOneDigitHour()
    ensures ClassifyShift("3:00~12:00") == Overnight
    ensures SqlShift("3:00~12:00") == Day
  {
    OneDigitClassified();
    OneDigitSqlNull();
  }

  lemma OneDigitClassified()
    ensures ClassifyShift("3:00~12:00") == Overnight
  {
    ClassifyShiftOfStart("3", "00~12:00");
    assert "3" + ":" + "00~12:00" == "3:00~12:00";
    ParseIntJsOfDigits("3");
    assert DigitsValue("3") == 3 by {
      assert "3"[..0] == [];
    }
  }

  lemma OneDigitSqlNull()
    ensures SqlShift("3:00~12:00") == Day
  {
    var w := "3:00~12:00";
    var t := w[..2];
    assert t == "3:";
    assert !IsDigit(t[1]);
    assert t[0] != '-' && t[0] != '+';
    assert SafeCastInt64(t) == None;
  }
}
