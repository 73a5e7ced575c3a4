/**
 * Thursday-to-Wednesday reporting weeks and the probability status ladder
 * (lib/utils.ts). A date is a day number: days since 1970-01-01 in the
 * dashboard's local calendar, so 0 is a Thursday.
 */
module WeekUtils {
  import opened Text

  /** Date.prototype.getDay: 0 for Sunday … 6 for Saturday. */
  function DayOfWeek(day: int): (w: int)
    ensures 0 <= w < 7
  {
    (day + 4) % 7
  }

  const Thursday: int := 4
  const Wednesday: int := 3

  datatype Week = Week(start: int, end: int)

  /** getThursdayWeek: back to the latest Thursday, then six days on. */
  function GetThursdayWeek(day: int): (w: Week)
    ensures DayOfWeek(w.start) == Thursday && DayOfWeek(w.end) == Wednesday
    ensures w.end == w.start + 6 && w.start <= day <= w.end
    ensures w.start == day - (DayOfWeek(day) - 4 + 7) % 7
  {
    var daysBack := (DayOfWeek(day) - 4 + 7) % 7;
    Week(day - daysBack, day - daysBack + 6)
  }

  /** The week is the only Thursday-started seven-day span holding the day. */
  lemma ThursdayWeekUnique(day: int, t: int)
    requires DayOfWeek(t) == Thursday && t <= day <= t + 6
    ensures GetThursdayWeek(day).start == t
  {
    var j := day - t;
    assert t % 7 == 0;
    assert DayOfWeek(day) == (j + 4) % 7 by {
      assert day + 4 == t + (j + 4);
    }
    assert (DayOfWeek(day) - 4 + 7) % 7 == j;
  }

  /** All seven days of a week map to that same week. */
  lemma ThursdayWeekStable(day: int, k: int)
    requires 0 <= k < 7
    ensures GetThursdayWeek(GetThursdayWeek(day).start + k) == GetThursdayWeek(day)
  {
    var w := GetThursdayWeek(day);
    ThursdayWeekUnique(w.start + k, w.start);
  }

  /** getPrevThursdayWeek: the week whose Thursday lies seven days before this one's. */
  function GetPrevThursdayWeek(day: int): (w: Week)
    ensures w.start == GetThursdayWeek(day).start - 7 && w.end == w.start + 6
  {
    var prev := GetThursdayWeek(day).start - 7;
    ThursdayWeekUnique(prev, prev);
    GetThursdayWeek(prev)
  }

  // ================================================================ calendar

  /** Day number of 1 January of year `y` in the proleptic Gregorian calendar. */
  function YearStart(y: int): int {
    var p := y - 1;
    365 * p + p / 4 - p / 100 + p / 400 - 719162
  }

  /** A year has 365 or 366 days. */
  lemma YearLength(y: int)
    ensures 365 <= YearStart(y + 1) - YearStart(y) <= 366
  {
    var p := y - 1;
    QuarterStep(p);
    CenturyStep(p);
    QuadCenturyStep(p);
  }

  lemma QuarterStep(p: int)
    ensures (p + 1) / 4 == p / 4 || (p + 1) / 4 == p / 4 + 1
  {
  }

  /** The century count steps up only where 4 divides p + 1, so the leap count steps up too. */
  lemma CenturyStep(p: int)
    ensures (p + 1) / 100 == p / 100 || ((p + 1) / 100 == p / 100 + 1 && (p + 1) / 4 == p / 4 + 1)
  {
    var k := (p + 1) / 100;
    if (p + 1) / 100 != p / 100 {
      assert p + 1 == 100 * k;
      assert (p + 1) / 4 == 25 * k;
      assert p / 4 == 25 * k - 1;
    }
  }

  lemma QuadCenturyStep(p: int)
    ensures (p + 1) / 400 == p / 400 || ((p + 1) / 400 == p / 400 + 1 && (p + 1) / 100 == p / 100 + 1)
  {
    var k := (p + 1) / 400;
    if (p + 1) / 400 != p / 400 {
      assert p + 1 == 400 * k;
      assert (p + 1) / 100 == 4 * k;
      assert p / 100 == 4 * k - 1;
    }
  }

  /** The year holding a day number. */
  function YearOf(day: int): (y: int)
    ensures YearStart(y) <= day < YearStart(y + 1)
  {
    if day >= 0 then YearUp(day, 1970) else YearDown(day, 1969)
  }

  function YearUp(day: int, y: int): (r: int)
    requires YearStart(y) <= day
    ensures YearStart(r) <= day < YearStart(r + 1)
    decreases day - YearStart(y)
  {
    YearLength(y);
    if YearStart(y + 1) <= day then YearUp(day, y + 1) else y
  }

  function YearDown(day: int, y: int): (r: int)
    requires day < YearStart(y + 1)
    ensures YearStart(r) <= day < YearStart(r + 1)
    decreases YearStart(y) - day
  {
    YearLength(y - 1);
    if YearStart(y) <= day then y else YearDown(day, y - 1)
  }

  /** The year of a day is the only one whose span holds it. */
  lemma YearOfUnique(day: int, y: int)
    requires YearStart(y) <= day < YearStart(y + 1)
    ensures YearOf(day) == y
  {
    var z := YearOf(day);
    if z < y {
      YearStartMonotone(z + 1, y);
    } else if z > y {
      YearStartMonotone(y + 1, z);
    }
  }

  lemma {:induction false} YearStartMonotone(a: int, b: int)
    requires a <= b
    ensures YearStart(a) <= YearStart(b)
    decreases b - a
  {
    if a < b {
      YearLength(a);
      YearStartMonotone(a + 1, b);
    }
  }

  // ================================================================ labels

  /** `Math.ceil((diff / 86400000 + yearStart.getDay() + 1) / 7)` with whole days, for a week's Thursday. */
  function WeekIndex(start: int): (n: int)
    ensures 1 <= n <= 54
  {
    var y := YearOf(start);
    YearLength(y);
    (start - YearStart(y) + DayOfWeek(YearStart(y)) + 1 + 6) / 7
  }

  function WeekNumber(day: int): (n: int)
    ensures 1 <= n <= 54
  {
    WeekIndex(GetThursdayWeek(day).start)
  }

  /** Within one year, the next week's number is one more. */
  lemma WeekIndexNext(start: int)
    requires YearOf(start + 7) == YearOf(start)
    ensures WeekIndex(start + 7) == WeekIndex(start) + 1
  {
    var y := YearOf(start);
    var c := DayOfWeek(YearStart(y)) + 1 + 6;
    var d := start - YearStart(y);
    assert WeekIndex(start) == (d + c) / 7;
    assert WeekIndex(start + 7) == (d + 7 + c) / 7;
  }

  /** The week after a day's week, in the same year, has the next number. */
  lemma WeekNumberNext(day: int)
    requires YearOf(GetThursdayWeek(day).start + 7) == YearOf(GetThursdayWeek(day).start)
    ensures WeekNumber(GetThursdayWeek(day).start + 7) == WeekNumber(day) + 1
  {
    var s := GetThursdayWeek(day).start;
    assert DayOfWeek(s + 7) == Thursday by {
      assert (s + 7 + 4) % 7 == (s + 4) % 7;
    }
    ThursdayWeekUnique(s + 7, s + 7);
    assert WeekNumber(s + 7) == WeekIndex(s + 7);
    WeekIndexNext(s);
  }

  /** getThursdayWeekLabel: "YYYY-Www", the week number padded to two digits. */
  function GetThursdayWeekLabel(day: int): string {
    var y := YearOf(GetThursdayWeek(day).start);
    IntToString(y) + "-W" + PadStart2(NatToString(WeekNumber(day)))
  }

  /** For a four-digit year the label is eight characters: the year, "-W", two digits. */
  lemma WeekLabelShape(day: int)
    requires 1000 <= YearOf(GetThursdayWeek(day).start) <= 9999
    ensures var w := GetThursdayWeekLabel(day);
      |w| == 8 && w[4..6] == "-W" && AllDigits(w[..4]) && AllDigits(w[6..])
      && DigitsValue(w[..4]) == YearOf(GetThursdayWeek(day).start) && DigitsValue(w[6..]) == WeekNumber(day)
  {
    var y := YearOf(GetThursdayWeek(day).start);
    var n := WeekNumber(day);
    FourDigits(y);
    TwoDigits(n);
    NatToStringValue(n);
    NatToStringValue(y);
    var w := GetThursdayWeekLabel(day);
    var ys, ns := IntToString(y), PadStart2(NatToString(n));
    assert w == ys + "-W" + ns;
    assert w[..4] == ys && w[4..6] == "-W" && w[6..] == ns;
    PadDigitsValue(NatToString(n));
  }

  lemma FourDigits(y: int)
    requires 1000 <= y <= 9999
    ensures |IntToString(y)| == 4
  {
    NatToStringLength(y / 1000);
    assert NatToString(y / 100) == NatToString(y / 1000) + [DigitChar(y / 100 % 10)];
    assert NatToString(y / 10) == NatToString(y / 100) + [DigitChar(y / 10 % 10)];
    assert NatToString(y) == NatToString(y / 10) + [DigitChar(y % 10)];
  }

  lemma NatToStringLength(n: nat)
    requires 1 <= n < 10
    ensures |NatToString(n)| == 1
  {
  }

  lemma TwoDigits(n: int)
    requires 1 <= n <= 54
    ensures |NatToString(n)| <= 2
  {
  }

  lemma {:induction false} PadDigitsValue(s: string)
    requires AllDigits(s) && |s| <= 2
    ensures AllDigits(PadStart2(s)) && DigitsValue(PadStart2(s)) == DigitsValue(s)
  {
    var r := PadStart2(s);
    if |s| == 0 {
      assert r[..1] == "0";
    } else if |s| == 1 {
      assert r[..1] == "0" && r[..1][..0] == [];
      assert s[..0] == [];
    }
  }

  // ================================================================ status ladder

  datatype StatusLevel = Achieved | OnTrack | Caution | Warning | Risk

  function LevelLabel(l: StatusLevel): string {
    match l
    case Achieved => "달성"
    case OnTrack => "순항"
    case Caution => "주의"
    case Warning => "경고"
    case Risk => "위험"
  }

  /** The colour family of each level (green, blue, yellow, orange, red). */
  function LevelColor(l: StatusLevel): string {
    match l
    case Achieved => "green"
    case OnTrack => "blue"
    case Caution => "yellow"
    case Warning => "orange"
    case Risk => "red"
  }

  datatype StatusColors = StatusColors(bg: string, text: string, border: string, badge: string, level: StatusLevel, caption: string)

  function ColorsOf(l: StatusLevel): StatusColors {
    var c := LevelColor(l);
    StatusColors("bg-" + c + "-500", "text-" + c + "-600", "border-" + c + "-400",
                 "bg-" + c + "-50 text-" + c + "-700 border-" + c + "-200", l, LevelLabel(l))
  }

  function LevelRank(l: StatusLevel): nat {
    match l
    case Risk => 0
    case Warning => 1
    case Caution => 2
    case OnTrack => 3
    case Achieved => 4
  }

  /** getStatusColorsByProbability: thresholds 80, 60, 40 and 20, each inclusive. */
  function GetStatusColorsByProbability(probability: real): (c: StatusColors)
    ensures c == ColorsOf(c.level) && c.caption == LevelLabel(c.level)
    ensures c.level == Achieved <==> probability >= 80.0
    ensures c.level == OnTrack <==> 60.0 <= probability < 80.0
    ensures c.level == Caution <==> 40.0 <= probability < 60.0
    ensures c.level == Warning <==> 20.0 <= probability < 40.0
    ensures c.level == Risk <==> probability < 20.0
  {
    if probability >= 80.0 then ColorsOf(Achieved)
    else if probability >= 60.0 then ColorsOf(OnTrack)
    else if probability >= 40.0 then ColorsOf(Caution)
    else if probability >= 20.0 then ColorsOf(Warning)
    else ColorsOf(Risk)
  }

  /** A higher probability never shows a worse status. */
  lemma StatusMonotone(p1: real, p2: real)
    requires p1 <= p2
    ensures LevelRank(GetStatusColorsByProbability(p1).level) <= LevelRank(GetStatusColorsByProbability(p2).level)
  {
  }
}
