/**
 * The QA evaluation sheet parser (lib/qa-sheets.ts): month and round
 * normalisation, the header-repeat row test, the first-match header index
 * and the row-to-evaluation mapping. The sheet arrives as a header row and a
 * sequence of rows of cell texts.
 */
module QaSheets {
  import opened Wrappers
  import opened Text
  import opened JsNumbers
  import Constants

  // ================================================================ months

  /** `^(\d{2})년\s*(\d{1,2})월$` (width 2) or `^(\d{4})년\s*(\d{1,2})월$` (width 4): year and month digits. */
  function MatchKoreanMonth(s: string, width: nat): (r: Option<(string, string)>)
    ensures r.Some? ==> |r.value.0| == width && AllDigits(r.value.0) && 1 <= |r.value.1| <= 2 && AllDigits(r.value.1)
    ensures r.Some? ==> width < |s| && s[width] == '년' && s[|s| - 1] == '월' && s[..width] == r.value.0
  {
    var n := DigitRun(s, 0);
    if n != width || n >= |s| || s[n] != '년' then None
    else
      var j := SkipBy(s, n + 1, IsJsSpace);
      var m := DigitRun(s, j);
      if 1 <= m <= 2 && j + m + 1 == |s| && s[j + m] == '월' then Some((s[..n], s[j..j + m])) else None
  }

  /** `^(\d{4})-(\d{1,2})$`: year and month digits. */
  function MatchDashMonth(s: string): (r: Option<(string, string)>)
    ensures r.Some? ==> |r.value.0| == 4 && AllDigits(r.value.0) && 1 <= |r.value.1| <= 2 && AllDigits(r.value.1)
    ensures r.Some? ==> s == r.value.0 + "-" + r.value.1
  {
    var n := DigitRun(s, 0);
    if n != 4 || |s| <= 4 || s[4] != '-' then None
    else
      var m := DigitRun(s, 5);
      if 1 <= m <= 2 && 5 + m == |s| then
        assert s == s[..4] + "-" + s[5..];
        Some((s[..4], s[5..]))
      else None
  }

  /** `^\d{4}-\d{2}$`: the normalised "YYYY-MM" form. */
  predicate IsPaddedMonth(s: string) {
    |s| == 7 && AllDigits(s[..4]) && s[4] == '-' && AllDigits(s[5..])
  }

  function YearMonth(year: string, month: string): string {
    year + "-" + PadStart2(month)
  }

  lemma YearMonthPadded(year: string, month: string)
    requires |year| == 4 && AllDigits(year) && 1 <= |month| <= 2 && AllDigits(month)
    ensures IsPaddedMonth(YearMonth(year, month)) && YearMonth(year, month)[..4] == year
    ensures DigitsValue(YearMonth(year, month)[5..]) == DigitsValue(month)
  {
    var r := YearMonth(year, month);
    var m := PadStart2(month);
    assert r == year + "-" + m;
    assert r[..4] == year && r[4] == '-' && r[5..] == m;
    if |month| == 1 {
      assert m == "0" + month;
      assert m[..1] == "0" && m[1] == month[0];
      assert DigitsValue(m) == DigitsValue(m[..1]) * 10 + DigitValue(m[1]);
      assert DigitsValue(month) == DigitsValue(month[..0]) * 10 + DigitValue(month[0]);
      assert AllDigits(m) by { assert forall k :: 0 <= k < 2 ==> IsDigit(m[k]); }
    }
  }

  /** "20" before two digits is a four-digit year. */
  lemma CenturyYearDigits(yy: string)
    requires |yy| == 2 && AllDigits(yy)
    ensures |"20" + yy| == 4 && AllDigits("20" + yy)
  {
    var y := "20" + yy;
    assert y[2] == yy[0] && y[3] == yy[1];
  }

  /** Some month format matches the trimmed text. */
  predicate MonthMatches(s: string) {
    MatchKoreanMonth(s, 2).Some? || MatchKoreanMonth(s, 4).Some? || IsPaddedMonth(s) || MatchDashMonth(s).Some?
  }

  /**
   * normalizeMonth: "YY년M월" to "20YY-MM", "YYYY년 M월" and "YYYY-M" to
   * "YYYY-MM"; any other text is returned trimmed.
   */
  function NormalizeMonth(raw: string): (r: string)
    ensures MonthMatches(Trim(raw)) ==> IsPaddedMonth(r)
    ensures !MonthMatches(Trim(raw)) ==> r == Trim(raw)
  {
    if raw == "" then ""
    else
      var s := Trim(raw);
      var k2 := MatchKoreanMonth(s, 2);
      var k4 := MatchKoreanMonth(s, 4);
      var d := MatchDashMonth(s);
      if k2.Some? then
        CenturyYearDigits(k2.value.0);
        YearMonthPadded("20" + k2.value.0, k2.value.1);
        YearMonth("20" + k2.value.0, k2.value.1)
      else if k4.Some? then
        YearMonthPadded(k4.value.0, k4.value.1);
        YearMonth(k4.value.0, k4.value.1)
      else if IsPaddedMonth(s) then s
      else if d.Some? then
        YearMonthPadded(d.value.0, d.value.1);
        YearMonth(d.value.0, d.value.1)
      else s
  }

  /** "YY년M월" becomes "20YY-" and the zero-padded month (whose value YearMonthPadded keeps). */
  lemma NormalizeShortKoreanMonth(raw: string)
    requires MatchKoreanMonth(Trim(raw), 2).Some?
    ensures NormalizeMonth(raw) == YearMonth("20" + Trim(raw)[..2], MatchKoreanMonth(Trim(raw), 2).value.1)
  {
    assert raw != "";
  }

  /** "YYYY년 M월" becomes "YYYY-" and the zero-padded month. */
  lemma NormalizeLongKoreanMonth(raw: string)
    requires MatchKoreanMonth(Trim(raw), 4).Some?
    ensures NormalizeMonth(raw) == YearMonth(Trim(raw)[..4], MatchKoreanMonth(Trim(raw), 4).value.1)
  {
    assert raw != "";
    assert MatchKoreanMonth(Trim(raw), 2).None?;
  }

  /** "YYYY-M" becomes "YYYY-" and the zero-padded month. */
  lemma NormalizeDashMonth(raw: string)
    requires MatchDashMonth(Trim(raw)).Some?
    ensures NormalizeMonth(raw) == YearMonth(Trim(raw)[..4], MatchDashMonth(Trim(raw)).value.1)
  {
    var t := Trim(raw);
    var d := MatchDashMonth(t).value;
    assert raw != "";
    assert t[..4] == d.0;
    assert MatchKoreanMonth(t, 2).None? && MatchKoreanMonth(t, 4).None? by {
      assert t[4] == '-';
      assert IsDigit(t[2]) by { assert t[2] == d.0[2]; }
    }
    if IsPaddedMonth(t) {
      assert |d.1| == 2 && PadStart2(d.1) == d.1;
    }
  }

  /** A normalised month matches none of the patterns that rewrite. */
  lemma PaddedMonthIsFixed(s: string)
    requires IsPaddedMonth(s)
    ensures Trim(s) == s && MatchKoreanMonth(s, 2).None? && MatchKoreanMonth(s, 4).None?
  {
    assert IsDigit(s[0]) && IsDigit(s[6]) by { assert s[0] == s[..4][0]; assert s[6] == s[5..][1]; }
    TrimByOfTrimmed(s, IsJsSpace);
    assert IsDigit(s[2]) by { assert s[2] == s[..4][2]; }
  }

  /** normalizeMonth applied twice is normalizeMonth. */
  lemma NormalizeMonthIdempotent(raw: string)
    ensures NormalizeMonth(NormalizeMonth(raw)) == NormalizeMonth(raw)
  {
    var r := NormalizeMonth(raw);
    if IsPaddedMonth(r) {
      PaddedMonthIsFixed(r);
    } else {
      TrimByIdempotent(raw, IsJsSpace);
    }
  }

  // ================================================================ rounds

  /** Index of the first decimal digit at or after `i`. */
  function FirstDigit(s: string, i: nat): (r: Option<nat>)
    requires i <= |s|
    ensures r.Some? ==> i <= r.value < |s| && IsDigit(s[r.value])
    ensures forall k :: i <= k < (if r.Some? then r.value else |s|) ==> !IsDigit(s[k])
    decreases |s| - i
  {
    if i == |s| then None else if IsDigit(s[i]) then Some(i) else FirstDigit(s, i + 1)
  }

  /** normalizeRound: the value of the first digit run, 1 when there is none. */
  function NormalizeRound(raw: string): (n: nat)
    ensures FirstDigit(raw, 0).None? ==> n == 1
  {
    match FirstDigit(raw, 0)
    case None => 1
    case Some(i) => DigitsValue(raw[i..i + DigitRun(raw, i)])
  }

  /** A rendered round number with digit-free text around it ("2차") reads back as that number. */
  lemma NormalizeRoundOfRendered(prefix: string, n: nat, suffix: string)
    requires forall k :: 0 <= k < |prefix| ==> !IsDigit(prefix[k])
    requires suffix == [] || !IsDigit(suffix[0])
    ensures NormalizeRound(prefix + NatToString(n) + suffix) == n
  {
    var d := NatToString(n);
    var s := prefix + d + suffix;
    FirstDigitAfter(s, |prefix|);
    assert s[|prefix|] == d[0];
    assert FirstDigit(s, 0) == Some(|prefix|);
    DigitRunOf(s, |prefix|, d);
    assert s[|prefix|..|prefix| + |d|] == d;
    NatToStringValue(n);
  }

  lemma FirstDigitAfter(s: string, p: nat)
    requires p < |s| && IsDigit(s[p])
    requires forall k :: 0 <= k < p ==> !IsDigit(s[k])
    ensures FirstDigit(s, 0) == Some(p)
  {
  }

  lemma DigitRunOf(s: string, p: nat, d: string)
    requires AllDigits(d) && p + |d| <= |s| && s[p..p + |d|] == d
    requires p + |d| == |s| || !IsDigit(s[p + |d|])
    ensures DigitRun(s, p) == |d|
  {
    assert forall k :: p <= k < p + |d| ==> s[k] == d[k - p];
  }

  // ================================================================ header-repeat row

  /** `.replace(/\s+/g, ' ').trim()`. */
  function HeaderText(h: string): string {
    Trim(CollapseBy(h, IsJsSpace))
  }

  function Min3(a: nat, b: nat, c: nat): (m: nat)
    ensures m <= a && m <= b && m <= c && (m == a || m == b || m == c)
  {
    if a <= b && a <= c then a else if b <= c then b else c
  }

  /** How many of the first `n` cells equal their header, both passed through `norm`. */
  function MatchCount(row: seq<string>, headers: seq<string>, n: nat, norm: string -> string): (c: nat)
    requires n <= |row| && n <= |headers|
    ensures c <= n
  {
    if n == 0 then 0
    else MatchCount(row, headers, n - 1, norm) + (if norm(row[n - 1]) == norm(headers[n - 1]) then 1 else 0)
  }

  /** The header-repeat test: a short row, or at least 3 of the first 5 cells equal to the header. */
  predicate HeaderRepeat(row: seq<string>, headers: seq<string>) {
    |row| < 5 || MatchCount(row, headers, Min3(5, |row|, |headers|), HeaderText) >= 3
  }

  /** The counting loop of isHeaderRepeatRow. */
  method CountMatches(row: seq<string>, headers: seq<string>, n: nat, norm: string -> string) returns (matchCount: nat)
    requires n <= |row| && n <= |headers|
    ensures matchCount == MatchCount(row, headers, n, norm)
  {
    matchCount := 0;
    var i := 0;
    while i < n
      invariant 0 <= i <= n
      invariant matchCount == MatchCount(row, headers, i, norm)
    {
      if norm(row[i]) == norm(headers[i]) {
        matchCount := matchCount + 1;
      }
      i := i + 1;
    }
  }

  /** isHeaderRepeatRow. */
  method IsHeaderRepeatRow(row: seq<string>, headers: seq<string>) returns (repeat: bool)
    ensures repeat == HeaderRepeat(row, headers)
  {
    if |row| < 5 {
      return true;
    }
    var matchCount := CountMatches(row, headers, Min3(5, |row|, |headers|), HeaderText);
    return matchCount >= 3;
  }

  lemma {:induction false} MatchCountSelf(h: seq<string>, n: nat, norm: string -> string)
    requires n <= |h|
    ensures MatchCount(h, h, n, norm) == n
  {
    if n > 0 {
      MatchCountSelf(h, n - 1, norm);
    }
  }

  /** The header row itself (at least 5 columns) is recognised as a repeat. */
  lemma HeaderRowRepeats(headers: seq<string>)
    requires |headers| >= 5
    ensures HeaderRepeat(headers, headers)
  {
    MatchCountSelf(headers, 5, HeaderText);
  }

  /** With fewer than 3 headers no row of 5 cells or more can be a repeat. */
  lemma FewHeadersNeverRepeat(row: seq<string>, headers: seq<string>)
    requires |row| >= 5 && |headers| < 3
    ensures !HeaderRepeat(row, headers)
  {
  }

  // ================================================================ header index

  /** The evaluation fields a header can fill; the three ignored columns have their own. */
  datatype Field =
    | Center | Team | Service | AgentName | AgentId | TenureMonths | TenureMonths2 | WorkHours | HireDate
    | WorkType | EvaluationMonth | Round | ConsultationId | TotalScore
    | GreetingScore | ResponseExpression | InquiryComprehension | IdentityCheck | RequiredSearch
    | BusinessKnowledge | Promptness | SystemProcessing | ConsultationHistory | EmpathyCare
    | LanguageExpression | ListeningFocus | ExplanationAbility | PerceivedSatisfaction | PraiseBonus
    | VoicePerformance | SpeechSpeed | HonorificError
    | Spelling | CloseRequest | CopyError | OperationError
    | ConsultTypeDepth1 | ConsultTypeDepth2 | ConsultTypeDepth3 | ConsultTypeDepth4
    | KnowledgeFeedback | SatisfactionComment

  /** QA_HEADER_MAP: normalised header text to the evaluation field it fills. */
  const QaHeaderMap: map<string, Field> := map[
    "업체명" := Center, "팀명" := Team, "서비스" := Service, "이름" := AgentName,
    "영문이름" := AgentId, "근속개월" := TenureMonths, "근속개월2" := TenureMonths2,
    "근무시간" := WorkHours, "투입일" := HireDate, "근무타입" := WorkType,
    "평가월" := EvaluationMonth, "차시" := Round, "상담 ID" := ConsultationId,
    "상담ID" := ConsultationId, "총점" := TotalScore,
    "인사예절" := GreetingScore, "(끝)인사말" := GreetingScore, "화답표현" := ResponseExpression,
    "문의내용파악도" := InquiryComprehension, "문의내용 파악" := InquiryComprehension,
    "본인확인" := IdentityCheck, "필수탐색" := RequiredSearch, "업무지식" := BusinessKnowledge,
    "신속성" := Promptness, "전산처리" := SystemProcessing, "상담이력" := ConsultationHistory,
    "감성케어 (공감/호응/사과/양해)" := EmpathyCare, "감성케어" := EmpathyCare,
    "언어표현" := LanguageExpression, "경청/집중 태도" := ListeningFocus,
    "경청/집중태도" := ListeningFocus, "설명능력" := ExplanationAbility,
    "체감만족" := PerceivedSatisfaction, "(칭찬 접수) +10" := PraiseBonus, "칭찬접수" := PraiseBonus,
    "음성연출" := VoicePerformance, "말속도 및 발음" := SpeechSpeed, "말속도/발음" := SpeechSpeed,
    "(호칭오류) -1" := HonorificError, "호칭오류" := HonorificError,
    "맞춤법" := Spelling, "종료요청" := CloseRequest, "복사오류" := CopyError, "조작오류" := OperationError,
    "1Depth" := ConsultTypeDepth1, "2Depth" := ConsultTypeDepth2, "3Depth" := ConsultTypeDepth3,
    "4Depth" := ConsultTypeDepth4, "1depth" := ConsultTypeDepth1, "2depth" := ConsultTypeDepth2,
    "3depth" := ConsultTypeDepth3, "4depth" := ConsultTypeDepth4,
    "업무지식 피드백" := KnowledgeFeedback, "업무지식피드백" := KnowledgeFeedback,
    "체감만족 코멘트" := SatisfactionComment, "체감만족코멘트" := SatisfactionComment
  ]

  /** Column `i` of `hs` is a header for `field`. */
  predicate Names<F(==)>(fields: map<string, F>, hs: seq<string>, i: nat, field: F)
    requires i < |hs|
  {
    hs[i] in fields && fields[hs[i]] == field
  }

  /** The field-to-column index built over the first `n` headers; the first column for a field wins. */
  function HeaderIndex<F(==)>(fields: map<string, F>, hs: seq<string>, n: nat): (idx: map<F, nat>)
    requires n <= |hs|
    ensures forall f :: f in idx ==> idx[f] < n
  {
    if n == 0 then map[]
    else
      var prev := HeaderIndex(fields, hs, n - 1);
      var h := hs[n - 1];
      if h in fields && fields[h] !in prev then prev[fields[h] := n - 1] else prev
  }

  /** The column a field is indexed to names that field, and no earlier column does; a named field is indexed. */
  lemma {:induction false} HeaderIndexFirst<F>(fields: map<string, F>, hs: seq<string>, n: nat, f: F)
    requires n <= |hs|
    ensures f in HeaderIndex(fields, hs, n) ==>
      (Names(fields, hs, HeaderIndex(fields, hs, n)[f], f)
       && forall j :: 0 <= j < HeaderIndex(fields, hs, n)[f] ==> !Names(fields, hs, j, f))
    ensures forall j :: 0 <= j < n && Names(fields, hs, j, f) ==> f in HeaderIndex(fields, hs, n)
  {
    if n > 0 {
      HeaderIndexFirst(fields, hs, n - 1, f);
    }
  }

  /** The forEach that fills headerIndex. */
  method BuildHeaderIndex<F(==)>(fields: map<string, F>, hs: seq<string>) returns (idx: map<F, nat>)
    ensures idx == HeaderIndex(fields, hs, |hs|)
  {
    idx := map[];
    var i := 0;
    while i < |hs|
      invariant 0 <= i <= |hs|
      invariant idx == HeaderIndex(fields, hs, i)
    {
      var h := hs[i];
      if h in fields && fields[h] !in idx {
        idx := idx[fields[h] := i];
      }
      i := i + 1;
    }
  }

  // ================================================================ rows

  datatype Channel = Wired | Chat {
    function Text(): string {
      match this
      case Wired => "유선"
      case Chat => "채팅"
    }
  }

  /** CENTER_MAP. */
  const CenterMap: map<string, string> := map[
    "KMCC용산" := "용산", "KMCC 용산" := "용산", "용산" := "용산",
    "KMCC광주" := "광주", "KMCC 광주" := "광주", "광주" := "광주"
  ]

  const CommonScoreFields: seq<Field> := [
    GreetingScore, ResponseExpression, InquiryComprehension, IdentityCheck, RequiredSearch,
    BusinessKnowledge, Promptness, SystemProcessing, ConsultationHistory, EmpathyCare,
    LanguageExpression, ListeningFocus, ExplanationAbility, PerceivedSatisfaction, PraiseBonus
  ]
  const WiredOnlyFields: seq<Field> := [VoicePerformance, SpeechSpeed, HonorificError]
  const ChatOnlyFields: seq<Field> := [Spelling, CloseRequest, CopyError, OperationError]

  /** The score fields read for a channel; the other channel's own fields stay undefined. */
  function ScoreFields(channel: Channel): seq<Field> {
    CommonScoreFields + (if channel == Wired then WiredOnlyFields else ChatOnlyFields)
  }

  /** `row[idx] || ''`: a missing cell reads as "". */
  function Cell(row: seq<string>, i: nat): string {
    if i < |row| then row[i] else ""
  }

  /** getValue: the trimmed cell of the field's column, "" for an unmapped field. */
  function GetValue(row: seq<string>, idx: map<Field, nat>, field: Field): string {
    if field in idx then Trim(Cell(row, idx[field])) else ""
  }

  /** getNumber: parseFloat of the value, undefined for "" or NaN (and, here, for an infinite result). */
  function GetNumber(row: seq<string>, idx: map<Field, nat>, field: Field): Option<real> {
    var v := GetValue(row, idx, field);
    if v == "" then None else ParseFloatJs(v)
  }

  /** `value || undefined`. */
  function NonEmpty(s: string): (r: Option<string>)
    ensures r.None? <==> s == ""
  {
    if s == "" then None else Some(s)
  }

  /** The numeric fields among `fields` that have a number in the row. */
  function Scores(row: seq<string>, idx: map<Field, nat>, fields: seq<Field>): (m: map<Field, real>)
    ensures forall f :: f in m ==> f in fields
    ensures forall f :: f in fields ==> (f in m <==> GetNumber(row, idx, f).Some?)
    ensures forall f :: f in m ==> m[f] == GetNumber(row, idx, f).value
    decreases |fields|
  {
    if fields == [] then map[]
    else
      var rest := Scores(row, idx, fields[1..]);
      var f := fields[0];
      match GetNumber(row, idx, f)
      case Some(v) => rest[f := v]
      case None => rest
  }

  datatype QaEvaluation = QaEvaluation(
    qaEvalId: string, evaluationDate: string, evaluationMonth: string, round: nat,
    consultationId: Option<string>, center: string, team: Option<string>, service: string,
    channel: Channel, agentName: string, agentId: Option<string>, tenureMonths: Option<real>,
    workType: Option<string>, totalScore: real, scores: map<Field, real>,
    consultTypes: seq<Option<string>>, knowledgeFeedback: Option<string>, satisfactionComment: Option<string>)

  /** The record pushed for one row, given that its total score parsed. */
  function Evaluation(row: seq<string>, idx: map<Field, nat>, defaultCenter: string, channel: Channel, total: real): (e: QaEvaluation)
    ensures e.totalScore == total && e.channel == channel
    ensures e.center == (if GetValue(row, idx, Center) in CenterMap then CenterMap[GetValue(row, idx, Center)] else defaultCenter)
    ensures e.evaluationMonth == NormalizeMonth(GetValue(row, idx, EvaluationMonth))
    ensures e.round == NormalizeRound(GetValue(row, idx, Round))
    ensures e.agentId == NonEmpty(GetValue(row, idx, AgentId))
    ensures e.scores == Scores(row, idx, ScoreFields(channel))
  {
    var rawCenter := GetValue(row, idx, Center);
    var center := if rawCenter in CenterMap then CenterMap[rawCenter] else defaultCenter;
    EvaluationOf(row, idx, center, Constants.NormalizeService(GetValue(row, idx, Service)), channel, total,
                 GetNumber(row, idx, TenureMonths), Scores(row, idx, ScoreFields(channel)))
  }

  /** The record built from the row's text fields, its mapped centre and service, and its already parsed numbers. */
  function EvaluationOf(row: seq<string>, idx: map<Field, nat>, center: string, service: string, channel: Channel, total: real,
                        tenure: Option<real>, scores: map<Field, real>): (e: QaEvaluation)
    ensures e.totalScore == total && e.channel == channel && e.tenureMonths == tenure && e.scores == scores
    ensures e.center == center && e.service == service
    ensures e.evaluationMonth == NormalizeMonth(GetValue(row, idx, EvaluationMonth))
    ensures e.round == NormalizeRound(GetValue(row, idx, Round))
    ensures e.agentId == NonEmpty(GetValue(row, idx, AgentId))
  {
    var agentName := GetValue(row, idx, AgentName);
    var agentId := GetValue(row, idx, AgentId);
    var month := NormalizeMonth(GetValue(row, idx, EvaluationMonth));
    var round := NormalizeRound(GetValue(row, idx, Round));
    var idBase := if agentId != "" then agentId else agentName;
    QaEvaluation(
      idBase + "_" + month + "_" + NatToString(round),
      if month != "" then month + "-01" else "",
      month, round,
      NonEmpty(GetValue(row, idx, ConsultationId)),
      center,
      NonEmpty(GetValue(row, idx, Team)),
      service,
      channel, agentName, NonEmpty(agentId),
      tenure,
      NonEmpty(GetValue(row, idx, WorkType)),
      total,
      scores,
      [NonEmpty(GetValue(row, idx, ConsultTypeDepth1)), NonEmpty(GetValue(row, idx, ConsultTypeDepth2)),
       NonEmpty(GetValue(row, idx, ConsultTypeDepth3)), NonEmpty(GetValue(row, idx, ConsultTypeDepth4))],
      NonEmpty(GetValue(row, idx, KnowledgeFeedback)),
      NonEmpty(GetValue(row, idx, SatisfactionComment)))
  }

  /** One row of parseQASheetRows: skipped when short, when it is the first row and a header repeat, or when 총점 is not a number. */
  function RowResult(ri: nat, row: seq<string>, headers: seq<string>, idx: map<Field, nat>, defaultCenter: string, channel: Channel): (r: Option<QaEvaluation>)
    ensures r.Some? <==> |row| >= 5 && !(ri == 0 && HeaderRepeat(row, headers)) && GetNumber(row, idx, TotalScore).Some?
    ensures r.Some? ==> r.value == Evaluation(row, idx, defaultCenter, channel, GetNumber(row, idx, TotalScore).value)
  {
    if |row| < 5 then None
    else if ri == 0 && HeaderRepeat(row, headers) then None
    else match GetNumber(row, idx, TotalScore)
      case None => None
      case Some(total) => Some(Evaluation(row, idx, defaultCenter, channel, total))
  }

  /** The outcome of every row, in row order. */
  function RowResults(rows: seq<seq<string>>, headers: seq<string>, idx: map<Field, nat>, defaultCenter: string, channel: Channel): (rs: seq<Option<QaEvaluation>>)
    ensures |rs| == |rows| && forall i :: 0 <= i < |rows| ==> rs[i] == RowResult(i, rows[i], headers, idx, defaultCenter, channel)
  {
    seq(|rows|, i requires 0 <= i < |rows| => RowResult(i, rows[i], headers, idx, defaultCenter, channel))
  }

  /** The normalised header row. */
  function NormalizedHeaders(headers: seq<string>): (hs: seq<string>)
    ensures |hs| == |headers| && forall i :: 0 <= i < |hs| ==> hs[i] == HeaderText(headers[i])
  {
    seq(|headers|, i requires 0 <= i < |headers| => HeaderText(headers[i]))
  }

  /** The body of the row loop of parseQASheetRows. */
  method ParseRow(ri: nat, row: seq<string>, headers: seq<string>, headerIndex: map<Field, nat>, defaultCenter: string, channel: Channel)
    returns (r: Option<QaEvaluation>)
    ensures r == RowResult(ri, row, headers, headerIndex, defaultCenter, channel)
  {
    if |row| < 5 {
      return None;
    }
    if ri == 0 {
      var repeat := IsHeaderRepeatRow(row, headers);
      if repeat {
        return None;
      }
    }
    var total := GetNumber(row, headerIndex, TotalScore);
    if total.None? {
      return None;
    }
    return Some(Evaluation(row, headerIndex, defaultCenter, channel, total.value));
  }

  /** parseQASheetRows. */
  method ParseQaSheetRows(headers: seq<string>, rows: seq<seq<string>>, defaultCenter: string, channel: Channel)
    returns (evaluations: seq<QaEvaluation>)
    ensures evaluations == Somes(RowResults(rows, headers, HeaderIndex(QaHeaderMap, NormalizedHeaders(headers), |headers|), defaultCenter, channel))
  {
    var normalized := NormalizedHeaders(headers);
    var headerIndex := BuildHeaderIndex(QaHeaderMap, normalized);
    evaluations := ParseRows(rows, headers, headerIndex, defaultCenter, channel);
  }

  /** The row loop of parseQASheetRows, for a given header index. */
  method ParseRows(rows: seq<seq<string>>, headers: seq<string>, headerIndex: map<Field, nat>, defaultCenter: string, channel: Channel)
    returns (evaluations: seq<QaEvaluation>)
    ensures evaluations == Somes(RowResults(rows, headers, headerIndex, defaultCenter, channel))
  {
    ghost var results := RowResults(rows, headers, headerIndex, defaultCenter, channel);
    evaluations := [];
    var ri := 0;
    while ri < |rows|
      invariant 0 <= ri <= |rows|
      invariant evaluations == Somes(results[..ri])
    {
      var r := ParseRow(ri, rows[ri], headers, headerIndex, defaultCenter, channel);
      assert results[ri] == r;
      SomesStep(results, ri);
      evaluations := evaluations + (if r.Some? then [r.value] else []);
      ri := ri + 1;
    }
    assert results[..ri] == results;
  }

  /** Only the first row is tested for a header repeat: a later copy of the header row with a numeric 총점 is kept. */
  lemma HeaderRepeatOnlyFirstRow(ri: nat, row: seq<string>, headers: seq<string>, idx: map<Field, nat>, dc: string, ch: Channel)
    requires ri > 0 && |row| >= 5 && GetNumber(row, idx, TotalScore).Some?
    ensures RowResult(ri, row, headers, idx, dc, ch).Some?
  {
  }

  /** A wired sheet never fills a chat-only score and a chat sheet never a wired-only one. */
  lemma ChannelFieldsExclusive(row: seq<string>, idx: map<Field, nat>, ch: Channel)
    ensures var scores := Scores(row, idx, ScoreFields(ch));
      (ch == Wired ==> forall f :: f in ChatOnlyFields ==> f !in scores)
      && (ch == Chat ==> forall f :: f in WiredOnlyFields ==> f !in scores)
  {
    var scores := Scores(row, idx, ScoreFields(ch));
    assert forall f :: f in scores ==> f in ScoreFields(ch);
    OwnFieldsOnly();
  }

  lemma OwnFieldsOnly()
    ensures forall f :: f in ChatOnlyFields ==> f !in ScoreFields(Wired)
    ensures forall f :: f in WiredOnlyFields ==> f !in ScoreFields(Chat)
  {
  }

  /** The evaluation id is the agent id (else the name), the month and the round joined by "_"; the date is the month's first day. */
  lemma EvaluationIdentity(row: seq<string>, idx: map<Field, nat>, dc: string, ch: Channel, total: real)
    ensures var e := Evaluation(row, idx, dc, ch, total);
      var base := if e.agentId.Some? then e.agentId.value else e.agentName;
      e.qaEvalId == base + "_" + e.evaluationMonth + "_" + NatToString(e.round)
      && (e.evaluationMonth == "" <==> e.evaluationDate == "")
      && (e.evaluationMonth != "" ==> e.evaluationDate == e.evaluationMonth + "-01")
  {
  }
}
