/**
 * The narrative half of the Agit QC importer (scripts/parse-agit-v2.py): post
 * classification, the QC item and vertical mappers, and the segmentation of a
 * weekly QC report comment into service sections, circled-number items and
 * cause/plan fields. Python's regular expressions are written out as scanning
 * functions; `\s` is Python's Unicode whitespace (IsPySpace).
 */
module AgitReport {
  import opened Wrappers
  import opened Text

  // ================================================================ classification

  const PostCategories: set<string> :=
    {"qc_weekly", "refresher", "new_hire", "job_test", "qa_eval", "advanced_training", "other"}

  /** classify_post: the first rule whose keywords occur in the lower-cased title. */
  function ClassifyPost(title: string): (c: string)
    ensures c in PostCategories
    ensures title == "" ==> c == "other"
    ensures c == "qc_weekly" <==>
      (title != "" && Contains(ToLower(title), "qc")
       && (Contains(ToLower(title), "리포트") || Contains(ToLower(title), "리포팅") || Contains(ToLower(title), "report")))
  {
    if title == "" then "other"
    else
      var t := ToLower(title);
      if Contains(t, "qc") && (Contains(t, "리포트") || Contains(t, "리포팅") || Contains(t, "report")) then "qc_weekly"
      else if Contains(t, "보수교육") || Contains(t, "보수 교육") then "refresher"
      else if Contains(t, "신입") && Contains(t, "교육") then "new_hire"
      else if Contains(t, "직무") && (Contains(t, "테스트") || Contains(t, "평가")) then "job_test"
      else if Contains(t, "qa") && (Contains(t, "평가") || Contains(t, "대상")) then "qa_eval"
      else if Contains(t, "심화") && Contains(t, "교육") then "advanced_training"
      else "other"
  }

  // ================================================================ QC item mapping

  /** One QC_ITEM_MAP entry: a name keyword, the error column and its category group. */
  datatype ItemKey = ItemKey(key: string, column: string, category: string)

  /** QC_ITEM_MAP in its insertion order, which is the order keys are tried. */
  const QcItemMap: seq<ItemKey> := [
    ItemKey("첫인사", "greeting_error", "상담태도"),
    ItemKey("끝인사", "greeting_error", "상담태도"),
    ItemKey("첫인사/끝인사", "greeting_error", "상담태도"),
    ItemKey("첫인사끝인사", "greeting_error", "상담태도"),
    ItemKey("공감표현", "empathy_error", "상담태도"),
    ItemKey("사과표현", "apology_error", "상담태도"),
    ItemKey("추가문의", "additional_inquiry_error", "상담태도"),
    ItemKey("불친절", "unkind_error", "상담태도"),
    ItemKey("상담유형", "consult_type_error", "오상담/오처리"),
    ItemKey("상담유형 오설정", "consult_type_error", "오상담/오처리"),
    ItemKey("가이드", "guide_error", "오상담/오처리"),
    ItemKey("가이드 미준수", "guide_error", "오상담/오처리"),
    ItemKey("본인확인", "identity_check_error", "오상담/오처리"),
    ItemKey("필수탐색", "required_search_error", "오상담/오처리"),
    ItemKey("오안내", "wrong_guide_error", "오상담/오처리"),
    ItemKey("전산처리누락", "process_missing_error", "오상담/오처리"),
    ItemKey("전산 처리 누락", "process_missing_error", "오상담/오처리"),
    ItemKey("전산처리미흡", "process_incomplete_error", "오상담/오처리"),
    ItemKey("전산 처리 미흡", "process_incomplete_error", "오상담/오처리"),
    ItemKey("전산조작", "system_error", "오상담/오처리"),
    ItemKey("전산 조작", "system_error", "오상담/오처리"),
    ItemKey("콜픽트립", "id_mapping_error", "오상담/오처리"),
    ItemKey("ID매핑", "id_mapping_error", "오상담/오처리"),
    ItemKey("플래그", "flag_keyword_error", "오상담/오처리"),
    ItemKey("키워드", "flag_keyword_error", "오상담/오처리"),
    ItemKey("플래그/키워드", "flag_keyword_error", "오상담/오처리"),
    ItemKey("상담이력", "history_error", "오상담/오처리"),
    ItemKey("상담이력 기재", "history_error", "오상담/오처리")
  ]

  const Unclassified := "미분류"

  /** The index of the first entry from `i` on whose key occurs in `name`. */
  function FirstKey(keys: seq<ItemKey>, name: string, i: nat): (r: Option<nat>)
    requires i <= |keys|
    ensures r.Some? ==> i <= r.value < |keys| && Contains(name, keys[r.value].key)
    ensures r.Some? ==> forall j :: i <= j < r.value ==> !Contains(name, keys[j].key)
    ensures r.None? ==> forall j :: i <= j < |keys| ==> !Contains(name, keys[j].key)
    decreases |keys| - i
  {
    if i == |keys| then None
    else if Contains(name, keys[i].key) then Some(i)
    else FirstKey(keys, name, i + 1)
  }

  /**
   * map_qc_item over a key table whose categories are never 미분류: the column
   * and category of the first key occurring in the stripped name, else (None, 미분류).
   */
  function MapItem(keys: seq<ItemKey>, name: string): (r: (Option<string>, string))
    requires forall j :: 0 <= j < |keys| ==> keys[j].category != Unclassified && keys[j].category != ""
    ensures r.1 != ""
    ensures r.0.None? <==> r.1 == Unclassified
    ensures r.0.None? <==> (name == "" || forall j :: 0 <= j < |keys| ==> !Contains(Strip(name), keys[j].key))
    ensures r.0.Some? ==> exists j :: 0 <= j < |keys| && Contains(Strip(name), keys[j].key)
                                    && r == (Some(keys[j].column), keys[j].category)
                                    && forall k :: 0 <= k < j ==> !Contains(Strip(name), keys[k].key)
  {
    if name == "" then (None, Unclassified)
    else
      var j := FirstKey(keys, Strip(name), 0);
      if j.Some? then (Some(keys[j.value].column), keys[j.value].category) else (None, Unclassified)
  }

  /** map_qc_item with QC_ITEM_MAP. */
  function MapQcItem(name: string): (string, string) {
    var r := MapItem(QcItemMap, name);
    (if r.0.Some? then r.0.value else "", r.1)
  }

  // ================================================================ verticals

  const VerticalServices: set<string> := {"주차", "바이크", "택시", "퀵", "대리", "화물", "기타"}

  /** parse_vertical: the service and channel named in a lower-cased, space-free vertical. */
  function ParseVertical(vertical: string): (r: (string, string))
    ensures r.0 in VerticalServices && r.1 in {"유선", "채팅", "기타"}
    ensures var v := RemoveChar(ToLower(vertical), ' ');
      var parking := Contains(v, "주차") || Contains(v, "카오너");
      var taxi := Contains(v, "maas") || Contains(v, "택시") || Contains(v, "심야");
      && (r.0 == "주차" <==> parking)
      && (r.0 == "바이크" <==> !parking && Contains(v, "바이크"))
      && (r.0 == "택시" <==> !parking && !Contains(v, "바이크") && taxi)
      && (r.0 == "퀵" <==> !parking && !Contains(v, "바이크") && !taxi && Contains(v, "퀵"))
      && (r.0 == "대리" <==> !parking && !Contains(v, "바이크") && !taxi && !Contains(v, "퀵") && Contains(v, "대리"))
      && (r.0 == "화물" <==> !parking && !Contains(v, "바이크") && !taxi && !Contains(v, "퀵") && !Contains(v, "대리")
                             && Contains(v, "화물"))
    ensures var v := RemoveChar(ToLower(vertical), ' ');
      && (r.1 == "유선" <==> Contains(v, "유선"))
      && (r.1 == "채팅" <==> !Contains(v, "유선") && Contains(v, "채팅"))
  {
    var v := RemoveChar(ToLower(vertical), ' ');
    var service :=
      if Contains(v, "주차") || Contains(v, "카오너") then "주차"
      else if Contains(v, "바이크") then "바이크"
      else if Contains(v, "maas") || Contains(v, "택시") || Contains(v, "심야") then "택시"
      else if Contains(v, "퀵") then "퀵"
      else if Contains(v, "대리") then "대리"
      else if Contains(v, "화물") then "화물"
      else "기타";
    var channel := if Contains(v, "유선") then "유선" else if Contains(v, "채팅") then "채팅" else "기타";
    (service, channel)
  }

  // ================================================================ service sections

  /** The alternatives of the section marker, in the order the pattern tries them. */
  const ServiceWords: seq<string> := ["택시", "퀵", "대리", "화물", "바이크", "주차"]

  /** The first service word occurring at `k`. */
  function WordAt(s: string, k: nat): (r: Option<string>)
    ensures r.Some? ==> r.value in ServiceWords && OccursAt(s, r.value, k)
  {
    if OccursAt(s, "택시", k) then Some("택시")
    else if OccursAt(s, "퀵", k) then Some("퀵")
    else if OccursAt(s, "대리", k) then Some("대리")
    else if OccursAt(s, "화물", k) then Some("화물")
    else if OccursAt(s, "바이크", k) then Some("바이크")
    else if OccursAt(s, "주차", k) then Some("주차")
    else None
  }

  /** `\s*-\s*(service)\s*\*?` at `q`: the service and the end of the match. */
  function MarkerRest(s: string, q: nat): (r: Option<(string, nat)>)
    requires q <= |s|
    ensures r.Some? ==> q < r.value.1 <= |s| && r.value.0 in ServiceWords
  {
    var j := SkipBy(s, q, IsPySpace);
    if j < |s| && s[j] == '-' then
      var k := SkipBy(s, j + 1, IsPySpace);
      match WordAt(s, k)
      case None => None
      case Some(w) =>
        var e := SkipBy(s, k + |w|, IsPySpace);
        Some((w, if e < |s| && s[e] == '*' then e + 1 else e))
    else None
  }

  /** The marker pattern `\*?\s*-\s*(service)\s*\*?` matched at `p`. */
  function MarkerAt(s: string, p: nat): (r: Option<(string, nat)>)
    requires p <= |s|
    ensures r.Some? ==> p < r.value.1 <= |s| && r.value.0 in ServiceWords
  {
    if p < |s| && s[p] == '*' && MarkerRest(s, p + 1).Some? then MarkerRest(s, p + 1) else MarkerRest(s, p)
  }

  datatype Marker = Marker(start: nat, service: string, end: nat)

  /** A matcher over positions 0..n whose matches are non-empty and end within n. */
  ghost predicate Advances(n: nat, at: nat -> Option<(string, nat)>) {
    forall q: nat :: q <= n && at(q).Some? ==> q < at(q).value.1 <= n
  }

  /** The first position in p..n where `at` matches. */
  function NextMatch(n: nat, p: nat, at: nat -> Option<(string, nat)>): (r: Option<nat>)
    requires p <= n
    ensures r.Some? ==> p <= r.value <= n && at(r.value).Some?
    ensures r.Some? ==> forall q :: p <= q < r.value ==> at(q).None?
    ensures r.None? ==> forall q :: p <= q <= n ==> at(q).None?
    decreases n - p
  {
    if at(p).Some? then Some(p) else if p == n then None else NextMatch(n, p + 1, at)
  }

  /** re.finditer: the successive non-overlapping leftmost matches from `p` on. */
  function Matches(n: nat, p: nat, at: nat -> Option<(string, nat)>): (ms: seq<Marker>)
    requires p <= n && Advances(n, at)
    ensures forall i :: 0 <= i < |ms| ==> p <= ms[i].start < ms[i].end <= n
    ensures forall i :: 0 <= i < |ms| ==> at(ms[i].start) == Some((ms[i].service, ms[i].end))
    ensures forall i :: 0 <= i < |ms| - 1 ==> ms[i].end <= ms[i + 1].start
    ensures ms == [] <==> forall q :: p <= q <= n ==> at(q).None?
    decreases n - p
  {
    match NextMatch(n, p, at)
    case None => []
    case Some(q) =>
      var m := at(q).value;
      var rest := Matches(n, m.1, at);
      var ms := [Marker(q, m.0, m.1)] + rest;
      assert forall i :: 1 <= i < |ms| ==> ms[i] == rest[i - 1];
      ms
  }

  /** One step of re.finditer: the first match is the next one from `p`, the rest start at its end. */
  lemma MatchesUnfold(n: nat, p: nat, at: nat -> Option<(string, nat)>)
    requires p <= n && Advances(n, at)
    ensures var ms := Matches(n, p, at);
      ms != [] ==> NextMatch(n, p, at) == Some(ms[0].start) && ms[1..] == Matches(n, ms[0].end, at)
  {
  }

  /**
   * No match of `at` in p..n is skipped by the list: without entries, none at all;
   * otherwise none before the first entry, between two entries, or after the last.
   */
  ghost predicate NoGaps(ms: seq<Marker>, p: nat, n: nat, at: nat -> Option<(string, nat)>) {
    && (ms == [] ==> forall q :: p <= q <= n ==> at(q).None?)
    && (ms != [] ==> forall q :: p <= q < ms[0].start ==> at(q).None?)
    && (forall i, q :: 0 <= i < |ms| - 1 && ms[i].end <= q < ms[i + 1].start ==> at(q).None?)
    && (ms != [] ==> forall q :: ms[|ms| - 1].end <= q <= n ==> at(q).None?)
  }

  lemma NoGapsCons(m: Marker, rest: seq<Marker>, p: nat, n: nat, at: nat -> Option<(string, nat)>)
    requires forall q :: p <= q < m.start ==> at(q).None?
    requires NoGaps(rest, m.end, n, at)
    ensures NoGaps([m] + rest, p, n, at)
  {
    var ms := [m] + rest;
    forall i, q | 0 <= i < |ms| - 1 && ms[i].end <= q < ms[i + 1].start
      ensures at(q).None?
    {
      assert ms[i + 1] == rest[i];
      if i > 0 {
        assert ms[i] == rest[i - 1];
      }
    }
    if rest != [] {
      assert ms[|ms| - 1] == rest[|rest| - 1];
    }
  }

  /** re.finditer skips no match. */
  lemma {:induction false} MatchesComplete(n: nat, p: nat, at: nat -> Option<(string, nat)>)
    requires p <= n && Advances(n, at)
    ensures NoGaps(Matches(n, p, at), p, n, at)
    decreases n - p
  {
    var ms := Matches(n, p, at);
    if ms != [] {
      MatchesUnfold(n, p, at);
      MatchesComplete(n, ms[0].end, at);
      NoGapsCons(ms[0], ms[1..], p, n, at);
      assert ms == [ms[0]] + ms[1..];
    }
  }

  /** The section marker as a matcher over the positions of `s`. */
  function MarkerFn(s: string): nat -> Option<(string, nat)> {
    (q: nat) => if q <= |s| then MarkerAt(s, q) else None
  }

  lemma MarkerFnAdvances(s: string)
    ensures Advances(|s|, MarkerFn(s))
  {
  }

  /** The markers of a report text, in order. */
  function Markers(s: string): (ms: seq<Marker>)
    ensures forall i :: 0 <= i < |ms| ==> ms[i].start < ms[i].end <= |s| && MarkerAt(s, ms[i].start) == Some((ms[i].service, ms[i].end))
    ensures forall i :: 0 <= i < |ms| - 1 ==> ms[i].end <= ms[i + 1].start
    ensures ms == [] <==> forall q :: 0 <= q <= |s| ==> MarkerAt(s, q).None?
    ensures forall i :: 0 <= i < |ms| ==> ms[i].end <= SectionEnd(s, ms, i) <= |s|
  {
    MarkerFnAdvances(s);
    var ms := Matches(|s|, 0, MarkerFn(s));
    assert forall q :: 0 <= q <= |s| ==> MarkerFn(s)(q) == MarkerAt(s, q);
    forall i | 0 <= i < |ms| ensures ms[i].end <= SectionEnd(s, ms, i) <= |s| {
      if i + 1 < |ms| {
        assert ms[i].end <= ms[i + 1].start < ms[i + 1].end <= |s|;
      }
    }
    ms
  }

  /** re.finditer skips no marker: none starts before the first, between two, or after the last listed one. */
  lemma MarkersComplete(s: string)
    ensures NoGaps(Markers(s), 0, |s|, MarkerFn(s))
  {
    MarkerFnAdvances(s);
    MatchesComplete(|s|, 0, MarkerFn(s));
  }

  /** split_service_sections: one (service, stripped body) per marker, or the whole text as 통합. */
  function SplitServiceSections(text: string): (r: seq<(string, string)>)
    ensures Markers(text) == [] ==> r == [("통합", text)]
    ensures Markers(text) != [] ==>
      |r| == |Markers(text)| && forall i :: 0 <= i < |r| ==> r[i].0 == Markers(text)[i].service && r[i].0 in ServiceWords
    ensures Markers(text) != [] ==> var ms := Markers(text);
      forall i :: 0 <= i < |r| ==> r[i].1 == Strip(text[ms[i].end..SectionEnd(text, ms, i)])
  {
    var ms := Markers(text);
    if ms == [] then [("통합", text)]
    else
      SectionsOf(text, ms)
  }

  /** Where the section opened by marker `i` ends: at the next marker, or at the end of the text. */
  function SectionEnd(text: string, ms: seq<Marker>, i: nat): nat {
    if i + 1 < |ms| then ms[i + 1].start else |text|
  }

  /** One (service, stripped text up to the next marker) per marker. */
  function SectionsOf(text: string, ms: seq<Marker>): (r: seq<(string, string)>)
    requires forall i :: 0 <= i < |ms| ==> ms[i].end <= SectionEnd(text, ms, i) <= |text|
    ensures |r| == |ms|
    ensures forall i :: 0 <= i < |r| ==> r[i] == (ms[i].service, Strip(text[ms[i].end..SectionEnd(text, ms, i)]))
  {
    seq(|ms|, i requires 0 <= i < |ms| => (ms[i].service, Strip(text[ms[i].end..SectionEnd(text, ms, i)])))
  }

  /**
   * Without a marker the whole text is one 통합 section; otherwise there is one
   * section per marker, in order, each named by its marker's service.
   */
  lemma SectionsFollowMarkers(text: string)
    ensures var r := SplitServiceSections(text);
      r == [("통합", text)] <==> forall q :: 0 <= q <= |text| ==> MarkerAt(text, q).None?
  {
    var ms := Markers(text);
    var r := SplitServiceSections(text);
    if ms != [] {
      ServiceOfMarker(text, ms[0].start);
      assert r[0].0 != "통합";
    }
  }

  lemma ServiceOfMarker(text: string, q: nat)
    requires q <= |text| && MarkerAt(text, q).Some?
    ensures MarkerAt(text, q).value.0 != "통합"
  {
  }

  // ================================================================ items

  /** The circled numbers ① to ⑯. */
  predicate IsGlyph(c: char) { '\U{2460}' <= c <= '\U{246F}' }

  predicate NoGlyph(s: string) { forall k :: 0 <= k < |s| ==> !IsGlyph(s[k]) }

  function GlyphCount(s: string): nat
    decreases |s|
  {
    if s == [] then 0 else (if IsGlyph(s[0]) then 1 else 0) + GlyphCount(s[1..])
  }

  function Concat(parts: seq<string>): string
    decreases |parts|
  {
    if parts == [] then "" else parts[0] + Concat(parts[1..])
  }

  /** The pieces of a `re.split` on a capturing glyph class: text, glyph, text, ..., text. */
  predicate Alternates(parts: seq<string>)
    decreases |parts|
  {
    |parts| >= 1 && NoGlyph(parts[0])
    && (|parts| == 1 || (|parts| >= 3 && |parts[1]| == 1 && IsGlyph(parts[1][0]) && Alternates(parts[2..])))
  }

  /** `re.split('([①-⑯])', text)`. */
  function SplitGlyphs(s: string): (parts: seq<string>)
    ensures Alternates(parts) && |parts| == 2 * GlyphCount(s) + 1
    decreases |s|
  {
    if s == [] then [""]
    else
      var rest := SplitGlyphs(s[1..]);
      if IsGlyph(s[0]) then
        var parts := ["", [s[0]]] + rest;
        assert parts[2..] == rest;
        parts
      else
        var parts := [[s[0]] + rest[0]] + rest[1..];
        assert |rest| > 1 ==> parts[2..] == rest[2..] && parts[1] == rest[1];
        parts
  }

  /** The pieces put back together are the text. */
  lemma {:induction false} SplitGlyphsConcat(s: string)
    ensures Concat(SplitGlyphs(s)) == s
    decreases |s|
  {
    if s != [] {
      SplitGlyphsConcat(s[1..]);
      var rest := SplitGlyphs(s[1..]);
      if IsGlyph(s[0]) {
        var parts := ["", [s[0]]] + rest;
        assert parts[1..][1..] == rest;
      } else {
        var parts := [[s[0]] + rest[0]] + rest[1..];
        assert parts[1..] == rest[1..];
      }
    }
  }

  /** The text that follows each glyph, in order; the text before the first glyph is not among them. */
  function AfterGlyphs(parts: seq<string>): (r: seq<string>)
    requires Alternates(parts)
    ensures 2 * |r| + 1 == |parts| && forall k :: 0 <= k < |r| ==> NoGlyph(r[k])
    decreases |parts|
  {
    if |parts| == 1 then [] else [parts[2]] + AfterGlyphs(parts[2..])
  }

  /** `current_items[-1] += " " + p`, which does nothing to an empty list. */
  function AppendToLast(items: seq<string>, p: string): (r: seq<string>)
    ensures |r| == |items|
  {
    if items == [] then [] else items[..|items| - 1] + [items[|items| - 1] + " " + p]
  }

  lemma GlyphIsStripped(p: string)
    requires |p| == 1 && IsGlyph(p[0])
    ensures Strip(p) == p
  {
    assert !IsPySpace(p[0]);
    TrimByOfTrimmed(p, IsPySpace);
  }

  lemma GlyphFreeTrimmed(p: string, sp: char -> bool)
    requires NoGlyph(p)
    ensures NoGlyph(TrimBy(p, sp))
  {
    TrimByKeeps(p, sp, c => !IsGlyph(c));
  }

  lemma AfterGlyphsStep(parts: seq<string>, i: nat)
    requires 0 < i && i + 1 < |parts| && Alternates(parts[i - 1..])
    ensures Alternates(parts[i + 1..])
    ensures AfterGlyphs(parts[i - 1..]) == [parts[i + 1]] + AfterGlyphs(parts[i + 1..])
  {
    var t := parts[i - 1..];
    assert t[2..] == parts[i + 1..] && t[2] == parts[i + 1];
  }

  /** After a text piece comes a glyph piece, and a text piece after that. */
  lemma GlyphAt(parts: seq<string>, i: nat)
    requires 0 < i < |parts| && Alternates(parts[i - 1..])
    ensures |parts[i]| == 1 && IsGlyph(parts[i][0]) && i + 1 < |parts|
  {
    assert parts[i] == parts[i - 1..][1];
  }

  /** Inside the scan, the piece at `i` is a glyph that strips to itself, and the text after it is its item. */
  lemma GlyphStep(parts: seq<string>, i: nat)
    requires 0 < i < |parts| && Alternates(parts[i - 1..])
    ensures var p := Strip(parts[i]); |p| == 1 && IsGlyph(p[0])
    ensures i + 1 < |parts| && Alternates(parts[i + 1..])
    ensures AfterGlyphs(parts[i - 1..]) == [parts[i + 1]] + AfterGlyphs(parts[i + 1..])
  {
    GlyphAt(parts, i);
    GlyphIsStripped(parts[i]);
    AfterGlyphsStep(parts, i);
  }

  /** The scan starts on the text before the first glyph, which strips to no glyph. */
  lemma TextStart(parts: seq<string>)
    requires Alternates(parts)
    ensures var p := Strip(parts[0]); !(|p| == 1 && IsGlyph(p[0]))
    ensures parts[0..] == parts
  {
    GlyphFreeTrimmed(parts[0], IsPySpace);
  }

  /** The while loop of parse_items_from_section: one item text per glyph, the glyph's following piece. */
  method CollectItemTexts(parts: seq<string>) returns (items: seq<string>)
    requires Alternates(parts)
    ensures items == AfterGlyphs(parts)
  {
    items := [];
    var i := 0;
    while i < |parts|
      invariant 0 <= i <= |parts|
      invariant i == 0 ==> items == []
      invariant i > 0 ==> Alternates(parts[i - 1..]) && items + AfterGlyphs(parts[i - 1..]) == AfterGlyphs(parts)
      decreases |parts| - i
    {
      var p := Strip(parts[i]);
      if i > 0 {
        GlyphStep(parts, i);
      } else {
        TextStart(parts);
      }
      if |p| == 1 && IsGlyph(p[0]) {
        if i + 1 < |parts| {
          items := items + [parts[i + 1]];
          i := i + 2;
        } else {
          i := i + 1;
        }
      } else {
        items := AppendToLast(items, p);
        i := i + 1;
      }
    }
    assert parts[i - 1..] == [parts[i - 1]];
  }

  // ---------------------------------------------------------------- cause and plan fields

  /** `-\s*<word>` at `q`: the end of the match. */
  function AnchorAt(s: string, q: nat, word: string): (r: Option<nat>)
    requires q <= |s|
    ensures r.Some? ==> q < r.value <= |s|
  {
    if q < |s| && s[q] == '-' then
      var j := SkipBy(s, q + 1, IsPySpace);
      if OccursAt(s, word, j) && word != "" then Some(j + |word|) else None
    else None
  }

  /** `$` without MULTILINE: the end, or just before a final newline. */
  predicate DollarAt(s: string, e: nat) {
    e == |s| || (e + 1 == |s| && s[e] == '\n')
  }

  /** Where the lazy `(.+?)` group starting before `e` stops: at `$`, or (for a cause) before `-\s*방안`. */
  function FieldEnd(s: string, e: nat, stopAtPlan: bool): (r: nat)
    requires e <= |s|
    ensures e <= r <= |s| && (DollarAt(s, r) || (stopAtPlan && AnchorAt(s, r, "방안").Some?))
    decreases |s| - e
  {
    if DollarAt(s, e) || (stopAtPlan && AnchorAt(s, e, "방안").Some?) then e else FieldEnd(s, e + 1, stopAtPlan)
  }

  /**
   * `-\s*<word>\s*[:：]\s*(.+?)` followed by the stop, matched at `q`: the
   * group. The greedy `\s*` gives back one character when nothing else is left.
   */
  function FieldAt(s: string, q: nat, word: string, stopAtPlan: bool): (r: Option<string>)
    requires q <= |s|
    ensures r.Some? ==> r.value != ""
  {
    match AnchorAt(s, q, word)
    case None => None
    case Some(e) =>
      var k := SkipBy(s, e, IsPySpace);
      if k < |s| && (s[k] == ':' || s[k] == '：') then
        var g0 := k + 1;
        var g := SkipBy(s, g0, IsPySpace);
        if g < |s| then Some(s[g..FieldEnd(s, g + 1, stopAtPlan)])
        else if g > g0 then Some(s[g - 1..])
        else None
      else None
  }

  /** re.search for a field: the leftmost position from `q` on where it matches. */
  function FindField(s: string, q: nat, word: string, stopAtPlan: bool): (r: Option<string>)
    requires q <= |s|
    ensures r.None? ==> forall p :: q <= p <= |s| ==> FieldAt(s, p, word, stopAtPlan).None?
    ensures r.Some? ==> exists p :: q <= p <= |s| && FieldAt(s, p, word, stopAtPlan) == r
    decreases |s| - q
  {
    if FieldAt(s, q, word, stopAtPlan).Some? then FieldAt(s, q, word, stopAtPlan)
    else if q == |s| then None
    else FindField(s, q + 1, word, stopAtPlan)
  }

  /** `- 원인: ...` up to `- 방안` or the end. */
  function CauseOf(s: string): Option<string> { FindField(s, 0, "원인", true) }

  /** `- 방안: ...` up to the end. */
  function PlanOf(s: string): Option<string> { FindField(s, 0, "방안", false) }

  /** The `-\s*원인` anchor as a matcher, for the item-name cut. */
  function CauseAnchorFn(s: string): nat -> Option<(string, nat)> {
    (q: nat) => if q <= |s| && AnchorAt(s, q, "원인").Some? then Some(("원인", AnchorAt(s, q, "원인").value)) else None
  }

  /** `re.sub(r'\s+', ' ', g.strip())` of a matched group, "" when there is no match. */
  function Field(g: Option<string>): (r: string)
    ensures Tidy(r, IsPySpace)
  {
    if g.None? then "" else CollapseOfTrimmedIsTidy(Strip(g.value), IsPySpace); CollapseBy(Strip(g.value), IsPySpace)
  }

  /** The name of an item: the text before `-\s*원인`, else its first line; whitespace collapsed and stripped. */
  function ItemName(text: string): (r: string)
    ensures Tidy(r, IsPySpace)
  {
    var cs := NextMatch(|text|, 0, CauseAnchorFn(text));
    var raw := if cs.Some? then Strip(text[..cs.value]) else Strip(Split(text, '\n')[0]);
    TrimOfCollapsedIsTidy(raw, IsPySpace);
    Strip(CollapseBy(raw, IsPySpace))
  }

  datatype Item = Item(name: string, cause: string, plan: string)

  /** One glyph item, dropped when name, cause and plan are all empty. */
  function ItemOf(text: string): (r: Option<Item>)
    ensures r.Some? ==> r.value.name != "" || r.value.cause != "" || r.value.plan != ""
    ensures r.Some? ==> Tidy(r.value.name, IsPySpace) && Tidy(r.value.cause, IsPySpace) && Tidy(r.value.plan, IsPySpace)
  {
    var it := Item(ItemName(text), Field(CauseOf(text)), Field(PlanOf(text)));
    if it.name != "" || it.cause != "" || it.plan != "" then Some(it) else None
  }

  /** Without glyphs: one 기타 item when a cause or plan anchor is present, stripped but not collapsed. */
  function FallbackItems(text: string): (r: seq<Item>)
    ensures |r| <= 1
    ensures r != [] <==> CauseOf(text).Some? || PlanOf(text).Some?
    ensures r != [] ==> r[0].name == "기타"
  {
    var cm := CauseOf(text);
    var pm := PlanOf(text);
    if cm.Some? || pm.Some? then
      [Item("기타", if cm.Some? then Strip(cm.value) else "", if pm.Some? then Strip(pm.value) else "")]
    else []
  }

  function GlyphItems(texts: seq<string>): (r: seq<Option<Item>>)
    ensures |r| == |texts| && forall i :: 0 <= i < |texts| ==> r[i] == ItemOf(texts[i])
  {
    seq(|texts|, i requires 0 <= i < |texts| => ItemOf(texts[i]))
  }

  /**
   * parse_items_from_section: without glyphs the fallback; with them, at most
   * one item per glyph.
   */
  function ItemsOf(text: string): (r: seq<Item>)
    ensures GlyphCount(text) == 0 ==> r == FallbackItems(text)
    ensures GlyphCount(text) > 0 ==> r == Somes(GlyphItems(AfterGlyphs(SplitGlyphs(text)))) && |r| <= GlyphCount(text)
  {
    var texts := AfterGlyphs(SplitGlyphs(text));
    if texts == [] then FallbackItems(text) else Somes(GlyphItems(texts))
  }

  /** parse_items_from_section: the glyph loop, then one item per glyph text that is not wholly empty. */
  method ParseItemsFromSection(text: string) returns (items: seq<Item>)
    ensures items == ItemsOf(text)
  {
    var texts := CollectItemTexts(SplitGlyphs(text));
    if texts == [] {
      return FallbackItems(text);
    }
    items := ItemsFromTexts(texts);
  }

  /** The for loop over the item texts. */
  method ItemsFromTexts(texts: seq<string>) returns (items: seq<Item>)
    ensures items == Somes(GlyphItems(texts))
  {
    items := [];
    var i := 0;
    while i < |texts|
      invariant 0 <= i <= |texts|
      invariant items == Somes(GlyphItems(texts)[..i])
    {
      var it := ItemOf(texts[i]);
      ItemsStep(texts, i);
      items := items + (if it.Some? then [it.value] else []);
      i := i + 1;
    }
    assert GlyphItems(texts)[..i] == GlyphItems(texts);
  }

  lemma ItemsStep(texts: seq<string>, i: nat)
    requires i < |texts|
    ensures var it := ItemOf(texts[i]);
      Somes(GlyphItems(texts)[..i + 1]) == Somes(GlyphItems(texts)[..i]) + (if it.Some? then [it.value] else [])
  {
    var rs := GlyphItems(texts);
    assert rs[i] == ItemOf(texts[i]);
    SomesStep(rs, i);
  }

  /** No kept glyph item is wholly empty, and each of its fields is whitespace-collapsed and stripped. */
  lemma GlyphItemsTidy(texts: seq<string>, k: nat)
    requires k < |Somes(GlyphItems(texts))|
    ensures var it := Somes(GlyphItems(texts))[k];
      (it.name != "" || it.cause != "" || it.plan != "")
      && Tidy(it.name, IsPySpace) && Tidy(it.cause, IsPySpace) && Tidy(it.plan, IsPySpace)
  {
    var rs := GlyphItems(texts);
    var i := SomesIndex(rs, k);
    assert rs[i] == ItemOf(texts[i]);
  }

  // ================================================================ week label and actions

  /**
   * `(\d+)월\s*(\d+)주차` matched at `p`: the two digit groups. Both `\d+` and
   * `\s*` can only stop at the end of their run, since the next character of
   * the pattern is not a digit (nor a space), so the match at `p` is unique.
   */
  function WeekAt(s: string, p: nat): (r: Option<(string, string)>)
    requires p <= |s|
    ensures r.Some? ==> r.value.0 != "" && AllDigits(r.value.0) && r.value.1 != "" && AllDigits(r.value.1)
  {
    var n := DigitRun(s, p);
    if n > 0 && p + n < |s| && s[p + n] == '월' then
      var j := SkipBy(s, p + n + 1, IsPySpace);
      var m := DigitRun(s, j);
      if m > 0 && OccursAt(s, "주차", j + m) then Some((s[p..p + n], s[j..j + m])) else None
    else None
  }

  /** re.search for the week pattern: the leftmost position from `p` on where it matches. */
  function WeekStart(s: string, p: nat): (r: Option<nat>)
    requires p <= |s|
    ensures r.Some? ==> p <= r.value <= |s| && WeekAt(s, r.value).Some?
    ensures r.Some? ==> forall q :: p <= q < r.value ==> WeekAt(s, q).None?
    ensures r.None? ==> forall q :: p <= q <= |s| ==> WeekAt(s, q).None?
    decreases |s| - p
  {
    if WeekAt(s, p).Some? then Some(p) else if p == |s| then None else WeekStart(s, p + 1)
  }

  /** The groups of the leftmost week match. */
  function FindWeek(s: string): Option<(string, string)> {
    var q := WeekStart(s, 0);
    if q.Some? then WeekAt(s, q.value) else None
  }

  /** The `f"{m}월 {w}주차"` label of a match. */
  function RenderWeek(m: string, w: string): string { m + "월 " + w + "주차" }

  /** The report week label: from the parent post's text, else from the comment's, else "". */
  function WeekLabel(parent: string, comment: string): (r: string)
    ensures FindWeek(parent).Some? ==> r == RenderWeek(FindWeek(parent).value.0, FindWeek(parent).value.1)
    ensures FindWeek(parent).None? && FindWeek(comment).Some? ==> r == RenderWeek(FindWeek(comment).value.0, FindWeek(comment).value.1)
    ensures r == "" <==> FindWeek(parent).None? && FindWeek(comment).None?
  {
    match FindWeek(parent)
    case Some(g) => RenderWeek(g.0, g.1)
    case None =>
      match FindWeek(comment)
      case Some(g) => RenderWeek(g.0, g.1)
      case None => ""
  }

  /** A rendered label is read back as the same two groups, at its first character. */
  lemma WeekOfRendered(m: string, w: string)
    requires m != "" && AllDigits(m) && w != "" && AllDigits(w)
    ensures FindWeek(RenderWeek(m, w)) == Some((m, w))
  {
    WeekAtRendered(m, w);
  }

  lemma WeekAtRendered(m: string, w: string)
    requires m != "" && AllDigits(m) && w != "" && AllDigits(w)
    ensures WeekAt(RenderWeek(m, w), 0) == Some((m, w))
  {
    RenderedMonthRun(m, w);
    RenderedBlank(m, w);
    RenderedWeekRun(m, w);
    RenderedParts(m, w);
  }

  lemma RenderedMonthRun(m: string, w: string)
    requires AllDigits(m)
    ensures DigitRun(RenderWeek(m, w), 0) == |m|
  {
    assert RenderWeek(m, w) == [] + m + ("월 " + w + "주차");
    DigitRunBefore([], m, "월 " + w + "주차");
  }

  lemma RenderedBlank(m: string, w: string)
    requires w != "" && AllDigits(w)
    ensures SkipBy(RenderWeek(m, w), |m| + 1, IsPySpace) == |m| + 2
  {
    var s := RenderWeek(m, w);
    assert s[|m| + 1] == ' ' && s[|m| + 2] == w[0];
    SkipBlankBeforeDigit(s, |m| + 1);
  }

  lemma RenderedWeekRun(m: string, w: string)
    requires AllDigits(w)
    ensures DigitRun(RenderWeek(m, w), |m| + 2) == |w|
  {
    assert RenderWeek(m, w) == (m + "월 ") + w + "주차";
    DigitRunBefore(m + "월 ", w, "주차");
  }

  lemma RenderedParts(m: string, w: string)
    ensures var s := RenderWeek(m, w);
      s[|m|] == '월' && OccursAt(s, "주차", |m| + 2 + |w|) && s[..|m|] == m && s[|m| + 2..|m| + 2 + |w|] == w
  {
    var s := RenderWeek(m, w);
    assert s[|m| + 2 + |w|..] == "주차";
  }

  /** A blank followed by a digit: the skip stops at the digit. */
  lemma SkipBlankBeforeDigit(s: string, i: nat)
    requires i + 1 < |s| && s[i] == ' ' && IsDigit(s[i + 1])
    ensures SkipBy(s, i, IsPySpace) == i + 1
  {
    SkipOneBy(s, i, IsPySpace);
  }

  /** The digit run of `m` placed after `pre` stops at the non-digit that follows it. */
  lemma DigitRunBefore(pre: string, m: string, post: string)
    requires AllDigits(m) && post != [] && !IsDigit(post[0])
    ensures DigitRun(pre + m + post, |pre|) == |m|
  {
    var s := pre + m + post;
    assert forall k :: |pre| <= k < |pre| + |m| ==> s[k] == m[k - |pre|];
    assert s[|pre| + |m|] == post[0];
    DigitRunAll(s, |pre|, |m|);
  }

  /** A digit run of length `n` at `i` that is followed by a non-digit (or the end). */
  lemma {:induction false} DigitRunAll(s: string, i: nat, n: nat)
    requires i + n <= |s| && (forall k :: i <= k < i + n ==> IsDigit(s[k]))
    requires i + n < |s| ==> !IsDigit(s[i + n])
    ensures DigitRun(s, i) == n
    decreases n
  {
    if n > 0 {
      DigitRunAll(s, i + 1, n - 1);
    }
  }

  /** The week label is a fixed point: read back from itself, it is unchanged. */
  lemma WeekLabelIdempotent(parent: string, comment: string)
    requires WeekLabel(parent, comment) != ""
    ensures WeekLabel(WeekLabel(parent, comment), "") == WeekLabel(parent, comment)
  {
    var g := if FindWeek(parent).Some? then FindWeek(parent).value else FindWeek(comment).value;
    WeekOfRendered(g.0, g.1);
  }

  /** One row of qc_weekly_actions. */
  datatype Action = Action(
    actionKey: string, postId: string, parentId: string, weekLabel: string,
    service: string, itemSeq: nat, itemName: string, category: string, cause: string, plan: string)

  /** The text make_id digests: the parts joined with "_". The MD5 digest itself is not modelled. */
  function MakeKey(parts: seq<string>): string { Join(parts, "_") }

  /** `item_cat or "미분류"`: the category group of the item name. */
  function ItemCategory(name: string): (c: string)
    ensures c == MapQcItem(name).1
  {
    var c := MapQcItem(name).1;
    if c == "" then Unclassified else c
  }

  /** The actions of one section: the items numbered 1..k in order. */
  function SectionActions(postId: string, parentId: string, weekLabel: string, service: string, items: seq<Item>): (r: seq<Action>)
    ensures |r| == |items|
    ensures forall k :: 0 <= k < |r| ==>
      (r[k].itemSeq == k + 1 && r[k].service == service
       && r[k].itemName == items[k].name && r[k].cause == items[k].cause && r[k].plan == items[k].plan
       && r[k].category == ItemCategory(items[k].name)
       && r[k].actionKey == MakeKey([postId, service, NatToString(k + 1)]))
    ensures forall k :: 0 <= k < |r| ==> r[k].postId == postId && r[k].parentId == parentId && r[k].weekLabel == weekLabel
  {
    var r := seq(|items|, k requires 0 <= k < |items| => ItemAction(postId, parentId, weekLabel, service, items[k], k + 1));
    assert forall k :: 0 <= k < |r| ==> r[k] == ItemAction(postId, parentId, weekLabel, service, items[k], k + 1);
    r
  }

  /** The action of the item numbered `n` of a section. */
  function ItemAction(postId: string, parentId: string, weekLabel: string, service: string, it: Item, n: nat): Action {
    Action(MakeKey([postId, service, NatToString(n)]), postId, parentId, weekLabel,
           service, n, it.name, ItemCategory(it.name), it.cause, it.plan)
  }

  /** Within one section the action keys differ: the item numbers are distinct decimal strings. */
  lemma SectionKeysDistinct(postId: string, parentId: string, weekLabel: string, service: string, items: seq<Item>, i: nat, j: nat)
    requires i < j < |items|
    ensures var r := SectionActions(postId, parentId, weekLabel, service, items);
      r[i].actionKey != r[j].actionKey
  {
    KeysDistinct(postId, service, i + 1, j + 1);
  }

  /** Keys that differ only in their item number differ. */
  lemma KeysDistinct(x: string, y: string, a: nat, b: nat)
    requires a != b
    ensures MakeKey([x, y, NatToString(a)]) != MakeKey([x, y, NatToString(b)])
  {
    var u, v := NatToString(a), NatToString(b);
    KeyOfThree(x, y, u);
    KeyOfThree(x, y, v);
    var p, q := x + "_", y + "_";
    if p + (q + u) == p + (q + v) {
      assert q + u == (p + (q + u))[|p|..] == (p + (q + v))[|p|..] == q + v;
      assert u == (q + u)[|q|..] == (q + v)[|q|..] == v;
      NatToStringValue(a);
      NatToStringValue(b);
    }
  }

  lemma KeyOfThree(x: string, y: string, z: string)
    ensures MakeKey([x, y, z]) == (x + "_") + ((y + "_") + z)
  {
    assert [x, y, z][1..] == [y, z] && [y, z][1..] == [z];
    assert Join([z], "_") == z;
    assert Join([y, z], "_") == y + "_" + z;
  }

  /** All actions of one report comment: the sections in order, each section's items in order. */
  function CommentActions(postId: string, parentId: string, weekLabel: string, sections: seq<(string, string)>): (r: seq<Action>)
    ensures |r| == SectionItemCount(sections)
    ensures forall k :: 0 <= k < |r| ==> r[k].postId == postId && r[k].parentId == parentId && r[k].weekLabel == weekLabel
    decreases |sections|
  {
    if sections == [] then []
    else
      SectionActions(postId, parentId, weekLabel, sections[0].0, ItemsOf(sections[0].1))
        + CommentActions(postId, parentId, weekLabel, sections[1..])
  }

  function SectionItemCount(sections: seq<(string, string)>): nat
    decreases |sections|
  {
    if sections == [] then 0 else |ItemsOf(sections[0].1)| + SectionItemCount(sections[1..])
  }

  /** The actions of a QC report comment under its parent post. */
  function ReportActions(postId: string, parentId: string, parent: string, comment: string): (r: seq<Action>)
    ensures forall a :: a in r ==> a.postId == postId && a.parentId == parentId
  {
    CommentActions(postId, parentId, WeekLabel(parent, comment), SplitServiceSections(comment))
  }

  /** A comment without service markers gives one 통합 section, whose items are numbered 1..k. */
  lemma UnsplitReportActions(postId: string, parentId: string, parent: string, comment: string)
    requires Markers(comment) == []
    ensures ReportActions(postId, parentId, parent, comment)
         == SectionActions(postId, parentId, WeekLabel(parent, comment), "통합", ItemsOf(comment))
  {
    var secs := SplitServiceSections(comment);
    assert secs == [("통합", comment)];
    assert secs[1..] == [];
  }

  /** The comments that parse_qc_weekly_actions reads: non-empty, mentioning 원인 or 방안. */
  predicate IsReportComment(content: string) {
    content != "" && (Contains(content, "원인") || Contains(content, "방안"))
  }

  /** A row of the posts table as far as the report parser reads it; `None` is a missing value. */
  datatype Post = Post(postId: string, postType: string, category: string, parentId: Option<string>, content: Option<string>)

  predicate IsQcParent(p: Post) {
    p.postType == "원글" && p.category == "qc_weekly"
  }

  /** `qc_parents`: the QC report posts by id; a later post with the same id replaces an earlier one. */
  function QcParents(posts: seq<Post>): (m: map<string, Post>)
    ensures forall id :: id in m <==> exists k :: 0 <= k < |posts| && IsQcParent(posts[k]) && posts[k].postId == id
    ensures forall id :: id in m ==> IsQcParent(m[id]) && m[id].postId == id
    decreases |posts|
  {
    if posts == [] then map[]
    else
      var init := posts[..|posts| - 1];
      var m := QcParents(init);
      var p := posts[|posts| - 1];
      assert forall k :: 0 <= k < |init| ==> init[k] == posts[k];
      if IsQcParent(p) then m[p.postId := p] else m
  }

  /** A comment the parser reads: a reply to a QC report post whose text mentions 원인 or 방안. */
  predicate IsReportReply(p: Post, parents: map<string, Post>) {
    p.postType == "댓글" && p.parentId.Some? && p.parentId.value in parents
    && p.content.Some? && IsReportComment(p.content.value)
  }

  /** The report-reply test as a function value, for filtering. */
  function ReplyFilter(parents: map<string, Post>): Post -> bool {
    (p: Post) => IsReportReply(p, parents)
  }

  /** `qc_comments`: the report replies, in post order. */
  function ReportReplies(posts: seq<Post>, parents: map<string, Post>): (r: seq<Post>)
    ensures |r| <= |posts|
    ensures forall k :: 0 <= k < |r| ==> r[k] in posts && IsReportReply(r[k], parents)
    ensures forall p :: p in posts && IsReportReply(p, parents) ==> p in r
  {
    Filter(posts, ReplyFilter(parents))
  }

  /**
   * The replies are the report replies among the posts, each once and in post order:
   * with idx the increasing list of every report-reply position, r[k] is posts[idx[k]].
   */
  lemma ReportRepliesInOrder(posts: seq<Post>, parents: map<string, Post>)
    ensures var r := ReportReplies(posts, parents);
      var idx := FilterIndices(posts, ReplyFilter(parents), 0);
      && (forall k :: 0 <= k < |idx| - 1 ==> idx[k] < idx[k + 1])
      && (forall j :: 0 <= j < |posts| ==> (j in idx <==> IsReportReply(posts[j], parents)))
      && |idx| == |r| && forall k :: 0 <= k < |r| ==> r[k] == posts[idx[k]]
  {
    FilterInOrder(posts, ReplyFilter(parents));
  }

  function ReplyIds(replies: seq<Post>): set<string> {
    set k | 0 <= k < |replies| :: replies[k].postId
  }

  lemma ReplyIdsOfTail(replies: seq<Post>)
    requires replies != []
    ensures replies[0].postId in ReplyIds(replies) && ReplyIds(replies[1..]) <= ReplyIds(replies)
  {
    assert forall k :: 0 <= k < |replies| - 1 ==> replies[1..][k] == replies[k + 1];
  }

  /** The actions of one report reply; its week label looks at its parent's text first. */
  function ReplyActions(c: Post, parents: map<string, Post>): (r: seq<Action>)
    requires IsReportReply(c, parents)
    ensures forall a :: a in r ==> a.parentId == c.parentId.value && a.postId == c.postId
  {
    var parent := parents[c.parentId.value];
    ReportActions(c.postId, c.parentId.value, if parent.content.Some? then parent.content.value else "", c.content.value)
  }

  /** The actions of the replies in order. */
  function RepliesActions(replies: seq<Post>, parents: map<string, Post>): (r: seq<Action>)
    requires forall k :: 0 <= k < |replies| ==> IsReportReply(replies[k], parents)
    ensures forall a :: a in r ==> a.parentId in parents && a.postId in ReplyIds(replies)
    decreases |replies|
  {
    if replies == [] then []
    else
      var rest := RepliesActions(replies[1..], parents);
      ReplyIdsOfTail(replies);
      ReplyActions(replies[0], parents) + rest
  }

  /** Each reply's own actions, one entry per reply. */
  function ActionLists(replies: seq<Post>, parents: map<string, Post>): (ss: seq<seq<Action>>)
    requires forall k :: 0 <= k < |replies| ==> IsReportReply(replies[k], parents)
    ensures |ss| == |replies|
    decreases |replies|
  {
    if replies == [] then [] else [ReplyActions(replies[0], parents)] + ActionLists(replies[1..], parents)
  }

  /** The replies' actions are each reply's own actions joined in reply order. */
  lemma {:induction false} RepliesActionsConcat(replies: seq<Post>, parents: map<string, Post>)
    requires forall k :: 0 <= k < |replies| ==> IsReportReply(replies[k], parents)
    ensures RepliesActions(replies, parents) == Flatten(ActionLists(replies, parents))
    decreases |replies|
  {
    if replies != [] {
      RepliesActionsConcat(replies[1..], parents);
      FlattenCons(ReplyActions(replies[0], parents), ActionLists(replies[1..], parents));
    }
  }

  /**
   * parse_qc_weekly_actions: the actions of every report reply, reply by reply in post order;
   * every action hangs under a QC report post.
   */
  function QcWeeklyActions(posts: seq<Post>): (r: seq<Action>)
    ensures var parents := QcParents(posts);
      var replies := ReportReplies(posts, parents);
      r == Flatten(ActionLists(replies, parents))
    ensures forall a :: a in r ==>
      a.parentId in QcParents(posts) && a.postId in ReplyIds(ReportReplies(posts, QcParents(posts)))
  {
    var parents := QcParents(posts);
    var replies := ReportReplies(posts, parents);
    RepliesActionsConcat(replies, parents);
    RepliesActions(replies, parents)
  }
}
