/**
 * String helpers shared by the model: the two whitespace sets (Python's and
 * JavaScript's), trimming, whitespace-run collapsing, substring search,
 * single-character split and join, ASCII case mapping and decimal digits.
 */
module Text {
  import opened Wrappers

  /** Characters for which Python's str.isspace() holds; also what `\s` and strip() use. */
  predicate IsPySpace(c: char) {
    ('\t' <= c <= '\r') || ('\U{1C}' <= c <= '\U{1F}') || c == ' ' || c == '\U{85}'
    || c == '\U{A0}' || c == '\U{1680}' || ('\U{2000}' <= c <= '\U{200A}')
    || c == '\U{2028}' || c == '\U{2029}' || c == '\U{202F}' || c == '\U{205F}' || c == '\U{3000}'
  }

  /** ECMAScript WhiteSpace and LineTerminator: what `\s` and String.prototype.trim use. */
  predicate IsJsSpace(c: char) {
    ('\t' <= c <= '\r') || c == ' ' || c == '\U{A0}' || c == '\U{1680}'
    || ('\U{2000}' <= c <= '\U{200A}') || c == '\U{2028}' || c == '\U{2029}'
    || c == '\U{202F}' || c == '\U{205F}' || c == '\U{3000}' || c == '\U{FEFF}'
  }

  /** Drops the leading characters satisfying `sp`. */
  function TrimStartBy(s: string, sp: char -> bool): (r: string)
    ensures |r| <= |s| && r == s[|s| - |r|..]
    ensures r == [] || !sp(r[0])
    decreases |s|
  {
    if s == [] || !sp(s[0]) then s else TrimStartBy(s[1..], sp)
  }

  /** Drops the trailing characters satisfying `sp`. */
  function TrimEndBy(s: string, sp: char -> bool): (r: string)
    ensures |r| <= |s| && r == s[..|r|]
    ensures r == [] || !sp(r[|r| - 1])
    decreases |s|
  {
    if s == [] || !sp(s[|s| - 1]) then s else TrimEndBy(s[..|s| - 1], sp)
  }

  /** The characters TrimStartBy drops all satisfy `sp`. */
  lemma {:induction false} TrimStartDropped(s: string, sp: char -> bool)
    ensures forall k :: 0 <= k < |s| - |TrimStartBy(s, sp)| ==> sp(s[k])
    decreases |s|
  {
    if s != [] && sp(s[0]) {
      TrimStartDropped(s[1..], sp);
      forall k | 0 < k < |s| - |TrimStartBy(s, sp)| ensures sp(s[k]) {
        assert s[k] == s[1..][k - 1];
      }
    }
  }

  /** The characters TrimEndBy drops all satisfy `sp`. */
  lemma {:induction false} TrimEndDropped(s: string, sp: char -> bool)
    ensures forall k :: |TrimEndBy(s, sp)| <= k < |s| ==> sp(s[k])
    decreases |s|
  {
    if s != [] && sp(s[|s| - 1]) {
      TrimEndDropped(s[..|s| - 1], sp);
      forall k | |TrimEndBy(s, sp)| <= k < |s| - 1 ensures sp(s[k]) {
        assert s[k] == s[..|s| - 1][k];
      }
    }
  }

  /** How many leading characters TrimStartBy drops. */
  function LeadCount(s: string, sp: char -> bool): (n: nat)
    ensures n <= |s|
  {
    |s| - |TrimStartBy(s, sp)|
  }

  function TrimBy(s: string, sp: char -> bool): (r: string)
    ensures r == [] || (!sp(r[0]) && !sp(r[|r| - 1]))
    ensures LeadCount(s, sp) + |r| <= |s| && r == s[LeadCount(s, sp)..LeadCount(s, sp) + |r|]
  {
    var a := TrimStartBy(s, sp);
    var r := TrimEndBy(a, sp);
    assert LeadCount(s, sp) == |s| - |a|;
    assert r != [] ==> r[0] == a[0];
    SliceOfSuffix(s, |s| - |a|, r);
    r
  }

  /** A prefix of the suffix s[n..] is the slice of `s` starting at `n`. */
  lemma SliceOfSuffix(s: string, n: nat, r: string)
    requires n <= |s| && |r| <= |s| - n && r == s[n..][..|r|]
    ensures r == s[n..n + |r|]
  {
    forall k | 0 <= k < |r| ensures r[k] == s[n + k] {
      assert r[k] == s[n..][k];
    }
  }

  /** Trimming keeps any property every character has. */
  lemma TrimByKeeps(s: string, sp: char -> bool, P: char -> bool)
    requires forall k :: 0 <= k < |s| ==> P(s[k])
    ensures forall k :: 0 <= k < |TrimBy(s, sp)| ==> P(TrimBy(s, sp)[k])
  {
    SliceKeeps(s, LeadCount(s, sp), LeadCount(s, sp) + |TrimBy(s, sp)|, P);
  }

  /** A slice keeps any property every character has. */
  lemma SliceKeeps(s: string, n: nat, m: nat, P: char -> bool)
    requires n <= m <= |s| && forall k :: 0 <= k < |s| ==> P(s[k])
    ensures forall k :: 0 <= k < m - n ==> P(s[n..m][k])
  {
    forall k | 0 <= k < m - n ensures P(s[n..m][k]) {
      assert s[n..m][k] == s[n + k];
    }
  }

  /** Python's str.strip() with no argument. */
  function Strip(s: string): string { TrimBy(s, IsPySpace) }

  /** JavaScript's String.prototype.trim(). */
  function Trim(s: string): string { TrimBy(s, IsJsSpace) }

  lemma TrimByOfTrimmed(s: string, sp: char -> bool)
    requires s == [] || (!sp(s[0]) && !sp(s[|s| - 1]))
    ensures TrimBy(s, sp) == s
  {
  }

  lemma TrimByIdempotent(s: string, sp: char -> bool)
    ensures TrimBy(TrimBy(s, sp), sp) == TrimBy(s, sp)
  {
    TrimByOfTrimmed(TrimBy(s, sp), sp);
  }

  /** Every maximal run of `sp` characters replaced by one space (`re.sub(r'\s+', ' ', s)`). */
  function CollapseBy(s: string, sp: char -> bool): (r: string)
    ensures r == [] <==> s == []
    ensures s != [] && !sp(s[0]) ==> r[0] == s[0]
    ensures s != [] && !sp(s[|s| - 1]) ==> r[|r| - 1] == s[|s| - 1]
    decreases |s|
  {
    if s == [] then []
    else if sp(s[0]) then
      var t := TrimStartBy(s[1..], sp);
      TrimStartDropped(s[1..], sp);
      assert !sp(s[|s| - 1]) ==> t != [] && t[|t| - 1] == s[|s| - 1] by {
        if |s| > 1 && t == [] { assert s[1..][|s| - 2] == s[|s| - 1]; }
      }
      [' '] + CollapseBy(t, sp)
    else [s[0]] + CollapseBy(s[1..], sp)
  }

  /** Every `sp` character is a space and is followed by a non-`sp` character. */
  predicate SingleSpaced(s: string, sp: char -> bool) {
    forall k :: 0 <= k < |s| ==> SpacedAt(s, sp, k)
  }

  /** At index `k`: an `sp` character is a space and the next one is not `sp`. */
  predicate SpacedAt(s: string, sp: char -> bool, k: nat) {
    k < |s| && sp(s[k]) ==> s[k] == ' ' && (k + 1 < |s| ==> !sp(s[k + 1]))
  }

  lemma {:induction false} CollapseSingleSpaced(s: string, sp: char -> bool)
    ensures SingleSpaced(CollapseBy(s, sp), sp)
    decreases |s|
  {
    if s != [] {
      var r := CollapseBy(s, sp);
      if sp(s[0]) {
        var t := TrimStartBy(s[1..], sp);
        CollapseSingleSpaced(t, sp);
        var c := CollapseBy(t, sp);
        assert r == [' '] + c;
        forall k | 0 <= k < |r| ensures SpacedAt(r, sp, k) {
          if k > 0 {
            assert r[k] == c[k - 1];
            assert SpacedAt(c, sp, k - 1);
            if k + 1 < |r| {
              assert r[k + 1] == c[k];
            }
          } else if |r| > 1 {
            assert r[1] == c[0] == t[0];
          }
        }
      } else {
        CollapseSingleSpaced(s[1..], sp);
        var c := CollapseBy(s[1..], sp);
        assert r == [s[0]] + c;
        forall k | 0 <= k < |r| ensures SpacedAt(r, sp, k) {
          if k > 0 {
            assert r[k] == c[k - 1];
            assert SpacedAt(c, sp, k - 1);
            if k + 1 < |r| {
              assert r[k + 1] == c[k];
            }
          }
        }
      }
    }
  }

  /** A string with no `sp` at either end and no two adjacent `sp` characters, all of them spaces. */
  predicate Tidy(s: string, sp: char -> bool) {
    (s == [] || (!sp(s[0]) && !sp(s[|s| - 1]))) && SingleSpaced(s, sp)
  }

  /** Collapsing a trimmed string gives a tidy one. */
  lemma CollapseOfTrimmedIsTidy(s: string, sp: char -> bool)
    requires s == [] || (!sp(s[0]) && !sp(s[|s| - 1]))
    ensures Tidy(CollapseBy(s, sp), sp)
  {
    CollapseSingleSpaced(s, sp);
  }

  /** Trimming a single-spaced string gives a tidy one. */
  lemma TrimOfSingleSpacedIsTidy(c: string, sp: char -> bool)
    requires SingleSpaced(c, sp)
    ensures Tidy(TrimBy(c, sp), sp)
  {
    var r := TrimBy(c, sp);
    var i := LeadCount(c, sp);
    assert r == c[i..i + |r|];
    forall k | 0 <= k < |r| ensures SpacedAt(r, sp, k) {
      assert r[k] == c[i + k];
      assert SpacedAt(c, sp, i + k);
      if k + 1 < |r| {
        assert r[k + 1] == c[i + k + 1];
      }
    }
  }

  /** Trimming a collapsed string gives a tidy one. */
  lemma TrimOfCollapsedIsTidy(s: string, sp: char -> bool)
    ensures Tidy(TrimBy(CollapseBy(s, sp), sp), sp)
  {
    CollapseSingleSpaced(s, sp);
    TrimOfSingleSpacedIsTidy(CollapseBy(s, sp), sp);
  }

  predicate OccursAt(s: string, t: string, i: nat) {
    i + |t| <= |s| && s[i..i + |t|] == t
  }

  /** The first index at or after `i` where `t` occurs in `s`. */
  function IndexFrom(s: string, t: string, i: nat): (r: Option<nat>)
    ensures r.Some? ==> i <= r.value && OccursAt(s, t, r.value)
    ensures r.Some? ==> forall j :: i <= j < r.value ==> !OccursAt(s, t, j)
    ensures r.None? ==> forall j :: i <= j ==> !OccursAt(s, t, j)
    decreases |s| - i
  {
    if i + |t| > |s| then None
    else if s[i..i + |t|] == t then Some(i)
    else IndexFrom(s, t, i + 1)
  }

  /** Python's `t in s` and JavaScript's `s.includes(t)`. */
  predicate Contains(s: string, t: string) {
    IndexFrom(s, t, 0).Some?
  }

  lemma ContainsAt(s: string, t: string, i: nat)
    requires OccursAt(s, t, i)
    ensures Contains(s, t)
  {
  }

  lemma ContainsInPrefix(s: string, t: string, n: nat)
    requires n <= |s| && Contains(s[..n], t)
    ensures Contains(s, t)
  {
    var i := IndexFrom(s[..n], t, 0).value;
    assert s[..n][i..i + |t|] == s[i..i + |t|];
    ContainsAt(s, t, i);
  }

  predicate StartsWith(s: string, t: string) {
    |t| <= |s| && s[..|t|] == t
  }

  /** JavaScript's `s.split(d)` and Python's `s.split(d)` for a one-character separator. */
  function Split(s: string, d: char): (r: seq<string>)
    ensures |r| >= 1
    ensures forall k :: 0 <= k < |r| ==> d !in r[k]
    decreases |s|
  {
    if s == [] then [[]]
    else
      var rest := Split(s[1..], d);
      if s[0] == d then [[]] + rest
      else [[s[0]] + rest[0]] + rest[1..]
  }

  /** JavaScript's `parts.join(sep)` and Python's `sep.join(parts)`. */
  function Join(parts: seq<string>, sep: string): string
    decreases |parts|
  {
    if |parts| == 0 then []
    else if |parts| == 1 then parts[0]
    else parts[0] + sep + Join(parts[1..], sep)
  }

  lemma {:induction false} JoinSplit(s: string, d: char)
    ensures Join(Split(s, d), [d]) == s
    decreases |s|
  {
    if s != [] {
      JoinSplit(s[1..], d);
      var rest := Split(s[1..], d);
      if s[0] != d && |rest| > 1 {
        assert rest == [rest[0]] + rest[1..];
      }
    }
  }

  lemma {:induction false} SplitWithout(s: string, d: char)
    requires d !in s
    ensures Split(s, d) == [s]
    decreases |s|
  {
    if s != [] {
      assert d !in s[1..];
      SplitWithout(s[1..], d);
      assert [s[0]] + s[1..] == s;
    }
  }

  lemma {:induction false} SplitConcat(a: string, d: char, b: string)
    ensures Split(a + [d] + b, d) == Split(a, d) + Split(b, d)
    decreases |a|
  {
    var s := a + [d] + b;
    if a == [] {
      assert s[1..] == b;
    } else {
      assert s[1..] == a[1..] + [d] + b;
      SplitConcat(a[1..], d, b);
    }
  }

  /** Joining parts free of the separator and splitting again gives the parts back. */
  lemma {:induction false} SplitJoin(parts: seq<string>, d: char)
    requires |parts| >= 1 && forall k :: 0 <= k < |parts| ==> d !in parts[k]
    ensures Split(Join(parts, [d]), d) == parts
    decreases |parts|
  {
    SplitWithout(parts[0], d);
    if |parts| > 1 {
      SplitJoin(parts[1..], d);
      SplitConcat(parts[0], d, Join(parts[1..], [d]));
      assert [parts[0]] + parts[1..] == parts;
    }
  }

  lemma JoinPrepend(x: string, parts: seq<string>, sep: string)
    requires |parts| >= 1
    ensures Join([x] + parts, sep) == x + sep + Join(parts, sep)
  {
    assert ([x] + parts)[1..] == parts;
  }

  function UpperAscii(c: char): char {
    if 'a' <= c <= 'z' then (c as int - 32) as char else c
  }

  function LowerAscii(c: char): char {
    if 'A' <= c <= 'Z' then (c as int + 32) as char else c
  }

  /** Upper-casing, with the case mapping restricted to ASCII letters. */
  function ToUpper(s: string): (r: string)
    ensures |r| == |s| && forall k :: 0 <= k < |s| ==> r[k] == UpperAscii(s[k])
  {
    seq(|s|, k requires 0 <= k < |s| => UpperAscii(s[k]))
  }

  /** Lower-casing, with the case mapping restricted to ASCII letters. */
  function ToLower(s: string): (r: string)
    ensures |r| == |s| && forall k :: 0 <= k < |s| ==> r[k] == LowerAscii(s[k])
  {
    seq(|s|, k requires 0 <= k < |s| => LowerAscii(s[k]))
  }

  /** Removes every occurrence of the character `c`. */
  function RemoveChar(s: string, c: char): (r: string)
    ensures c !in r
    ensures forall x :: x in r ==> x in s
  {
    if s == [] then [] else (if s[0] == c then [] else [s[0]]) + RemoveChar(s[1..], c)
  }

  /** Replaces every occurrence of `a` by `b`. */
  function ReplaceChar(s: string, a: char, b: char): (r: string)
    ensures |r| == |s|
    ensures forall k :: 0 <= k < |s| ==> r[k] == (if s[k] == a then b else s[k])
  {
    seq(|s|, k requires 0 <= k < |s| => if s[k] == a then b else s[k])
  }

  /**
   * Python's `s.replace(t, "")` for a non-empty `t`: occurrences are removed
   * left to right without overlapping.
   */
  function RemoveAll(s: string, t: string): (r: string)
    requires |t| > 0
    ensures |r| <= |s|
    decreases |s|
  {
    if s == [] then []
    else if StartsWith(s, t) then RemoveAll(s[|t|..], t)
    else [s[0]] + RemoveAll(s[1..], t)
  }

  lemma {:induction false} RemoveAllAbsent(s: string, t: string)
    requires |t| > 0 && !Contains(s, t)
    ensures RemoveAll(s, t) == s
    decreases |s|
  {
    if s != [] {
      if Contains(s[1..], t) {
        var i := IndexFrom(s[1..], t, 0).value;
        assert s[1..][i..i + |t|] == s[i + 1..i + 1 + |t|];
        ContainsAt(s, t, i + 1);
      }
      RemoveAllAbsent(s[1..], t);
    }
  }

  predicate IsDigit(c: char) { '0' <= c <= '9' }

  predicate AllDigits(s: string) { forall k :: 0 <= k < |s| ==> IsDigit(s[k]) }

  function DigitValue(c: char): nat
    requires IsDigit(c)
  {
    c as int - '0' as int
  }

  function DigitChar(n: nat): (c: char)
    requires n < 10
    ensures IsDigit(c) && DigitValue(c) == n
  {
    ('0' as int + n) as char
  }

  /** The value of a decimal digit string; "" is 0. */
  function DigitsValue(s: string): nat
    requires AllDigits(s)
    decreases |s|
  {
    if s == [] then 0 else DigitsValue(s[..|s| - 1]) * 10 + DigitValue(s[|s| - 1])
  }

  /**
   * JavaScript's `parseInt(s, 10)`: leading whitespace, an optional sign, then
   * the longest run of decimal digits; `None` (NaN) when there is no digit.
   */
  function ParseIntJs(s: string): (r: Option<int>)
    ensures r.None? <==> DigitRun(s, SignEnd(s)) == 0
  {
    var i := SkipBy(s, 0, IsJsSpace);
    var j := SignEnd(s);
    var n := DigitRun(s, j);
    if n == 0 then None
    else
      var v: int := DigitsValue(s[j..j + n]);
      Some(if i < |s| && s[i] == '-' then -v else v)
  }

  /** Where the digits of parseInt start: after leading whitespace and one optional sign. */
  function SignEnd(s: string): (j: nat)
    ensures j <= |s|
  {
    var i := SkipBy(s, 0, IsJsSpace);
    if i < |s| && (s[i] == '-' || s[i] == '+') then i + 1 else i
  }

  /** A plain digit string parses to its value. */
  lemma ParseIntJsOfDigits(s: string)
    requires AllDigits(s) && s != []
    ensures ParseIntJs(s) == Some(DigitsValue(s))
  {
    assert !IsJsSpace(s[0]) && s[0] != '-' && s[0] != '+' by { assert IsDigit(s[0]); }
    assert SkipBy(s, 0, IsJsSpace) == 0;
    var n := DigitRun(s, 0);
    assert n == |s|;
    assert s[0..n] == s;
  }

  function Pow10(n: nat): (p: nat)
    ensures p >= 1
  {
    if n == 0 then 1 else 10 * Pow10(n - 1)
  }

  /** A count over a positive count is not negative. */
  lemma FractionNonNeg(n: nat, p: nat)
    requires p >= 1
    ensures n as real / p as real >= 0.0
  {
    var q := n as real / p as real;
    assert q * p as real == n as real;
  }

  lemma {:induction false} DigitRunOfDigits(s: string, i: nat)
    requires AllDigits(s) && i <= |s|
    ensures DigitRun(s, i) == |s| - i
    decreases |s| - i
  {
    if i < |s| {
      DigitRunOfDigits(s, i + 1);
    }
  }

  /** The first part of a split only depends on the text up to the first separator. */
  lemma {:induction false} SplitHead(a: string, d: char, b: string)
    requires d !in a
    ensures Split(a + b, d)[0] == a + Split(b, d)[0]
    decreases |a|
  {
    if a != [] {
      assert (a + b)[1..] == a[1..] + b;
      SplitHead(a[1..], d, b);
    } else {
      assert a + b == b;
    }
  }

  /** Decimal rendering of a natural number without leading zeros, as String(n) and str(n). */
  function NatToString(n: nat): (r: string)
    ensures |r| >= 1 && AllDigits(r)
    ensures |r| > 1 ==> r[0] != '0'
    decreases n
  {
    if n < 10 then [DigitChar(n)] else NatToString(n / 10) + [DigitChar(n % 10)]
  }

  lemma {:induction false} NatToStringValue(n: nat)
    ensures DigitsValue(NatToString(n)) == n
    decreases n
  {
    if n >= 10 {
      NatToStringValue(n / 10);
      var r := NatToString(n);
      assert r[..|r| - 1] == NatToString(n / 10);
    }
  }

  /** Decimal rendering of an integer, with a leading '-' when negative. */
  function IntToString(i: int): string {
    if i < 0 then "-" + NatToString(-i) else NatToString(i)
  }

  /** String.prototype.padStart(2, '0'). */
  function PadStart2(s: string): (r: string)
    ensures |r| == if |s| < 2 then 2 else |s|
    ensures r[|r| - |s|..] == s
  {
    if |s| == 0 then "00" else if |s| == 1 then "0" + s else s
  }

  /** Length of the run of decimal digits starting at `i`. */
  function DigitRun(s: string, i: nat): (n: nat)
    requires i <= |s|
    ensures i + n <= |s|
    ensures forall k :: i <= k < i + n ==> IsDigit(s[k])
    ensures i + n < |s| ==> !IsDigit(s[i + n])
    decreases |s| - i
  {
    if i < |s| && IsDigit(s[i]) then 1 + DigitRun(s, i + 1) else 0
  }

  /** The digit run starting at `i` is a digit string. */
  lemma DigitRunDigits(s: string, i: nat)
    requires i <= |s|
    ensures AllDigits(s[i..i + DigitRun(s, i)])
  {
    DigitRunPrefix(s, i, DigitRun(s, i));
  }

  /** Any prefix of the digit run starting at `i` is a digit string. */
  lemma DigitRunPrefix(s: string, i: nat, n: nat)
    requires i <= |s| && n <= DigitRun(s, i)
    ensures i + n <= |s| && AllDigits(s[i..i + n])
  {
    var d := s[i..i + n];
    forall k | 0 <= k < |d| ensures IsDigit(d[k]) {
      assert d[k] == s[i + k];
    }
  }

  /** One `sp` character followed by another character: the skip stops right after it. */
  lemma SkipOneBy(s: string, i: nat, sp: char -> bool)
    requires i + 1 < |s| && sp(s[i]) && !sp(s[i + 1])
    ensures SkipBy(s, i, sp) == i + 1
  {
  }

  /** Index of the first character at or after `i` that does not satisfy `sp`. */
  function SkipBy(s: string, i: nat, sp: char -> bool): (j: nat)
    requires i <= |s|
    ensures i <= j <= |s|
    ensures forall k :: i <= k < j ==> sp(s[k])
    ensures j < |s| ==> !sp(s[j])
    decreases |s| - i
  {
    if i < |s| && sp(s[i]) then SkipBy(s, i + 1, sp) else i
  }

  /**
   * JavaScript's `a < b` on strings: lexicographic order on characters, a
   * proper prefix coming first.
   */
  predicate LexLess(a: string, b: string)
    decreases |a|
  {
    b != [] && (a == [] || a[0] < b[0] || (a[0] == b[0] && LexLess(a[1..], b[1..])))
  }

  lemma {:induction false} LexLessIrreflexive(a: string)
    ensures !LexLess(a, a)
    decreases |a|
  {
    if a != [] {
      LexLessIrreflexive(a[1..]);
    }
  }

  lemma {:induction false} LexLessTransitive(a: string, b: string, c: string)
    requires LexLess(a, b) && LexLess(b, c)
    ensures LexLess(a, c)
    decreases |a|
  {
    if a != [] && a[0] == b[0] && b[0] == c[0] {
      LexLessTransitive(a[1..], b[1..], c[1..]);
    }
  }

  /** Any two distinct strings are ordered one way or the other. */
  lemma {:induction false} LexLessTotal(a: string, b: string)
    requires a != b
    ensures LexLess(a, b) || LexLess(b, a)
    decreases |a|
  {
    if a != [] && b != [] && a[0] == b[0] {
      assert a == [a[0]] + a[1..] && b == [b[0]] + b[1..];
      LexLessTotal(a[1..], b[1..]);
    }
  }
}
