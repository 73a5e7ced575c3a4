/**
 * JavaScript's conversions of text to numbers, `parseFloat(s)` and `Number(s)`,
 * and `String(n)` of the result where it is an integer. Values are exact
 * rationals: the rounding to the nearest double is not modelled, and the text
 * of a number that is not a safe integer is given by the caller.
 */
module JsNumbers {
  import opened Wrappers
  import opened Text

  /** A JavaScript number as these conversions produce it; finite values are exact. */
  datatype JsNumber = NaN | Infinity(negative: bool) | Finite(value: real)

  function Negate(x: JsNumber): JsNumber {
    match x
    case NaN => NaN
    case Infinity(neg) => Infinity(!neg)
    case Finite(v) => Finite(-v)
  }

  /** m · 10^e. */
  function Scaled(m: real, e: int): real {
    if e >= 0 then m * Pow10(e) as real else m / Pow10(-e) as real
  }

  /** The value of the digits after a decimal point. */
  function Fraction(d: string): real
    requires AllDigits(d)
  {
    DigitsValue(d) as real / Pow10(|d|) as real
  }

  /** An exponent part at `i`: 'e' or 'E', an optional sign, at least one digit; its value and end. */
  function ExponentAt(s: string, i: nat): (r: Option<(int, nat)>)
    requires i <= |s|
    ensures r.Some? ==> i < r.value.1 <= |s|
  {
    if i < |s| && (s[i] == 'e' || s[i] == 'E') then
      var signed := i + 1 < |s| && (s[i + 1] == '+' || s[i + 1] == '-');
      var j := if signed then i + 2 else i + 1;
      var n := DigitRun(s, j);
      if n == 0 then None
      else
        DigitRunDigits(s, j);
        var v: int := DigitsValue(s[j..j + n]);
        Some((if signed && s[i + 1] == '-' then -v else v, j + n))
    else None
  }

  /**
   * The longest StrUnsignedDecimalLiteral at `i`: "Infinity", or digits, an
   * optional '.' and digits (a digit on at least one side of the point), then
   * an exponent part if a complete one follows. The number and where it ends;
   * None when no literal starts at `i`.
   */
  function UnsignedDecimalAt(s: string, i: nat): (r: Option<(JsNumber, nat)>)
    requires i <= |s|
    ensures r.Some? ==> i < r.value.1 <= |s| && !r.value.0.NaN?
  {
    if OccursAt(s, "Infinity", i) then Some((Infinity(false), i + 8))
    else
      var a := DigitRun(s, i);
      var dot := i + a < |s| && s[i + a] == '.';
      var b := if dot then DigitRun(s, i + a + 1) else 0;
      if a == 0 && b == 0 then None
      else
        DigitRunDigits(s, i);
        var whole := DigitsValue(s[i..i + a]) as real;
        var m := if dot then (DigitRunDigits(s, i + a + 1); whole + Fraction(s[i + a + 1..i + a + 1 + b])) else whole;
        var mEnd := if dot then i + a + 1 + b else i + a;
        match ExponentAt(s, mEnd)
        case None => Some((Finite(m), mEnd))
        case Some((e, end)) => Some((Finite(Scaled(m, e)), end))
  }

  /** The longest StrDecimalLiteral at `i`: an optional sign, then an unsigned literal. */
  function DecimalAt(s: string, i: nat): (r: Option<(JsNumber, nat)>)
    requires i <= |s|
    ensures r.Some? ==> i < r.value.1 <= |s| && !r.value.0.NaN?
  {
    if i < |s| && (s[i] == '+' || s[i] == '-') then
      match UnsignedDecimalAt(s, i + 1)
      case None => None
      case Some((x, end)) => Some((if s[i] == '-' then Negate(x) else x, end))
    else UnsignedDecimalAt(s, i)
  }

  /** parseFloat: leading whitespace skipped, then the longest decimal literal; NaN without one. */
  function ParseFloat(s: string): JsNumber {
    match DecimalAt(s, SkipBy(s, 0, IsJsSpace))
    case None => NaN
    case Some((x, _)) => x
  }

  /** parseFloat followed by an `isNaN` test, for finite results; an infinite result is not a real. */
  function ParseFloatJs(s: string): (r: Option<real>)
    ensures r.Some? <==> ParseFloat(s).Finite?
    ensures r.Some? ==> r.value == ParseFloat(s).value
  {
    match ParseFloat(s)
    case Finite(v) => Some(v)
    case _ => None
  }

  /** An unsigned literal starts at `i`: a digit, a '.' followed by a digit, or "Infinity". */
  predicate LiteralStart(s: string, i: nat) {
    i < |s| && (IsDigit(s[i]) || (s[i] == '.' && i + 1 < |s| && IsDigit(s[i + 1])) || OccursAt(s, "Infinity", i))
  }

  /** A literal, possibly after one sign character, starts at `i`. */
  predicate SignedLiteralStart(s: string, i: nat) {
    LiteralStart(s, i) || (i < |s| && (s[i] == '+' || s[i] == '-') && LiteralStart(s, i + 1))
  }

  lemma UnsignedDecimalNone(s: string, i: nat)
    requires i <= |s|
    ensures UnsignedDecimalAt(s, i).None? <==> !LiteralStart(s, i)
  {
    var a := DigitRun(s, i);
    assert a > 0 <==> i < |s| && IsDigit(s[i]);
    if i + a < |s| && s[i + a] == '.' {
      assert DigitRun(s, i + a + 1) > 0 <==> i + a + 1 < |s| && IsDigit(s[i + a + 1]);
    }
  }

  /** parseFloat is NaN exactly when no literal, signed or not, follows the leading whitespace. */
  lemma ParseFloatNaN(s: string)
    ensures ParseFloat(s).NaN? <==> !SignedLiteralStart(s, SkipBy(s, 0, IsJsSpace))
  {
    var i := SkipBy(s, 0, IsJsSpace);
    DecimalNone(s, i);
    assert ParseFloat(s).NaN? <==> DecimalAt(s, i).None?;
  }

  lemma DecimalNone(s: string, i: nat)
    requires i <= |s|
    ensures DecimalAt(s, i).None? <==> !SignedLiteralStart(s, i)
  {
    UnsignedDecimalNone(s, i);
    if i < |s| {
      UnsignedDecimalNone(s, i + 1);
    }
  }

  // ---------------------------------------------------------------- Number()

  /** The value of `c` as a digit in base `radix` (2, 8 or 16), letters in either case. */
  function RadixDigit(c: char, radix: nat): (r: Option<nat>)
    ensures r.Some? ==> r.value < radix
  {
    var v: int :=
      if '0' <= c <= '9' then c as int - '0' as int
      else if 'a' <= c <= 'f' then c as int - 'a' as int + 10
      else if 'A' <= c <= 'F' then c as int - 'A' as int + 10
      else radix;
    if 0 <= v < radix then Some(v) else None
  }

  /** The value of a non-empty digit string in base `radix`; None if some character is not a digit. */
  function RadixValue(d: string, radix: nat): Option<nat>
    decreases |d|
  {
    if d == [] then None
    else
      var last := RadixDigit(d[|d| - 1], radix);
      if last.None? then None
      else if |d| == 1 then last
      else match RadixValue(d[..|d| - 1], radix)
        case None => None
        case Some(v) => Some(v * radix + last.value)
  }

  /** The radix a "0x"/"0o"/"0b" prefix (either case) announces, if `t` starts with one. */
  function RadixPrefix(t: string): (r: Option<nat>) {
    if |t| >= 2 && t[0] == '0' then
      if t[1] == 'x' || t[1] == 'X' then Some(16)
      else if t[1] == 'o' || t[1] == 'O' then Some(8)
      else if t[1] == 'b' || t[1] == 'B' then Some(2)
      else None
    else None
  }

  /**
   * Number(s): the text trimmed; empty text is 0; a 0x/0o/0b literal (no sign)
   * is read in its base; otherwise the whole text must be one decimal literal,
   * and anything else is NaN.
   */
  function NumberOf(s: string): (r: JsNumber)
    ensures Trim(s) == [] ==> r == Finite(0.0)
  {
    var t := Trim(s);
    if t == [] then Finite(0.0)
    else match RadixPrefix(t)
      case Some(radix) =>
        (match RadixValue(t[2..], radix)
         case None => NaN
         case Some(v) => Finite(v as real))
      case None =>
        match DecimalAt(t, 0)
        case Some((x, end)) => if end == |t| then x else NaN
        case None => NaN
  }

  /** 2^53: every integer up to this magnitude is a double, printed in plain digits. */
  const MaxSafe: int := 0x20_0000_0000_0000

  /** A finite number that is an integer of magnitude at most 2^53. */
  predicate SafeInteger(x: JsNumber) {
    x.Finite? && x.value == x.value.Floor as real && -MaxSafe <= x.value.Floor <= MaxSafe
  }

  /**
   * String(x): "NaN", "Infinity" or "-Infinity", the digits of a safe integer,
   * and `render` for any other finite value, which stands for rounding to the
   * nearest double and Number.prototype.toString.
   */
  function NumberText(x: JsNumber, render: real -> string): (r: string)
    ensures SafeInteger(x) ==> r == IntToString(x.value.Floor)
  {
    match x
    case NaN => "NaN"
    case Infinity(neg) => if neg then "-Infinity" else "Infinity"
    case Finite(v) => if SafeInteger(x) then IntToString(v.Floor) else render(v)
  }

  // ---------------------------------------------------------------- facts

  lemma DigitsLiteral(s: string, i: nat)
    requires i <= |s| && AllDigits(s[i..]) && s[i..] != []
    ensures UnsignedDecimalAt(s, i) == Some((Finite(DigitsValue(s[i..]) as real), |s|))
  {
    DigitRunOfDigits(s[i..], 0);
    assert DigitRun(s, i) == |s| - i by {
      DigitRunShift(s, i);
    }
    assert s[i..i + (|s| - i)] == s[i..];
    assert !OccursAt(s, "Infinity", i) by {
      assert IsDigit(s[i..][0]);
    }
  }

  /** The digit run of a suffix is the digit run at the same place in the whole text. */
  lemma {:induction false} DigitRunShift(s: string, i: nat)
    requires i <= |s|
    ensures DigitRun(s[i..], 0) == DigitRun(s, i)
    decreases |s| - i
  {
    if i < |s| && IsDigit(s[i]) {
      DigitRunShift(s, i + 1);
      assert s[i..][1..] == s[i + 1..];
      DigitRunTail(s[i..]);
    }
  }

  lemma DigitRunTail(s: string)
    requires s != [] && IsDigit(s[0])
    ensures DigitRun(s, 0) == 1 + DigitRun(s[1..], 0)
  {
    DigitRunSlide(s, 1);
  }

  /** Skipping the first `i` characters shifts the digit run's start by `i`. */
  lemma {:induction false} DigitRunSlide(s: string, i: nat)
    requires i <= |s|
    ensures DigitRun(s, i) == DigitRun(s[i..], 0)
    decreases |s| - i
  {
    if i < |s| && IsDigit(s[i]) {
      DigitRunSlide(s, i + 1);
      assert s[i..][1..] == s[i + 1..];
      DigitRunSlide(s[i..], 1);
    }
  }

  /** Number() of a plain digit string, as buildTargetId writes a year, is its value. */
  lemma NumberOfDigits(s: string)
    requires s != [] && AllDigits(s)
    ensures NumberOf(s) == Finite(DigitsValue(s) as real)
  {
    if |s| >= 2 {
      assert IsDigit(s[1]);
    }
    NoRadixPrefix(s);
    TrimOfDigits(s);
    DecimalOfDigits(s);
    NumberOfLiteral(s, Finite(DigitsValue(s) as real));
  }

  /** A digit in second place rules out a 0x/0o/0b prefix. */
  lemma NoRadixPrefix(t: string)
    requires |t| < 2 || IsDigit(t[1])
    ensures RadixPrefix(t).None?
  {
  }

  lemma DecimalOfDigits(s: string)
    requires s != [] && AllDigits(s)
    ensures DecimalAt(s, 0) == Some((Finite(DigitsValue(s) as real), |s|))
  {
    assert s[0..] == s;
    DigitsLiteral(s, 0);
    assert IsDigit(s[0]);
  }

  /** Number() of trimmed text without a radix prefix that is one decimal literal is that literal's value. */
  lemma NumberOfLiteral(t: string, x: JsNumber)
    requires t != [] && Trim(t) == t && RadixPrefix(t).None? && DecimalAt(t, 0) == Some((x, |t|))
    ensures NumberOf(t) == x
  {
  }

  lemma TrimOfDigits(s: string)
    requires s != [] && AllDigits(s)
    ensures Trim(s) == s
  {
    assert !IsJsSpace(s[0]) && !IsJsSpace(s[|s| - 1]) by {
      assert IsDigit(s[0]) && IsDigit(s[|s| - 1]);
    }
    TrimByOfTrimmed(s, IsJsSpace);
  }

  /** parseFloat of a plain digit string is its value. */
  lemma ParseFloatOfDigits(s: string)
    requires s != [] && AllDigits(s)
    ensures ParseFloatJs(s) == Some(DigitsValue(s) as real)
  {
    assert !IsJsSpace(s[0]) && s[0] != '+' && s[0] != '-' by { assert IsDigit(s[0]); }
    assert SkipBy(s, 0, IsJsSpace) == 0;
    assert s[0..] == s;
    DigitsLiteral(s, 0);
  }

  /** The exponent is read: parseFloat("1e2") is 100, where a reader stopping at the 'e' would give 1. */
  lemma ParseFloatExponent()
    ensures ParseFloatJs("1e2") == Some(100.0)
  {
    var s := "1e2";
    assert SkipBy(s, 0, IsJsSpace) == 0;
    assert !OccursAt(s, "Infinity", 0);
    assert DigitRun(s, 0) == 1 && s[0..1] == "1";
    assert DigitRun(s, 2) == 1 && s[2..3] == "2";
    assert DigitsValue("2") == 2;
    assert ExponentAt(s, 1) == Some((2, 3));
    assert Pow10(2) == 100;
  }

  /** parseFloat stops at the first character that cannot continue the literal: "12px" is 12. */
  lemma ParseFloatTrailing()
    ensures ParseFloatJs("12px") == Some(12.0)
  {
    var s := "12px";
    assert SkipBy(s, 0, IsJsSpace) == 0;
    assert !OccursAt(s, "Infinity", 0);
    assert DigitRun(s, 0) == 2 && s[0..2] == "12";
    assert DigitsValue("12") == 12 by { assert "12"[..1] == "1"; }
  }

  /** Number() of an empty id part is 0, so its text is "0", not "NaN". */
  lemma NumberTextEmpty(render: real -> string)
    ensures NumberText(NumberOf(""), render) == "0"
  {
    assert Trim("") == [];
  }

  /** Number() insists on one literal for the whole text: "12px" is NaN, where parseFloat gives 12. */
  lemma NumberTrailing()
    ensures NumberOf("12px") == NaN
  {
    var s := "12px";
    TrimOfPlain(s);
    assert RadixPrefix(s).None?;
    assert !OccursAt(s, "Infinity", 0);
    assert DigitRun(s, 0) == 2;
  }

  lemma TrimOfPlain(s: string)
    requires s != [] && !IsJsSpace(s[0]) && !IsJsSpace(s[|s| - 1])
    ensures Trim(s) == s
  {
    TrimByOfTrimmed(s, IsJsSpace);
  }

  /** String(Number(...)) of the text of a safe integer gives that text back. */
  lemma NumberTextOfInt(i: int, render: real -> string)
    requires -MaxSafe <= i <= MaxSafe
    ensures NumberText(NumberOf(IntToString(i)), render) == IntToString(i)
  {
    NumberOfInt(i);
    assert (i as real).Floor == i;
    assert SafeInteger(Finite(i as real));
  }

  /** Number() reads the text of an integer back as that integer. */
  lemma NumberOfInt(i: int)
    ensures NumberOf(IntToString(i)) == Finite(i as real)
  {
    if i >= 0 {
      NatToStringValue(i);
      NumberOfDigits(NatToString(i));
    } else {
      NatToStringValue(-i);
      NumberOfNegative(NatToString(-i));
    }
  }

  /** Number() of '-' and a digit string is the negated value. */
  lemma NumberOfNegative(d: string)
    requires d != [] && AllDigits(d)
    ensures NumberOf("-" + d) == Finite(-(DigitsValue(d) as real))
  {
    var s := "-" + d;
    assert s[1..] == d;
    assert IsDigit(d[|d| - 1]) && s[|s| - 1] == d[|d| - 1];
    TrimOfPlain(s);
    assert RadixPrefix(s).None?;
    DigitsLiteral(s, 1);
  }
}
