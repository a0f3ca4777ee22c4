/**
 * The string rules of JavaScript that the pages rely on: `Number.parseInt`,
 * `Number.parseFloat`, `Number(s)`, `String.prototype.includes`,
 * `toLowerCase`, the UTF-16 `length` of a string, and the decimal rendering of
 * an integer. Numeric text is read into exact values; a literal too large for
 * a double is not turned into `Infinity`.
 */
module JsText {
  import opened Common

  predicate IsDigit(c: char) { '0' <= c <= '9' }

  /** ECMAScript white space and line terminators, which `trim` and the number parsers skip. */
  predicate IsSpace(c: char)
  {
    || c == ' ' || c == '\t' || c == '\n' || c == '\r' || c == '\U{000B}' || c == '\U{000C}'
    || c == '\U{00A0}' || c == '\U{1680}' || ('\U{2000}' <= c <= '\U{200A}') || c == '\U{2028}' || c == '\U{2029}'
    || c == '\U{202F}' || c == '\U{205F}' || c == '\U{3000}' || c == '\U{FEFF}'
  }

  function DigitValue(c: char): nat
    requires IsDigit(c)
  {
    (c as int - '0' as int) as nat
  }

  function DigitChar(d: nat): (c: char)
    requires d < 10
    ensures IsDigit(c) && DigitValue(c) == d
  {
    ('0' as int + d) as char
  }

  predicate AllDigits(s: string) { forall i :: 0 <= i < |s| ==> IsDigit(s[i]) }

  /** The value of a string of decimal digits, most significant first. */
  function DigitsValue(s: string): nat
    requires AllDigits(s)
  {
    if s == [] then 0 else DigitsValue(s[..|s| - 1]) * 10 + DigitValue(s[|s| - 1])
  }

  /** Value of `s[..n] / 10^n` read as the digits after a decimal point. */
  function FractionValue(s: string): (v: real)
    requires AllDigits(s)
    ensures 0.0 <= v
  {
    if s == [] then 0.0 else (DigitValue(s[0]) as real + FractionValue(s[1..])) / 10.0
  }

  /** Length of the longest prefix of `s` made of decimal digits. */
  function DigitRun(s: string): (n: nat)
    ensures n <= |s| && AllDigits(s[..n])
    ensures n < |s| ==> !IsDigit(s[n])
  {
    if s != [] && IsDigit(s[0]) then
      var k := DigitRun(s[1..]);
      assert s[..k + 1] == [s[0]] + s[1..][..k];
      k + 1
    else 0
  }

  function TrimStart(s: string): (t: string)
    ensures |t| <= |s|
    ensures t != [] ==> !IsSpace(t[0])
  {
    if s != [] && IsSpace(s[0]) then TrimStart(s[1..]) else s
  }

  /** `TrimStart` removes exactly the leading white space: what it keeps is a suffix, what it drops is all space. */
  lemma {:induction false} TrimStartDropsSpace(s: string)
    ensures var t := TrimStart(s);
      t == s[|s| - |t|..] && forall i :: 0 <= i < |s| - |t| ==> IsSpace(s[i])
    decreases |s|
  {
    if s != [] && IsSpace(s[0]) {
      TrimStartDropsSpace(s[1..]);
      var t := TrimStart(s);
      assert s[1..][|s| - 1 - |t|..] == s[|s| - |t|..];
      forall i | 0 <= i < |s| - |t|
        ensures IsSpace(s[i])
      {
        if i > 0 { assert s[i] == s[1..][i - 1]; }
      }
    }
  }

  function TrimEnd(s: string): (t: string)
    ensures |t| <= |s| && t == s[..|t|]
    ensures t != [] ==> !IsSpace(t[|t| - 1])
  {
    if s != [] && IsSpace(s[|s| - 1]) then TrimEnd(s[..|s| - 1]) else s
  }

  function Trim(s: string): string { TrimEnd(TrimStart(s)) }

  /** An optional sign at the head of `t`: the multiplier and how many characters it takes. */
  function Sign(t: string): (r: (int, nat))
    ensures r.1 <= 1 && r.1 <= |t| && (r.0 == 1 || r.0 == -1)
  {
    if t != [] && t[0] == '-' then (-1, 1)
    else if t != [] && t[0] == '+' then (1, 1)
    else (1, 0)
  }

  /** The value of a character as a digit of a radix up to 36 (`0`-`9`, then letters in either case); 36 for any other character. */
  function DigitOf(c: char): (d: nat)
    ensures d <= 36
    ensures IsDigit(c) ==> d == DigitValue(c)
  {
    if IsDigit(c) then DigitValue(c)
    else if 'a' <= c <= 'z' then (c as int - 'a' as int + 10) as nat
    else if 'A' <= c <= 'Z' then (c as int - 'A' as int + 10) as nat
    else 36
  }

  predicate AllRadixDigits(s: string, radix: nat) { forall i :: 0 <= i < |s| ==> DigitOf(s[i]) < radix }

  lemma NatProduct(a: nat, b: nat)
    ensures a * b >= 0
  {
  }

  /** The value of a string of digits in `radix`, most significant first. */
  function RadixValue(s: string, radix: nat): nat
    requires AllRadixDigits(s, radix)
  {
    if s == [] then 0
    else
      var init := s[..|s| - 1];
      assert AllRadixDigits(init, radix) by {
        forall i | 0 <= i < |init| ensures DigitOf(init[i]) < radix { assert init[i] == s[i]; }
      }
      var high := RadixValue(init, radix);
      NatProduct(high, radix);
      high * radix + DigitOf(s[|s| - 1])
  }

  /** Length of the longest prefix of `s` made of digits of `radix`. */
  function RadixRun(s: string, radix: nat): (n: nat)
    ensures n <= |s| && AllRadixDigits(s[..n], radix)
    ensures n < |s| ==> DigitOf(s[n]) >= radix
  {
    if s != [] && DigitOf(s[0]) < radix then
      var k := RadixRun(s[1..], radix);
      assert s[..k + 1] == [s[0]] + s[1..][..k];
      k + 1
    else 0
  }

  /** `10` to the power `e`, for any integer `e`. */
  function Pow10(e: int): (p: real)
    ensures p > 0.0
    decreases if e < 0 then -e else e
  {
    if e == 0 then 1.0 else if e > 0 then 10.0 * Pow10(e - 1) else Pow10(e + 1) / 10.0
  }

  /** Unsigned digits with an optional point and fraction, at least one digit in all: the value and its length. */
  function Mantissa(t: string): (r: Option<(real, nat)>)
    ensures r.Some? ==> 0 < r.value.1 <= |t| && r.value.0 >= 0.0
  {
    var i := DigitRun(t);
    var whole := DigitsValue(t[..i]);
    if i < |t| && t[i] == '.' then
      var f := DigitRun(t[i + 1..]);
      if i == 0 && f == 0 then None
      else Some((whole as real + FractionValue(t[i + 1..][..f]), i + 1 + f))
    else if i == 0 then None
    else Some((whole as real, i))
  }

  /** An exponent part at the head of `t`: `e` or `E`, an optional sign, at least one digit. Its value and length. */
  function ExponentPart(t: string): (r: Option<(int, nat)>)
    ensures r.Some? ==> 2 <= r.value.1 <= |t|
  {
    if t != [] && (t[0] == 'e' || t[0] == 'E') then
      var (sign, k) := Sign(t[1..]);
      var digits := t[1..][k..];
      var i := DigitRun(digits);
      if i == 0 then None else Some((sign * DigitsValue(digits[..i]), 1 + k + i))
    else None
  }

  const InfinityText: string := "Infinity"

  /**
   * A decimal literal at the head of `t`: an optional sign, then `Infinity`,
   * or a mantissa with an optional exponent part. Its value and the number of
   * characters it takes; an exponent part that is cut short is not taken.
   */
  function DecimalPrefix(t: string): (r: Option<(JsNumber, nat)>)
    ensures r.Some? ==> 0 < r.value.1 <= |t| && r.value.0 != NaN
  {
    var (sign, k) := Sign(t);
    var rest := t[k..];
    if |rest| >= |InfinityText| && rest[..|InfinityText|] == InfinityText then
      Some((if sign == 1 then PosInfinity else NegInfinity, k + |InfinityText|))
    else match Mantissa(rest)
      case None => None
      case Some((m, n)) =>
        match ExponentPart(rest[n..])
        case None => Some((Finite(sign as real * m), k + n))
        case Some((e, en)) => Some((Finite(sign as real * m * Pow10(e)), k + n + en))
  }

  /** `Number.parseInt(s)` without a radix: decimal, or hexadecimal after `0x`; `None` is NaN. */
  function ParseInt(s: string): Option<int>
  {
    var t := TrimStart(s);
    var (sign, k) := Sign(t);
    var u := t[k..];
    if |u| >= 2 && u[0] == '0' && (u[1] == 'x' || u[1] == 'X') then
      var h := RadixRun(u[2..], 16);
      if h == 0 then None else Some(sign * RadixValue(u[2..][..h], 16))
    else
      var i := DigitRun(u);
      if i == 0 then None else Some(sign * DigitsValue(u[..i]))
  }

  /** `Number.parseFloat(s)`: the longest decimal literal after leading white space, or NaN. */
  function ParseFloat(s: string): JsNumber
  {
    match DecimalPrefix(TrimStart(s))
    case Some((v, _)) => v
    case None => NaN
  }

  /** The radix a `0x`, `0o` or `0b` prefix selects (either case); 0 for any other letter. */
  function PrefixRadix(c: char): nat
  {
    if c == 'x' || c == 'X' then 16 else if c == 'o' || c == 'O' then 8 else if c == 'b' || c == 'B' then 2 else 0
  }

  /** An unsigned `0x`, `0o` or `0b` literal making up the whole of `t`: its value. */
  function NonDecimalLiteral(t: string): Option<nat>
  {
    if |t| >= 3 && t[0] == '0' && PrefixRadix(t[1]) != 0 && AllRadixDigits(t[2..], PrefixRadix(t[1])) then
      Some(RadixValue(t[2..], PrefixRadix(t[1])))
    else None
  }

  /**
   * `Number(s)`: blank text is 0; otherwise the trimmed text must be, as a
   * whole, a non-decimal literal or a decimal literal; anything else is NaN.
   */
  function NumberFromString(s: string): JsNumber
  {
    var t := Trim(s);
    if t == [] then Finite(0.0)
    else match NonDecimalLiteral(t)
      case Some(v) => Finite(v as real)
      case None =>
        match DecimalPrefix(t)
        case Some((v, n)) => if n == |t| then v else NaN
        case None => NaN
  }

  /** `Number.parseInt(text) || 0`, as the number inputs use it. */
  function ParseIntOrZero(text: string): int
  {
    match ParseInt(text)
    case Some(n) => n
    case None => 0
  }

  /** Decimal rendering of a natural number, as `String(n)` gives it. */
  function NatToString(n: nat): (s: string)
    ensures |s| > 0 && AllDigits(s)
    decreases n
  {
    if n < 10 then [DigitChar(n)] else NatToString(n / 10) + [DigitChar(n % 10)]
  }

  function IntToString(n: int): (s: string)
    ensures |s| > 0
  {
    if n < 0 then "-" + NatToString(-n) else NatToString(n)
  }

  lemma {:induction false} NatToStringValue(n: nat)
    ensures DigitsValue(NatToString(n)) == n
    decreases n
  {
    var s := NatToString(n);
    if n >= 10 {
      NatToStringValue(n / 10);
      assert s[..|s| - 1] == NatToString(n / 10);
    }
  }

  lemma DigitRunOfDigits(s: string)
    requires AllDigits(s)
    ensures DigitRun(s) == |s|
    decreases |s|
  {
    if s != [] { DigitRunOfDigits(s[1..]); }
  }

  /** `parseInt` of a sign (or none) followed by decimal digits only, with nothing before it. */
  lemma ParseIntOfSignedDigits(s: string, sign: int, k: nat)
    requires TrimStart(s) == s && Sign(s) == (sign, k)
    requires k < |s| && AllDigits(s[k..])
    ensures ParseInt(s) == Some(sign * DigitsValue(s[k..]))
  {
    var u := s[k..];
    assert !(|u| >= 2 && u[0] == '0' && (u[1] == 'x' || u[1] == 'X')) by {
      if |u| >= 2 { assert IsDigit(u[1]); }
    }
    DigitRunOfDigits(u);
    assert u[..|u|] == u;
  }

  lemma ParseIntOfDigits(ds: string)
    requires ds != [] && AllDigits(ds)
    ensures ParseInt(ds) == Some(DigitsValue(ds))
  {
    assert IsDigit(ds[0]) && !IsSpace(ds[0]);
    assert TrimStart(ds) == ds;
    assert Sign(ds) == (1, 0);
    assert ds[0..] == ds;
    ParseIntOfSignedDigits(ds, 1, 0);
  }

  lemma ParseIntOfNegatedDigits(ds: string)
    requires ds != [] && AllDigits(ds)
    ensures ParseInt("-" + ds) == Some(-(DigitsValue(ds) as int))
  {
    var m := "-" + ds;
    assert m[0] == '-' && !IsSpace(m[0]);
    assert TrimStart(m) == m;
    assert Sign(m) == (-1, 1);
    assert m[1..] == ds;
    ParseIntOfSignedDigits(m, -1, 1);
  }

  /**
   * Typing back what a number input displays gives the same number:
   * `parseInt(String(n)) == n` for every integer.
   */
  lemma ParseIntOfIntToString(n: int)
    ensures ParseInt(IntToString(n)) == Some(n)
  {
    var m: nat := if n < 0 then -n else n;
    NatToStringValue(m);
    if n < 0 { ParseIntOfNegatedDigits(NatToString(m)); } else { ParseIntOfDigits(NatToString(m)); }
  }

  /** `toLowerCase` on one character: the ASCII letters A-Z become a-z. */
  function LowerChar(c: char): char
  {
    if 'A' <= c <= 'Z' then (c as int + 32) as char else c
  }

  /** `String.prototype.toLowerCase` on ASCII letters. */
  function ToLower(s: string): (t: string)
    ensures |t| == |s|
    ensures forall i :: 0 <= i < |s| ==> t[i] == LowerChar(s[i])
  {
    seq(|s|, i requires 0 <= i < |s| => LowerChar(s[i]))
  }

  /** `s.length`: UTF-16 code units, two for each character outside the Basic Multilingual Plane. */
  function Utf16Length(s: string): (n: nat)
    ensures |s| <= n <= 2 * |s|
  {
    if s == [] then 0 else Utf16Length(s[..|s| - 1]) + (if s[|s| - 1] as int > 0xFFFF then 2 else 1)
  }

  /** On text inside the Basic Multilingual Plane, `length` counts characters. */
  lemma {:induction false} Utf16LengthOfBmp(s: string)
    requires forall i :: 0 <= i < |s| ==> s[i] as int <= 0xFFFF
    ensures Utf16Length(s) == |s|
    decreases |s|
  {
    if s != [] {
      Utf16LengthOfBmp(s[..|s| - 1]);
    }
  }

  /** An emoji is two code units: three of them make a `length` of 6. */
  lemma Utf16LengthOfEmoji()
    ensures Utf16Length("\U{1F600}\U{1F600}\U{1F600}") == 6
  {
    var e := "\U{1F600}\U{1F600}\U{1F600}";
    assert e[..2][..1] == "\U{1F600}";
    assert e[..2][..1][..0] == "";
  }

  /** Text with no white space at either end is its own trim. */
  lemma TrimOfUnspaced(t: string)
    requires t != [] && !IsSpace(t[0]) && !IsSpace(t[|t| - 1])
    ensures TrimStart(t) == t && Trim(t) == t
  {
  }

  lemma MantissaOfOne()
    ensures Mantissa("1e3") == Some((1.0, 1)) && Mantissa("1e") == Some((1.0, 1))
  {
    var t, u := "1e3", "1e";
    assert DigitRun(t[1..]) == 0 && DigitRun(t) == 1 && t[..1] == "1";
    assert DigitRun(u[1..]) == 0 && DigitRun(u) == 1 && u[..1] == "1";
    assert DigitsValue("1") == 1 by { assert "1"[..0] == ""; }
  }

  lemma ExponentOfThree()
    ensures ExponentPart("e3") == Some((3, 2))
  {
    var t := "e3";
    assert t[1..] == "3" && Sign("3") == (1, 0) && "3"[0..] == "3";
    assert DigitRun("3"[1..]) == 0 && DigitRun("3") == 1 && "3"[..1] == "3";
  }

  lemma DecimalPrefixOfExponent()
    ensures DecimalPrefix("1e3") == Some((Finite(1000.0), 3))
  {
    var t := "1e3";
    assert Sign(t) == (1, 0) && t[0..] == t;
    MantissaOfOne();
    assert t[1..] == "e3";
    ExponentOfThree();
    assert Pow10(3) == 1000.0;
  }

  /** `Number("1e3")` is 1000: the exponent part is read. */
  lemma NumberOfExponent()
    ensures NumberFromString("1e3") == Finite(1000.0)
  {
    TrimOfUnspaced("1e3");
    assert NonDecimalLiteral("1e3").None?;
    DecimalPrefixOfExponent();
  }

  lemma MantissaOfDigitText()
    ensures Mantissa("175") == Some((175.0, 3))
  {
    var t := "175";
    assert DigitRun(t[3..]) == 0 && DigitRun(t[2..]) == 1 && DigitRun(t[1..]) == 2 && DigitRun(t) == 3;
    assert t[..3] == t && t[..2] == "17" && "17"[..1] == "1" && "1"[..0] == "";
    assert DigitsValue(t) == 175;
  }

  /** `Number("175")` is 175. */
  lemma NumberOfDigitText()
    ensures NumberFromString("175") == Finite(175.0)
  {
    var t := "175";
    TrimOfUnspaced(t);
    assert NonDecimalLiteral(t).None?;
    assert Sign(t) == (1, 0) && t[0..] == t;
    MantissaOfDigitText();
    assert t[3..] == "" && ExponentPart("").None?;
  }

  /** `Number("-Infinity")` is minus infinity. */
  lemma NumberOfInfinity()
    ensures NumberFromString("-Infinity") == NegInfinity
  {
    var t := "-Infinity";
    TrimOfUnspaced(t);
    assert t[1..][..|InfinityText|] == InfinityText;
  }

  /** A leading zero followed by a letter: the mantissa is that zero alone. */
  lemma MantissaOfHexText()
    ensures Mantissa("0x10") == Some((0.0, 1)) && ExponentPart("x10").None?
  {
    var t := "0x10";
    assert DigitRun(t[1..]) == 0 && DigitRun(t) == 1 && t[..1] == "0";
    assert DigitsValue("0") == 0 by { assert "0"[..0] == ""; }
  }

  lemma NonDecimalOfHex()
    ensures NonDecimalLiteral("0x10") == Some(16)
  {
    var t := "0x10";
    assert PrefixRadix(t[1]) == 16 && t[2..] == "10";
    assert "10"[..1] == "1" && "1"[..0] == "";
    assert AllRadixDigits("10", 16) && RadixValue("10", 16) == 16;
  }

  /** `Number("0x10")` is 16, while a sign before the prefix makes it NaN. */
  lemma NumberOfHex()
    ensures NumberFromString("0x10") == Finite(16.0)
    ensures NumberFromString("-0x10") == NaN
  {
    TrimOfUnspaced("0x10");
    NonDecimalOfHex();
    NumberOfSignedHex();
  }

  lemma NumberOfSignedHex()
    ensures NumberFromString("-0x10") == NaN
  {
    var m := "-0x10";
    TrimOfUnspaced(m);
    assert NonDecimalLiteral(m).None?;
    assert Sign(m) == (-1, 1) && m[1..] == "0x10" && "0x10"[1..] == "x10";
    MantissaOfHexText();
    assert DecimalPrefix(m) == Some((Finite(0.0), 2));
  }

  lemma MantissaOfTwelve()
    ensures Mantissa("12abc") == Some((12.0, 2)) && ExponentPart("abc").None?
  {
    var t := "12abc";
    assert DigitRun(t[2..]) == 0 && DigitRun(t[1..]) == 1 && DigitRun(t) == 2 && t[..2] == "12";
    assert DigitsValue("12") == 12 by { assert "12"[..1] == "1" && "1"[..0] == ""; }
  }

  lemma DecimalPrefixOfTwelve()
    ensures DecimalPrefix("12abc") == Some((Finite(12.0), 2))
  {
    var t := "12abc";
    assert Sign(t) == (1, 0) && t[0..] == t;
    MantissaOfTwelve();
    assert t[2..] == "abc";
  }

  lemma DecimalPrefixOfCutExponent()
    ensures DecimalPrefix("1e") == Some((Finite(1.0), 1))
  {
    var u := "1e";
    assert Sign(u) == (1, 0) && u[0..] == u;
    MantissaOfOne();
    assert u[1..] == "e" && "e"[1..] == "" && Sign("") == (1, 0) && ""[0..] == "";
    assert ExponentPart("e").None?;
  }

  lemma NumberOfTrailingLetters()
    ensures NumberFromString("12abc") == NaN
  {
    var t := "12abc";
    TrimOfUnspaced(t);
    assert PrefixRadix(t[1]) == 0;
    DecimalPrefixOfTwelve();
  }

  lemma NumberOfCutExponent()
    ensures NumberFromString("1e") == NaN
  {
    TrimOfUnspaced("1e");
    DecimalPrefixOfCutExponent();
  }

  /** `Number` needs the whole text: "12abc" and a cut-short exponent are NaN. */
  lemma NumberNeedsWholeText()
    ensures NumberFromString("12abc") == NaN
    ensures NumberFromString("1e") == NaN
  {
    NumberOfTrailingLetters();
    NumberOfCutExponent();
  }

  /** The mantissa of "1.75e2" is 1.75, four characters long. */
  lemma MantissaOfOnePointSevenFive()
    ensures Mantissa("1.75e2") == Some((1.75, 4))
  {
    var t := "1.75e2";
    assert DigitRun(t[1..]) == 0 && DigitRun(t) == 1 && t[..1] == "1";
    assert DigitsValue("1") == 1 by { assert "1"[..0] == ""; }
    var f := t[2..];
    assert f == "75e2" && DigitRun(f[2..]) == 0 && DigitRun(f[1..]) == 1 && DigitRun(f) == 2 && f[..2] == "75";
    assert FractionValue("75") == 0.75 by {
      assert "75"[1..] == "5" && "5"[1..] == "";
    }
  }

  /** "e2" is an exponent part of value 2. */
  lemma ExponentOfTwo()
    ensures ExponentPart("e2") == Some((2, 2))
  {
    var t := "e2";
    assert t[1..] == "2" && Sign("2") == (1, 0) && "2"[0..] == "2";
    assert DigitRun("2"[1..]) == 0 && DigitRun("2") == 1 && "2"[..1] == "2";
  }

  /** `parseFloat("1.75e2")` is 175: the exponent scales the fraction. */
  lemma ParseFloatOfExponent()
    ensures ParseFloat("1.75e2") == Finite(175.0)
  {
    var t := "1.75e2";
    TrimOfUnspaced(t);
    assert Sign(t) == (1, 0) && t[0..] == t;
    MantissaOfOnePointSevenFive();
    assert t[4..] == "e2";
    ExponentOfTwo();
    assert Pow10(2) == 100.0;
  }

  /** `parseFloat` reads the longest literal at the head and ignores the rest. */
  lemma ParseFloatReadsPrefix()
    ensures ParseFloat("12abc") == Finite(12.0)
    ensures ParseFloat("abc") == NaN
  {
    TrimOfUnspaced("12abc");
    DecimalPrefixOfTwelve();
    ParseFloatOfLetters();
  }

  lemma ParseFloatOfLetters()
    ensures ParseFloat("abc") == NaN
  {
    var a := "abc";
    TrimOfUnspaced(a);
    assert Sign(a) == (1, 0) && a[0..] == a && DigitRun(a) == 0;
    assert Mantissa(a).None?;
  }

  /** A radix prefix is not part of a decimal literal, but text after `Infinity` is simply ignored. */
  lemma ParseFloatStopsAtLetters()
    ensures ParseFloat("0x10") == Finite(0.0)
    ensures ParseFloat("Infinityx") == PosInfinity
  {
    var h := "0x10";
    TrimOfUnspaced(h);
    assert Sign(h) == (1, 0) && h[0..] == h && h[1..] == "x10";
    MantissaOfHexText();
    var i := "Infinityx";
    TrimOfUnspaced(i);
    assert Sign(i) == (1, 0) && i[0..] == i && i[..|InfinityText|] == InfinityText;
  }

  /** `part` occurs in `s` starting at position `i`. */
  predicate OccursAt(s: string, part: string, i: int)
  {
    0 <= i && i + |part| <= |s| && s[i..i + |part|] == part
  }

  /** `s.includes(part)`: `part` occurs in `s` at some position. */
  predicate Includes(s: string, part: string)
  {
    exists i | 0 <= i <= |s| - |part| :: OccursAt(s, part, i)
  }

  /** Python's `a < b` on strings: lexicographic by character code. */
  function LexLess(a: string, b: string): bool
  {
    if b == [] then false
    else if a == [] then true
    else if a[0] != b[0] then a[0] < b[0]
    else LexLess(a[1..], b[1..])
  }
}
