/**
 * Option and Result, for the downloader's error paths.
 */
module Wrappers {
  datatype Option<+T> = None | Some(value: T)

  datatype Result<+R, +E> = Success(value: R) | Failure(error: E)
}

/**
 * The pieces of Python's string handling that the downloader relies on:
 * `str.strip()`, `str(int)` and the `{:0Nd}` / `{:Nd}` format specifications,
 * together with a decimal reader that serves as their inverse.
 */
module Text {
  import opened Wrappers

  predicate IsDigit(c: char) {
    '0' <= c <= '9'
  }

  /** The characters for which Python's `str.isspace()` holds; `str.strip()` removes exactly these. */
  predicate IsSpace(c: char) {
    c == ' ' || '\t' <= c <= '\r' || '\U{1C}' <= c <= '\U{1F}'
    || c == '\U{85}' || c == '\U{A0}' || c == '\U{1680}'
    || '\U{2000}' <= c <= '\U{200A}' || c == '\U{2028}' || c == '\U{2029}'
    || c == '\U{202F}' || c == '\U{205F}' || c == '\U{3000}'
  }

  predicate AllDigits(s: string) {
    forall i :: 0 <= i < |s| ==> IsDigit(s[i])
  }

  function Max(a: int, b: int): int {
    if a < b then b else a
  }

  function Abs(n: int): nat {
    if n < 0 then -n else n
  }

  /** `c * n` in Python. */
  function Repeat(c: char, n: nat): (r: string)
    ensures |r| == n
    ensures forall i :: 0 <= i < n ==> r[i] == c
  {
    if n == 0 then [] else [c] + Repeat(c, n - 1)
  }

  // ---------------------------------------------------------------------------
  // str.strip()
  // ---------------------------------------------------------------------------

  /** Length of the longest prefix of `s` made of whitespace. */
  function LeadingSpaces(s: string): (k: nat)
    ensures k <= |s|
    ensures forall i :: 0 <= i < k ==> IsSpace(s[i])
    ensures k < |s| ==> !IsSpace(s[k])
  {
    if s == [] || !IsSpace(s[0]) then 0 else 1 + LeadingSpaces(s[1..])
  }

  /** Length of the longest suffix of `s` made of whitespace. */
  function TrailingSpaces(s: string): (k: nat)
    ensures k <= |s|
    ensures forall i :: |s| - k <= i < |s| ==> IsSpace(s[i])
    ensures k < |s| ==> !IsSpace(s[|s| - 1 - k])
  {
    if s == [] || !IsSpace(s[|s| - 1]) then 0 else 1 + TrailingSpaces(s[..|s| - 1])
  }

  /**
   * `s.strip()`: the result is the part of `s` left once every leading and
   * trailing whitespace character is removed, so it neither starts nor ends
   * with whitespace and everything of `s` around it is whitespace.
   */
  function Strip(s: string): (r: string)
    ensures r == [] || (!IsSpace(r[0]) && !IsSpace(r[|r| - 1]))
    ensures var k := LeadingSpaces(s);
      k + |r| <= |s| && r == s[k..k + |r|]
      && (forall i :: 0 <= i < k ==> IsSpace(s[i]))
      && (forall i :: k + |r| <= i < |s| ==> IsSpace(s[i]))
  {
    var t := s[LeadingSpaces(s)..];
    t[..|t| - TrailingSpaces(t)]
  }

  // ---------------------------------------------------------------------------
  // Decimal integers: str(n), f"{n:0Wd}", f"{n:Wd}"
  // ---------------------------------------------------------------------------

  function DigitChar(d: nat): (c: char)
    requires d < 10
    ensures IsDigit(c) && c as int - '0' as int == d
  {
    ('0' as int + d) as char
  }

  /** The decimal digits of `n`, without leading zeros (a lone "0" for zero). */
  function Digits(n: nat): (r: string)
    ensures r != [] && AllDigits(r)
    ensures r[0] == '0' ==> n == 0 && |r| == 1
  {
    if n < 10 then [DigitChar(n)] else Digits(n / 10) + [DigitChar(n % 10)]
  }

  /** `str(n)` (and `f"{n:d}"`): an optional minus sign, then the digits of |n|. */
  function FormatInt(n: int): (r: string)
    ensures r != [] && r[|r| - 1] != '-'
  {
    if n < 0 then "-" + Digits(-n) else Digits(n)
  }

  function SignOf(n: int): string {
    if n < 0 then "-" else ""
  }

  /**
   * `f"{n:0<width>d}"`: the sign, then as many zeros as make the text at least
   * `width` long, then the digits of |n| (see ZeroPadShape).
   */
  function ZeroPad(n: int, width: nat): (r: string)
    ensures |r| == Max(width, |FormatInt(n)|)
  {
    SignOf(n) + Repeat('0', ZeroFill(n, width)) + Digits(Abs(n))
  }

  /** How many zeros `{:0<width>d}` inserts between the sign and the digits. */
  function ZeroFill(n: int, width: nat): nat {
    var used := |SignOf(n)| + |Digits(Abs(n))|;
    if width > used then width - used else 0
  }

  /**
   * `f"{n:<width>d}"`: numbers align right, so spaces come first, then the
   * sign and digits exactly as `str(n)` writes them (see SpacePadShape).
   */
  function SpacePad(n: int, width: nat): (r: string)
    ensures |r| == Max(width, |FormatInt(n)|)
  {
    var text := FormatInt(n);
    Repeat(' ', if width > |text| then width - |text| else 0) + text
  }

  /** The value of a string of decimal digits (leading zeros allowed). */
  function DigitsValue(s: string): nat
    requires AllDigits(s)
  {
    if s == [] then 0 else 10 * DigitsValue(s[..|s| - 1]) + (s[|s| - 1] as int - '0' as int)
  }

  /** Reads an optionally negative decimal integer: `-?[0-9]+`, nothing else. */
  function ParseDecimal(s: string): Option<int> {
    if s != [] && s[0] == '-' then
      if |s| > 1 && AllDigits(s[1..]) then Some(-(DigitsValue(s[1..]) as int)) else None
    else if s != [] && AllDigits(s) then Some(DigitsValue(s))
    else None
  }

  // ---------------------------------------------------------------------------
  // Scanning helpers for reading formatted names back
  // ---------------------------------------------------------------------------

  /** Length of the longest prefix of `s` made of digits. */
  function DigitRun(s: string): (k: nat)
    ensures k <= |s|
    ensures forall i :: 0 <= i < k ==> IsDigit(s[i])
    ensures k < |s| ==> !IsDigit(s[k])
  {
    if s == [] || !IsDigit(s[0]) then 0 else 1 + DigitRun(s[1..])
  }

  /** Length of the longest prefix of `s` of the form `-?[0-9]*`. */
  function SignedRun(s: string): (k: nat)
    ensures k <= |s|
  {
    if s != [] && s[0] == '-' then 1 + DigitRun(s[1..]) else DigitRun(s)
  }

  /** Length of the longest prefix of `s` made of blanks. */
  function BlankRun(s: string): (k: nat)
    ensures k <= |s|
    ensures forall i :: 0 <= i < k ==> s[i] == ' '
    ensures k < |s| ==> s[k] != ' '
  {
    if s == [] || s[0] != ' ' then 0 else 1 + BlankRun(s[1..])
  }

  // ---------------------------------------------------------------------------
  // Lemmas
  // ---------------------------------------------------------------------------

  /** `str(n)` is the sign of n followed by the digits of |n|; it starts and ends with no whitespace. */
  lemma FormatIntShape(n: int)
    ensures FormatInt(n) == SignOf(n) + Digits(Abs(n))
    ensures !IsSpace(FormatInt(n)[0]) && !IsSpace(FormatInt(n)[|FormatInt(n)| - 1])
    ensures forall i :: 0 <= i < |FormatInt(n)| ==> FormatInt(n)[i] == '-' || IsDigit(FormatInt(n)[i])
  {
    var d := Digits(Abs(n));
    assert IsDigit(d[0]) && IsDigit(d[|d| - 1]);
  }

  /**
   * Zero padding keeps the sign in front and every digit of |n| at the end,
   * and fills the space between with zeros only: it never drops a digit.
   */
  lemma ZeroPadShape(n: int, width: nat)
    ensures var r := ZeroPad(n, width);
      var d := Digits(Abs(n));
      |r| >= |SignOf(n)| + |d|
      && r[..|SignOf(n)|] == SignOf(n)
      && r[|r| - |d|..] == d
      && (forall i :: |SignOf(n)| <= i < |r| - |d| ==> r[i] == '0')
  {
    var r := ZeroPad(n, width);
    var d := Digits(Abs(n));
    assert r == SignOf(n) + Repeat('0', ZeroFill(n, width)) + d;
  }

  /** Space padding puts blanks only in front of `str(n)`, which it keeps whole. */
  lemma SpacePadShape(n: int, width: nat)
    ensures var r := SpacePad(n, width);
      var t := FormatInt(n);
      |r| >= |t| && r[|r| - |t|..] == t
      && (forall i :: 0 <= i < |r| - |t| ==> r[i] == ' ')
  {
  }

  /** Only digits, minus signs and blanks: what the integer formats ever write. */
  predicate IsNumeric(s: string) {
    forall i :: 0 <= i < |s| ==> IsDigit(s[i]) || s[i] == '-' || s[i] == ' '
  }

  lemma NumericConcat(a: string, b: string)
    requires IsNumeric(a) && IsNumeric(b)
    ensures IsNumeric(a + b)
  {
  }

  lemma FormatsAreNumeric(n: int, width: nat)
    ensures IsNumeric(FormatInt(n)) && IsNumeric(ZeroPad(n, width)) && IsNumeric(SpacePad(n, width))
  {
    var d := Digits(Abs(n));
    assert IsNumeric(d) && IsNumeric(SignOf(n));
    assert IsNumeric(Repeat('0', ZeroFill(n, width)));
    NumericConcat(SignOf(n), d);
    NumericConcat(SignOf(n), Repeat('0', ZeroFill(n, width)));
    NumericConcat(SignOf(n) + Repeat('0', ZeroFill(n, width)), d);
    var text := FormatInt(n);
    var blanks := Repeat(' ', if width > |text| then width - |text| else 0);
    assert IsNumeric(blanks);
    NumericConcat(blanks, text);
  }

  lemma {:induction false} DigitsValueOfDigits(n: nat)
    ensures DigitsValue(Digits(n)) == n
  {
    if n >= 10 {
      var d := Digits(n);
      assert d[..|d| - 1] == Digits(n / 10);
      DigitsValueOfDigits(n / 10);
    }
  }

  lemma {:induction false} ZerosHaveNoValue(k: nat, s: string)
    requires AllDigits(s)
    ensures AllDigits(Repeat('0', k) + s)
    ensures DigitsValue(Repeat('0', k) + s) == DigitsValue(s)
  {
    var z := Repeat('0', k) + s;
    if s == [] {
      assert z == Repeat('0', k);
      if k > 0 {
        assert z[..|z| - 1] == Repeat('0', k - 1) + [];
        ZerosHaveNoValue(k - 1, []);
      }
    } else {
      assert z[..|z| - 1] == Repeat('0', k) + s[..|s| - 1];
      ZerosHaveNoValue(k, s[..|s| - 1]);
    }
  }

  /** Reading a sign ("" or "-") followed by a nonempty digit string. */
  lemma ParseSignedDigits(sign: string, z: string)
    requires sign == "" || sign == "-"
    requires z != [] && AllDigits(z)
    ensures ParseDecimal(sign + z) == Some(if sign == "-" then -(DigitsValue(z) as int) else DigitsValue(z))
  {
    if sign == "-" {
      assert (sign + z)[1..] == z;
    } else {
      assert sign + z == z;
    }
  }

  /** Zero padding is undone by reading the text back: no value is lost or changed. */
  lemma ZeroPadRoundTrip(n: int, width: nat)
    ensures ParseDecimal(ZeroPad(n, width)) == Some(n)
  {
    var digits := Digits(Abs(n));
    var z := Repeat('0', ZeroFill(n, width)) + digits;
    assert ZeroPad(n, width) == SignOf(n) + z;
    ZerosHaveNoValue(ZeroFill(n, width), digits);
    DigitsValueOfDigits(Abs(n));
    ParseSignedDigits(SignOf(n), z);
  }

  /** `str(n)` reads back as n. */
  lemma FormatIntRoundTrip(n: int)
    ensures ParseDecimal(FormatInt(n)) == Some(n)
  {
    FormatIntShape(n);
    DigitsValueOfDigits(Abs(n));
    ParseSignedDigits(SignOf(n), Digits(Abs(n)));
  }

  /** Space padding is undone by stripping: what is left is exactly `str(n)`. */
  lemma SpacePadStrips(n: int, width: nat)
    ensures Strip(SpacePad(n, width)) == FormatInt(n)
  {
    var text := FormatInt(n);
    var s := SpacePad(n, width);
    SpacePadShape(n, width);
    FormatIntShape(n);
    var pad := |s| - |text|;
    assert s[pad] == text[0];
    LeadingSpacesIs(s, pad);
    assert s[pad..] == text;
    assert TrailingSpaces(text) == 0;
  }

  lemma LeadingSpacesIs(s: string, k: nat)
    requires k <= |s|
    requires forall i :: 0 <= i < k ==> IsSpace(s[i])
    requires k < |s| ==> !IsSpace(s[k])
    ensures LeadingSpaces(s) == k
  {
    var m := LeadingSpaces(s);
  }

  /** A digit string followed by a non-digit is scanned exactly. */
  lemma DigitRunOf(d: string, rest: string)
    requires AllDigits(d)
    requires rest == [] || !IsDigit(rest[0])
    ensures DigitRun(d + rest) == |d|
  {
    var s := d + rest;
    assert forall i :: 0 <= i < |d| ==> s[i] == d[i];
    assert rest != [] ==> s[|d|] == rest[0];
  }

  /** A sign ("" or "-") and a nonempty digit string, followed by a non-digit, are scanned exactly. */
  lemma SignedRunOfSignedDigits(sign: string, tail: string, rest: string)
    requires sign == "" || sign == "-"
    requires tail != [] && AllDigits(tail)
    requires rest == [] || !IsDigit(rest[0])
    ensures SignedRun(sign + tail + rest) == |sign| + |tail|
  {
    var s := sign + tail + rest;
    if sign == "-" {
      assert s[1..] == tail + rest;
    } else {
      assert s == tail + rest;
    }
    DigitRunOf(tail, rest);
  }

  /** A zero-padded integer followed by a non-digit is scanned exactly. */
  lemma SignedRunOfZeroPad(n: int, width: nat, rest: string)
    requires rest == [] || !IsDigit(rest[0])
    ensures SignedRun(ZeroPad(n, width) + rest) == |ZeroPad(n, width)|
  {
    var sign := SignOf(n);
    var tail := Repeat('0', ZeroFill(n, width)) + Digits(Abs(n));
    assert tail != [] && AllDigits(tail) by {
      ZerosHaveNoValue(ZeroFill(n, width), Digits(Abs(n)));
    }
    assert SignedRun(sign + tail + rest) == |sign| + |tail| by {
      SignedRunOfSignedDigits(sign, tail, rest);
    }
    assert ZeroPad(n, width) == sign + tail;
  }

  /** `str(n)` followed by a non-digit is scanned exactly. */
  lemma SignedRunOfFormatInt(n: int, rest: string)
    requires rest == [] || !IsDigit(rest[0])
    ensures SignedRun(FormatInt(n) + rest) == |FormatInt(n)|
  {
    FormatIntShape(n);
    SignedRunOfSignedDigits(SignOf(n), Digits(Abs(n)), rest);
  }

  /** Blanks followed by a non-blank are scanned exactly. */
  lemma BlankRunOf(b: string, rest: string)
    requires forall i :: 0 <= i < |b| ==> b[i] == ' '
    requires rest == [] || rest[0] != ' '
    ensures BlankRun(b + rest) == |b|
  {
    var s := b + rest;
    assert forall i :: 0 <= i < |b| ==> s[i] == b[i];
    assert rest != [] ==> s[|b|] == rest[0];
  }
}
