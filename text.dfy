/** The few string operations of Python's `str` that the modelled code relies on. */
module Text {
  import opened Wrappers

  /**
   * The characters `str.strip()` removes: the ASCII whitespace and separator
   * controls and the Unicode space separators without bidi restriction.
   */
  predicate IsSpace(c: char) {
    c in {'\U{20}', '\U{9}', '\U{A}', '\U{D}', '\U{B}', '\U{C}', '\U{1C}', '\U{1D}',
          '\U{1E}', '\U{1F}', '\U{85}', '\U{A0}', '\U{1680}', '\U{2000}', '\U{2001}', '\U{2002}',
          '\U{2003}', '\U{2004}', '\U{2005}', '\U{2006}', '\U{2007}', '\U{2008}', '\U{2009}', '\U{200A}',
          '\U{2028}', '\U{2029}', '\U{202F}', '\U{205F}', '\U{3000}'}
  }

  /** `s.lstrip()`. */
  function StripLeft(s: string): (r: string)
    ensures |r| <= |s| && r == s[|s| - |r|..]
    ensures r == [] || !IsSpace(r[0])
    ensures forall i :: 0 <= i < |s| - |r| ==> IsSpace(s[i])
  {
    if |s| > 0 && IsSpace(s[0]) then StripLeft(s[1..]) else s
  }

  /** `s.rstrip()`. */
  function StripRight(s: string): (r: string)
    ensures |r| <= |s| && r == s[..|r|]
    ensures r == [] || !IsSpace(r[|r| - 1])
    ensures forall i :: |r| <= i < |s| ==> IsSpace(s[i])
  {
    if |s| > 0 && IsSpace(s[|s| - 1]) then StripRight(s[..|s| - 1]) else s
  }

  /** `s.strip()`: no space remains at either end. */
  function Strip(s: string): (r: string)
    ensures |r| <= |s|
    ensures r == [] || (!IsSpace(r[0]) && !IsSpace(r[|r| - 1]))
  {
    StripRight(StripLeft(s))
  }

  /** Upper-casing of one character (ASCII letters only). */
  function UpperChar(c: char): char {
    if 'a' <= c <= 'z' then (c as int - 32) as char else c
  }

  /** Lower-casing of one character (ASCII letters only). */
  function LowerChar(c: char): char {
    if 'A' <= c <= 'Z' then (c as int + 32) as char else c
  }

  /** `s.upper()` restricted to ASCII letters. */
  function Upper(s: string): (r: string)
    ensures |r| == |s| && forall i :: 0 <= i < |s| ==> r[i] == UpperChar(s[i])
  {
    seq(|s|, i requires 0 <= i < |s| => UpperChar(s[i]))
  }

  /** `s.lower()` restricted to ASCII letters. */
  function Lower(s: string): (r: string)
    ensures |r| == |s| && forall i :: 0 <= i < |s| ==> r[i] == LowerChar(s[i])
  {
    seq(|s|, i requires 0 <= i < |s| => LowerChar(s[i]))
  }

  /** `sep.join(parts)`. */
  function Join(parts: seq<string>, sep: string): (r: string)
    ensures |parts| == 1 ==> r == parts[0]
  {
    if |parts| == 0 then ""
    else if |parts| == 1 then parts[0]
    else parts[0] + sep + Join(parts[1..], sep)
  }

  /** `s.split(c)` for a one-character separator: the pieces between the separators, in order. */
  function Split(s: string, c: char): (r: seq<string>)
    ensures |r| >= 1
    ensures forall k :: 0 <= k < |r| ==> c !in r[k]
  {
    if |s| == 0 then [""]
    else
      var rest := Split(s[1..], c);
      if s[0] == c then [""] + rest else [[s[0]] + rest[0]] + rest[1..]
  }

  /** A string without the separator is one piece. */
  lemma {:induction false} SplitOfOnePiece(s: string, c: char)
    requires c !in s
    ensures Split(s, c) == [s]
  {
    if |s| > 0 {
      assert c !in s[1..];
      SplitOfOnePiece(s[1..], c);
      assert [s[0]] + s[1..] == s;
    }
  }

  /** The first separator ends the first piece. */
  lemma {:induction false} SplitAtFirst(a: string, c: char, b: string)
    requires c !in a
    ensures Split(a + [c] + b, c) == [a] + Split(b, c)
  {
    if |a| == 0 {
      assert a + [c] + b == [c] + b;
      assert ([c] + b)[1..] == b;
    } else {
      assert (a + [c] + b)[1..] == a[1..] + [c] + b;
      assert c !in a[1..];
      SplitAtFirst(a[1..], c, b);
      assert [a[0]] + a[1..] == a;
    }
  }

  /** Joining pieces that do not contain the separator and splitting again gives the pieces back. */
  lemma {:induction false} SplitJoin(parts: seq<string>, c: char)
    requires |parts| >= 1
    requires forall k :: 0 <= k < |parts| ==> c !in parts[k]
    ensures Split(Join(parts, [c]), c) == parts
  {
    if |parts| == 1 {
      SplitOfOnePiece(parts[0], c);
    } else {
      SplitJoin(parts[1..], c);
      SplitAtFirst(parts[0], c, Join(parts[1..], [c]));
      assert [parts[0]] + parts[1..] == parts;
    }
  }

  predicate IsDigit(c: char) {
    '0' <= c <= '9'
  }

  function DigitValue(c: char): nat
    requires IsDigit(c)
  {
    c as int - '0' as int
  }

  predicate AllDigits(s: string) {
    forall i :: 0 <= i < |s| ==> IsDigit(s[i])
  }

  /** The number a string of decimal digits denotes. */
  function DigitsValue(s: string): nat
    requires AllDigits(s)
  {
    if |s| == 0 then 0 else 10 * DigitsValue(s[..|s| - 1]) + DigitValue(s[|s| - 1])
  }

  /** `str(n)` for a natural number. */
  function NatToString(n: nat): (r: string)
    ensures |r| > 0 && AllDigits(r)
    ensures DigitsValue(r) == n
    decreases n
  {
    var last := ['0' + (n % 10) as char];
    assert DigitsValue(last) == n % 10;
    if n < 10 then last
    else
      var r := NatToString(n / 10) + last;
      assert r[..|r| - 1] == NatToString(n / 10);
      r
  }

  /** `str(i)` for any integer. */
  function IntToString(i: int): (r: string)
    ensures |r| > 0
  {
    if i < 0 then "-" + NatToString(-i) else NatToString(i)
  }

  function Pow10(e: nat): (r: nat)
    ensures r >= 1
  {
    if e == 0 then 1 else 10 * Pow10(e - 1)
  }

  /** The index of the first character of `s` that is one of `marks`, or `|s|`. */
  function FindFirst(s: string, marks: set<char>): (i: nat)
    ensures i <= |s|
    ensures forall j :: 0 <= j < i ==> s[j] !in marks
    ensures i < |s| ==> s[i] in marks
  {
    if |s| == 0 then 0
    else if s[0] in marks then 0
    else 1 + FindFirst(s[1..], marks)
  }

  /** The value of the digits after a decimal point. */
  function FractionValue(frac: string): real
    requires AllDigits(frac)
  {
    if |frac| == 0 then 0.0 else DigitsValue(frac) as real / Pow10(|frac|) as real
  }

  /**
   * The digits-with-optional-point part of a decimal literal ("12", "12.", ".5",
   * "12.50"); at least one digit is required.
   */
  function ParseMantissa(s: string): Option<real> {
    var dot := FindFirst(s, {'.'});
    var whole := s[..dot];
    var frac := if dot < |s| then s[dot + 1..] else "";
    if AllDigits(whole) && AllDigits(frac) && |whole| + |frac| > 0 then
      Some(DigitsValue(whole) as real + FractionValue(frac))
    else None
  }

  /** An optionally signed run of digits, as in an exponent. */
  function ParseSignedInt(s: string): Option<int> {
    var neg := |s| > 0 && s[0] == '-';
    var digits := if |s| > 0 && (s[0] == '-' || s[0] == '+') then s[1..] else s;
    if |digits| > 0 && AllDigits(digits) then
      Some(if neg then -(DigitsValue(digits) as int) else DigitsValue(digits))
    else None
  }

  /** `m * 10^e` for an integer exponent. */
  function Scale(m: real, e: int): real {
    if e >= 0 then m * Pow10(e) as real else m / Pow10(-e) as real
  }

  /**
   * `float(s)` on a string that holds an ordinary decimal literal: optional
   * surrounding whitespace, optional sign, digits with an optional point,
   * optional exponent. Anything else is `None` (the caller raises `ValueError`).
   */
  function ParseFloat(s: string): (r: Option<real>)
    ensures Strip(s) == [] ==> r.None?
  {
    var t := Strip(s);
    var neg := |t| > 0 && t[0] == '-';
    var body := if |t| > 0 && (t[0] == '-' || t[0] == '+') then t[1..] else t;
    var e := FindFirst(body, {'e', 'E'});
    var mantissa := ParseMantissa(body[..e]);
    var exponent := if e < |body| then ParseSignedInt(body[e + 1..]) else Some(0);
    if mantissa.Some? && exponent.Some? then
      var v := Scale(mantissa.value, exponent.value);
      Some(if neg then -v else v)
    else None
  }

  /** A string with no space at either end is left as it is by `strip()`. */
  lemma StripUnspaced(s: string)
    requires |s| > 0 ==> !IsSpace(s[0]) && !IsSpace(s[|s| - 1])
    ensures Strip(s) == s
  {
  }

  /** A run of digits has no point and no exponent mark. */
  lemma FindFirstInDigits(s: string, marks: set<char>)
    requires AllDigits(s)
    requires forall c :: c in marks ==> !IsDigit(c)
    ensures FindFirst(s, marks) == |s|
  {
  }

  /** A run of digits is a mantissa denoting its digit value. */
  lemma ParseMantissaOfDigits(s: string)
    requires |s| > 0 && AllDigits(s)
    ensures ParseMantissa(s) == Some(DigitsValue(s) as real)
  {
    FindFirstInDigits(s, {'.'});
    assert s[..|s|] == s;
  }

  lemma ScaleByOne(m: real)
    ensures Scale(m, 0) == m
  {
    assert Pow10(0) == 1;
  }

  /** A run of digits is its own stripped form, has no sign and no exponent, and is a mantissa. */
  lemma DigitsAreAPlainMantissa(s: string)
    requires |s| > 0 && AllDigits(s)
    ensures Strip(s) == s
    ensures s[0] != '-' && s[0] != '+'
    ensures FindFirst(s, {'e', 'E'}) == |s| && s[..|s|] == s
    ensures ParseMantissa(s) == Some(DigitsValue(s) as real)
  {
    assert IsDigit(s[0]) && IsDigit(s[|s| - 1]);
    StripUnspaced(s);
    FindFirstInDigits(s, {'e', 'E'});
    ParseMantissaOfDigits(s);
  }

  /** A run of digits parses as the number it denotes. */
  lemma ParseFloatOfDigits(s: string)
    requires |s| > 0 && AllDigits(s)
    ensures ParseFloat(s) == Some(DigitsValue(s) as real)
  {
    DigitsAreAPlainMantissa(s);
    ScaleByOne(DigitsValue(s) as real);
  }

  /** `float(str(n)) == n` for every natural number `n`. */
  lemma ParseFloatOfNat(n: nat)
    ensures ParseFloat(NatToString(n)) == Some(n as real)
  {
    ParseFloatOfDigits(NatToString(n));
  }
}
