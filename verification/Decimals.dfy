/** Exact decimal text of raw amounts: what is printed parses back to the value, and what parses
    prints back as it was, without trailing fractional zeros. */
module Decimals {
  import opened Rules
  import opened Exact
  import opened Governance

  const MAX_TEXT := 160

  predicate IsDigit(c: char) {
    '0' <= c <= '9'
  }

  predicate AllDigits(s: string) {
    forall i | 0 <= i < |s| :: IsDigit(s[i])
  }

  function Value(c: char): nat
    requires IsDigit(c)
  {
    (c - '0') as nat
  }

  function Digit(n: nat): (c: char)
    requires n < 10
    ensures IsDigit(c) && Value(c) == n
  {
    '0' + n as char
  }

  /** The number a digit string denotes, and the text of a number. */
  function Number(s: string): nat
    requires AllDigits(s)
  {
    if s == "" then 0 else 10 * Number(s[..|s| - 1]) + Value(s[|s| - 1])
  }

  function Text(n: nat): (s: string)
    ensures AllDigits(s) && s != ""
  {
    if n < 10 then [Digit(n)] else Text(n / 10) + [Digit(n % 10)]
  }

  function Zeros(n: nat): (s: string)
    ensures |s| == n && AllDigits(s) && forall i | 0 <= i < n :: s[i] == '0'
  {
    seq(n, _ => '0')
  }

  /** Digits without trailing zeros. */
  function Trimmed(s: string): (t: string)
    ensures |t| <= |s| && t == s[..|t|] && (t != "" ==> t[|t| - 1] != '0')
    ensures forall i | |t| <= i < |s| :: s[i] == '0'
  {
    if s != "" && s[|s| - 1] == '0' then Trimmed(s[..|s| - 1]) else s
  }

  // ------------------------------------------------------------------ the format

  predicate Whole(s: string) {
    s != "" && AllDigits(s) && (s[0] == '0' ==> |s| == 1)
  }

  /** Where the decimal point is, or the length of the text. */
  function Point(s: string): (i: nat)
    ensures i <= |s| && (i < |s| ==> s[i] == '.') && forall j | 0 <= j < i :: s[j] != '.'
  {
    if s == "" || s[0] == '.' then 0 else 1 + Point(s[1..])
  }

  function WholePart(s: string): string {
    s[..Point(s)]
  }

  function FractionPart(s: string): string {
    if Point(s) == |s| then "" else s[Point(s) + 1..]
  }

  /** An unsigned plain decimal: no sign, no exponent, no leading zero, digits after a point. */
  predicate Plain(s: string) {
    Whole(WholePart(s)) && AllDigits(FractionPart(s)) && (Point(s) < |s| ==> FractionPart(s) != "")
  }

  function ParseScaled(s: string, exponent: int): Rules.Option<nat> {
    if |s| > MAX_TEXT || !Plain(s) then None else
    var digits := Number(WholePart(s) + FractionPart(s));
    var shift := exponent - |FractionPart(s)|;
    if shift >= 0 then Some(digits * Pow10(shift)) else
    var divisor := Pow10(-shift);
    if digits % divisor != 0 then None else Some(digits / divisor)
  }

  function Padded(s: string, n: nat): string {
    if |s| < n then Zeros(n - |s|) + s else s
  }

  function Pointed(whole: string, fraction: string): string {
    if fraction == "" then whole else whole + "." + fraction
  }

  function FormatScaled(value: nat, exponent: int): string {
    if exponent <= 0 then Text(value * Pow10(-exponent)) else
    var digits := Padded(Text(value), exponent + 1);
    Pointed(digits[..|digits| - exponent], Trimmed(digits[|digits| - exponent..]))
  }

  /** A text without its trailing fractional zeros. */
  function Canonical(s: string): string {
    Pointed(WholePart(s), Trimmed(FractionPart(s)))
  }

  // -------------------------------------------------------------- numbers and text

  lemma {:induction false} Pow10Adds(n: nat, m: nat)
    ensures Pow10(n + m) == Pow10(n) * Pow10(m)
  {
    if n > 0 {
      Pow10Adds(n - 1, m);
      assert Pow10(n + m) == 10 * (Pow10(n - 1) * Pow10(m));
      Associates(10, Pow10(n - 1), Pow10(m));
    }
  }

  lemma Associates(a: int, b: int, c: int)
    ensures a * (b * c) == (a * b) * c
  {
  }

  lemma {:induction false} NumberOfText(n: nat)
    ensures Number(Text(n)) == n
  {
    if n >= 10 {
      NumberOfText(n / 10);
      assert Text(n)[..|Text(n)| - 1] == Text(n / 10);
    }
  }

  /** Appending zeros multiplies, whatever they are appended to. */
  lemma {:induction false} NumberWithZeros(s: string, t: string)
    requires AllDigits(s) && AllDigits(t) && |s| <= |t| && t[..|s|] == s && forall i | |s| <= i < |t| :: t[i] == '0'
    ensures Number(t) == Number(s) * Pow10(|t| - |s|)
    decreases |t|
  {
    if |s| == |t| {
      assert s == t;
    } else {
      var u := t[..|t| - 1];
      assert u[..|s|] == s;
      NumberWithZeros(s, u);
      Associates(10, Number(s), Pow10(|u| - |s|));
      Associates(Number(s), 10, Pow10(|u| - |s|));
    }
  }

  lemma {:induction false} LeadingZeros(n: nat, s: string)
    requires AllDigits(s)
    ensures Number(Zeros(n) + s) == Number(s)
    decreases n + |s|
  {
    var t := Zeros(n) + s;
    if s != "" {
      assert t[..|t| - 1] == Zeros(n) + s[..|s| - 1];
      LeadingZeros(n, s[..|s| - 1]);
    } else if n > 0 {
      assert t[..|t| - 1] == Zeros(n - 1) + "";
      LeadingZeros(n - 1, "");
    }
  }

  /** Digits are the text of their number behind leading zeros. */
  lemma {:induction false} TextOfNumber(s: string)
    requires AllDigits(s) && s != ""
    ensures |Text(Number(s))| <= |s| && s == Zeros(|s| - |Text(Number(s))|) + Text(Number(s))
  {
    var last, rest := s[|s| - 1], s[..|s| - 1];
    assert last == Digit(Value(last));
    if rest != "" {
      TextOfNumber(rest);
      var n := Number(rest);
      if n == 0 {
        assert Text(Number(s)) == [last];
        assert rest == Zeros(|rest| - 1) + Text(0);
        assert s == Zeros(|s| - 1) + [last];
      } else {
        assert Number(s) / 10 == n && Number(s) % 10 == Value(last);
        assert Text(Number(s)) == Text(n) + [last];
      }
    }
  }

  lemma {:induction false} TextStarts(n: nat)
    ensures Text(n)[0] == '0' ==> n == 0
  {
    if n >= 10 {
      TextStarts(n / 10);
    }
  }

  lemma TextIsWhole(n: nat)
    ensures Whole(Text(n))
  {
    TextStarts(n);
  }

  lemma {:induction false} NoPoint(s: string)
    requires AllDigits(s)
    ensures Point(s) == |s|
  {
    if s != "" {
      NoPoint(s[1..]);
    }
  }

  lemma {:induction false} PointAfter(whole: string, fraction: string)
    requires AllDigits(whole)
    ensures Point(whole + "." + fraction) == |whole|
  {
    var s := whole + "." + fraction;
    if whole != "" {
      assert s[1..] == whole[1..] + "." + fraction;
      PointAfter(whole[1..], fraction);
    }
  }

  /** The parts of a text that was put together. */
  lemma PartsOfPointed(whole: string, fraction: string)
    requires Whole(whole) && AllDigits(fraction)
    ensures var s := Pointed(whole, fraction); Plain(s) && WholePart(s) == whole && FractionPart(s) == fraction
  {
    if fraction == "" {
      NoPoint(whole);
    } else {
      PointAfter(whole, fraction);
    }
  }

  // -------------------------------------------------------------------- round trips

  lemma Shifted(value: nat, exponent: int)
    requires exponent <= 0
    ensures (value * Pow10(-exponent)) / Pow10(-exponent) == value && (value * Pow10(-exponent)) % Pow10(-exponent) == 0
  {
    FloorOfMultiple(value, Pow10(-exponent));
  }

  /** Padding changes no number; what is before the point is a whole number's text. */
  lemma PaddedText(value: nat, exponent: nat)
    requires exponent > 0
    ensures var digits := Padded(Text(value), exponent + 1);
            && AllDigits(digits) && |digits| > exponent && Number(digits) == value
            && Whole(digits[..|digits| - exponent])
  {
    hide Number, Text;
    var text := Text(value);
    NumberOfText(value);
    TextStarts(value);
    TextOfZero();
    if |text| < exponent + 1 {
      LeadingZeros(exponent + 1 - |text|, text);
      assert Padded(text, exponent + 1)[0] == '0';
    }
  }

  lemma TextOfZero()
    ensures Text(0) == "0"
  {
  }

  /** Digits split at the point, without the zeros that end them. */
  lemma DigitsSplit(digits: string, exponent: nat)
    requires AllDigits(digits) && |digits| > exponent
    ensures var whole, fraction := digits[..|digits| - exponent], Trimmed(digits[|digits| - exponent..]);
            && AllDigits(fraction) && |fraction| <= exponent
            && AllDigits(whole + fraction) && Number(whole + fraction) * Pow10(exponent - |fraction|) == Number(digits)
  {
    hide Number, Trimmed, Pow10;
    var whole, rest := digits[..|digits| - exponent], digits[|digits| - exponent..];
    var fraction := Trimmed(rest);
    assert digits == whole + rest;
    assert digits[..|whole + fraction|] == whole + fraction;
    NumberWithZeros(whole + fraction, digits);
  }

  /** Printed text denotes the value: its digits, with the zeros the point leaves out. */
  lemma PrintedDigits(value: nat, exponent: nat)
    requires exponent > 0
    ensures var digits := Padded(Text(value), exponent + 1);
            && |digits| > exponent && AllDigits(digits)
            && var whole, fraction := digits[..|digits| - exponent], Trimmed(digits[|digits| - exponent..]);
            && Whole(whole) && AllDigits(fraction) && |fraction| <= exponent
            && AllDigits(whole + fraction) && Number(whole + fraction) * Pow10(exponent - |fraction|) == value
  {
    hide Number, Text, Trimmed, Padded, Pow10, Whole, AllDigits;
    PaddedText(value, exponent);
    DigitsSplit(Padded(Text(value), exponent + 1), exponent);
  }

  lemma ParsesParts(whole: string, fraction: string, exponent: int, value: nat)
    requires Whole(whole) && AllDigits(fraction) && |Pointed(whole, fraction)| <= MAX_TEXT && |fraction| <= exponent
    requires AllDigits(whole + fraction) && Number(whole + fraction) * Pow10(exponent - |fraction|) == value
    ensures ParseScaled(Pointed(whole, fraction), exponent) == Some(value)
  {
    hide Number, Plain, Pointed;
    PartsOfPointed(whole, fraction);
  }

  /** Parsing printed text returns the value, whatever the exponent, if the text is short enough to parse. */
  lemma ParseOfPrinted(value: nat, exponent: int)
    ensures |FormatScaled(value, exponent)| <= MAX_TEXT
            ==> ParseScaled(FormatScaled(value, exponent), exponent) == Some(value)
  {
    hide Number, Text, Trimmed, Padded, ParseScaled, Whole;
    if |FormatScaled(value, exponent)| <= MAX_TEXT {
      if exponent <= 0 {
        ParseOfWhole(value, exponent);
      } else {
        PrintedDigits(value, exponent);
        var digits := Padded(Text(value), exponent + 1);
        ParsesParts(digits[..|digits| - exponent], Trimmed(digits[|digits| - exponent..]), exponent, value);
      }
    }
  }

  lemma ParseOfWhole(value: nat, exponent: int)
    requires exponent <= 0 && |Text(value * Pow10(-exponent))| <= MAX_TEXT
    ensures ParseScaled(Text(value * Pow10(-exponent)), exponent) == Some(value)
  {
    hide Number, Text, Whole;
    var n := value * Pow10(-exponent);
    Shifted(value, exponent);
    TextIsWhole(n);
    PartsOfPointed(Text(n), "");
    NumberOfText(n);
    assert Text(n) + "" == Text(n);
  }

  // ------------------------------------------------------------ printing what parsed

  /** Digits that are no longer than needed before the point are what printing pads to. */
  lemma PaddedDigits(whole: string, rest: string, exponent: nat)
    requires Whole(whole) && AllDigits(rest) && |rest| == exponent && exponent > 0 && AllDigits(whole + rest)
    ensures Padded(Text(Number(whole + rest)), exponent + 1) == whole + rest
  {
    hide Number, Text;
    var t := whole + rest;
    TextOfNumber(t);
    var zeros := |t| - |Text(Number(t))|;
    if zeros > 0 {
      assert t[0] == Zeros(zeros)[0] == '0';
      assert |t| == exponent + 1;
    }
  }

  /** A number whose last digit is not zero is no multiple of ten. */
  lemma LastDigit(s: string)
    requires AllDigits(s) && s != "" && s[|s| - 1] != '0'
    ensures Number(s) % 10 != 0
  {
  }

  /** What parses with a fraction has, trimmed, no more decimals than the exponent. */
  lemma TrimmedFits(s: string, exponent: int)
    requires ParseScaled(s, exponent).Some? && Trimmed(FractionPart(s)) != ""
    ensures |Trimmed(FractionPart(s))| <= exponent
  {
    hide Number, Trimmed, Point;
    var whole, fraction := WholePart(s), FractionPart(s);
    var t := Trimmed(fraction);
    if |t| > exponent {
      assert (whole + fraction)[..|whole + t|] == whole + t;
      NumberWithZeros(whole + t, whole + fraction);
      var zeros, short := |fraction| - |t|, |t| - exponent;
      Pow10Adds(short, zeros);
      DividesFactor(Number(whole + t), Pow10(short), Pow10(zeros));
      TenDivides(Number(whole + t), short);
      LastDigit(whole + t);
    }
  }

  /** If d * z divides n * z, d divides n. */
  lemma DividesFactor(n: nat, d: nat, z: nat)
    requires d > 0 && z > 0 && d * z > 0 && (n * z) % (d * z) == 0
    ensures n % d == 0
  {
    var k := (n * z) / (d * z);
    assert n * z == (d * z) * k;
    assert n * z == (k * d) * z by {
      assert (d * z) * k == (k * d) * z;
    }
    CancelEqual(n, k * d, z);
    MultipleOf(n, k, d);
  }

  lemma CancelEqual(a: nat, b: nat, z: nat)
    requires z > 0 && a * z == b * z
    ensures a == b
  {
    CancelFactor(a, b, z);
    CancelFactor(b, a, z);
  }

  lemma TenDivides(n: nat, k: nat)
    requires k > 0 && n % Pow10(k) == 0
    ensures n % 10 == 0
  {
    var q := n / Pow10(k);
    assert n == Pow10(k) * q;
    assert n == (Pow10(k - 1) * q) * 10 by {
      assert Pow10(k) == 10 * Pow10(k - 1);
      assert (10 * Pow10(k - 1)) * q == (Pow10(k - 1) * q) * 10;
    }
    MultipleOf(n, Pow10(k - 1) * q, 10);
  }

  lemma {:induction false} TrimZeros(t: string, n: nat)
    requires AllDigits(t) && (t != "" ==> t[|t| - 1] != '0')
    ensures Trimmed(t + Zeros(n)) == t
  {
    if n == 0 {
      assert t + Zeros(0) == t;
    } else {
      var s := t + Zeros(n);
      assert s[..|s| - 1] == t + Zeros(n - 1);
      TrimZeros(t, n - 1);
    }
  }

  lemma DigitsOf(s: string)
    requires Plain(s)
    ensures Whole(WholePart(s)) && AllDigits(FractionPart(s)) && AllDigits(WholePart(s) + FractionPart(s))
  {
  }

  /** The digits a parsed value has up to the exponent. */
  lemma ParsedDigits(s: string, exponent: nat, value: nat)
    requires ParseScaled(s, exponent) == Some(value) && |Trimmed(FractionPart(s))| <= exponent
    ensures var rest := Trimmed(FractionPart(s)) + Zeros(exponent - |Trimmed(FractionPart(s))|);
            Plain(s) && AllDigits(WholePart(s) + rest) && Number(WholePart(s) + rest) == value
  {
    hide Number, Trimmed, Plain, WholePart, FractionPart;
    DigitsOf(s);
    var whole, fraction := WholePart(s), FractionPart(s);
    var t := Trimmed(fraction);
    var rest := t + Zeros(exponent - |t|);
    if exponent >= |fraction| {
      assert (whole + rest)[..|whole + fraction|] == whole + fraction;
      NumberWithZeros(whole + fraction, whole + rest);
    } else {
      assert (whole + fraction)[..|whole + rest|] == whole + rest;
      NumberWithZeros(whole + rest, whole + fraction);
      FloorOfMultiple(Number(whole + rest), Pow10(|fraction| - exponent));
    }
  }

  /** Without a fraction's value, the exponent is not positive only if the whole part has the zeros. */
  lemma ParsedWhole(s: string, exponent: int, value: nat)
    requires ParseScaled(s, exponent) == Some(value) && exponent <= 0 && Trimmed(FractionPart(s)) == ""
    ensures Plain(s) && AllDigits(WholePart(s)) && Number(WholePart(s)) == value * Pow10(-exponent)
  {
    hide Number, Trimmed, Plain, WholePart, FractionPart;
    DigitsOf(s);
    var whole, fraction := WholePart(s), FractionPart(s);
    assert (whole + fraction)[..|whole|] == whole;
    NumberWithZeros(whole, whole + fraction);
    var z, d := Pow10(|fraction|), Pow10(-exponent);
    Pow10Adds(-exponent, |fraction|);
    assert -exponent + |fraction| == |fraction| - exponent;
    WholeQuotient(Number(whole), d, z, value);
  }

  lemma WholeQuotient(n: nat, d: nat, z: nat, value: nat)
    requires d > 0 && z > 0 && d * z > 0 && (n * z) % (d * z) == 0 && value == (n * z) / (d * z)
    ensures n == value * d
  {
    assert n * z == (d * z) * value;
    assert (d * z) * value == (value * d) * z;
    CancelEqual(n, value * d, z);
  }

  /** Printing what was parsed returns the text without its trailing fractional zeros. */
  lemma PrintOfParsed(s: string, exponent: int, value: nat)
    requires ParseScaled(s, exponent) == Some(value)
    ensures FormatScaled(value, exponent) == Canonical(s)
  {
    hide Number, Trimmed, Padded, Text, ParseScaled, Point;
    var whole, t := WholePart(s), Trimmed(FractionPart(s));
    if t != "" {
      TrimmedFits(s, exponent);
    }
    if exponent <= 0 {
      ParsedWhole(s, exponent, value);
      WholeIsText(whole);
    } else {
      ParsedDigits(s, exponent, value);
      ParsedIsPlain(s, exponent);
      var rest := t + Zeros(exponent - |t|);
      PaddedDigits(whole, rest, exponent);
      assert (whole + rest)[..|whole|] == whole && (whole + rest)[|whole|..] == rest;
      TrimZeros(t, exponent - |t|);
    }
  }

  lemma ParsedIsPlain(s: string, exponent: int)
    requires ParseScaled(s, exponent).Some?
    ensures Whole(WholePart(s)) && AllDigits(FractionPart(s)) && AllDigits(Trimmed(FractionPart(s)))
  {
  }

  lemma WholeIsText(whole: string)
    requires Whole(whole)
    ensures Text(Number(whole)) == whole
  {
    hide Number, Text;
    TextOfNumber(whole);
    var zeros := |whole| - |Text(Number(whole))|;
    assert whole[0] == (Zeros(zeros) + Text(Number(whole)))[0];
  }
}
