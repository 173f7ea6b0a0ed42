/**
 * The legacy engine's four regular expressions (script.js:130-136) and the number test built on
 * them (script.js:794-824), written as predicates over the characters of a display text.
 */
module Classifiers {
  import opened Wrappers
  import opened JsNumber

  predicate IsDecimalDigit(c: char)
  {
    '0' <= c <= '9'
  }

  /** \d+ : one or more decimal digits. */
  predicate IsDigits(s: string)
  {
    |s| > 0 && forall i :: 0 <= i < |s| ==> IsDecimalDigit(s[i])
  }

  /** The text after an optional leading '-' (the -? of the patterns). */
  function Unsigned(s: string): (u: string)
    ensures |u| <= |s| && u == s[|s| - |u|..]
  {
    if |s| > 0 && s[0] == '-' then s[1..] else s
  }

  /** Position of the first c in s, or -1. */
  function IndexOf(s: string, c: char): (k: int)
    ensures -1 <= k < |s|
    ensures k >= 0 ==> s[k] == c && forall j :: 0 <= j < k ==> s[j] != c
    ensures k == -1 ==> forall j :: 0 <= j < |s| ==> s[j] != c
    decreases |s|
  {
    if |s| == 0 then -1
    else if s[0] == c then 0
    else
      var k := IndexOf(s[1..], c);
      if k == -1 then -1 else k + 1
  }

  /** \d+\.\d+ : digits, one point, digits. */
  predicate IsPointed(s: string)
  {
    var k := IndexOf(s, '.');
    k >= 0 && IsDigits(s[..k]) && IsDigits(s[k + 1..])
  }

  /** intPattern /^-?\d+$/ */
  predicate IsInteger(s: string)
  {
    IsDigits(Unsigned(s))
  }

  /** floatPattern /^-?\d+\.\d+$/ */
  predicate IsFloat(s: string)
  {
    IsPointed(Unsigned(s))
  }

  /** scientificPattern /^\d+\.\d+e(\+|-)\d+$/ : no sign before the mantissa. */
  predicate IsScientific(s: string)
  {
    var k := IndexOf(s, 'e');
    k >= 0 && IsPointed(s[..k]) && k + 1 < |s| && (s[k + 1] == '+' || s[k + 1] == '-') && IsDigits(s[k + 2..])
  }

  /** hexPattern /^[0-9A-F]+$/ : upper-case letters only. */
  predicate IsHex(s: string)
  {
    |s| > 0 && forall i :: 0 <= i < |s| ==> IsDecimalDigit(s[i]) || 'A' <= s[i] <= 'F'
  }

  /** isNumber: any of the four patterns. */
  predicate IsNumber(s: string)
  {
    IsInteger(s) || IsFloat(s) || IsScientific(s) || IsHex(s)
  }

  /** The decimal value of a text that matches intPattern. */
  function IntegerValue(s: string): (i: int)
    requires IsInteger(s)
  {
    if |s| > 0 && s[0] == '-' then -(DigitsValue(s[1..], 10) as int) else DigitsValue(s, 10)
  }

  lemma DigitsAreDecimal(s: string)
    requires IsDigits(s)
    ensures |s| > 0 && AllDigits(s, 10)
  {
  }

  /** parseInt(s) reads every character of a text that matches intPattern. */
  lemma {:induction false} ParseIntOfInteger(s: string)
    requires IsInteger(s)
    ensures ParseInt(s, 10) == Some(IntegerValue(s))
  {
    if |s| > 0 && s[0] == '-' {
      DigitsAreDecimal(s[1..]);
      ParseDigitsAll(s[1..], 10);
      ParseIntMinus(s[1..], 10, DigitsValue(s[1..], 10));
      assert "-" + s[1..] == s;
    } else {
      DigitsAreDecimal(s);
      ParseIntOfDigits(s, 10);
    }
  }

  /** String(i) of every integer matches intPattern and reads back as i. */
  lemma {:induction false} DecimalStringIsInteger(i: int)
    ensures IsInteger(DecimalString(i))
    ensures IntegerValue(DecimalString(i)) == i
  {
    var s := DecimalString(i);
    var t := ToRadix(if i < 0 then -i else i, 10);
    assert forall j :: 0 <= j < |t| ==> DigitValue(t[j]) < 10;
    assert forall j :: 0 <= j < |t| ==> IsDecimalDigit(t[j]);
    if i < 0 {
      assert s == "-" + t && s[1..] == t;
    }
    ParseIntToRadix(i, 10);
    ParseIntOfInteger(s);
  }

  /** Every unsigned integer text also matches hexPattern, so isNumber admits it twice over. */
  lemma UnsignedIntegerIsHex(s: string)
    requires IsDigits(s)
    ensures IsHex(s) && IsNumber(s)
  {
  }

  /** No sign, no point and one character that is neither a digit nor A-F: none of the four patterns matches. */
  lemma NotNumber(s: string, i: nat)
    requires i < |s| && s[0] != '-' && !IsDecimalDigit(s[i]) && !('A' <= s[i] <= 'F')
    requires forall j :: 0 <= j < |s| ==> s[j] != '.'
    ensures !IsNumber(s)
  {
    assert Unsigned(s) == s;
    assert IndexOf(s, '.') == -1;
    var k := IndexOf(s, 'e');
    if k >= 0 {
      assert IndexOf(s[..k], '.') == -1;
    }
  }

  /** A point is not a digit: an integer text is never a decimal text. */
  lemma IntegerIsNotFloat(s: string)
    requires IsInteger(s)
    ensures !IsFloat(s)
  {
    var u := Unsigned(s);
    assert u[0] != '-';
    assert Unsigned(s) == u;
    assert IndexOf(u, '.') == -1;
  }

  lemma DecimalDigitsAreDigits(t: string)
    requires |t| > 0 && AllDigits(t, 10)
    ensures IsDigits(t)
  {
    assert forall j :: 0 <= j < |t| ==> DigitValue(t[j]) < 10;
  }

  /** The mantissa part d.ddddddd of an exponential text. */
  lemma MantissaBody(m: string)
    requires |m| == 8 && IsDigits(m)
    ensures var body := [m[0]] + "." + m[1..];
      |body| == 9 && IndexOf(body, '.') == 1 && IsPointed(body) && IndexOf(body, 'e') == -1
  {
    var body := [m[0]] + "." + m[1..];
    assert body[..1] == [m[0]] && body[2..] == m[1..];
    assert forall j :: 2 <= j < 9 ==> body[j] == m[j - 1];
  }

  /** d.ddddddde+dd matches scientificPattern. */
  lemma PositiveExponentialText(m: string, e: string, s: string)
    requires |m| == 8 && IsDigits(m) && IsDigits(e)
    requires s == [m[0]] + "." + m[1..] + "e+" + e
    ensures IsScientific(s)
  {
    var body := [m[0]] + "." + m[1..];
    MantissaBody(m);
    assert s[..9] == body && s[9] == 'e' && s[10] == '+' && s[11..] == e;
    assert forall j :: 0 <= j < 9 ==> s[j] == body[j];
    assert IndexOf(s, 'e') == 9;
  }

  /** scientificPattern admits no sign before the mantissa. */
  lemma SignedNotScientific(s: string)
    requires |s| > 0 && s[0] == '-'
    ensures !IsScientific(s)
  {
    var k := IndexOf(s, 'e');
    if k > 0 {
      var p := IndexOf(s[..k], '.');
      if p > 0 {
        assert s[..k][..p][0] == '-';
      }
    }
  }

  /** -d.ddddddde+dd matches none of the four patterns. */
  lemma NegativeExponentialText(m: string, e: string, s: string)
    requires |m| == 8 && IsDigits(m) && IsDigits(e)
    requires s == "-" + [m[0]] + "." + m[1..] + "e+" + e
    ensures !IsNumber(s)
  {
    var body := [m[0]] + "." + m[1..];
    MantissaBody(m);
    var tail := s[1..];
    assert tail == body + "e+" + e;
    assert tail[..9] == body && tail[9] == 'e';
    assert Unsigned(s) == tail;
    assert !IsDigits(tail) by { assert tail[1] == '.'; }
    assert IndexOf(tail, '.') == 1 by { assert forall j :: 0 <= j < 9 ==> tail[j] == body[j]; }
    assert !IsFloat(s) by { assert tail[2..][7] == 'e'; }
    SignedNotScientific(s);
    assert !IsHex(s) by { assert s[0] == '-'; }
  }

  /**
   * toExponential(7) of a positive integer matches scientificPattern, so the display it
   * produces can be an operand again; that of a negative integer matches none of the four
   * patterns, so a display showing it is not a number to isNumber.
   */
  lemma ExponentialIsNumberIffPositive(x: int)
    requires x != 0
    ensures x > 0 ==> IsScientific(ToExponential7(x))
    ensures x < 0 ==> !IsNumber(ToExponential7(x))
  {
    var a: nat := if x < 0 then -x else x;
    var me := Mantissa(a);
    var m := ToRadix(me.0, 10);
    var e := ToRadix(me.1, 10);
    var t := ToExponential7(x);
    ExponentialShape(x);
    DecimalDigitsAreDigits(m);
    DecimalDigitsAreDigits(e);
    if x > 0 {
      assert t == "" + ([m[0]] + "." + m[1..] + "e+" + e);
      PositiveExponentialText(m, e, t);
    } else {
      NegativeExponentialText(m, e, t);
    }
  }
}
