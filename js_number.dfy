/**
 * Integers as JavaScript writes and reads them: Number.prototype.toString(radix),
 * Number.parseInt(s, radix) and Number.prototype.toExponential(7), on integer values.
 * Both the legacy engine (script.js) and the programmer keypad
 * (components/calculator-modes/programmer-mode.tsx) convert between the bases 2, 8, 10 and 16
 * through these functions.
 */
module JsNumber {
  import opened Wrappers

  /** The four bases the calculators offer. */
  type Radix = r: nat | r == 2 || r == 8 || r == 10 || r == 16 witness 10

  /** Digit value as parseInt reads it: '0'-'9', then letters of either case from 10; 36 for anything else. */
  function DigitValue(c: char): nat
  {
    if '0' <= c <= '9' then c as nat - '0' as nat
    else if 'a' <= c <= 'z' then c as nat - 'a' as nat + 10
    else if 'A' <= c <= 'Z' then c as nat - 'A' as nat + 10
    else 36
  }

  /** The lower-case digit that toString(radix) writes for d. */
  function DigitChar(d: nat): (c: char)
    requires d < 16
    ensures DigitValue(c) == d
    ensures '0' <= c <= '9' || 'a' <= c <= 'f'
  {
    if d < 10 then ('0' as nat + d) as char else ('a' as nat + d - 10) as char
  }

  predicate AllDigits(s: string, radix: Radix)
  {
    forall i :: 0 <= i < |s| ==> DigitValue(s[i]) < radix
  }

  /** toString(radix) of a natural number: most significant digit first, no leading zero. */
  function ToRadix(n: nat, radix: Radix): (s: string)
    ensures |s| > 0 && AllDigits(s, radix)
    ensures |s| > 1 ==> s[0] != '0'
    decreases n
  {
    if n < radix then [DigitChar(n)]
    else ToRadix(n / radix, radix) + [DigitChar(n % radix)]
  }

  /** toString(radix) of any integer: a minus sign, then the digits of the magnitude. */
  function IntToRadix(i: int, radix: Radix): string
  {
    if i < 0 then "-" + ToRadix(-i, radix) else ToRadix(i, radix)
  }

  /** String(i) for an integer value. */
  function DecimalString(i: int): string
  {
    IntToRadix(i, 10)
  }

  /** The value of a digit string read most significant digit first. */
  function DigitsValue(s: string, radix: Radix): nat
    decreases |s|
  {
    if s == [] then 0 else DigitsValue(s[..|s| - 1], radix) * radix + DigitValue(s[|s| - 1])
  }

  /** How many leading characters of s are digits of radix. */
  function DigitPrefix(s: string, radix: Radix): (k: nat)
    ensures k <= |s| && AllDigits(s[..k], radix)
    ensures k < |s| ==> DigitValue(s[k]) >= radix
    decreases |s|
  {
    if s == [] || DigitValue(s[0]) >= radix then 0
    else
      var k := 1 + DigitPrefix(s[1..], radix);
      assert forall i :: 1 <= i < k ==> s[..k][i] == s[1..][..k - 1][i - 1];
      k
  }

  /** For radix 16, the digits after an optional "0x" or "0X" prefix. */
  function WithoutHexPrefix(u: string, radix: Radix): string
  {
    if radix == 16 && |u| >= 2 && u[0] == '0' && (u[1] == 'x' || u[1] == 'X') then u[2..] else u
  }

  /** The value of the longest run of digits at the start of body; NaN (None) when there is none. */
  function ParseDigits(body: string, radix: Radix): Option<nat>
  {
    var k := DigitPrefix(body, radix);
    if k == 0 then None else Some(DigitsValue(body[..k], radix))
  }

  /**
   * Number.parseInt(s, radix): an optional sign, for radix 16 an optional "0x" or "0X",
   * then the longest run of digits of the radix; NaN (None) when that run is empty.
   * Leading white space is not skipped: no string the calculators parse contains any.
   */
  function ParseInt(s: string, radix: Radix): Option<int>
  {
    if |s| > 0 && s[0] == '-' then
      match ParseDigits(WithoutHexPrefix(s[1..], radix), radix)
      case None => None
      case Some(n) => Some(-(n as int))
    else if |s| > 0 && s[0] == '+' then
      match ParseDigits(WithoutHexPrefix(s[1..], radix), radix)
      case None => None
      case Some(n) => Some(n as int)
    else
      match ParseDigits(WithoutHexPrefix(s, radix), radix)
      case None => None
      case Some(n) => Some(n as int)
  }

  /** The upper-case letter for a lower-case one; every other character unchanged. */
  function UpperChar(c: char): (u: char)
    ensures DigitValue(u) == DigitValue(c)
  {
    if 'a' <= c <= 'z' then (c as nat - 'a' as nat + 'A' as nat) as char else c
  }

  /** String.prototype.toUpperCase on the characters toString(radix) produces. */
  function ToUpper(s: string): (u: string)
    ensures |u| == |s|
    ensures forall i :: 0 <= i < |s| ==> u[i] == UpperChar(s[i])
  {
    seq(|s|, i requires 0 <= i < |s| => UpperChar(s[i]))
  }

  lemma {:induction false} ToRadixValue(n: nat, radix: Radix)
    ensures DigitsValue(ToRadix(n, radix), radix) == n
    decreases n
  {
    if n >= radix {
      var s := ToRadix(n / radix, radix);
      var d := DigitChar(n % radix);
      ToRadixValue(n / radix, radix);
      assert ToRadix(n, radix) == s + [d];
      assert (s + [d])[..|s|] == s;
    }
  }

  /** Two strings whose characters have the same digit values have the same value. */
  lemma {:induction false} DigitsValueSameDigits(s: string, t: string, radix: Radix)
    requires |s| == |t|
    requires forall i :: 0 <= i < |s| ==> DigitValue(s[i]) == DigitValue(t[i])
    ensures DigitsValue(s, radix) == DigitsValue(t, radix)
    decreases |s|
  {
    if s != [] {
      DigitsValueSameDigits(s[..|s| - 1], t[..|t| - 1], radix);
    }
  }

  /** A non-empty run of digits is read whole, whatever the radix's prefix rule. */
  lemma ParseDigitsAll(t: string, radix: Radix)
    requires |t| > 0 && AllDigits(t, radix)
    ensures ParseDigits(WithoutHexPrefix(t, radix), radix) == Some(DigitsValue(t, radix))
  {
    assert WithoutHexPrefix(t, radix) == t by {
      if |t| >= 2 {
        assert DigitValue(t[1]) < radix;
      }
    }
    var k := DigitPrefix(t, radix);
    assert k == |t|;
    assert t[..k] == t;
  }

  /** parseInt reads back a non-empty run of digits exactly. */
  lemma ParseIntOfDigits(t: string, radix: Radix)
    requires |t| > 0 && AllDigits(t, radix)
    ensures ParseInt(t, radix) == Some(DigitsValue(t, radix) as int)
  {
    ParseDigitsAll(t, radix);
    assert DigitValue(t[0]) < radix;
  }

  /** parseInt of a minus sign and a text negates what the digits of the text read as. */
  lemma ParseIntMinus(t: string, radix: Radix, n: nat)
    requires ParseDigits(WithoutHexPrefix(t, radix), radix) == Some(n)
    ensures ParseInt("-" + t, radix) == Some(-(n as int))
  {
    assert ("-" + t)[1..] == t;
  }

  /** Round trip: parseInt(i.toString(radix), radix) == i. */
  lemma ParseIntToRadix(i: int, radix: Radix)
    ensures ParseInt(IntToRadix(i, radix), radix) == Some(i)
  {
    var n: nat := if i < 0 then -i else i;
    ToRadixValue(n, radix);
    if i < 0 {
      ParseDigitsAll(ToRadix(n, radix), radix);
      ParseIntMinus(ToRadix(n, radix), radix, n);
    } else {
      ParseIntOfDigits(ToRadix(n, radix), radix);
    }
  }

  /** Upper-casing keeps every character's digit value, so the digits and their value. */
  lemma UpperKeepsDigits(t: string, radix: Radix)
    requires AllDigits(t, radix)
    ensures AllDigits(ToUpper(t), radix) && DigitsValue(ToUpper(t), radix) == DigitsValue(t, radix)
  {
    var u := ToUpper(t);
    DigitsValueSameDigits(u, t, radix);
    forall j | 0 <= j < |u|
      ensures DigitValue(u[j]) < radix
    {
      assert DigitValue(u[j]) == DigitValue(t[j]);
    }
  }

  /** Upper-casing leaves a leading minus sign in place. */
  lemma UpperMinus(t: string)
    ensures ToUpper("-" + t) == "-" + ToUpper(t)
  {
    var w := ToUpper("-" + t);
    assert |w| == |"-" + ToUpper(t)|;
    forall j | 0 <= j < |w|
      ensures w[j] == ("-" + ToUpper(t))[j]
    {
      if j > 0 {
        assert ("-" + t)[j] == t[j - 1];
      }
    }
  }

  /** Round trip through the upper-case rendering: parseInt is case-insensitive. */
  lemma ParseIntToUpperRadix(i: int, radix: Radix)
    ensures ParseInt(ToUpper(IntToRadix(i, radix)), radix) == Some(i)
  {
    var n: nat := if i < 0 then -i else i;
    var t := ToRadix(n, radix);
    var u := ToUpper(t);
    ToRadixValue(n, radix);
    UpperKeepsDigits(t, radix);
    ParseDigitsAll(u, radix);
    if i < 0 {
      UpperMinus(t);
      ParseIntMinus(u, radix, n);
    } else {
      ParseIntOfDigits(u, radix);
    }
  }


  // ---------------------------------------------------------------------------------------------
  // toExponential(7) on integers

  function Pow10(k: nat): (r: nat)
    ensures r >= 1
  {
    if k == 0 then 1 else 10 * Pow10(k - 1)
  }

  lemma {:induction false} Pow10Add(i: nat, j: nat)
    ensures Pow10(i + j) == Pow10(i) * Pow10(j)
    decreases i
  {
    if i > 0 {
      Pow10Add(i - 1, j);
    }
  }

  /** A decimal rendering with d digits means the number lies in [10^(d-1), 10^d). */
  lemma {:induction false} DecimalMagnitude(n: nat)
    ensures Pow10(|ToRadix(n, 10)| - 1) <= n || n == 0
    ensures n < Pow10(|ToRadix(n, 10)|)
    decreases n
  {
    if n >= 10 {
      DecimalMagnitude(n / 10);
    }
  }

  /** The converse: a number in [10^(d-1), 10^d) is written with d digits. */
  lemma {:induction false} DecimalLength(n: nat, d: nat)
    requires d >= 1 && Pow10(d - 1) <= n < Pow10(d)
    ensures |ToRadix(n, 10)| == d
    decreases d
  {
    if d > 1 {
      assert Pow10(d - 1) == 10 * Pow10(d - 2);
      DecimalLength(n / 10, d - 1);
    }
  }

  /**
   * The eight significant digits and the exponent toExponential(7) picks for a >= 1:
   * the n in [10^7, 10^8) and e such that n * 10^(e-7) is nearest to a, the larger one on a tie.
   */
  /** a / p rounded half up. */
  function RoundedQuotient(a: nat, p: nat): nat
    requires p > 0
  {
    (a + p / 2) / p
  }

  function Mantissa(a: nat): (me: (nat, nat))
    requires a >= 1
  {
    var d := |ToRadix(a, 10)|;
    if d <= 8 then (a * Pow10(8 - d), d - 1)
    else
      var n := RoundedQuotient(a, Pow10(d - 8));
      if n == 100000000 then (10000000, d) else (n, d - 1)
  }

  lemma DivBounds(x: nat, p: nat)
    requires p > 0
    ensures (x / p) * p <= x < (x / p) * p + p
  {
  }

  /** Rounding a to a multiple of p, half up, lands within p/2 of a and keeps its leading digits' range. */
  lemma RoundHalfUp(a: nat, p: nat, lo: nat)
    requires p >= 2 && p % 2 == 0 && lo >= 1
    requires lo * p <= a < 10 * lo * p
    ensures lo <= RoundedQuotient(a, p) <= 10 * lo
    ensures a - p / 2 <= RoundedQuotient(a, p) * p <= a + p / 2
  {
    var n := RoundedQuotient(a, p);
    DivBounds(a + p / 2, p);
    assert n * p <= a + p / 2 < n * p + p;
    assert lo <= n by {
      if n < lo {
        MulMono(n + 1, lo, p);
      }
    }
    assert n <= 10 * lo by {
      if n > 10 * lo {
        MulMono(10 * lo + 1, n, p);
      }
    }
  }

  lemma Pow10Values()
    ensures Pow10(7) == 10000000 && Pow10(8) == 100000000
  {
  }

  /** Below 10^8 the mantissa is the number itself, shifted left to eight digits. */
  lemma MantissaSmall(a: nat)
    requires 1 <= a < 100000000
    ensures 10000000 <= Mantissa(a).0 < 100000000
    ensures Mantissa(a).1 <= 7 && Mantissa(a).0 == a * Pow10(7 - Mantissa(a).1)
  {
    var d := |ToRadix(a, 10)|;
    DecimalMagnitude(a);
    Pow10Values();
    if d > 8 {
      Pow10Add(8, d - 8);
      assert false;
    }
    Pow10Add(d - 1, 8 - d);
    Pow10Add(d, 8 - d);
    var k := Pow10(8 - d);
    var lo := Pow10(d - 1);
    var hi := Pow10(d);
    assert lo * k == 10000000 && hi * k == 100000000;
    assert lo <= a < hi;
    MulMono(lo, a, k);
    MulStrict(a, hi, k);
  }

  lemma MulMono(x: nat, y: nat, k: nat)
    requires x <= y
    ensures x * k <= y * k
  {
  }

  lemma MulStrict(x: nat, y: nat, k: nat)
    requires x < y && k > 0
    ensures x * k < y * k
  {
  }

  /** A quotient rounded up to 10^8 is 10^7 of a unit ten times larger, still within half a unit. */
  lemma CarryUnit(a: int, p: nat, unit: nat)
    requires unit == 10 * p && a - p / 2 <= 100000000 * p <= a + p / 2
    ensures a - unit / 2 <= 10000000 * unit <= a + unit / 2
  {
  }

  /** From 10^8 up, the mantissa is a rounded half up to eight significant digits. */
  lemma MantissaLarge(a: nat)
    requires a >= 100000000
    ensures 10000000 <= Mantissa(a).0 < 100000000
    ensures Mantissa(a).1 >= 8
    ensures var unit := Pow10(Mantissa(a).1 - 7);
      a - unit / 2 <= Mantissa(a).0 * unit <= a + unit / 2
  {
    var d := |ToRadix(a, 10)|;
    DecimalMagnitude(a);
    Pow10Values();
    assert d > 8;
    var p := Pow10(d - 8);
    Pow10Add(7, d - 8);
    Pow10Add(8, d - 8);
    Pow10Add(1, d - 9);
    RoundHalfUp(a, p, 10000000);
    var n := RoundedQuotient(a, p);
    assert a - p / 2 <= n * p <= a + p / 2;
    if n == 100000000 {
      Pow10Add(1, d - 8);
      assert Mantissa(a) == (10000000, d);
      CarryUnit(a, p, Pow10(d - 7));
    } else {
      assert Mantissa(a) == (n, d - 1);
      assert Pow10(Mantissa(a).1 - 7) == p;
    }
  }

  /** Mantissa has exactly eight digits, is exact below 10^8, and is within half a unit of its last digit above. */
  lemma MantissaNearest(a: nat)
    requires a >= 1
    ensures 10000000 <= Mantissa(a).0 < 100000000
    ensures a < 100000000 ==> Mantissa(a).1 <= 7 && Mantissa(a).0 == a * Pow10(7 - Mantissa(a).1)
    ensures a >= 100000000 ==> Mantissa(a).1 >= 8
    ensures a >= 100000000 ==>
      var unit := Pow10(Mantissa(a).1 - 7);
      a - unit / 2 <= Mantissa(a).0 * unit <= a + unit / 2
  {
    if a < 100000000 {
      MantissaSmall(a);
    } else {
      MantissaLarge(a);
    }
  }

  /** Number.prototype.toExponential(7) of an integer value. */
  function ToExponential7(x: int): string
  {
    var a: nat := if x < 0 then -x else x;
    if a == 0 then "0.0000000e+0"
    else
      var me := Mantissa(a);
      var m := ToRadix(me.0, 10);
      (if x < 0 then "-" else "") + [m[0]] + "." + m[1..] + "e+" + ToRadix(me.1, 10)
  }

  /**
   * Shape of toExponential(7) of a non-zero integer: an optional minus sign, one non-zero digit,
   * a point, exactly seven digits, "e+" and the decimal exponent; the eight digits are Mantissa.
   */
  lemma ExponentialShape(x: int)
    requires x != 0
    ensures var a: nat := if x < 0 then -x else x;
      var sign := if x < 0 then "-" else "";
      var me := Mantissa(a);
      var m := ToRadix(me.0, 10);
      |m| == 8 && m[0] != '0' && DigitsValue(m, 10) == me.0 &&
      ToExponential7(x) == sign + [m[0]] + "." + m[1..] + "e+" + ToRadix(me.1, 10)
  {
    var a: nat := if x < 0 then -x else x;
    MantissaNearest(a);
    var me := Mantissa(a);
    DecimalLength(me.0, 8);
    ToRadixValue(me.0, 10);
  }
}
