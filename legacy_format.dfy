/**
 * How the legacy engine (script.js) turns values into display text: the length policy
 * checkLength, the four-base view calculateScales, the text negation of the ± key and the
 * chaining of unary steps in the step text.
 */
module LegacyFormat {
  import opened Wrappers
  import opened JsNumber
  import opened JsArith
  import opened Classifiers

  /**
   * A value the engine passes around: the operand stack holds display texts pushed as they are
   * (Str) and numbers computed by _stackHelper (Num); the unary callbacks return either.
   */
  datatype JsValue = Str(s: string) | Num(n: Number)

  /** value + "". */
  function Text(v: JsValue): string
  {
    match v
    case Str(s) => s
    case Num(n) => NumberText(n)
  }

  /** Number(t) for a display text: exact for an integer text, the runtime's parse otherwise. */
  function ParseNumber(t: string, lib: FloatLib): Number
  {
    if IsInteger(t) then Int(IntegerValue(t)) else lib.parseFloat(t)
  }

  /** The number a value stands for when an operator is applied to it. */
  function ToNumber(v: JsValue, lib: FloatLib): Number
  {
    match v
    case Str(t) => ParseNumber(t, lib)
    case Num(n) => n
  }

  /** An integer shown as text and read back is the same integer. */
  lemma ParseNumberOfInteger(i: int, lib: FloatLib)
    ensures ParseNumber(DecimalString(i), lib) == Int(i)
    ensures ToNumber(Str(Text(Num(Int(i)))), lib) == ToNumber(Num(Int(i)), lib)
  {
    DecimalStringIsInteger(i);
  }

  /** valueStr.replace(/0+$/, ""): the text without its trailing run of zeros. */
  function StripTrailingZeros(s: string): (r: string)
    ensures |r| <= |s| && r == s[..|r|]
    ensures forall j :: |r| <= j < |s| ==> s[j] == '0'
    ensures |r| == 0 || r[|r| - 1] != '0'
    decreases |s|
  {
    if |s| > 0 && s[|s| - 1] == '0' then StripTrailingZeros(s[..|s| - 1]) else s
  }

  /** On a decimal text the trailing zeros all come after the point, so the point survives: "2.50" becomes "2.5", "2.0" becomes "2.". */
  lemma StripKeepsPoint(s: string)
    requires IsFloat(s)
    ensures var k := |s| - |Unsigned(s)| + IndexOf(Unsigned(s), '.');
      0 <= k < |StripTrailingZeros(s)| && StripTrailingZeros(s)[..k + 1] == s[..k + 1]
  {
    var u := Unsigned(s);
    var d := IndexOf(u, '.');
    var k := |s| - |u| + d;
    assert 0 <= d < |u| && u[d] == '.';
    assert s[k] == u[d] by {
      assert u == s[|s| - |u|..];
    }
    var r := StripTrailingZeros(s);
    assert |r| > k by {
      assert s[k] != '0';
    }
    assert r == s[..|r|];
    assert r[..k + 1] == s[..k + 1];
  }

  /** value.toExponential(7). */
  function Exponential(x: Number, lib: FloatLib): string
  {
    match x
    case Int(i) => ToExponential7(i)
    case NonInt(_) => lib.toExponential(x)
  }

  /** The text checkLength measures: value + "", without trailing zeros when it is a decimal text. */
  function Trimmed(v: JsValue): string
  {
    var t := Text(v);
    if IsFloat(t) then StripTrailingZeros(t) else t
  }

  /** parseInt(text, base) as a number: NaN when no digit of the base leads the text. */
  function RadixOperand(t: string, base: Radix): Number
  {
    match ParseInt(t, base)
    case None => NonInt("NaN")
    case Some(i) => Int(i)
  }

  /**
   * The number a value stands for, a text being read in the base it is written in: with Number
   * in decimal, with parseInt in base 2, 8 or 16 (where the programmer calculator writes its
   * results as text in the current base).
   */
  function ValueIn(v: JsValue, base: Radix, lib: FloatLib): Number
  {
    match v
    case Num(n) => n
    case Str(t) => if base == 10 then ParseNumber(t, lib) else RadixOperand(t, base)
  }

  /**
   * checkLength as the engine uses it: the trimmed text when it has at most 12 characters,
   * otherwise the value in exponential notation with seven decimals. The exponential form is
   * taken of the value a text stands for in the base it is written in, so that a text value is
   * converted first (see CheckLengthAsWritten).
   */
  function CheckLength(v: JsValue, base: Radix, lib: FloatLib): string
  {
    var t := Trimmed(v);
    if |t| > 12 then Exponential(ValueIn(v, base, lib), lib) else t
  }

  /**
   * checkLength as written: value.toExponential(7) is called on the value itself, and a string
   * has no toExponential method, so a text value longer than 12 characters throws a TypeError.
   */
  function CheckLengthAsWritten(v: JsValue, lib: FloatLib): Completion<string>
  {
    var t := Trimmed(v);
    if |t| <= 12 then Normal(t)
    else match v
      case Str(_) => Throw(TypeError)
      case Num(n) => Normal(Exponential(n, lib))
  }

  /** The two agree everywhere except on long text values, where the written version throws. */
  lemma CheckLengthAsWrittenAgrees(v: JsValue, base: Radix, lib: FloatLib)
    ensures CheckLengthAsWritten(v, lib).Throw? <==> v.Str? && |Trimmed(v)| > 12
    ensures CheckLengthAsWritten(v, lib).Normal? ==> CheckLengthAsWritten(v, lib).value == CheckLength(v, base, lib)
  {
  }

  /** Typing thirteen digits and then = hands checkLength the display text "1234567890123": it throws. */
  lemma LongDisplayThrows(lib: FloatLib)
    ensures CheckLengthAsWritten(Str("1234567890123"), lib) == Throw(TypeError)
  {
    var t := "1234567890123";
    assert IsInteger(t);
    IntegerIsNotFloat(t);
    assert Trimmed(Str(t)) == t;
  }

  /** A text toString(b) wrote has no point, so checkLength measures it as it is. */
  lemma RadixTextTrimmed(i: int, b: Radix)
    ensures Trimmed(Str(IntToRadix(i, b))) == IntToRadix(i, b)
  {
    var t := IntToRadix(i, b);
    var m := if i < 0 then -i else i;
    var u := ToRadix(m, b);
    assert Unsigned(t) == u by {
      assert DigitValue('-') == 36;
      assert DigitValue(u[0]) < b;
    }
    NoPointIn(u, b);
    assert !IsFloat(t);
  }

  /** Digits of a radix include no point. */
  lemma NoPointIn(u: string, b: Radix)
    requires AllDigits(u, b)
    ensures IndexOf(u, '.') == -1
  {
    assert DigitValue('.') == 36;
  }
  /**
   * An integer result, as a number or as its text, is shown as its decimal text when that has at
   * most 12 characters, which reads back as the same integer; otherwise in exponential notation,
   * which isNumber accepts as an operand only when the integer is positive.
   */
  lemma CheckLengthOfInteger(i: int, lib: FloatLib)
    ensures CheckLength(Str(DecimalString(i)), 10, lib) == CheckLength(Num(Int(i)), 10, lib)
    ensures |DecimalString(i)| <= 12 ==>
      var r := CheckLength(Num(Int(i)), 10, lib);
      r == DecimalString(i) && IsInteger(r) && IntegerValue(r) == i
    ensures |DecimalString(i)| > 12 ==>
      var r := CheckLength(Num(Int(i)), 10, lib);
      r == ToExponential7(i) && (IsNumber(r) <==> i > 0)
  {
    var t := DecimalString(i);
    RadixTextTrimmed(i, 10);
    assert Trimmed(Num(Int(i))) == t;
    assert ValueIn(Str(t), 10, lib) == Int(i) by {
      ParseNumberOfInteger(i, lib);
    }
    if |t| <= 12 {
      DecimalStringIsInteger(i);
    } else {
      assert i != 0;
      ExponentialIsNumberIffPositive(i);
    }
  }

  /** The ± callback on the text of its operand: "0" stays, a leading minus goes, otherwise one is added. */
  function NegateText(t: string): string
  {
    if t == "0" then t
    else if |t| > 0 && t[0] == '-' then t[1..]
    else "-" + t
  }

  /** ± on a twelve-digit display hands checkLength the thirteen-character text "-" + digits: it throws. */
  lemma NegateLongThrows(u: string, lib: FloatLib)
    requires IsDigits(u) && |u| == 12
    ensures NegateText(u) == "-" + u
    ensures CheckLengthAsWritten(Str(NegateText(u)), lib) == Throw(TypeError)
  {
    var t := "-" + u;
    assert u != "0" && u[0] != '-' by { assert DigitValue(u[0]) < 10; }
    assert Unsigned(t) == u;
    IntegerIsNotFloat(t);
    assert Trimmed(Str(t)) == t;
  }

  /** On the text of an integer the ± callback writes the text of its negation. */
  lemma NegateInteger(i: int)
    ensures NegateText(DecimalString(i)) == DecimalString(-i)
  {
    var t := DecimalString(i);
    if i == 0 {
      assert t == "0";
    } else if i < 0 {
      assert t == "-" + ToRadix(-i, 10);
      assert t[1..] == ToRadix(-i, 10);
    } else {
      ToRadixValue(i, 10);
      assert t != "0";
      assert t[0] != '-' by { assert DigitValue(t[0]) < 10; }
    }
  }

  /** ± pressed twice on the text of an integer gives the text back. */
  lemma NegateTwice(i: int)
    ensures NegateText(NegateText(DecimalString(i))) == DecimalString(i)
  {
    NegateInteger(i);
    NegateInteger(-i);
  }

  /** Position of the last c in s, or -1. */
  function LastIndexOf(s: string, c: char): (k: int)
    ensures -1 <= k < |s|
    ensures k >= 0 ==> s[k] == c
    ensures forall j :: k < j < |s| ==> s[j] != c
    decreases |s|
  {
    if |s| == 0 then -1
    else if s[|s| - 1] == c then |s| - 1
    else LastIndexOf(s[..|s| - 1], c)
  }

  /** The step-text entry a unary operation adds: " sqrt(9)". */
  function StepEntry(name: string, operand: string): string
  {
    " " + name + "(" + operand + ")"
  }

  /**
   * The step text after a second unary operation in a row: everything from the last space on is
   * replaced by the new entry (substring(0, lastIndexOf(" ")), which is empty when there is no space).
   */
  function ChainStep(pre: string, name: string, operand: string): string
  {
    var k := LastIndexOf(pre, ' ');
    (if k < 0 then "" else pre[..k]) + StepEntry(name, operand)
  }

  predicate NoSpace(s: string)
  {
    forall j :: 0 <= j < |s| ==> s[j] != ' '
  }

  /**
   * Chaining replaces the previous unary entry: after " sqrt(9)" was appended to a step text,
   * a further unary operation leaves the text as if only its own entry had been appended.
   */
  lemma ChainReplacesLastEntry(pre: string, name1: string, operand1: string, name2: string, operand2: string)
    requires NoSpace(name1) && NoSpace(operand1)
    ensures ChainStep(pre + StepEntry(name1, operand1), name2, operand2) == pre + StepEntry(name2, operand2)
  {
    var e := StepEntry(name1, operand1);
    var s := pre + e;
    assert e == [' '] + name1 + ['('] + operand1 + [')'];
    assert forall j :: |pre| < j < |s| ==> s[j] == e[j - |pre|];
    assert forall j :: 1 <= j < |e| ==> e[j] != ' ';
    assert s[|pre|] == ' ';
    LastIndexOfIs(s, ' ', |pre|);
    assert s[..|pre|] == pre;
  }

  lemma LastIndexOfIs(s: string, c: char, k: nat)
    requires k < |s| && s[k] == c
    requires forall j :: k < j < |s| ==> s[j] != c
    ensures LastIndexOf(s, c) == k
  {
  }

  /** The four texts of the base view: hexadecimal, decimal, octal, binary. */
  datatype Scales = Scales(hex: string, dec: string, oct: string, bin: string)

  /** i.toString(radix) of a parseInt result; parseInt's NaN renders as "NaN". */
  function RenderParsed(p: Option<int>, radix: Radix): string
  {
    match p
    case None => "NaN"
    case Some(i) => IntToRadix(i, radix)
  }

  /**
   * calculateScales: the display text read in the current base, rendered in all four. In
   * decimal all four slots are rendered (the decimal one from parseInt(num)); in any other base
   * the current base's slot keeps the text as given.
   */
  function CalculateScales(num: string, scale: Radix): Scales
  {
    var p := ParseInt(num, scale);
    if scale == 10 then Scales(RenderParsed(p, 16), RenderParsed(p, 10), RenderParsed(p, 8), RenderParsed(p, 2))
    else if scale == 16 then Scales(num, RenderParsed(p, 10), RenderParsed(p, 8), RenderParsed(p, 2))
    else if scale == 8 then Scales(RenderParsed(p, 16), RenderParsed(p, 10), num, RenderParsed(p, 2))
    else Scales(RenderParsed(p, 16), RenderParsed(p, 10), RenderParsed(p, 8), num)
  }

  /** The slot of a base in the view. */
  function Slot(sc: Scales, radix: Radix): string
  {
    if radix == 16 then sc.hex else if radix == 10 then sc.dec else if radix == 8 then sc.oct else sc.bin
  }

  /**
   * The view of the text of an integer n in the current base holds, in every slot, the text of n
   * in that slot's base, so that reading any slot back in its base gives n.
   */
  lemma ScalesRoundTrip(n: int, scale: Radix, radix: Radix)
    ensures Slot(CalculateScales(IntToRadix(n, scale), scale), radix) == IntToRadix(n, radix)
    ensures ParseInt(Slot(CalculateScales(IntToRadix(n, scale), scale), radix), radix) == Some(n)
  {
    ParseIntToRadix(n, scale);
    ParseIntToRadix(n, radix);
  }

  /** Outside decimal the current slot is the input unchanged, whatever it is; a text that does not parse shows "NaN" elsewhere. */
  lemma ScalesKeepInput(num: string, scale: Radix, radix: Radix)
    requires scale != 10
    ensures Slot(CalculateScales(num, scale), scale) == num
    ensures ParseInt(num, scale).None? && radix != scale ==> Slot(CalculateScales(num, scale), radix) == "NaN"
  {
  }
}
