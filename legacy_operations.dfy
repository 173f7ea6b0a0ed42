/**
 * The computations behind the legacy engine's keys (script.js): the unary callbacks handed to
 * unaryOperate by handleKey (script.js:346-458) and _stackHelper, which applies one binary
 * operator to two stacked operands (script.js:667-700). _stackHelper evaluates the source text
 * f + op + s with eval; here the operator is dispatched explicitly (see StackHelperAsWritten for
 * what eval does differently on plain decimal texts, and PlainDecimal for the texts it covers).
 */
module LegacyOperations {
  import opened Wrappers
  import opened JsNumber
  import opened JsArith
  import opened Classifiers
  import opened LegacyFormat

  /** The keys that call unaryOperate. */
  datatype UnaryKey =
    | Negate | SquareRoot | Square | Reciprocal | Fact | Exp
    | Sin | Cos | Tan | PowTen | Log | Sinh | Cosh | Tanh | Pi | BitNot

  /** The name a unary key writes into the step text, if any. */
  function UnaryName(k: UnaryKey): Option<string>
  {
    match k
    case SquareRoot => Some("sqrt")
    case Square => Some("sqr")
    case Reciprocal => Some("1/")
    case Fact => Some("fact")
    case Sin => Some("sin")
    case Cos => Some("cos")
    case Tan => Some("tan")
    case PowTen => Some("powten")
    case Log => Some("log")
    case Sinh => Some("sinh")
    case Cosh => Some("cosh")
    case Tanh => Some("tanh")
    case _ => None
  }

  /** The operand unaryOperate hands its callback: parseInt of an integer display, parseFloat of a decimal or scientific one, none otherwise. */
  function UnaryOperand(display: string, lib: FloatLib): (x: Option<Number>)
    ensures x.Some? <==> IsInteger(display) || IsFloat(display) || IsScientific(display)
  {
    if IsInteger(display) then Some(Int(IntegerValue(display)))
    else if IsFloat(display) || IsScientific(display) then Some(lib.parseFloat(display))
    else None
  }

  const ZeroDivisorMessage: string := "0不能作为被除数"

  const PiText: string := "3.141592653589793"

  /** n! */
  function Factorial(n: nat): (r: nat)
    ensures r >= 1
  {
    if n == 0 then 1 else n * Factorial(n - 1)
  }

  /** The 1/x callback: the error text when the operand is zero, 1 / x otherwise. */
  function ReciprocalValue(x: Number, lib: FloatLib): JsValue
  {
    if x == Int(0) then Str(ZeroDivisorMessage) else Num(Arith(Div, Int(1), x, lib))
  }

  /**
   * What a unary callback returns as the new display value. ± works on the text of its operand
   * and Exp returns the exponential text; the others return numbers. n! takes the magnitude of an
   * integer operand (the engine computes it through its factorial cache).
   */
  function UnaryValue(k: UnaryKey, x: Number, lib: FloatLib): JsValue
  {
    match k
    case Fact => if x.Int? then Num(Int(Factorial(Abs(x.i)))) else Num(lib.unary(FactorialOf, x))
    case Negate => Str(NegateText(NumberText(x)))
    case SquareRoot => Num(lib.unary(Sqrt, x))
    case Square => Num(Arith(Pow, x, Int(2), lib))
    case Reciprocal => ReciprocalValue(x, lib)
    case Exp => Str(Exponential(x, lib))
    case Sin => Num(lib.unary(MathFn.Sin, x))
    case Cos => Num(lib.unary(MathFn.Cos, x))
    case Tan => Num(lib.unary(MathFn.Tan, x))
    case PowTen => Num(Arith(Pow, Int(10), x, lib))
    case Log => Num(lib.unary(Log10, x))
    case Sinh => Num(lib.unary(MathFn.Sinh, x))
    case Cosh => Num(lib.unary(MathFn.Cosh, x))
    case Tanh => Num(lib.unary(MathFn.Tanh, x))
    case Pi => Num(NonInt(PiText))
    case BitNot => if x.Int? then Num(Int(BitNot32(x.i))) else Num(lib.unary(NotInt32, x))
  }

  /** ± on an integer operand shows the text of its negation (which ParseNumberOfInteger reads back as -i). */
  lemma NegateOnInteger(i: int, lib: FloatLib)
    ensures UnaryValue(UnaryKey.Negate, Int(i), lib) == Str(DecimalString(-i))
  {
    NegateInteger(i);
  }

  /** x² and 10^x on integers compute exactly: i * i, and a power of ten for a natural exponent. */
  lemma PowersOnIntegers(i: int, lib: FloatLib)
    ensures UnaryValue(Square, Int(i), lib) == Num(Int(i * i))
    ensures i >= 0 ==> UnaryValue(PowTen, Int(i), lib) == Num(Int(Power(10, i)))
  {
    assert Power(i, 1) == i * Power(i, 0);
    assert Power(i, 2) == i * Power(i, 1);
  }

  /** A multiple of the base leaves no last digit but 0. */
  lemma MultipleOfRadix(b: Radix, p: nat)
    ensures b * p >= p && (b * p) / b == p && (b * p) % b == 0
  {
    if b == 2 {
    } else if b == 8 {
    } else if b == 10 {
    } else {
    }
  }

  /** toString(b) of b^n: a one followed by n zeros. */
  lemma {:induction false} PowerDigits(b: Radix, n: nat)
    ensures Power(b, n) > 0
    ensures ToRadix(Power(b, n), b) == "1" + seq(n, _ => '0')
  {
    if n > 0 {
      PowerDigits(b, n - 1);
      var p := Power(b, n - 1);
      assert Power(b, n) == b * p;
      MultipleOfRadix(b, p);
      assert ToRadix(b * p, b) == ToRadix(p, b) + [DigitChar(0)];
      assert "1" + seq(n, _ => '0') == ("1" + seq(n - 1, _ => '0')) + ['0'];
    }
  }

  /** String(10^n): a one followed by n zeros, as 10^x shows for a natural x. */
  lemma PowerOfTenDigits(n: nat)
    ensures Power(10, n) > 0
    ensures DecimalString(Power(10, n)) == "1" + seq(n, _ => '0')
  {
    PowerDigits(10, n);
  }

  /** ~ on a 32-bit integer is -i - 1. */
  lemma BitNotOnInteger(i: int, lib: FloatLib)
    requires -TwoTo31 <= i < TwoTo31
    ensures UnaryValue(UnaryKey.BitNot, Int(i), lib) == Num(Int(-i - 1))
  {
    ToInt32InRange(i);
  }

  /**
   * The reciprocal key shows text exactly when its operand is zero: the error text, which isNumber
   * rejects, instead of a number.
   */
  lemma ReciprocalOfZero(x: Number, lib: FloatLib)
    ensures ReciprocalValue(x, lib).Str? <==> x == Int(0)
    ensures x == Int(0) ==> ReciprocalValue(x, lib) == Str(ZeroDivisorMessage) && !IsNumber(Text(ReciprocalValue(x, lib)))
  {
    var t := ZeroDivisorMessage;
    assert t[0] != '-' && !IsDecimalDigit(t[1]) && !('A' <= t[1] <= 'F');
    assert forall j :: 0 <= j < |t| ==> t[j] != '.';
    NotNumber(t, 1);
  }

  /** result.toString(scale). */
  function RadixText(x: Number, scale: Radix, lib: FloatLib): string
  {
    match x
    case Int(i) => IntToRadix(i, scale)
    case NonInt(_) => lib.toRadixString(x, scale)
  }

  /**
   * The base _stackHelper reads a text operand in, and so the base the results it writes are in:
   * the current base in the programmer calculator, decimal otherwise.
   */
  function OperandBase(programmer: bool, scale: Radix): Radix
  {
    if programmer then scale else 10
  }

  /**
   * _stackHelper(f, s, op), with eval replaced by the operator itself: ^ and yroot through
   * Math.pow; in programmer mode outside decimal both operands are read with parseInt in the
   * current base and the result written back in it; otherwise the operator on the two values.
   */
  function StackHelper(f: JsValue, s: JsValue, op: BinOp, programmer: bool, scale: Radix, lib: FloatLib): JsValue
  {
    if op == Pow || op == YRoot then Num(Arith(op, ToNumber(f, lib), ToNumber(s, lib), lib))
    else if programmer && scale != 10 then
      Str(RadixText(Arith(op, RadixOperand(Text(f), scale), RadixOperand(Text(s), scale), lib), scale, lib))
    else Num(Arith(op, ToNumber(f, lib), ToNumber(s, lib), lib))
  }

  /**
   * eval(ft + symbol + st) for two plain decimal literals: the operator applied to their values, except
   * that a minus followed by a negative literal reads as the decrement operator "--", which
   * cannot follow a literal: a SyntaxError.
   */
  function EvalSource(ft: string, op: BinOp, st: string, lib: FloatLib): Completion<Number>
  {
    if op == Sub && |st| > 0 && st[0] == '-' then Throw(SyntaxError)
    else Normal(Arith(op, ParseNumber(ft, lib), ParseNumber(st, lib), lib))
  }

  /** _stackHelper as written, with its eval calls. */
  function StackHelperAsWritten(f: JsValue, s: JsValue, op: BinOp, programmer: bool, scale: Radix, lib: FloatLib): Completion<JsValue>
  {
    if op == Pow || op == YRoot then Normal(Num(Arith(op, ToNumber(f, lib), ToNumber(s, lib), lib)))
    else if programmer && scale != 10 then
      match EvalSource(NumberText(RadixOperand(Text(f), scale)), op, NumberText(RadixOperand(Text(s), scale)), lib)
      case Throw(e) => Throw(e)
      case Normal(r) => Normal(Str(RadixText(r, scale, lib)))
    else
      match EvalSource(Text(f), op, Text(s), lib)
      case Throw(e) => Throw(e)
      case Normal(r) => Normal(Num(r))
  }

  /** Keys 5 - 3 ± = leave "5" and "-3" on the operand stack: eval("5--3") throws, the dispatch gives 8. */
  lemma MinusNegativeThrows(lib: FloatLib)
    ensures StackHelperAsWritten(Str("5"), Str("-3"), Sub, false, 10, lib) == Throw(SyntaxError)
    ensures StackHelper(Str("5"), Str("-3"), Sub, false, 10, lib) == Num(Int(8))
  {
    assert IsInteger("5") && IntegerValue("5") == 5;
    assert Unsigned("-3") == "3";
    assert IsInteger("-3") && IntegerValue("-3") == -3;
  }

  /**
   * A display text that eval reads as the decimal number it shows: an integer or decimal,
   * optionally signed, whose integer part has no leading zero (sloppy-mode eval reads "010" as
   * the legacy octal literal 8). Texts with hexadecimal letters are not of this kind.
   */
  predicate PlainDecimal(t: string)
  {
    (IsInteger(t) || IsFloat(t)) && var u := Unsigned(t); !(|u| >= 2 && u[0] == '0' && u[1] != '.')
  }

  /** Every integer result the engine writes back, String(i), is such a text. */
  lemma DecimalStringIsPlain(i: int)
    ensures PlainDecimal(DecimalString(i))
  {
    DecimalStringIsInteger(i);
    var u := Unsigned(DecimalString(i));
    if i < 0 {
      assert u == ToRadix(-i, 10);
    } else {
      assert u == ToRadix(i, 10);
    }
  }

  /**
   * On plain decimal operand texts, where eval does not meet "--", it computes what the
   * dispatch computes.
   */
  lemma StackHelperAgrees(f: string, s: string, op: BinOp, lib: FloatLib)
    requires PlainDecimal(f) && PlainDecimal(s)
    requires !(op == Sub && |s| > 0 && s[0] == '-')
    ensures StackHelperAsWritten(Str(f), Str(s), op, false, 10, lib) == Normal(StackHelper(Str(f), Str(s), op, false, 10, lib))
  {
  }

  /** A text toString(scale) wrote is read back by parseInt(text, scale). */
  lemma RadixOperandOf(a: int, scale: Radix)
    ensures RadixOperand(IntToRadix(a, scale), scale) == Int(a)
  {
    ParseIntToRadix(a, scale);
  }

  /**
   * An integer written in base b is shown by checkLength as that text when it has at most 12
   * characters, and otherwise as the integer in exponential notation, read in the base it is
   * written in; on such a long text checkLength as written throws.
   */
  lemma CheckLengthOfRadix(i: int, b: Radix, lib: FloatLib)
    ensures var t := IntToRadix(i, b);
      |t| <= 12 ==> CheckLength(Str(t), b, lib) == t && CheckLengthAsWritten(Str(t), lib) == Normal(t)
    ensures var t := IntToRadix(i, b);
      |t| > 12 ==> CheckLength(Str(t), b, lib) == ToExponential7(i) && CheckLengthAsWritten(Str(t), lib) == Throw(TypeError)
  {
    RadixTextTrimmed(i, b);
    RadixTextValue(i, b, lib);
  }



  /** A text toString(b) wrote stands for the integer it was written from, read in base b. */
  lemma RadixTextValue(i: int, b: Radix, lib: FloatLib)
    ensures ValueIn(Str(IntToRadix(i, b)), b, lib) == Int(i)
  {
    if b == 10 {
      ParseNumberOfInteger(i, lib);
    } else {
      RadixOperandOf(i, b);
    }
  }


  /**
   * In base 2, 1000000 × 1000000 = multiplies 64 by 64 and writes 4096 as the thirteen characters
   * "1000000000000": checkLength as written throws on that text, and the corrected checkLength
   * shows 4096 in exponential notation (not 10^12, the decimal reading of the text).
   */
  lemma BinaryProductShown(lib: FloatLib)
    ensures StackHelper(Str("1000000"), Str("1000000"), Mul, true, 2, lib) == Str("1000000000000")
    ensures CheckLengthAsWritten(Str("1000000000000"), lib) == Throw(TypeError)
    ensures CheckLength(Str("1000000000000"), 2, lib) == ToExponential7(4096)
  {
    BinarySixtyFour();
    BinaryFourThousand();
    RadixArithmetic(64, 64, Mul, 2, lib);
    assert IntArith(Mul, 64, 64, lib) == Int(4096);
    CheckLengthOfRadix(4096, 2, lib);
  }

  /** 64 in binary: a one followed by six zeros. */
  lemma BinarySixtyFour()
    ensures IntToRadix(64, 2) == "1000000"
  {
    PowerDigits(2, 6);
    assert Power(2, 6) == 64;
    assert "1" + seq(6, _ => '0') == "1000000";
  }

  /** 4096 in binary: a one followed by twelve zeros. */
  lemma BinaryFourThousand()
    ensures IntToRadix(4096, 2) == "1000000000000"
  {
    PowerDigits(2, 12);
    assert Power(2, 12) == 4096;
    assert "1" + seq(12, _ => '0') == "1000000000000";
  }


  /**
   * In programmer mode outside decimal, operands shown in the current base combine to the
   * exact result shown in that base.
   */
  lemma RadixArithmetic(a: int, b: int, op: BinOp, scale: Radix, lib: FloatLib)
    requires scale != 10 && op != Pow && op != YRoot
    ensures StackHelper(Str(IntToRadix(a, scale)), Str(IntToRadix(b, scale)), op, true, scale, lib)
         == Str(RadixText(IntArith(op, a, b, lib), scale, lib))
  {
    RadixOperandOf(a, scale);
    RadixOperandOf(b, scale);
  }

  /** Decimal operands combine exactly: the operator on the integers the display texts show. */
  lemma DecimalArithmetic(a: int, b: int, op: BinOp, programmer: bool, scale: Radix, lib: FloatLib)
    requires !programmer || scale == 10
    ensures StackHelper(Str(DecimalString(a)), Str(DecimalString(b)), op, programmer, scale, lib) == Num(IntArith(op, a, b, lib))
  {
    ParseNumberOfInteger(a, lib);
    ParseNumberOfInteger(b, lib);
  }
}
