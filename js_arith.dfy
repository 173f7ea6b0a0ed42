/**
 * JavaScript numbers and the arithmetic both calculators perform on them.
 *
 * A number is either an integer value, computed exactly here with JavaScript's rules
 * (remainder takes the sign of the dividend, & and | work on 32-bit two's complement,
 * division by zero gives Infinity or NaN), or some other value, known only by the text
 * String() writes for it. Every floating-point operation comes from a FloatLib supplied
 * by the caller: the JavaScript runtime's Math functions are outside this model.
 */
module JsArith {
  import opened JsNumber

  /** A JavaScript number: an integer value, or another value named by its String() text ("3.5", "NaN", "Infinity"). */
  datatype Number = Int(i: int) | NonInt(text: string)

  /** The binary operators of both calculators. */
  datatype BinOp = Add | Sub | Mul | Div | Mod | Pow | YRoot | And | Or

  /** The floating-point functions the calculators call on a number. */
  datatype MathFn = Sqrt | Sin | Cos | Tan | Sinh | Cosh | Tanh | Log10 | FactorialOf | NotInt32

  /**
   * The floating-point part of the JavaScript runtime, as parameters: parseFloat / Number() on a
   * string that is not an integer literal, the Math functions on their arguments, the binary
   * operators on operands or with results that are not integers, toExponential(7) and
   * toString(radix) of a number that is not an integer.
   */
  datatype FloatLib = FloatLib(
    parseFloat: string -> Number,
    unary: (MathFn, Number) -> Number,
    binary: (BinOp, Number, Number) -> Number,
    toExponential: Number -> string,
    toRadixString: (Number, Radix) -> string)

  /** String(x). */
  function NumberText(x: Number): string
  {
    match x
    case Int(i) => DecimalString(i)
    case NonInt(t) => t
  }

  const TwoTo31: int := 0x8000_0000
  const TwoTo32: int := 0x1_0000_0000

  /** ToInt32: the value modulo 2^32, read as a signed 32-bit integer. */
  function ToInt32(x: int): (r: int)
    ensures -TwoTo31 <= r < TwoTo31
    ensures (x - r) % TwoTo32 == 0
  {
    var m := x % TwoTo32;
    if m >= TwoTo31 then m - TwoTo32 else m
  }

  function ToUint32(x: int): (r: bv32)
  {
    (x % TwoTo32) as bv32
  }

  function Signed32(u: bv32): (r: int)
    ensures -TwoTo31 <= r < TwoTo31
  {
    if u as int >= TwoTo31 then u as int - TwoTo32 else u as int
  }

  /** a & b. */
  function BitAnd32(a: int, b: int): (r: int)
    ensures -TwoTo31 <= r < TwoTo31
  {
    Signed32(ToUint32(a) & ToUint32(b))
  }

  /** a | b. */
  function BitOr32(a: int, b: int): (r: int)
    ensures -TwoTo31 <= r < TwoTo31
  {
    Signed32(ToUint32(a) | ToUint32(b))
  }

  /** ~a. */
  function BitNot32(a: int): (r: int)
    ensures -TwoTo31 <= r < TwoTo31
  {
    -ToInt32(a) - 1
  }

  function Abs(x: int): nat
  {
    if x < 0 then -x else x
  }

  /** The quotient of a / b rounded toward zero. */
  function TruncQuot(a: int, b: int): int
    requires b != 0
  {
    var q := Abs(a) / Abs(b);
    if (a < 0) != (b < 0) then -q else q
  }

  /** a % b in JavaScript: the remainder of the quotient rounded toward zero, with the sign of a. */
  function TruncRem(a: int, b: int): int
    requires b != 0
  {
    var r := Abs(a) % Abs(b);
    if a < 0 then -r else r
  }

  function Power(a: int, n: nat): int
  {
    if n == 0 then 1 else a * Power(a, n - 1)
  }

  /** The binary operators on two integer values. */
  function IntArith(op: BinOp, a: int, b: int, lib: FloatLib): Number
  {
    match op
    case Add => Int(a + b)
    case Sub => Int(a - b)
    case Mul => Int(a * b)
    case Div =>
      if b == 0 then NonInt(if a > 0 then "Infinity" else if a < 0 then "-Infinity" else "NaN")
      else if a % b == 0 then Int(a / b)
      else lib.binary(Div, Int(a), Int(b))
    case Mod => if b == 0 then NonInt("NaN") else Int(TruncRem(a, b))
    case Pow => if b >= 0 then Int(Power(a, b)) else lib.binary(Pow, Int(a), Int(b))
    case YRoot => lib.binary(YRoot, Int(a), Int(b))
    case And => Int(BitAnd32(a, b))
    case Or => Int(BitOr32(a, b))
  }

  /** x op y: exact when both operands are integers, the runtime's otherwise. */
  function Arith(op: BinOp, x: Number, y: Number, lib: FloatLib): Number
  {
    if x.Int? && y.Int? then IntArith(op, x.i, y.i, lib) else lib.binary(op, x, y)
  }

  /** Division of integers: exact when the divisor divides, Infinity or NaN for a zero divisor. */
  lemma DivisionExact(a: int, b: int, lib: FloatLib)
    ensures b != 0 && a % b == 0 ==> IntArith(Div, a, b, lib).Int? && b * IntArith(Div, a, b, lib).i == a
    ensures b == 0 ==> IntArith(Div, a, b, lib).NonInt?
  {
  }

  /** JavaScript's % and truncating division: a == b * q + r, |r| < |b|, and r is zero or has the sign of a. */
  lemma TruncRemSpec(a: int, b: int)
    requires b != 0
    ensures a == b * TruncQuot(a, b) + TruncRem(a, b)
    ensures Abs(TruncRem(a, b)) < Abs(b)
    ensures TruncRem(a, b) == 0 || (TruncRem(a, b) < 0 <==> a < 0)
  {
    var q := Abs(a) / Abs(b);
    var r := Abs(a) % Abs(b);
    assert Abs(a) == Abs(b) * q + r && r < Abs(b);
    if b < 0 {
      NegateFactor(b, q);
    }
    if a < 0 && b < 0 {
      assert TruncQuot(a, b) == q && TruncRem(a, b) == -r;
    } else if a < 0 {
      assert TruncQuot(a, b) == -q && TruncRem(a, b) == -r;
    } else if b < 0 {
      assert TruncQuot(a, b) == -q && TruncRem(a, b) == r;
    } else {
      assert TruncQuot(a, b) == q && TruncRem(a, b) == r;
    }
  }

  lemma NegateFactor(b: int, q: int)
    requires b < 0
    ensures b * q == -(Abs(b) * q) && b * -q == Abs(b) * q
  {
  }

  /** With a non-negative exponent ^ is repeated multiplication: x^0 == 1 and x^(n+1) == x * x^n. */
  lemma PowerStep(a: int, n: nat, lib: FloatLib)
    ensures IntArith(Pow, a, 0, lib) == Int(1)
    ensures IntArith(Pow, a, n + 1, lib) == Int(a * IntArith(Pow, a, n, lib).i)
  {
  }

  /** ToInt32 leaves a value already in the signed 32-bit range unchanged. */
  lemma ToInt32InRange(x: int)
    requires -TwoTo31 <= x < TwoTo31
    ensures ToInt32(x) == x
  {
    if x < 0 {
      assert x % TwoTo32 == x + TwoTo32;
    } else {
      assert x % TwoTo32 == x;
    }
  }

  /** ~~a is a coerced to 32 bits, so ~ applied twice gives back any 32-bit operand. */
  lemma BitNotTwice(a: int)
    ensures BitNot32(BitNot32(a)) == ToInt32(a)
  {
    ToInt32InRange(BitNot32(a));
  }
}
