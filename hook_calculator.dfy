/**
 * The calculator state of the React front end (hooks/use-calculator.ts): one pending operation
 * held as a previous value and an operator, a display text, a flag that makes the next digit key
 * start a new operand, and a history list the handlers only ever append to. The state hooks are
 * the fields of a class; each handler is a method that reassigns them.
 */
module HookCalculator {
  import opened Wrappers
  import opened JsNumber
  import opened JsArith
  import opened Classifiers
  import opened LegacyFormat

  /** The operators handleInput passes to inputOperation. */
  predicate IsOperator(s: string)
  {
    s == "+" || s == "-" || s == "*" || s == "/"
  }

  /** /\d/.test(value): whether some character of value is a decimal digit. */
  function HasDigit(value: string): (b: bool)
    ensures b <==> exists i :: 0 <= i < |value| && IsDecimalDigit(value[i])
    decreases |value|
  {
    if value == [] then false
    else if IsDecimalDigit(value[0]) then true
    else
      var b := HasDigit(value[1..]);
      assert forall i :: 1 <= i < |value| ==> value[i] == value[1..][i - 1];
      b
  }

  /** Whether a text contains a point: display.indexOf(".") !== -1. */
  predicate HasPoint(s: string)
  {
    IndexOf(s, '.') != -1
  }

  /**
   * calculate(firstValue, secondValue, operation): + - * / on the two numbers; "=" and every
   * other operator give the second value.
   */
  function Calculate(first: Number, second: Number, operation: string, lib: FloatLib): Number
  {
    if operation == "+" then Arith(Add, first, second, lib)
    else if operation == "-" then Arith(Sub, first, second, lib)
    else if operation == "*" then Arith(Mul, first, second, lib)
    else if operation == "/" then Arith(Div, first, second, lib)
    else second
  }

  /** On integers calculate is exact: a sum, a difference, a product, an exact quotient; "=" and unknown operators give the second value. */
  lemma CalculateOnIntegers(a: int, b: int, operation: string, lib: FloatLib)
    ensures operation == "+" ==> Calculate(Int(a), Int(b), operation, lib) == Int(a + b)
    ensures operation == "-" ==> Calculate(Int(a), Int(b), operation, lib) == Int(a - b)
    ensures operation == "*" ==> Calculate(Int(a), Int(b), operation, lib) == Int(a * b)
    ensures operation == "/" && b != 0 && a % b == 0 ==>
      Calculate(Int(a), Int(b), operation, lib).Int? && b * Calculate(Int(a), Int(b), operation, lib).i == a
    ensures operation == "/" && b == 0 ==> Calculate(Int(a), Int(b), operation, lib).NonInt?
    ensures !IsOperator(operation) ==> Calculate(Int(a), Int(b), operation, lib) == Int(b)
  {
    DivisionExact(a, b, lib);
  }

  /** On integers "-" undoes "+" with the same second operand. */
  lemma SubtractUndoesAdd(a: int, b: int, lib: FloatLib)
    ensures Calculate(Calculate(Int(a), Int(b), "+", lib), Int(b), "-", lib) == Int(a)
  {
    CalculateOnIntegers(a, b, "+", lib);
    CalculateOnIntegers(a + b, b, "-", lib);
  }

  /** previousValue || 0: the falsy numbers, 0 and NaN, become 0. */
  function OrZero(x: Number): Number
  {
    if x == Int(0) || x == NonInt("NaN") then Int(0) else x
  }

  /** The history line `${first} ${operation} ${second} = ${result}`. */
  function HistoryEntry(first: Number, operation: string, second: Number, result: Number): string
  {
    NumberText(first) + " " + operation + " " + NumberText(second) + " = " + NumberText(result)
  }

  /** The display after inputNumber(num): num when waiting for an operand or when the display is "0", the display extended by num otherwise. */
  function TypedText(display: string, num: string, waiting: bool): string
  {
    if waiting || display == "0" then num else display + num
  }

  /** The display after backspace: the last character dropped, or "0" when at most one is left. */
  function BackspaceText(display: string): (r: string)
    ensures |r| > 0
  {
    if |display| > 1 then display[..|display| - 1] else "0"
  }

  /** Backspace undoes the key typed last onto a non-empty display that was not waiting for an operand. */
  lemma BackspaceUndoesTyping(display: string, key: string)
    requires |display| > 0 && |key| == 1
    ensures BackspaceText(TypedText(display, key, false)) == display
  {
    if display != "0" {
      assert (display + key)[..|display|] == display;
    }
  }

  /** The key the scientific keypad sends for 10ˣ contains digits, so handleInput types it into the display. */
  lemma PowTenKeyIsTyped()
    ensures HasDigit("10^") && TypedText("0", "10^", false) == "10^"
  {
    assert IsDecimalDigit("10^"[0]);
  }

  /** On a display of "0" the point key replaces the display with "." rather than "0.". */
  lemma PointOnZero()
    ensures !HasPoint("0") && !HasDigit(".") && TypedText("0", ".", false) == "."
  {
    assert !IsDecimalDigit("."[0]);
  }

  /** The four function keys handleInput knows. */
  datatype FunctionKey = NegateKey | SqrtKey | SquareKey | ReciprocalKey

  /** Where handleInput sends a value. */
  datatype Route = Typed | Operator | Equals | Point | Function(key: FunctionKey) | Ignored

  /** The chain of tests of handleInput, in its order: a digit anywhere first, then the operators, "=", ".", and the function names. */
  function RouteOf(value: string): (r: Route)
    ensures r == Typed <==> HasDigit(value)
    ensures r == Operator <==> !HasDigit(value) && IsOperator(value)
    ensures r.Function? ==> !HasDigit(value)
  {
    if HasDigit(value) then Typed
    else if IsOperator(value) then Operator
    else if value == "=" then Equals
    else if value == "." then Point
    else if value == "negate" then Function(NegateKey)
    else if value == "sqrt" then Function(SqrtKey)
    else if value == "square" then Function(SquareKey)
    else if value == "reciprocal" then Function(ReciprocalKey)
    else Ignored
  }

  /** Keys of the three keypads that handleInput drops: the CE key of the standard keypad among them. */
  lemma KeysIgnored()
    ensures RouteOf("ce") == Ignored && RouteOf("%") == Ignored && RouteOf("A") == Ignored
    ensures RouteOf("(") == Ignored && RouteOf("pi") == Ignored && RouteOf("mod") == Ignored
  {
  }

  class CalculatorHook {
    const lib: FloatLib
    var display: string
    var history: seq<string>
    var previousValue: Option<Number>
    var operation: Option<string>
    var waitingForOperand: bool

    /** A pending operation always has both halves: a previous value and one of the four operators. */
    ghost predicate Valid()
      reads this
    {
      (previousValue.Some? <==> operation.Some?) && (operation.Some? ==> IsOperator(operation.value))
    }

    /** The initial state of the five state hooks. */
    constructor (lib: FloatLib)
      ensures Valid() && this.lib == lib
      ensures display == "0" && history == [] && previousValue == None && operation == None && !waitingForOperand
    {
      this.lib := lib;
      display := "0";
      history := [];
      previousValue := None;
      operation := None;
      waitingForOperand := false;
    }

    /** inputNumber: a new operand replaces the display and ends the wait; otherwise "0" is replaced and any other display extended. */
    method InputNumber(num: string)
      modifies this`display, this`waitingForOperand
      ensures display == TypedText(old(display), num, old(waitingForOperand))
      ensures !waitingForOperand
    {
      if waitingForOperand {
        display := num;
        waitingForOperand := false;
      } else {
        display := if display == "0" then num else display + num;
      }
    }

    /**
     * inputOperation: the display's value becomes the previous value when there is none; with a
     * pending operation the display and the previous value become its result and the history
     * gains one line. Either way the new operator is pending and the next digit starts an operand.
     */
    method InputOperation(nextOperation: string)
      requires Valid() && IsOperator(nextOperation)
      modifies this`display, this`history, this`previousValue, this`operation, this`waitingForOperand
      ensures Valid()
      ensures waitingForOperand && operation == Some(nextOperation)
      ensures var input := ParseNumber(old(display), lib);
        old(previousValue).None? ==>
          previousValue == Some(input) && display == old(display) && history == old(history)
      ensures var input := ParseNumber(old(display), lib);
        old(previousValue).Some? ==>
          var current := OrZero(old(previousValue).value);
          var result := Calculate(current, input, old(operation).value, lib);
          && display == NumberText(result) && previousValue == Some(result)
          && history == old(history) + [HistoryEntry(current, old(operation).value, input, result)]
    {
      var inputValue := ParseNumber(display, lib);
      if previousValue.None? {
        previousValue := Some(inputValue);
      } else if operation.Some? && operation.value != "" {
        var currentValue := OrZero(previousValue.value);
        var newValue := Calculate(currentValue, inputValue, operation.value, lib);
        display := NumberText(newValue);
        previousValue := Some(newValue);
        history := history + [HistoryEntry(currentValue, operation.value, inputValue, newValue)];
      }
      waitingForOperand := true;
      operation := Some(nextOperation);
    }

    /**
     * performCalculation (=): with a pending operation, the display shows its result, the
     * operation is cleared, the next digit starts an operand and the history gains one line;
     * with none, nothing changes.
     */
    method PerformCalculation()
      requires Valid()
      modifies this`display, this`history, this`previousValue, this`operation, this`waitingForOperand
      ensures Valid()
      ensures old(operation).None? ==>
        unchanged(this`display, this`history, this`previousValue, this`operation, this`waitingForOperand)
      ensures old(operation).Some? ==>
        var input := ParseNumber(old(display), lib);
        var result := Calculate(old(previousValue).value, input, old(operation).value, lib);
        && display == NumberText(result) && previousValue == None && operation == None && waitingForOperand
        && history == old(history) + [HistoryEntry(old(previousValue).value, old(operation).value, input, result)]
    {
      var inputValue := ParseNumber(display, lib);
      if previousValue.Some? && operation.Some? && operation.value != "" {
        var newValue := Calculate(previousValue.value, inputValue, operation.value, lib);
        var entry := HistoryEntry(previousValue.value, operation.value, inputValue, newValue);
        display := NumberText(newValue);
        previousValue := None;
        operation := None;
        waitingForOperand := true;
        history := history + [entry];
      }
    }

    /** clear: display "0", no pending operation, not waiting; the history stays. */
    method Clear()
      modifies this`display, this`previousValue, this`operation, this`waitingForOperand
      ensures Valid()
      ensures display == "0" && previousValue == None && operation == None && !waitingForOperand
    {
      display := "0";
      previousValue := None;
      operation := None;
      waitingForOperand := false;
    }

    /** clearEntry: only the display, back to "0". */
    method ClearEntry()
      modifies this`display
      ensures display == "0"
    {
      display := "0";
    }

    /** backspace: the last character goes, or the display becomes "0" when at most one is left. */
    method Backspace()
      modifies this`display
      ensures display == BackspaceText(old(display))
    {
      if |display| > 1 {
        display := display[..|display| - 1];
      } else {
        display := "0";
      }
    }

    /** The unary keys: the display shows String(result) of the function on the display's value, and all but ± add a history line. */
    method ShowUnary(result: Number, entry: Option<string>)
      modifies this`display, this`history
      ensures display == NumberText(result)
      ensures history == old(history) + (if entry.Some? then [entry.value] else [])
    {
      display := NumberText(result);
      if entry.Some? {
        history := history + [entry.value];
      }
    }

    /** The point key: typed unless the display already has a point. */
    method InputPoint()
      modifies this`display, this`waitingForOperand
      ensures HasPoint(old(display)) ==> display == old(display) && waitingForOperand == old(waitingForOperand)
      ensures !HasPoint(old(display)) ==> display == TypedText(old(display), ".", old(waitingForOperand)) && !waitingForOperand
    {
      if !HasPoint(display) {
        InputNumber(".");
      }
    }

    /**
     * handleInput: a value with a digit in it is typed, the four operators go to inputOperation,
     * "=" to performCalculation, "." is typed unless the display has a point already, and
     * negate, sqrt, square and reciprocal replace the display by their result; every other value
     * is ignored. The history only grows, by at most one line.
     */
    method HandleInput(value: string)
      requires Valid()
      modifies this`display, this`history, this`previousValue, this`operation, this`waitingForOperand
      ensures Valid()
      ensures history == old(history) || (|history| == |old(history)| + 1 && history[..|old(history)|] == old(history))
      ensures var route := RouteOf(value);
        route == Typed ==>
          display == TypedText(old(display), value, old(waitingForOperand)) && !waitingForOperand
          && history == old(history) && previousValue == old(previousValue) && operation == old(operation)
      ensures RouteOf(value) == Operator ==> operation == Some(value) && waitingForOperand
      ensures var input := ParseNumber(old(display), lib);
        RouteOf(value) == Operator && old(previousValue).None? ==>
          previousValue == Some(input) && display == old(display) && history == old(history)
      ensures var input := ParseNumber(old(display), lib);
        RouteOf(value) == Operator && old(previousValue).Some? ==>
          var current := OrZero(old(previousValue).value);
          var result := Calculate(current, input, old(operation).value, lib);
          && display == NumberText(result) && previousValue == Some(result)
          && history == old(history) + [HistoryEntry(current, old(operation).value, input, result)]
      ensures RouteOf(value) == Equals && old(operation).None? ==>
        unchanged(this`display, this`history, this`previousValue, this`operation, this`waitingForOperand)
      ensures RouteOf(value) == Equals && old(operation).Some? ==>
        var input := ParseNumber(old(display), lib);
        var result := Calculate(old(previousValue).value, input, old(operation).value, lib);
        && display == NumberText(result) && previousValue == None && operation == None && waitingForOperand
        && history == old(history) + [HistoryEntry(old(previousValue).value, old(operation).value, input, result)]
      ensures RouteOf(value) == Point ==>
        (HasPoint(old(display)) ==> unchanged(this`display, this`history, this`previousValue, this`operation, this`waitingForOperand))
        && (!HasPoint(old(display)) ==>
              display == TypedText(old(display), ".", old(waitingForOperand)) && !waitingForOperand
              && history == old(history) && previousValue == old(previousValue) && operation == old(operation))
      ensures RouteOf(value).Function? ==>
        previousValue == old(previousValue) && operation == old(operation) && waitingForOperand == old(waitingForOperand)
      ensures RouteOf(value) == Function(NegateKey) ==>
        display == NumberText(Arith(Mul, ParseNumber(old(display), lib), Int(-1), lib)) && history == old(history)
      ensures var x := ParseNumber(old(display), lib);
        RouteOf(value) == Function(SqrtKey) ==>
          var result := lib.unary(Sqrt, x);
          display == NumberText(result) && history == old(history) + ["√" + old(display) + " = " + NumberText(result)]
      ensures var x := ParseNumber(old(display), lib);
        RouteOf(value) == Function(SquareKey) ==>
          var result := Arith(Pow, x, Int(2), lib);
          display == NumberText(result) && history == old(history) + [old(display) + "²" + " = " + NumberText(result)]
      ensures var x := ParseNumber(old(display), lib);
        RouteOf(value) == Function(ReciprocalKey) ==>
          var result := Arith(Div, Int(1), x, lib);
          display == NumberText(result) && history == old(history) + ["1/" + old(display) + " = " + NumberText(result)]
      ensures RouteOf(value) == Ignored ==>
        unchanged(this`display, this`history, this`previousValue, this`operation, this`waitingForOperand)
    {
      var x := ParseNumber(display, lib);
      match RouteOf(value)
      case Typed =>
        InputNumber(value);
      case Operator =>
        InputOperation(value);
      case Equals =>
        PerformCalculation();
      case Point =>
        InputPoint();
      case Function(NegateKey) =>
        ShowUnary(Arith(Mul, x, Int(-1), lib), None);
      case Function(SqrtKey) =>
        var result := lib.unary(Sqrt, x);
        ShowUnary(result, Some("√" + display + " = " + NumberText(result)));
      case Function(SquareKey) =>
        var result := Arith(Pow, x, Int(2), lib);
        ShowUnary(result, Some(display + "²" + " = " + NumberText(result)));
      case Function(ReciprocalKey) =>
        var result := Arith(Div, Int(1), x, lib);
        ShowUnary(result, Some("1/" + display + " = " + NumberText(result)));
      case Ignored =>
    }
  }
}
