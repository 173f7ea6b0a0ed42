/**
 * The legacy engine of script.js as the object it is: the fields of `cal` that the key handlers
 * update (the two stacks, the four flags, the last result, the base, and the display and step
 * texts, which the page keeps in DOM elements and which are plain strings here), with one method
 * per handler. Each method is proved to compute the functions of LegacyFormat, LegacyOperations
 * and LegacyStacks, and to keep the stacks balanced between keypresses.
 */
module LegacyEngine {
  import opened Wrappers
  import opened JsNumber
  import opened JsArith
  import opened Classifiers
  import opened LegacyFormat
  import opened LegacyOperations
  import opened LegacyStacks

  /** cal.type: 1 standard, 2 scientific, 3 programmer. */
  datatype CalculatorType = Standard | Scientific | Programmer

  /** The step text when there is no step: the page writes a non-breaking space. */
  const EmptyStep: string := "&nbsp;"

  /** keyCodes 0-10 and 40-45: the digit, point and hexadecimal letter keys. */
  predicate IsEntryCode(code: nat)
  {
    code < 11 || 39 < code < 46
  }

  /** The character an entry key types. */
  function KeyText(code: nat): (t: string)
    requires IsEntryCode(code)
    ensures |t| == 1
    ensures code < 10 ==> IsDecimalDigit(t[0]) && DigitValue(t[0]) == code
    ensures code == 10 <==> t == "."
    ensures code >= 40 ==> 'A' <= t[0] <= 'F' && DigitValue(t[0]) == code - 30
  {
    if code < 10 then [('0' as int + code) as char]
    else if code == 10 then "."
    else [('A' as int + code - 40) as char]
  }

  /** keyCodes of the unary keys and the callback handleKey hands to unaryOperate for each. */
  function UnaryCode(code: nat): Option<UnaryKey>
  {
    if code == 11 then Some(UnaryKey.Negate)
    else if code == 18 then Some(SquareRoot)
    else if code == 19 then Some(Square)
    else if code == 20 then Some(Reciprocal)
    else if code == 24 then Some(Fact)
    else if code == 25 then Some(Exp)
    else if code == 27 then Some(UnaryKey.Sin)
    else if code == 28 then Some(UnaryKey.Cos)
    else if code == 29 then Some(UnaryKey.Tan)
    else if code == 30 then Some(PowTen)
    else if code == 31 then Some(Log)
    else if code == 32 then Some(UnaryKey.Sinh)
    else if code == 33 then Some(UnaryKey.Cosh)
    else if code == 34 then Some(UnaryKey.Tanh)
    else if code == 35 then Some(Pi)
    else if code == 48 then Some(UnaryKey.BitNot)
    else None
  }

  /** keyCodes of the binary keys. */
  function BinaryCode(code: nat): Option<BinOp>
  {
    if code == 13 then Some(Add)
    else if code == 14 then Some(Sub)
    else if code == 15 then Some(Mul)
    else if code == 16 then Some(Div)
    else if code == 17 then Some(Mod)
    else if code == 23 then Some(YRoot)
    else if code == 26 then Some(Pow)
    else if code == 46 then Some(And)
    else if code == 47 then Some(Or)
    else None
  }

  /** operatorFacade: how an operator is written in the step text. */
  function Facade(op: BinOp): string
  {
    match op
    case Add => "+"
    case Sub => "-"
    case Mul => "×"
    case Div => "÷"
    case Mod => "%"
    case YRoot => "yroot"
    case Pow => "^"
    case And => "&"
    case Or => "|"
  }

  /**
   * The display after a key types value: in override mode the key replaces the display (a
   * point as "0."); a display of "0" is replaced the same way; any other display is extended
   * while it is shorter than 13 characters and otherwise kept.
   */
  function EnteredText(current: string, value: string, override: bool): string
  {
    if override || current == "0" then (if value == "." then "0." else value)
    else if |current| < 13 then current + value
    else current
  }

  /** Typing single characters never makes the display longer than 13 characters. */
  lemma EntryBounded(current: string, value: string, override: bool)
    requires |value| == 1 && |current| <= 13
    ensures |EnteredText(current, value, override)| <= 13
    ensures !override && current != "0" && |current| == 13 ==> EnteredText(current, value, override) == current
  {
  }

  /** Typing digits onto a display of digits (or over it) leaves a display of digits, which intPattern accepts. */
  lemma EntryKeepsDigits(current: string, value: string, override: bool)
    requires IsDigits(current) && IsDigits(value)
    ensures IsDigits(EnteredText(current, value, override)) && IsInteger(EnteredText(current, value, override))
  {
    var r := EnteredText(current, value, override);
    assert value[0] != '.';
    if !override && current != "0" && |current| < 13 {
      assert forall j :: 0 <= j < |r| ==> r[j] == (if j < |current| then current[j] else value[j - |current|]);
    }
    assert r[0] != '-';
  }

  /** The step text after a unary operation named name on the display si; chained when the previous key was unary too. */
  function UnaryStepText(pre: string, name: string, si: string, chained: bool): string
  {
    if chained then ChainStep(pre, name, si) else pre + StepEntry(name, si)
  }

  /** A second unary key in a row rewrites the entry the first one appended instead of adding another. */
  lemma UnaryStepChains(pre: string, name1: string, si1: string, name2: string, si2: string)
    requires NoSpace(name1) && NoSpace(si1)
    ensures UnaryStepText(UnaryStepText(pre, name1, si1, false), name2, si2, true) == UnaryStepText(pre, name2, si2, false)
  {
    ChainReplacesLastEntry(pre, name1, si1, name2, si2);
  }

  /**
   * The step text after a binary operator on the display si: the operator alone when the display
   * is already described by the step text (after a unary key or a closing parenthesis), the
   * display and the operator otherwise.
   */
  function BinaryStepText(pre: string, si: string, facade: string, afterUnary: bool): string
  {
    pre + (if afterUnary || (|pre| > 0 && pre[|pre| - 1] == ')') then " " + facade else " " + si + " " + facade)
  }

  /** What a unary callback returns: the new value and, for a named operation, its name for the step text. */
  datatype UnaryResult = UnaryResult(value: JsValue, name: Option<string>)

  /** The callback handleKey hands to unaryOperate for key k. */
  function Callback(k: UnaryKey, lib: FloatLib): Number -> UnaryResult
  {
    x => UnaryResult(UnaryValue(k, x, lib), UnaryName(k))
  }

  /** The factorial cache: the entry at n - 1 holds n!. */
  predicate CacheValid(cache: map<int, nat>)
  {
    forall k :: k in cache ==> k >= -1 && cache[k] == Factorial(k + 1)
  }

  class Calculator {
    const lib: FloatLib
    var kind: CalculatorType
    var currentScale: Radix
    var display: string
    var preStep: string
    var operandStack: seq<JsValue>
    var operatorStack: seq<StackOp>
    var isPreInputBinaryOperator: bool
    var isPreInputUnaryOperator: bool
    var isPreInputEquals: bool
    var isOverride: bool
    var preResult: string
    var factCache: map<int, nat>

    function CurrentStacks(): Stacks
      reads this`operandStack, this`operatorStack
    {
      Stacks(operandStack, operatorStack)
    }

    /** _StackHelper(), which reads the calculator type and the base each time it runs. */
    function StackHelper(): Combine
      reads this`kind, this`currentScale
    {
      HelperFor(kind == Programmer, currentScale, lib)
    }

    /**
     * What = shows on a numeric display: push the display, reduce every operator, and pass the value
     * through checkLength in the base the operands are read in.
     */
    function TotalShown(): string
      requires Balanced(CurrentStacks())
      reads this`operandStack, this`operatorStack, this`display, this`kind, this`currentScale
    {
      CheckLength(Result(TotalStacks()), OperandBase(kind == Programmer, currentScale), lib)
    }

    /** The stacks once the display is pushed and every operator reduced. */
    function TotalStacks(): Stacks
      requires Balanced(CurrentStacks())
      reads this`operandStack, this`operatorStack, this`display, this`kind, this`currentScale
    {
      var st := PushOperand(CurrentStacks(), Str(display));
      Travel(st, |st.operators|, 0, StackHelper())
    }

    /** Between keypresses the stacks are balanced, and the factorial cache is correct. */
    ghost predicate Valid()
      reads this
    {
      Balanced(CurrentStacks()) && CacheValid(factCache)
    }

    constructor (lib: FloatLib, kind: CalculatorType)
      ensures Valid()
      ensures this.lib == lib && this.kind == kind && currentScale == 10
      ensures display == "0" && preStep == EmptyStep && preResult == "0"
      ensures operandStack == [] && operatorStack == []
      ensures !isPreInputBinaryOperator && !isPreInputUnaryOperator && !isPreInputEquals && !isOverride
      ensures factCache == map[0 := 1]
    {
      this.lib := lib;
      this.kind := kind;
      currentScale := 10;
      display := "0";
      preStep := EmptyStep;
      operandStack := [];
      operatorStack := [];
      isPreInputBinaryOperator := false;
      isPreInputUnaryOperator := false;
      isPreInputEquals := false;
      isOverride := false;
      preResult := "0";
      factCache := map[0 := 1];
    }

    /** showInput: a digit, point or letter key. */
    method ShowInput(value: string)
      modifies this`display, this`isOverride, this`isPreInputBinaryOperator, this`isPreInputUnaryOperator, this`isPreInputEquals
      ensures display == EnteredText(old(display), value, old(isOverride))
      ensures !isOverride && !isPreInputBinaryOperator && !isPreInputUnaryOperator && !isPreInputEquals
    {
      var oldValue := display;
      var newValue := oldValue;
      if isOverride {
        if value == "." {
          newValue := "0.";
        } else {
          newValue := value;
        }
      } else if |oldValue| < 13 {
        if oldValue == "0" {
          if value == "." {
            newValue := "0.";
          } else {
            newValue := value;
          }
        } else {
          newValue := newValue + value;
        }
      }
      display := newValue;
      isOverride := false;
      isPreInputBinaryOperator := false;
      isPreInputUnaryOperator := false;
      isPreInputEquals := false;
    }

    /** fact: n! from the cache, or computed by a loop and stored at n - 1. */
    method Fact(n: nat) returns (r: nat)
      requires CacheValid(factCache)
      modifies this`factCache
      ensures r == Factorial(n)
      ensures factCache == old(factCache)[n - 1 := r] && CacheValid(factCache)
    {
      if n - 1 in factCache {
        r := factCache[n - 1];
      } else {
        r := 1;
        var i := 1;
        while i <= n
          invariant 1 <= i <= n + 1
          invariant r == Factorial(i - 1)
        {
          r := r * i;
          i := i + 1;
        }
        factCache := factCache[n - 1 := r];
      }
    }

    /**
     * unaryOperate(operation): on an integer, decimal or scientific display the callback runs on
     * its value; the display becomes checkLength of what it returns, the step text gains (or, after
     * another unary key, rewrites) the entry of a named operation, and the next digit overrides.
     * On any other display only the binary-operator flag changes.
     */
    method UnaryOperate(operation: Number -> UnaryResult)
      modifies this`display, this`preStep, this`isPreInputUnaryOperator, this`isOverride, this`isPreInputBinaryOperator
      ensures !isPreInputBinaryOperator
      ensures var x := UnaryOperand(old(display), lib);
        x.None? ==>
          display == old(display) && preStep == old(preStep)
          && isPreInputUnaryOperator == old(isPreInputUnaryOperator) && isOverride == old(isOverride)
      ensures var x := UnaryOperand(old(display), lib);
        x.Some? ==>
          var result := operation(x.value);
          && display == CheckLength(result.value, old(OperandBase(kind == Programmer, currentScale)), lib)
          && isOverride
          && (result.name.Some? ==>
                preStep == UnaryStepText(old(preStep), result.name.value, old(display), old(isPreInputUnaryOperator))
                && isPreInputUnaryOperator)
          && (result.name.None? ==> preStep == old(preStep) && isPreInputUnaryOperator == old(isPreInputUnaryOperator))
    {
      var si := display;
      var operand := UnaryOperand(si, lib);
      if operand.Some? {
        var result := operation(operand.value);
        display := CheckLength(result.value, OperandBase(kind == Programmer, currentScale), lib);
        if result.name.Some? {
          if !isPreInputUnaryOperator {
            preStep := preStep + StepEntry(result.name.value, si);
            isPreInputUnaryOperator := true;
          } else {
            preStep := ChainStep(preStep, result.name.value, si);
          }
        }
        isOverride := true;
      }
      isPreInputBinaryOperator := false;
    }

    /**
     * travelStack(level, minPri), with 0 for an absent argument: level or else the stack height
     * fixes the number of rounds before the loop starts; each round pops an operator, pushes back
     * a "(" or one below minPri and stops, or pops two operands and pushes _StackHelper() of them.
     * Returns the operand on top.
     */
    method TravelStack(level: nat, minPri: nat) returns (result: JsValue)
      requires Pending(CurrentStacks()) && level <= |operatorStack|
      modifies this`operandStack, this`operatorStack
      ensures var t := Travel(old(CurrentStacks()), if level == 0 then |old(operatorStack)| else level, minPri, StackHelper());
        CurrentStacks() == t && result == Result(t)
    {
      var l := if level != 0 then level else |operatorStack|;
      var r;
      r, result := TravelLoop(CurrentStacks(), l, minPri, StackHelper());
      operandStack, operatorStack := r.operands, r.operators;
    }

    /**
     * The block of binaryOperate for a numeric display: push it, extend the step text, apply the
     * precedence decision of BinaryReduce against the operator on top (showing the reduced value
     * when it shows one) and push the operator.
     */
    method PushBinary(op: BinOp)
      requires Balanced(CurrentStacks())
      modifies this`display, this`preStep, this`operandStack, this`operatorStack
      ensures var o := BinaryReduce(old(CurrentStacks()), old(display), op, old(StackHelper()));
        && CurrentStacks() == o.stacks
        && display == (if o.shown.Some? then CheckLength(o.shown.value, old(OperandBase(kind == Programmer, currentScale)), lib) else old(display))
        && preStep == BinaryStepText(old(preStep), old(display), Facade(op), old(isPreInputUnaryOperator))
    {
      var si, base := display, OperandBase(kind == Programmer, currentScale);
      ghost var o := BinaryReduce(CurrentStacks(), si, op, StackHelper());
      preStep := BinaryStepText(preStep, si, Facade(op), isPreInputUnaryOperator);
      var shown := Precede(op, si);
      assert Outcome(CurrentStacks(), shown) == o;
      if shown.Some? {
        display := CheckLength(shown.value, base, lib);
      }
    }

    /**
     * The stack work of binaryOperate: push the display text si, pop the previous operator and
     * push it straight back (only its priority is needed), reduce as its priority says, and push
     * the new operator. Returns the value to show, if any.
     */
    method Precede(op: BinOp, si: string) returns (shown: Option<JsValue>)
      requires Balanced(CurrentStacks())
      modifies this`operandStack, this`operatorStack
      ensures Outcome(CurrentStacks(), shown) == BinaryReduce(old(CurrentStacks()), si, op, StackHelper())
    {
      ghost var st1 := PushOperand(CurrentStacks(), Str(si));
      operandStack := operandStack + [Str(si)];
      assert CurrentStacks() == st1;
      shown := None;
      if operatorStack != [] {
        var p := Priority(Bin(op));
        var pp := Priority(Top(operatorStack));
        if p > pp {
        } else if p > 3 && p == pp {
          var _ := TravelStack(1, 0);
          assert CurrentStacks() == Travel(st1, 1, 0, StackHelper());
        } else {
          var r := TravelStack(0, p);
          assert CurrentStacks() == Travel(st1, |st1.operators|, p, StackHelper());
          shown := Some(r);
        }
      }
      operatorStack := operatorStack + [Bin(op)];
    }

    /** binaryOperate: PushBinary on a numeric display; on any other only the unary and equals flags change. */
    method BinaryOperate(op: BinOp)
      requires Balanced(CurrentStacks())
      modifies this`display, this`preStep, this`operandStack, this`operatorStack, this`isPreInputUnaryOperator, this`isPreInputEquals
      ensures Balanced(CurrentStacks())
      ensures !isPreInputUnaryOperator && !isPreInputEquals
      ensures !IsNumber(old(display)) ==> unchanged(this`display, this`preStep, this`operandStack, this`operatorStack)
      ensures IsNumber(old(display)) ==>
        var o := BinaryReduce(old(CurrentStacks()), old(display), op, old(StackHelper()));
        && CurrentStacks() == o.stacks
        && display == (if o.shown.Some? then CheckLength(o.shown.value, old(OperandBase(kind == Programmer, currentScale)), lib) else old(display))
        && preStep == BinaryStepText(old(preStep), old(display), Facade(op), old(isPreInputUnaryOperator))
    {
      var si := display;
      if IsNumber(si) {
        BinaryReduceBalanced(CurrentStacks(), si, op, StackHelper());
        PushBinary(op);
      }
      isPreInputUnaryOperator := false;
      isPreInputEquals := false;
    }

    /** _reset: empty stacks, the three isPreInput flags cleared. */
    method Reset()
      modifies this`operandStack, this`operatorStack, this`isPreInputBinaryOperator, this`isPreInputUnaryOperator, this`isPreInputEquals
      ensures operandStack == [] && operatorStack == []
      ensures !isPreInputBinaryOperator && !isPreInputUnaryOperator && !isPreInputEquals
    {
      operandStack := [];
      operatorStack := [];
      isPreInputBinaryOperator := false;
      isPreInputUnaryOperator := false;
      isPreInputEquals := false;
    }

    /**
     * The block of calculate for a numeric display: push it, travel the whole stack, show
     * checkLength of the value, remember it and clear the step text.
     */
    method ShowTotal()
      requires Balanced(CurrentStacks())
      modifies this`display, this`preStep, this`preResult, this`isOverride, this`operandStack, this`operatorStack
      ensures CurrentStacks() == old(TotalStacks())
      ensures display == old(TotalShown()) && preResult == display && preStep == EmptyStep && isOverride
    {
      var r := ReduceAll();
      ShowResult(r);
    }

    /** Show checkLength of the result, remember it and clear the step text. */
    method ShowResult(r: JsValue)
      modifies this`display, this`preStep, this`preResult, this`isOverride
      ensures display == CheckLength(r, OperandBase(kind == Programmer, currentScale), lib)
      ensures preResult == display && preStep == EmptyStep && isOverride
    {
      var result := CheckLength(r, OperandBase(kind == Programmer, currentScale), lib);
      display, preResult, preStep, isOverride := result, result, EmptyStep, true;
    }

    /** Push the display and reduce every operator on the stack: travelStack() with no level. */
    method ReduceAll() returns (r: JsValue)
      requires Balanced(CurrentStacks())
      modifies this`operandStack, this`operatorStack
      ensures var st := PushOperand(old(CurrentStacks()), Str(display));
        var t := Travel(st, |st.operators|, 0, StackHelper());
        CurrentStacks() == t && r == Result(t)
    {
      ghost var st := PushOperand(CurrentStacks(), Str(display));
      operandStack := operandStack + [Str(display)];
      assert CurrentStacks() == st;
      r := TravelStack(0, 0);
    }


    /**
     * calculate (=): unless the previous key was = already, a numeric display is pushed and the
     * whole stack reduced, and the value shown, remembered and the step text cleared; in every
     * case the stacks are then emptied and the equals flag set. So a second = changes nothing.
     */
    method Calculate()
      requires Balanced(CurrentStacks())
      modifies this`display, this`preStep, this`preResult, this`isOverride, this`operandStack, this`operatorStack,
        this`isPreInputBinaryOperator, this`isPreInputUnaryOperator, this`isPreInputEquals
      ensures old(isPreInputEquals) ==>
        unchanged(this`display, this`preStep, this`preResult, this`isOverride, this`operandStack, this`operatorStack,
          this`isPreInputBinaryOperator, this`isPreInputUnaryOperator, this`isPreInputEquals)
      ensures !old(isPreInputEquals) ==>
        operandStack == [] && operatorStack == [] && isPreInputEquals && !isPreInputBinaryOperator && !isPreInputUnaryOperator
      ensures !old(isPreInputEquals) && !IsNumber(old(display)) ==> unchanged(this`display, this`preStep, this`preResult, this`isOverride)
      ensures !old(isPreInputEquals) && IsNumber(old(display)) ==>
        display == old(TotalShown()) && preResult == display && preStep == EmptyStep && isOverride
    {
      if !isPreInputEquals {
        Equals();
      }
    }

    /** The block calculate runs when the previous key was not =. */
    method Equals()
      requires Balanced(CurrentStacks())
      modifies this`display, this`preStep, this`preResult, this`isOverride, this`operandStack, this`operatorStack,
        this`isPreInputBinaryOperator, this`isPreInputUnaryOperator, this`isPreInputEquals
      ensures operandStack == [] && operatorStack == [] && isPreInputEquals && !isPreInputBinaryOperator && !isPreInputUnaryOperator
      ensures !IsNumber(old(display)) ==> unchanged(this`display, this`preStep, this`preResult, this`isOverride)
      ensures IsNumber(old(display)) ==> display == old(TotalShown()) && preResult == display && preStep == EmptyStep && isOverride
    {
      if IsNumber(display) {
        ShowTotalAndReset();
      } else {
        Reset();
      }
      isPreInputEquals := true;
    }

    /** The numeric case of calculate: show the total, then empty the stacks and clear the flags. */
    method ShowTotalAndReset()
      requires Balanced(CurrentStacks())
      modifies this`display, this`preStep, this`preResult, this`isOverride, this`operandStack, this`operatorStack,
        this`isPreInputBinaryOperator, this`isPreInputUnaryOperator, this`isPreInputEquals
      ensures operandStack == [] && operatorStack == [] && !isPreInputEquals && !isPreInputBinaryOperator && !isPreInputUnaryOperator
      ensures display == old(TotalShown()) && preResult == display && preStep == EmptyStep && isOverride
    {
      ShowTotal();
      ghost var shown := display;
      Reset();
      assert display == shown;
    }

    /**
     * rightTag: on a numeric display, push it and reduce until a "(" is popped or the stack is empty; the value reduced to leaves the
     * operand stack for the display.
     */
    method RightTag()
      requires Balanced(CurrentStacks())
      modifies this`display, this`preStep, this`operandStack, this`operatorStack
      ensures Balanced(CurrentStacks())
      ensures !IsNumber(old(display)) ==> unchanged(this`display, this`preStep, this`operandStack, this`operatorStack)
      ensures IsNumber(old(display)) ==>
        var c := CloseParen(PushOperand(old(CurrentStacks()), Str(old(display))), old(StackHelper()));
        && operatorStack == c.operators
        && operandStack == c.operands[..|c.operands| - 1]
        && display == CheckLength(Result(c), old(OperandBase(kind == Programmer, currentScale)), lib)
        && preStep == old(preStep) + (" " + old(display) + " )")
    {
      if IsNumber(display) {
        CloseGroup();
      }
    }

    /** The block of rightTag for a numeric display. */
    method CloseGroup()
      requires Balanced(CurrentStacks())
      modifies this`display, this`preStep, this`operandStack, this`operatorStack
      ensures Balanced(CurrentStacks())
      ensures var c := CloseParen(PushOperand(old(CurrentStacks()), Str(old(display))), old(StackHelper()));
        && operatorStack == c.operators
        && operandStack == c.operands[..|c.operands| - 1]
        && display == CheckLength(Result(c), old(OperandBase(kind == Programmer, currentScale)), lib)
        && preStep == old(preStep) + (" " + old(display) + " )")
    {
      var si, base := display, OperandBase(kind == Programmer, currentScale);
      ghost var c := CloseParen(PushOperand(CurrentStacks(), Str(si)), StackHelper());
      preStep := preStep + (" " + si + " )");
      var r := CloseLoop(Stacks(operandStack + [Str(si)], operatorStack), StackHelper());
      assert r == c;
      // the value reduced to leaves the operand stack for the display
      var top := r.operands[|r.operands| - 1];
      assert top == Result(c);
      assert Balanced(Stacks(r.operands[..|r.operands| - 1], r.operators));
      operandStack, operatorStack := r.operands[..|r.operands| - 1], r.operators;
      display := CheckLength(top, base, lib);
    }

    /** The ( key: the step text gains " (" and a "(" is pushed, which keeps the stacks balanced. */
    method OpenParen()
      requires Balanced(CurrentStacks())
      modifies this`preStep, this`operatorStack
      ensures Balanced(CurrentStacks())
      ensures preStep == old(preStep) + " (" && operatorStack == old(operatorStack) + [Open]
    {
      CountBinaryPush(operatorStack, Open);
      preStep := preStep + " (";
      operatorStack := operatorStack + [Open];
    }

    /** ce: the display becomes "0". */
    method CE()
      modifies this`display
      ensures display == "0"
    {
      display := "0";
    }

    /** clear (C): display "0", empty step text, and _reset. */
    method Clear()
      modifies this`display, this`preStep, this`operandStack, this`operatorStack,
        this`isPreInputBinaryOperator, this`isPreInputUnaryOperator, this`isPreInputEquals
      ensures display == "0" && preStep == EmptyStep && operandStack == [] && operatorStack == []
      ensures !isPreInputBinaryOperator && !isPreInputUnaryOperator && !isPreInputEquals
    {
      display := "0";
      preStep := EmptyStep;
      Reset();
    }

    /** back: the last character goes; a display of fewer than two characters becomes "0". */
    method Back()
      modifies this`display
      ensures |old(display)| < 2 ==> display == "0"
      ensures |old(display)| >= 2 ==> display == old(display)[..|old(display)| - 1]
    {
      var oldValue := display;
      display := if |oldValue| < 2 then "0" else oldValue[..|oldValue| - 1];
    }

    /** The ↑ key: the display shows the result of the last =. */
    method Recall()
      modifies this`display
      ensures display == preResult
    {
      display := preResult;
    }

    /** switchType, without the panel switching: the new type and _reset. */
    method SwitchType(t: CalculatorType)
      modifies this`kind, this`operandStack, this`operatorStack,
        this`isPreInputBinaryOperator, this`isPreInputUnaryOperator, this`isPreInputEquals
      ensures kind == t && operandStack == [] && operatorStack == []
      ensures !isPreInputBinaryOperator && !isPreInputUnaryOperator && !isPreInputEquals
    {
      kind := t;
      Reset();
    }

    /** The base buttons of programmer mode set currentScale. */
    method SwitchScale(scale: Radix)
      modifies this`currentScale
      ensures currentScale == scale
    {
      currentScale := scale;
    }

    /** A unary key: n! first fills the factorial cache for an integer operand, as its callback calls fact. */
    method UnaryKeyPress(k: UnaryKey)
      requires CacheValid(factCache)
      modifies this`display, this`preStep, this`isPreInputUnaryOperator, this`isOverride, this`isPreInputBinaryOperator, this`factCache
      ensures CacheValid(factCache) && !isPreInputBinaryOperator
    {
      if k == UnaryKey.Fact {
        var x := UnaryOperand(display, lib);
        if x.Some? && x.value.Int? {
          var _ := Fact(Abs(x.value.i));
        }
      }
      UnaryOperate(Callback(k, lib));
    }

    /**
     * handleKey: the entry keys type, the unary keys go to unaryOperate, a binary key goes to
     * binaryOperate unless the previous key was binary too (the flag and the override are set
     * before the call, whatever the display), and the remaining keys to their handlers. Every
     * key keeps the stacks balanced, the factorial cache correct.
     */
    method HandleKey(code: nat)
      requires Valid()
      modifies this
      ensures Valid()
      ensures kind == old(kind) && currentScale == old(currentScale)
      ensures IsEntryCode(code) ==> display == EnteredText(old(display), KeyText(code), old(isOverride))
      ensures BinaryCode(code).Some? && old(isPreInputBinaryOperator) ==>
        display == old(display) && preStep == old(preStep) && CurrentStacks() == old(CurrentStacks())
        && isOverride == old(isOverride) && isPreInputBinaryOperator
      ensures BinaryCode(code).Some? && !old(isPreInputBinaryOperator) ==> isPreInputBinaryOperator && isOverride
    {
      if IsEntryCode(code) {
        ShowInput(KeyText(code));
      } else if UnaryCode(code).Some? {
        UnaryKeyPress(UnaryCode(code).value);
      } else if BinaryCode(code).Some? {
        BinaryKey(BinaryCode(code).value);
      } else {
        ControlKey(code);
      }
    }

    /** A binary key: ignored right after another binary key; otherwise the flag and the override are set and binaryOperate runs. */
    method BinaryKey(op: BinOp)
      requires Balanced(CurrentStacks())
      modifies this`display, this`preStep, this`operandStack, this`operatorStack, this`isPreInputUnaryOperator, this`isPreInputEquals,
        this`isPreInputBinaryOperator, this`isOverride
      ensures Balanced(CurrentStacks()) && isPreInputBinaryOperator
      ensures old(isPreInputBinaryOperator) ==>
        unchanged(this`display, this`preStep, this`operandStack, this`operatorStack, this`isOverride)
      ensures !old(isPreInputBinaryOperator) ==> isOverride
    {
      if !isPreInputBinaryOperator {
        isPreInputBinaryOperator := true;
        isOverride := true;
        BinaryOperate(op);
      }
    }

    /** The remaining keys of handleKey: =, CE, C, backspace, the parentheses and MR. */
    method ControlKey(code: nat)
      requires Balanced(CurrentStacks())
      modifies this`display, this`preStep, this`preResult, this`isOverride, this`operandStack, this`operatorStack,
        this`isPreInputBinaryOperator, this`isPreInputUnaryOperator, this`isPreInputEquals
      ensures Balanced(CurrentStacks())
    {
      if code == 12 {
        Calculate();
      } else if code == 37 {
        CE();
      } else if code == 38 {
        Clear();
      } else if code == 39 {
        Back();
      } else if code == 21 {
        OpenParen();
      } else if code == 22 {
        RightTag();
      } else if code == 36 {
        Recall();
      }
    }
  }
}
