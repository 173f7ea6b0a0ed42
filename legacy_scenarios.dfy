/**
 * Whole key sequences of the legacy engine (script.js) in standard mode, played through the
 * stack functions that binaryOperate (script.js:548-584), rightTag (script.js:639-658) and
 * calculate (script.js:588-607) are proved to compute: operator precedence, left-to-right
 * evaluation of equal priorities, and grouping by parentheses.
 */
module LegacyScenarios {
  import opened Wrappers
  import opened JsNumber
  import opened JsArith
  import opened LegacyFormat
  import opened LegacyOperations
  import opened LegacyStacks

  /** The reduction of standard mode. */
  function Standard(lib: FloatLib): Combine
  {
    HelperFor(false, 10, lib)
  }

  /** binaryOperate in standard mode on balanced stacks, which it leaves balanced. */
  function Press(st: Stacks, display: string, op: BinOp, lib: FloatLib): (o: Outcome)
    requires Balanced(st)
    ensures Balanced(o.stacks)
    ensures o == BinaryReduce(st, display, op, Standard(lib))
  {
    BinaryReduceBalanced(st, display, op, Standard(lib));
    BinaryReduce(st, display, op, Standard(lib))
  }

  /** a o1 b o2 typed on empty stacks: the outcome of the second operator key. */
  function TwoPresses(ta: string, o1: BinOp, tb: string, o2: BinOp, lib: FloatLib): (o: Outcome)
    ensures Balanced(o.stacks)
  {
    Press(Press(Stacks([], []), ta, o1, lib).stacks, tb, o2, lib)
  }

  /** The value = shows, before checkLength: the display pushed and every pending operator reduced. */
  function Total(st: Stacks, display: string, ctx: Combine): JsValue
    requires Balanced(st)
  {
    var s := PushOperand(st, Str(display));
    Result(Travel(s, |s.operators|, 0, ctx))
  }

  /** A display text the engine reads as the integer a: Number(t) is exactly a. */
  predicate Reads(t: string, a: int, lib: FloatLib)
  {
    ParseNumber(t, lib) == Int(a)
  }

  /** The decimal text of an integer reads as that integer. */
  lemma DecimalReads(a: int, lib: FloatLib)
    ensures Reads(DecimalString(a), a, lib)
  {
    ParseNumberOfInteger(a, lib);
  }

  /** One reduction of standard mode on two integers, each typed as text or reduced earlier, is the exact integer operation. */
  lemma Exact(f: JsValue, s: JsValue, a: int, b: int, o: BinOp, lib: FloatLib)
    requires ToNumber(f, lib) == Int(a) && ToNumber(s, lib) == Int(b)
    ensures Standard(lib)(f, s, o) == Num(IntArith(o, a, b, lib))
  {
  }

  /** A press whose operator outranks the one on top (or meets an empty stack) only pushes. */
  lemma Defer(st: Stacks, display: string, op: BinOp, lib: FloatLib)
    requires Balanced(st)
    requires st.operators == [] || Priority(Bin(op)) > Priority(Top(st.operators))
    ensures Press(st, display, op, lib) == Outcome(Stacks(st.operands + [Str(display)], st.operators + [Bin(op)]), None)
  {
    assert [] + [Bin(op)] == [Bin(op)];
  }

  /**
   * A press whose operator does not outrank the one on top, and is not an equal priority above 3,
   * reduces down to it and shows the result.
   */
  lemma ReduceDown(st: Stacks, display: string, op: BinOp, lib: FloatLib)
    requires Balanced(st) && st.operators != []
    requires Priority(Bin(op)) <= Priority(Top(st.operators))
    requires !(Priority(Bin(op)) > 3 && Priority(Bin(op)) == Priority(Top(st.operators)))
    ensures var s := PushOperand(st, Str(display));
      var t := Travel(s, |s.operators|, Priority(Bin(op)), Standard(lib));
      Press(st, display, op, lib) == Outcome(Stacks(t.operands, t.operators + [Bin(op)]), Some(Result(t)))
  {
  }

  /** One binary operator pending: = reduces it, and so does an operator of no higher priority pressed next. */
  lemma ReduceOne(x: JsValue, o: BinOp, v: JsValue, minPri: nat, ctx: Combine)
    requires minPri <= Priority(Bin(o))
    ensures Balanced(Stacks([x], [Bin(o)]))
    ensures Travel(PushOperand(Stacks([x], [Bin(o)]), v), 1, minPri, ctx) == Stacks([ctx(x, v, o)], [])
  {
    CountBinaryPush([], Bin(o));
    assert [] + [Bin(o)] == [Bin(o)];
    var s := Stacks([x, v], [Bin(o)]);
    assert PushOperand(Stacks([x], [Bin(o)]), v) == s;
    TravelStep(s, 1, minPri, ctx);
    assert Reduced(s, ctx) == Stacks([ctx(x, v, o)], []);
  }

  /** Two binary operators pending: = reduces the upper one first, then the lower one on its result. */
  lemma ReduceTwo(x: JsValue, y: JsValue, o1: BinOp, o2: BinOp, c: string, ctx: Combine)
    ensures Balanced(Stacks([x, y], [Bin(o1), Bin(o2)]))
    ensures Total(Stacks([x, y], [Bin(o1), Bin(o2)]), c, ctx) == ctx(x, ctx(y, Str(c), o2), o1)
  {
    ReduceOne(x, o1, ctx(y, Str(c), o2), 0, ctx);
    CountBinaryPush([Bin(o1)], Bin(o2));
    assert [Bin(o1)] + [Bin(o2)] == [Bin(o1), Bin(o2)];
    var s := Stacks([x, y, Str(c)], [Bin(o1), Bin(o2)]);
    assert PushOperand(Stacks([x, y], [Bin(o1), Bin(o2)]), Str(c)) == s;
    TravelStep(s, 2, 0, ctx);
    assert Reduced(s, ctx) == PushOperand(Stacks([x], [Bin(o1)]), ctx(y, Str(c), o2));
  }

  /** x o1 d o2 where o2 does not outrank o1 (and is not an equal priority above 3): o1 is reduced at once and its result shown. */
  lemma ReduceThenPush(x: JsValue, o1: BinOp, d: string, o2: BinOp, lib: FloatLib)
    requires Priority(Bin(o2)) <= Priority(Bin(o1))
    requires !(Priority(Bin(o2)) > 3 && Priority(Bin(o2)) == Priority(Bin(o1)))
    ensures Balanced(Stacks([x], [Bin(o1)]))
    ensures var v := Standard(lib)(x, Str(d), o1);
      Press(Stacks([x], [Bin(o1)]), d, o2, lib) == Outcome(Stacks([v], [Bin(o2)]), Some(v))
  {
    ReduceOne(x, o1, Str(d), Priority(Bin(o2)), Standard(lib));
    ReduceDown(Stacks([x], [Bin(o1)]), d, o2, lib);
    assert [] + [Bin(o2)] == [Bin(o2)];
  }

  /** An operator pressed just after "(" reduces nothing and shows the display. */
  lemma PressAfterOpen(d: string, o: BinOp, lib: FloatLib)
    ensures Balanced(Stacks([], [Open]))
    ensures Press(Stacks([], [Open]), d, o, lib) == Outcome(Stacks([Str(d)], [Open, Bin(o)]), Some(Str(d)))
  {
    CountBinaryPush([], Open);
    assert [] + [Open] == [Open];
    var st0 := Stacks([], [Open]);
    ReduceDown(st0, d, o, lib);
    var p0 := Stacks([Str(d)], [Open]);
    assert PushOperand(st0, Str(d)) == p0;
    TravelStep(p0, 1, Priority(Bin(o)), Standard(lib));
    assert [Open] + [Bin(o)] == [Open, Bin(o)];
  }

  /** ")" after "( x o": the operator is reduced and the "(" dropped. */
  lemma CloseOne(x: JsValue, o: BinOp, v: JsValue, ctx: Combine)
    ensures Balanced(Stacks([x], [Open, Bin(o)]))
    ensures CloseParen(PushOperand(Stacks([x], [Open, Bin(o)]), v), ctx) == Stacks([ctx(x, v, o)], [])
  {
    CountBinaryPush([], Open);
    assert [] + [Open] == [Open];
    CountBinaryPush([Open], Bin(o));
    assert [Open] + [Bin(o)] == [Open, Bin(o)];
    var s := Stacks([x, v], [Open, Bin(o)]);
    assert PushOperand(Stacks([x], [Open, Bin(o)]), v) == s;
    CloseStep(s, ctx);
    var s1 := Reduced(s, ctx);
    assert s1 == Stacks([ctx(x, v, o)], [Open]);
    CloseStep(s1, ctx);
  }

  /** a + b × c = shows a + b·c: the product binds tighter, and pressing × reduces and shows nothing. */
  lemma AddThenMultiply(ta: string, tb: string, tc: string, a: int, b: int, c: int, lib: FloatLib)
    requires Reads(ta, a, lib) && Reads(tb, b, lib) && Reads(tc, c, lib)
    ensures TwoPresses(ta, Add, tb, Mul, lib).shown == None
    ensures Total(TwoPresses(ta, Add, tb, Mul, lib).stacks, tc, Standard(lib)) == Num(Int(a + b * c))
  {
    Defer(Stacks([], []), ta, Add, lib);
    assert [] + [Str(ta)] == [Str(ta)];
    var o1 := Press(Stacks([], []), ta, Add, lib);
    assert o1.stacks == Stacks([Str(ta)], [Bin(Add)]);
    Defer(o1.stacks, tb, Mul, lib);
    var o2 := Press(o1.stacks, tb, Mul, lib);
    assert o2 == Outcome(Stacks([Str(ta), Str(tb)], [Bin(Add), Bin(Mul)]), None);
    ReduceTwo(Str(ta), Str(tb), Add, Mul, tc, Standard(lib));
    assert Num(IntArith(Mul, b, c, lib)) == Num(Int(b * c)) && Num(IntArith(Add, a, b * c, lib)) == Num(Int(a + b * c));
    Exact(Str(tb), Str(tc), b, c, Mul, lib);
    Exact(Str(ta), Num(Int(b * c)), a, b * c, Add, lib);
  }

  /** a o1 b o2, where o2 does not outrank o1 (and is not an equal priority above 3): o1 is reduced at once, its result shown and kept under o2. */
  lemma ReduceFirst(ta: string, tb: string, a: int, b: int, o1: BinOp, o2: BinOp, lib: FloatLib)
    requires Reads(ta, a, lib) && Reads(tb, b, lib)
    requires Priority(Bin(o2)) <= Priority(Bin(o1))
    requires !(Priority(Bin(o2)) > 3 && Priority(Bin(o2)) == Priority(Bin(o1)))
    ensures var p1 := Press(Stacks([], []), ta, o1, lib);
      var v := Num(IntArith(o1, a, b, lib));
      Press(p1.stacks, tb, o2, lib) == Outcome(Stacks([v], [Bin(o2)]), Some(v))
  {
    Defer(Stacks([], []), ta, o1, lib);
    assert [] + [Str(ta)] == [Str(ta)];
    var p1 := Press(Stacks([], []), ta, o1, lib);
    assert p1.stacks == Stacks([Str(ta)], [Bin(o1)]);
    ReduceThenPush(Str(ta), o1, tb, o2, lib);
    Exact(Str(ta), Str(tb), a, b, o1, lib);
  }

  /** = with one operator pending on an integer: the exact integer operation on it and the display. */
  lemma TotalOfOne(x: int, o: BinOp, tc: string, c: int, lib: FloatLib)
    requires Reads(tc, c, lib)
    ensures Balanced(Stacks([Num(Int(x))], [Bin(o)]))
    ensures Total(Stacks([Num(Int(x))], [Bin(o)]), tc, Standard(lib)) == Num(IntArith(o, x, c, lib))
  {
    ReduceOne(Num(Int(x)), o, Str(tc), 0, Standard(lib));
    Exact(Num(Int(x)), Str(tc), x, c, o, lib);
  }

  /** a o1 b o2 c =, where pressing o2 reduces o1 at once: the integer x of a o1 b is shown, and = shows x o2 c. */
  lemma LeftFirst(ta: string, tb: string, tc: string, a: int, b: int, c: int, o1: BinOp, o2: BinOp, x: int, y: int, lib: FloatLib)
    requires Reads(ta, a, lib) && Reads(tb, b, lib) && Reads(tc, c, lib)
    requires Priority(Bin(o2)) <= Priority(Bin(o1))
    requires !(Priority(Bin(o2)) > 3 && Priority(Bin(o2)) == Priority(Bin(o1)))
    requires IntArith(o1, a, b, lib) == Int(x) && IntArith(o2, x, c, lib) == Int(y)
    ensures TwoPresses(ta, o1, tb, o2, lib).shown == Some(Num(Int(x)))
    ensures Total(TwoPresses(ta, o1, tb, o2, lib).stacks, tc, Standard(lib)) == Num(Int(y))
  {
    ReduceFirst(ta, tb, a, b, o1, o2, lib);
    TotalOfOne(x, o2, tc, c, lib);
  }

  /** a × b + c = shows a·b + c: pressing + reduces the product at once and shows it. */
  lemma MultiplyThenAdd(ta: string, tb: string, tc: string, a: int, b: int, c: int, lib: FloatLib)
    requires Reads(ta, a, lib) && Reads(tb, b, lib) && Reads(tc, c, lib)
    ensures TwoPresses(ta, Mul, tb, Add, lib).shown == Some(Num(Int(a * b)))
    ensures Total(TwoPresses(ta, Mul, tb, Add, lib).stacks, tc, Standard(lib)) == Num(Int(a * b + c))
  {
    ghost var x, y := a * b, a * b + c;
    assert Num(Int(x)) == Num(Int(a * b)) && Num(Int(y)) == Num(Int(a * b + c));
    LeftFirst(ta, tb, tc, a, b, c, Mul, Add, x, y, lib);
  }

  /** a − b − c = shows (a − b) − c: equal priorities are reduced from the left. */
  lemma SubtractLeftToRight(ta: string, tb: string, tc: string, a: int, b: int, c: int, lib: FloatLib)
    requires Reads(ta, a, lib) && Reads(tb, b, lib) && Reads(tc, c, lib)
    ensures TwoPresses(ta, Sub, tb, Sub, lib).shown == Some(Num(Int(a - b)))
    ensures Total(TwoPresses(ta, Sub, tb, Sub, lib).stacks, tc, Standard(lib)) == Num(Int(a - b - c))
  {
    ghost var x, y := a - b, a - b - c;
    assert Num(Int(x)) == Num(Int(a - b)) && Num(Int(y)) == Num(Int(a - b - c));
    LeftFirst(ta, tb, tc, a, b, c, Sub, Sub, x, y, lib);
  }

  /** The display after a result that fits its twelve characters: the decimal digits, read back as the same integer. */
  lemma ShownInteger(k: int, lib: FloatLib)
    requires |DecimalString(k)| <= 12
    ensures CheckLength(Num(Int(k)), 10, lib) == DecimalString(k)
    ensures Reads(CheckLength(Num(Int(k)), 10, lib), k, lib)
  {
    CheckLengthOfInteger(k, lib);
    DecimalReads(k, lib);
  }

  /**
   * ( a + b ) × c = shows (a + b)·c: + after "(" reduces nothing, ")" reduces the sum and drops
   * the "(", and the sum, written to the display, is the left operand of ×. The sum must fit the
   * display's twelve characters to be written as digits.
   */
  lemma ParenthesesGroup(ta: string, tb: string, tc: string, a: int, b: int, c: int, lib: FloatLib)
    requires Reads(ta, a, lib) && Reads(tb, b, lib) && Reads(tc, c, lib)
    requires |DecimalString(a + b)| <= 12
    ensures var o1 := Press(Stacks([], [Open]), ta, Add, lib);
      var closed := CloseParen(PushOperand(o1.stacks, Str(tb)), Standard(lib));
      && closed == Stacks([Num(Int(a + b))], [])
      && CheckLength(Result(closed), 10, lib) == DecimalString(a + b)
      && var o2 := Press(Stacks([], []), CheckLength(Result(closed), 10, lib), Mul, lib);
         Total(o2.stacks, tc, Standard(lib)) == Num(Int((a + b) * c))
  {
    assert Num(IntArith(Add, a, b, lib)) == Num(Int(a + b)) && Num(IntArith(Mul, a + b, c, lib)) == Num(Int((a + b) * c));
    PressAfterOpen(ta, Add, lib);
    CloseOne(Str(ta), Add, Str(tb), Standard(lib));
    Exact(Str(ta), Str(tb), a, b, Add, lib);
    ShownInteger(a + b, lib);
    var sum := CheckLength(Num(Int(a + b)), 10, lib);
    Defer(Stacks([], []), sum, Mul, lib);
    assert [] + [Str(sum)] == [Str(sum)];
    ReduceOne(Str(sum), Mul, Str(tc), 0, Standard(lib));
    Exact(Str(sum), Str(tc), a + b, c, Mul, lib);
  }
}
