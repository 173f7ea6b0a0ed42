/**
 * The legacy engine's two stacks and the reductions it performs on them (script.js): the
 * priority table (script.js:138-150), travelStack (script.js:615-635), the loop of rightTag
 * (script.js:645-656) and the precedence decision of binaryOperate (script.js:555-581), as
 * functions on the stack contents. The engine's methods are proved to compute these.
 */
module LegacyStacks {
  import opened Wrappers
  import opened JsNumber
  import opened JsArith
  import opened LegacyFormat
  import opened LegacyOperations

  /** An entry of the operator stack: a binary operator or a left parenthesis. */
  datatype StackOp = Bin(op: BinOp) | Open

  /** operatorPriority. */
  function Priority(o: StackOp): (p: nat)
    ensures 1 <= p <= 6
    ensures p == 6 <==> o == Open
  {
    match o
    case Open => 6
    case Bin(op) =>
      match op
      case Pow => 5
      case YRoot => 5
      case Mul => 4
      case Mod => 4
      case Div => 4
      case Add => 3
      case Sub => 3
      case And => 2
      case Or => 1
  }

  /**
   * _stackHelper with the engine's mode, base and runtime fixed: the value one reduction pushes
   * for the two top operands and the operator between them. The reductions below do not depend
   * on what it computes.
   */
  type Combine = (JsValue, JsValue, BinOp) -> JsValue

  /** _stackHelper as the engine calls it in its current mode and base. */
  function HelperFor(programmer: bool, scale: Radix, lib: FloatLib): Combine
  {
    (f, s, op) => StackHelper(f, s, op, programmer, scale, lib)
  }

  datatype Stacks = Stacks(operands: seq<JsValue>, operators: seq<StackOp>)

  /** The number of binary operators among the first k entries of an operator stack. */
  function CountBinaryTo(ops: seq<StackOp>, k: nat): (n: nat)
    requires k <= |ops|
    ensures n <= k
  {
    if k == 0 then 0 else CountBinaryTo(ops, k - 1) + (if ops[k - 1].Bin? then 1 else 0)
  }

  /** The number of binary operators on an operator stack. */
  function CountBinary(ops: seq<StackOp>): (n: nat)
    ensures n <= |ops|
  {
    CountBinaryTo(ops, |ops|)
  }

  /** The count depends only on the entries counted. */
  lemma {:induction false} CountBinarySame(a: seq<StackOp>, b: seq<StackOp>, k: nat)
    requires k <= |a| && k <= |b| && a[..k] == b[..k]
    ensures CountBinaryTo(a, k) == CountBinaryTo(b, k)
  {
    if k > 0 {
      assert a[k - 1] == a[..k][k - 1] == b[..k][k - 1] == b[k - 1];
      assert a[..k - 1] == a[..k][..k - 1] == b[..k][..k - 1] == b[..k - 1];
      CountBinarySame(a, b, k - 1);
    }
  }

  /** Popping the top operator removes it from the count. */
  lemma CountBinaryPop(ops: seq<StackOp>)
    requires |ops| > 0
    ensures CountBinary(ops) == CountBinary(ops[..|ops| - 1]) + (if ops[|ops| - 1].Bin? then 1 else 0)
  {
    CountBinarySame(ops, ops[..|ops| - 1], |ops| - 1);
  }

  /** Pushing an operator adds it to the count. */
  lemma CountBinaryPush(ops: seq<StackOp>, o: StackOp)
    ensures CountBinary(ops + [o]) == CountBinary(ops) + (if o.Bin? then 1 else 0)
  {
    CountBinaryPop(ops + [o]);
    assert (ops + [o])[..|ops|] == ops;
  }

  /** Between keypresses: one operand for each binary operator, the operand to its right being on the display. */
  predicate Balanced(st: Stacks)
  {
    |st.operands| == CountBinary(st.operators)
  }

  /** After the display has been pushed: one operand more than there are binary operators. */
  predicate Pending(st: Stacks)
  {
    |st.operands| == CountBinary(st.operators) + 1
  }

  /** Pushing the display text onto balanced stacks. */
  function PushOperand(st: Stacks, v: JsValue): (r: Stacks)
    requires Balanced(st)
    ensures Pending(r)
  {
    Stacks(st.operands + [v], st.operators)
  }

  function Top(ops: seq<StackOp>): StackOp
    requires |ops| > 0
  {
    ops[|ops| - 1]
  }

  /** One reduction: pop the top operator and the two top operands, push _stackHelper of them. */
  function ReduceTop(st: Stacks, ctx: Combine): (r: Stacks)
    requires Pending(st) && |st.operators| > 0 && Top(st.operators).Bin?
    ensures Pending(r)
    ensures r.operators == st.operators[..|st.operators| - 1]
  {
    CountBinaryPop(st.operators);
    var n := |st.operands|;
    var v := ctx(st.operands[n - 2], st.operands[n - 1], Top(st.operators).op);
    Stacks(st.operands[..n - 2] + [v], st.operators[..|st.operators| - 1])
  }

  /** The loop of travelStack: at most count reductions, stopping at "(" or at an operator whose priority is below minPri. */
  function Travel(st: Stacks, count: nat, minPri: nat, ctx: Combine): (r: Stacks)
    requires Pending(st) && count <= |st.operators|
    ensures Pending(r)
    ensures |r.operators| <= |st.operators| && r.operators == st.operators[..|r.operators|]
    ensures |st.operators| - |r.operators| <= count
    decreases count
  {
    if count == 0 then st
    else if Priority(Top(st.operators)) < minPri || Top(st.operators) == Open then st
    else
      var st1 := ReduceTop(st, ctx);
      var r := Travel(st1, count - 1, minPri, ctx);
      r
  }

  /** The stacks after one reduction, written out: the two top operands replaced by ctx of them, the top operator gone. */
  function Reduced(st: Stacks, ctx: Combine): Stacks
    requires |st.operands| >= 2 && |st.operators| > 0 && Top(st.operators).Bin?
  {
    var n := |st.operands|;
    Stacks(st.operands[..n - 2] + [ctx(st.operands[n - 2], st.operands[n - 1], Top(st.operators).op)], st.operators[..|st.operators| - 1])
  }

  /** One round of travelStack: stop at a "(" or a lower priority, otherwise reduce and go on with one round fewer. */
  lemma TravelStep(st: Stacks, count: nat, minPri: nat, ctx: Combine)
    requires Pending(st) && 0 < count <= |st.operators|
    ensures Priority(Top(st.operators)) < minPri || Top(st.operators) == Open ==> Travel(st, count, minPri, ctx) == st
    ensures !(Priority(Top(st.operators)) < minPri || Top(st.operators) == Open) ==>
      |st.operands| >= 2 && Pending(Reduced(st, ctx)) &&
      Travel(st, count, minPri, ctx) == Travel(Reduced(st, ctx), count - 1, minPri, ctx)
  {
    if !(Priority(Top(st.operators)) < minPri || Top(st.operators) == Open) {
      assert ReduceTop(st, ctx) == Reduced(st, ctx);
    }
  }

  /** The value travelStack returns: the operand on top when it stops. */
  function Result(st: Stacks): JsValue
    requires Pending(st)
  {
    st.operands[|st.operands| - 1]
  }

  /** Every operator from position k up is binary, of priority at least minPri. */
  predicate BinaryFrom(ops: seq<StackOp>, k: nat, minPri: nat)
  {
    forall j :: k <= j < |ops| ==> ops[j].Bin? && Priority(ops[j]) >= minPri
  }

  /** Travel stopped before its count because of a "(" or a lower priority on top. */
  predicate StoppedAt(ops: seq<StackOp>, minPri: nat)
  {
    |ops| > 0 && (Top(ops) == Open || Priority(Top(ops)) < minPri)
  }

  /** travelStack pops only binary operators of priority at least minPri; in particular it never removes a "(". */
  lemma {:induction false} TravelPopsBinary(st: Stacks, count: nat, minPri: nat, ctx: Combine)
    requires Pending(st) && count <= |st.operators|
    ensures BinaryFrom(st.operators, |Travel(st, count, minPri, ctx).operators|, minPri)
    decreases count
  {
    if count > 0 && Priority(Top(st.operators)) >= minPri && Top(st.operators) != Open {
      var st1 := ReduceTop(st, ctx);
      TravelPopsBinary(st1, count - 1, minPri, ctx);
      var r := Travel(st1, count - 1, minPri, ctx);
      assert Travel(st, count, minPri, ctx) == r;
      var ops, ops1 := st.operators, st1.operators;
      assert |ops1| == |ops| - 1 && |r.operators| <= |ops1|;
      forall j | |r.operators| <= j < |ops|
        ensures ops[j].Bin? && Priority(ops[j]) >= minPri
      {
        if j < |ops1| {
          assert ops1[j] == ops[j];
          assert BinaryFrom(ops1, |r.operators|, minPri);
        }
      }
    }
  }

  /** When travelStack performs fewer than count reductions, the operator it stopped at is still on top: a "(" or of lower priority. */
  lemma {:induction false} TravelStops(st: Stacks, count: nat, minPri: nat, ctx: Combine)
    requires Pending(st) && count <= |st.operators|
    ensures var r := Travel(st, count, minPri, ctx);
      |st.operators| - |r.operators| < count ==> StoppedAt(r.operators, minPri)
    decreases count
  {
    if count > 0 && Priority(Top(st.operators)) >= minPri && Top(st.operators) != Open {
      var st1 := ReduceTop(st, ctx);
      TravelStops(st1, count - 1, minPri, ctx);
      assert Travel(st, count, minPri, ctx) == Travel(st1, count - 1, minPri, ctx);
    }
  }

  /** Where travelStack stops when asked for the whole stack with no cut-off (the = key): empty, or at a "(". */
  lemma TravelToOpen(st: Stacks, ctx: Combine)
    requires Pending(st)
    ensures var r := Travel(st, |st.operators|, 0, ctx);
      r.operators == [] || Top(r.operators) == Open
  {
    TravelStops(st, |st.operators|, 0, ctx);
  }

  /** Position of the last "(" on the stack, or -1. */
  function LastOpen(ops: seq<StackOp>): (k: int)
    ensures -1 <= k < |ops|
    ensures k >= 0 ==> ops[k] == Open
    ensures forall j :: k < j < |ops| ==> ops[j].Bin?
  {
    if ops == [] then -1
    else if Top(ops) == Open then |ops| - 1
    else LastOpen(ops[..|ops| - 1])
  }

  /** The loop of rightTag: reduce until a "(" is popped (and dropped) or the stack is empty. */
  function CloseParen(st: Stacks, ctx: Combine): (r: Stacks)
    requires Pending(st)
    ensures Pending(r)
    decreases |st.operators|
  {
    if st.operators == [] then st
    else if Top(st.operators) == Open then
      CountBinaryPop(st.operators);
      Stacks(st.operands, st.operators[..|st.operators| - 1])
    else
      var st1 := ReduceTop(st, ctx);
      var r := CloseParen(st1, ctx);
      r
  }

  /**
   * The loop of rightTag removes exactly the operators above the nearest "(" and that "(" itself;
   * with no "(" it empties the operator stack.
   */
  lemma {:induction false} CloseParenShape(st: Stacks, ctx: Combine)
    requires Pending(st)
    ensures CloseParen(st, ctx).operators == (if LastOpen(st.operators) >= 0 then st.operators[..LastOpen(st.operators)] else [])
    decreases |st.operators|
  {
    if st.operators != [] && Top(st.operators) != Open {
      var st1 := ReduceTop(st, ctx);
      CloseParenShape(st1, ctx);
      assert LastOpen(st1.operators) == LastOpen(st.operators);
    }
  }

  /** One round of rightTag's loop: a "(" on top is dropped and the loop ends, a binary operator is reduced. */
  lemma CloseStep(st: Stacks, ctx: Combine)
    requires Pending(st) && |st.operators| > 0
    ensures Top(st.operators) == Open ==> CloseParen(st, ctx) == Stacks(st.operands, st.operators[..|st.operators| - 1])
    ensures Top(st.operators) != Open ==>
      |st.operands| >= 2 && Pending(Reduced(st, ctx)) && CloseParen(st, ctx) == CloseParen(Reduced(st, ctx), ctx)
  {
    if Top(st.operators) != Open {
      assert ReduceTop(st, ctx) == Reduced(st, ctx);
    }
  }

  /**
   * The loop of travelStack: the number of rounds is fixed before it starts; each round pops an
   * operator, pushes back a "(" or one below minPri and stops, or pops two operands and pushes
   * ctx of them. Also returns the operand on top, which the source keeps in a variable.
   */
  method TravelLoop(st: Stacks, count: nat, minPri: nat, ctx: Combine) returns (r: Stacks, result: JsValue)
    requires Pending(st) && count <= |st.operators|
    ensures r == Travel(st, count, minPri, ctx) && result == Result(r)
  {
    r := st;
    result := r.operands[|r.operands| - 1];
    ghost var t := Travel(st, count, minPri, ctx);
    var k: nat := count;
    while k > 0
      invariant Pending(r) && k <= |r.operators|
      invariant Travel(r, k, minPri, ctx) == t
      invariant result == r.operands[|r.operands| - 1]
    {
      TravelStep(r, k, minPri, ctx);
      // pop; a "(" or an operator below the cut-off is pushed straight back and the travel ends
      var op := Top(r.operators);
      if Priority(op) < minPri || op == Open {
        k := 0;
      } else {
        // pop s, pop f, push _stackHelper(f, s, op)
        var n := |r.operands|;
        var s := r.operands[n - 1];
        var f := r.operands[n - 2];
        result := ctx(f, s, op.op);
        ghost var prev := r;
        r := Stacks(r.operands[..n - 2] + [result], r.operators[..|r.operators| - 1]);
        assert r == Reduced(prev, ctx);
        k := k - 1;
      }
    }
  }

  /**
   * The loop of rightTag: pop an operator; while one came off and it is not "(", pop two operands,
   * push ctx of them and pop the next operator. The "(" that ends it stays off the stack.
   */
  method CloseLoop(st: Stacks, ctx: Combine) returns (r: Stacks)
    requires Pending(st)
    ensures r == CloseParen(st, ctx)
  {
    var operands, operators := st.operands, st.operators;
    var op: Option<StackOp> := None;
    if operators != [] {
      op := Some(Top(operators));
      operators := operators[..|operators| - 1];
      assert operators + [op.value] == st.operators;
    }
    while op.Some? && op.value != Open
      invariant op.None? ==> Stacks(operands, operators) == CloseParen(st, ctx)
      invariant op.Some? ==>
        Pending(Stacks(operands, operators + [op.value]))
        && CloseParen(Stacks(operands, operators + [op.value]), ctx) == CloseParen(st, ctx)
      decreases |operators| + (if op.Some? then 1 else 0)
    {
      ghost var before := Stacks(operands, operators + [op.value]);
      CloseStep(before, ctx);
      assert before.operators[..|before.operators| - 1] == operators;
      ghost var next := Reduced(before, ctx);
      var n := |operands|;
      var s := operands[n - 1];
      var f := operands[n - 2];
      operands := operands[..n - 2] + [ctx(f, s, op.value.op)];
      assert Stacks(operands, operators) == next;
      if operators != [] {
        op := Some(Top(operators));
        operators := operators[..|operators| - 1];
        assert operators + [op.value] == next.operators;
      } else {
        op := None;
      }
    }
    if op.Some? {
      CloseStep(Stacks(operands, operators + [op.value]), ctx);
      assert (operators + [op.value])[..|operators|] == operators;
    }
    r := Stacks(operands, operators);
  }

  /** The stacks after binaryOperate and the value it shows, if it shows one. */
  datatype Outcome = Outcome(stacks: Stacks, shown: Option<JsValue>)

  /**
   * binaryOperate on a numeric display: push it, then compare the new operator's priority with the
   * operator on top. Higher: no reduction. Equal and above 3: one reduction (travelStack(1)), with
   * nothing shown. Otherwise: reduce down to the new priority (travelStack(null, op)) and show the
   * result. Finally push the new operator.
   */
  function BinaryReduce(st: Stacks, display: string, op: BinOp, ctx: Combine): Outcome
    requires Balanced(st)
  {
    var st1 := PushOperand(st, Str(display));
    var p := Priority(Bin(op));
    if st.operators == [] then Outcome(Stacks(st1.operands, [Bin(op)]), None)
    else
      var pp := Priority(Top(st.operators));
      if p > pp then Outcome(Stacks(st1.operands, st.operators + [Bin(op)]), None)
      else if p > 3 && p == pp then
        var t := Travel(st1, 1, 0, ctx);
        Outcome(Stacks(t.operands, t.operators + [Bin(op)]), None)
      else
        var t := Travel(st1, |st1.operators|, p, ctx);
        Outcome(Stacks(t.operands, t.operators + [Bin(op)]), Some(Result(t)))
  }


  /** binaryOperate keeps the stacks balanced: one operand per binary operator. */
  lemma BinaryReduceBalanced(st: Stacks, display: string, op: BinOp, ctx: Combine)
    requires Balanced(st)
    ensures Balanced(BinaryReduce(st, display, op, ctx).stacks)
  {
    var st1 := PushOperand(st, Str(display));
    if st.operators == [] {
      CountBinaryPush([], Bin(op));
    } else if Priority(Bin(op)) > Priority(Top(st.operators)) {
      CountBinaryPush(st.operators, Bin(op));
    } else if Priority(Bin(op)) > 3 && Priority(Bin(op)) == Priority(Top(st.operators)) {
      CountBinaryPush(Travel(st1, 1, 0, ctx).operators, Bin(op));
    } else {
      CountBinaryPush(Travel(st1, |st1.operators|, Priority(Bin(op)), ctx).operators, Bin(op));
    }
  }

  /**
   * The operator binaryOperate pushes is always left on top. A
   * strictly higher priority defers without reducing; an equal priority above 3 (× ÷ % ^ yroot)
   * reduces exactly the one operator below; any other reduces every operator down to the nearest
   * "(" or lower priority.
   */
  lemma BinaryReduceCases(st: Stacks, display: string, op: BinOp, ctx: Combine)
    requires Balanced(st)
    ensures var o := BinaryReduce(st, display, op, ctx);
      var ops := st.operators;
      var p := Priority(Bin(op));
      && |o.stacks.operators| > 0 && Top(o.stacks.operators) == Bin(op)
      && (ops == [] ==> o.stacks == Stacks(st.operands + [Str(display)], [Bin(op)]))
      && (ops != [] && p > Priority(Top(ops)) ==>
            o.stacks == Stacks(st.operands + [Str(display)], ops + [Bin(op)]) && o.shown == None)
      && (ops != [] && p > 3 && p == Priority(Top(ops)) ==>
            o.stacks.operators == ops[..|ops| - 1] + [Bin(op)] && |o.stacks.operands| == |st.operands| && o.shown == None)
      && (ops != [] && p <= Priority(Top(ops)) && !(p > 3 && p == Priority(Top(ops))) ==>
            var k := |o.stacks.operators| - 1;
            && o.stacks.operators[..k] == ops[..k]
            && (forall j :: k <= j < |ops| ==> ops[j].Bin? && Priority(ops[j]) >= p)
            && (k > 0 ==> ops[k - 1] == Open || Priority(ops[k - 1]) < p)
            && o.shown.Some?)
  {
    var ops := st.operators;
    var p := Priority(Bin(op));
    if ops == [] {
      assert [] + [Bin(op)] == [Bin(op)];
    } else if p > Priority(Top(ops)) {
    } else if p > 3 && p == Priority(Top(ops)) {
      ReduceEqualAbove3(st, display, op, ctx);
    } else {
      ReduceToLower(st, display, op, ctx);
    }
  }

  /** The equal-priority-above-3 case of binaryOperate: exactly the operator below is reduced. */
  lemma ReduceEqualAbove3(st: Stacks, display: string, op: BinOp, ctx: Combine)
    requires Balanced(st) && st.operators != []
    requires Priority(Bin(op)) > 3 && Priority(Bin(op)) == Priority(Top(st.operators))
    ensures var o := BinaryReduce(st, display, op, ctx);
      && o.stacks.operators == st.operators[..|st.operators| - 1] + [Bin(op)]
      && |o.stacks.operands| == |st.operands| && o.shown == None
  {
    var st1 := PushOperand(st, Str(display));
    TravelStops(st1, 1, 0, ctx);
    var t := Travel(st1, 1, 0, ctx);
    assert Top(st.operators).Bin?;
    assert t == ReduceTop(st1, ctx);
  }

  /** The remaining case of binaryOperate: every binary operator of priority p or more is reduced, down to a "(" or a lower priority. */
  lemma ReduceToLower(st: Stacks, display: string, op: BinOp, ctx: Combine)
    requires Balanced(st) && st.operators != []
    requires Priority(Bin(op)) <= Priority(Top(st.operators))
    requires !(Priority(Bin(op)) > 3 && Priority(Bin(op)) == Priority(Top(st.operators)))
    ensures var o := BinaryReduce(st, display, op, ctx);
      var ops := st.operators;
      var p := Priority(Bin(op));
      var k := |o.stacks.operators| - 1;
      && k >= 0 && o.stacks.operators[..k] == ops[..k]
      && (forall j :: k <= j < |ops| ==> ops[j].Bin? && Priority(ops[j]) >= p)
      && (k > 0 ==> ops[k - 1] == Open || Priority(ops[k - 1]) < p)
      && o.shown.Some?
  {
    var st1 := PushOperand(st, Str(display));
    var ops := st.operators;
    var p := Priority(Bin(op));
    TravelPopsBinary(st1, |ops|, p, ctx);
    TravelStops(st1, |ops|, p, ctx);
    var t := Travel(st1, |ops|, p, ctx);
    var o := BinaryReduce(st, display, op, ctx);
    assert o.stacks.operators == t.operators + [Bin(op)];
    assert o.stacks.operators[..|t.operators|] == t.operators;
  }

}
