/** pkg/reversepolish/calculator.go: evaluation of the postfix items `ParseInfix` produces.
    The pure function `Eval` is what evaluation computes; the method `Calculate`, written over a
    `NumericStack` object as the source is, is proved to return `Eval(items)`. */
module RpnCalculator {
  import opened Wrappers
  import opened Float
  import opened CalcErrors
  import opened Lexer
  import opened PostfixParser
  import SimpleCalculator

  /** `simplecalculator.NewOperation(op, a, b)` followed by its `Calculate`: the operation is built
      from the operator's text and the two operands, and applied as the simple calculator does. */
  function Apply(op: string, a: Num, b: Num): (r: Outcome<Num>)
    ensures r.Success? <==> op in {"+", "*", "-", "/"}
    ensures r.Failure? ==> r.error == NewCalculationError("Calculation error")
  {
    SimpleCalculator.Calculate(SimpleCalculator.SimpleOperation(a, b, op))
  }

  /** The type assertion `i.(numericItem)` panics for a lexer item of type Number that was not
      converted: `Calculate` is only defined on items without such an entry. */
  predicate NoRawNumber(items: seq<RpnItem>) {
    forall j :: 0 <= j < |items| ==> !(items[j].Plain? && items[j].item.typ == Number)
  }

  const NotEnoughOperands := "not enough operands on stack"
  const TooManyOperands := "too many operands on the stack at the end of calculation"

  /** The error for an operation the simple calculator rejected:
      "failed calculating simple operation <a> <op> <b>", operands as `%f` prints them. */
  function OperationFailure(e: CalcError, a: Num, op: string, b: Num): CalcError {
    NewCalculationErrorWrap(Inner(e), "failed calculating simple operation " + FormatF(a) + " " + op + " " + FormatF(b))
  }

  /** The error for an item that is neither a math operator nor a number. */
  function InvalidItem(x: RpnItem): CalcError {
    NewCalculationError("invalid item in the RPN operation: " + TextOf(x))
  }

  /** The loop of `Calculate` from item `k` on, with `stack` the operands so far (top last). */
  function EvalFrom(items: seq<RpnItem>, k: nat, stack: seq<Num>): Outcome<Num>
    requires k <= |items| && NoRawNumber(items)
    decreases |items| - k
  {
    if k == |items| then
      if |stack| != 1 then Failure(NewCalculationError(TooManyOperands)) else Success(stack[0])
    else
      var x := items[k];
      if x.Plain? && IsMathOperator(x.item) then
        if |stack| < 2 then Failure(NewCalculationError(NotEnoughOperands))
        else
          var b := stack[|stack| - 1];
          var a := stack[|stack| - 2];
          match Apply(x.item.value, a, b)
          case Failure(e) => Failure(OperationFailure(e, a, x.item.value, b))
          case Success(v) => EvalFrom(items, k + 1, stack[..|stack| - 2] + [v])
      else if x.Numeric? then EvalFrom(items, k + 1, stack + [x.value])
      else Failure(InvalidItem(x))
  }

  /** `rpnOperation.Calculate`. */
  function Eval(items: seq<RpnItem>): Outcome<Num>
    requires NoRawNumber(items)
  {
    EvalFrom(items, 0, [])
  }

  /** `pop` on an empty stack gives 0. */
  function NumTop(stack: seq<Num>): Num {
    if stack == [] then Finite(0.0) else stack[|stack| - 1]
  }

  function NumPopped(stack: seq<Num>): seq<Num> {
    if stack == [] then [] else stack[..|stack| - 1]
  }

  /** `numericStack`: the operands, top last. */
  class NumericStack {
    var stack: seq<Num>

    constructor ()
      ensures stack == []
    {
      stack := [];
    }

    /** `length`. */
    method Length() returns (n: int)
      ensures n == |stack|
    {
      n := |stack|;
    }

    /** `pop`: the top operand and the stack without it, or 0 from an empty stack. */
    method Pop() returns (x: Num)
      modifies this
      ensures x == NumTop(old(stack)) && stack == NumPopped(old(stack))
    {
      if |stack| == 0 {
        return Finite(0.0);
      }
      x := stack[|stack| - 1];
      stack := stack[..|stack| - 1];
    }

    /** `push`. */
    method Push(x: Num)
      modifies this
      ensures stack == old(stack) + [x]
    {
      stack := stack + [x];
    }
  }

  /** The math-operator case of the loop: pop the second and then the first operand, apply the
      operator, and push the result; a failed operation is reported with both operands. */
  method Operate(s: NumericStack, op: string) returns (e: Option<CalcError>)
    requires |s.stack| >= 2
    modifies s
    ensures var a, b := old(s.stack)[|old(s.stack)| - 2], old(s.stack)[|old(s.stack)| - 1];
      match Apply(op, a, b)
      case Failure(err) => e == Some(OperationFailure(err, a, op, b))
      case Success(v) => e == None && s.stack == old(s.stack)[..|old(s.stack)| - 2] + [v]
  {
    ghost var before := s.stack;
    var operand2 := s.Pop();
    var operand1 := s.Pop();
    assert s.stack == before[..|before| - 2] && operand1 == before[|before| - 2];
    var v := Apply(op, operand1, operand2);
    if v.Failure? {
      return Some(OperationFailure(v.error, operand1, op, operand2));
    }
    s.Push(v.value);
    return None;
  }

  /** `rpnOperation.Calculate`: the loop over the items with a fresh operand stack. */
  method Calculate(items: seq<RpnItem>) returns (r: Outcome<Num>)
    requires NoRawNumber(items)
    ensures r == Eval(items)
  {
    var s := new NumericStack();
    for k := 0 to |items|
      invariant EvalFrom(items, k, s.stack) == Eval(items)
    {
      var x := items[k];
      if x.Plain? && IsMathOperator(x.item) {
        var n := s.Length();
        if n < 2 {
          return Failure(NewCalculationError(NotEnoughOperands));
        }
        var e := Operate(s, x.item.value);
        if e.Some? {
          return Failure(e.value);
        }
      } else if x.Numeric? {
        s.Push(x.value);
      } else {
        return Failure(InvalidItem(x));
      }
    }
    var n := s.Length();
    if n != 1 {
      return Failure(NewCalculationError(TooManyOperands));
    }
    var top := s.Pop();
    return Success(top);
  }
}
