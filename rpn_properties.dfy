/** What pkg/reversepolish/calculator.go promises, stated about `Eval` (the method `Calculate`
    is proved to return `Eval(items)`): every failure is a CalculationError, postfix items of an
    expression tree evaluate to the tree's value, and a sequence of numbers and `+ - * /`
    succeeds exactly when no operator lacks two operands and one operand is left at the end. */
module RpnProperties {
  import opened Wrappers
  import opened Float
  import opened CalcErrors
  import opened Lexer
  import opened PostfixParser
  import opened RpnCalculator

  /** Every failure of the loop from `k` on is a CalculationError. */
  lemma {:induction false} EvalFromFailsWithCalculationError(items: seq<RpnItem>, k: nat, stack: seq<Num>)
    requires k <= |items| && NoRawNumber(items)
    ensures EvalFrom(items, k, stack).Failure? ==> EvalFrom(items, k, stack).error.category == CalculationError
    decreases |items| - k
  {
    if k < |items| {
      var x := items[k];
      if x.Plain? && IsMathOperator(x.item) && |stack| >= 2 {
        var v := Apply(x.item.value, stack[|stack| - 2], stack[|stack| - 1]);
        if v.Success? {
          EvalFromFailsWithCalculationError(items, k + 1, stack[..|stack| - 2] + [v.value]);
        }
      } else if x.Numeric? {
        EvalFromFailsWithCalculationError(items, k + 1, stack + [x.value]);
      }
    }
  }

  lemma EvalFailsWithCalculationError(items: seq<RpnItem>)
    requires NoRawNumber(items)
    ensures Eval(items).Failure? ==> Eval(items).error.category == CalculationError
  {
    EvalFromFailsWithCalculationError(items, 0, []);
  }

  // ---------------------------------------------------------------------------------------------
  // Reference semantics: expression trees

  predicate IsArithmeticSign(c: char) {
    c == '+' || c == '-' || c == '*' || c == '/'
  }

  /** An arithmetic expression: a number (its text and value) or a sign applied to two operands. */
  datatype Expr = Lit(text: string, value: Num) | Bin(sign: char, left: Expr, right: Expr)

  predicate Arithmetic(e: Expr) {
    match e
    case Lit(_, _) => true
    case Bin(c, l, r) => IsArithmeticSign(c) && Arithmetic(l) && Arithmetic(r)
  }

  /** A sign applied to two values. */
  function Combine(c: char, a: Num, b: Num): Num
    requires IsArithmeticSign(c)
  {
    if c == '+' then Add(a, b)
    else if c == '-' then Sub(a, b)
    else if c == '*' then Mul(a, b)
    else Div(a, b)
  }

  /** The value of an expression, computed on the tree. */
  function Value(e: Expr): Num
    requires Arithmetic(e)
  {
    match e
    case Lit(_, v) => v
    case Bin(c, l, r) => Combine(c, Value(l), Value(r))
  }

  /** The operator item the lexer sends for a sign. */
  function SignItem(c: char): Item
    requires IsArithmeticSign(c)
  {
    NewItem(SingleCharType(c), [c])
  }

  /** The postfix items of an expression: the operands' items, then the operator. */
  function Postfix(e: Expr): (items: seq<RpnItem>)
    requires Arithmetic(e)
    ensures |items| >= 1 && NoRawNumber(items)
  {
    match e
    case Lit(t, v) => [Numeric(t, v)]
    case Bin(c, l, r) => Postfix(l) + Postfix(r) + [Plain(SignItem(c))]
  }

  /** An operator item replaces the two top operands by their combination. */
  lemma EvalFromSign(items: seq<RpnItem>, n: nat, c: char, s: seq<Num>)
    requires IsArithmeticSign(c) && NoRawNumber(items)
    requires n < |items| && items[n] == Plain(SignItem(c)) && |s| >= 2
    ensures EvalFrom(items, n, s) == EvalFrom(items, n + 1, s[..|s| - 2] + [Combine(c, s[|s| - 2], s[|s| - 1])])
  {
    assert Apply([c], s[|s| - 2], s[|s| - 1]) == Success(Combine(c, s[|s| - 2], s[|s| - 1]));
  }

  /** A number item pushes its value. */
  lemma NumberOnTop(items: seq<RpnItem>, k: nat, t: string, v: Num, stack: seq<Num>)
    requires NoRawNumber(items) && k < |items| && items[k] == Numeric(t, v)
    ensures EvalFrom(items, k, stack) == EvalFrom(items, k + 1, stack + [v])
  {
  }

  /** The operator after both operands combines the two values they pushed. */
  lemma OperatorOnTop(items: seq<RpnItem>, j: nat, c: char, stack: seq<Num>, a: Num, b: Num)
    requires IsArithmeticSign(c) && NoRawNumber(items)
    requires j < |items| && items[j] == Plain(SignItem(c))
    ensures EvalFrom(items, j, stack + [a] + [b]) == EvalFrom(items, j + 1, stack + [Combine(c, a, b)])
  {
    var s := stack + [a] + [b];
    assert s[..|s| - 2] == stack && s[|s| - 2] == a && s[|s| - 1] == b;
    EvalFromSign(items, j, c, s);
  }

  /** The items of a tree sit at `k` in `items`. */
  predicate PostfixAt(items: seq<RpnItem>, k: nat, e: Expr)
    requires Arithmetic(e)
  {
    k + |Postfix(e)| <= |items| && forall i :: 0 <= i < |Postfix(e)| ==> items[k + i] == Postfix(e)[i]
  }

  /** Evaluating the items of a tree that sit at `k` pushes the tree's value and moves past them. */
  lemma {:induction false} EvalFromPostfix(items: seq<RpnItem>, k: nat, e: Expr, stack: seq<Num>)
    requires Arithmetic(e) && NoRawNumber(items) && PostfixAt(items, k, e)
    ensures EvalFrom(items, k, stack) == EvalFrom(items, k + |Postfix(e)|, stack + [Value(e)])
    decreases e, 2
  {
    if e.Lit? {
      assert items[k + 0] == Postfix(e)[0];
      NumberOnTop(items, k, e.text, e.value, stack);
    } else {
      LeftOperand(items, k, e, stack);
      RightOperand(items, k, e, k + |Postfix(e.left)|, stack + [Value(e.left)]);
      TopOperator(items, k, e, stack);
      EvalChain(items, k, stack, k + |Postfix(e.left)|, stack + [Value(e.left)],
        k + |Postfix(e.left)| + |Postfix(e.right)|, stack + [Value(e.left)] + [Value(e.right)],
        k + |Postfix(e)|, stack + [Value(e)]);
    }
  }

  /** Three evaluation stages joined end to end. */
  lemma EvalChain(items: seq<RpnItem>, j0: nat, s0: seq<Num>, j1: nat, s1: seq<Num>, j2: nat, s2: seq<Num>, j3: nat, s3: seq<Num>)
    requires NoRawNumber(items) && j0 <= |items| && j1 <= |items| && j2 <= |items| && j3 <= |items|
    requires EvalFrom(items, j0, s0) == EvalFrom(items, j1, s1)
    requires EvalFrom(items, j1, s1) == EvalFrom(items, j2, s2)
    requires EvalFrom(items, j2, s2) == EvalFrom(items, j3, s3)
    ensures EvalFrom(items, j0, s0) == EvalFrom(items, j3, s3)
  {
  }

  /** Where the parts of a `Bin` tree's items sit. */
  lemma BinParts(items: seq<RpnItem>, k: nat, c: char, l: Expr, r: Expr)
    requires Arithmetic(Bin(c, l, r)) && PostfixAt(items, k, Bin(c, l, r))
    ensures Arithmetic(l) && Arithmetic(r) && PostfixAt(items, k, l) && PostfixAt(items, k + |Postfix(l)|, r)
    ensures |Postfix(Bin(c, l, r))| == |Postfix(l)| + |Postfix(r)| + 1
    ensures items[k + |Postfix(l)| + |Postfix(r)|] == Plain(SignItem(c))
    ensures Value(Bin(c, l, r)) == Combine(c, Value(l), Value(r))
    ensures k + |Postfix(l)| + |Postfix(r)| + 1 <= |items|
  {
    assert Postfix(Bin(c, l, r)) == Postfix(l) + Postfix(r) + [Plain(SignItem(c))];
    LeftPart(items, k, Postfix(l), Postfix(r) + [Plain(SignItem(c))], Postfix(Bin(c, l, r)));
    RightPart(items, k, Postfix(l), Postfix(r), Plain(SignItem(c)), Postfix(Bin(c, l, r)));
  }

  /** The front part of a window of `items` sits at the window's start. */
  lemma LeftPart(items: seq<RpnItem>, k: nat, x: seq<RpnItem>, y: seq<RpnItem>, p: seq<RpnItem>)
    requires p == x + y && k + |p| <= |items| && forall i :: 0 <= i < |p| ==> items[k + i] == p[i]
    ensures forall i :: 0 <= i < |x| ==> items[k + i] == x[i]
  {
    forall i | 0 <= i < |x|
      ensures items[k + i] == x[i]
    {
      assert p[i] == x[i];
    }
  }

  /** The middle part and the last item of a window of `items`, at their offsets. */
  lemma RightPart(items: seq<RpnItem>, k: nat, x: seq<RpnItem>, y: seq<RpnItem>, z: RpnItem, p: seq<RpnItem>)
    requires p == x + y + [z] && k + |p| <= |items| && forall i :: 0 <= i < |p| ==> items[k + i] == p[i]
    ensures forall i :: 0 <= i < |y| ==> items[k + |x| + i] == y[i]
    ensures items[k + |x| + |y|] == z
  {
    forall i | 0 <= i < |y|
      ensures items[k + |x| + i] == y[i]
    {
      assert p[|x| + i] == y[i];
    }
    assert p[|x| + |y|] == z;
  }

  /** The left operand's items, evaluated first, push its value. */
  lemma {:induction false} LeftOperand(items: seq<RpnItem>, k: nat, e: Expr, stack: seq<Num>)
    requires e.Bin? && Arithmetic(e) && NoRawNumber(items) && PostfixAt(items, k, e)
    ensures k + |Postfix(e.left)| <= |items|
    ensures EvalFrom(items, k, stack) == EvalFrom(items, k + |Postfix(e.left)|, stack + [Value(e.left)])
    decreases e, 0
  {
    BinParts(items, k, e.sign, e.left, e.right);
    EvalFromPostfix(items, k, e.left, stack);
  }

  /** The right operand's items, evaluated next, push its value on top. */
  lemma {:induction false} RightOperand(items: seq<RpnItem>, k: nat, e: Expr, j: nat, s: seq<Num>)
    requires e.Bin? && Arithmetic(e) && NoRawNumber(items) && PostfixAt(items, k, e) && j == k + |Postfix(e.left)|
    ensures j + |Postfix(e.right)| <= |items|
    ensures EvalFrom(items, j, s) == EvalFrom(items, j + |Postfix(e.right)|, s + [Value(e.right)])
    decreases e, 0
  {
    BinParts(items, k, e.sign, e.left, e.right);
    EvalFromPostfix(items, j, e.right, s);
  }

  /** The sign after both operands leaves the tree's value in their place. */
  lemma TopOperator(items: seq<RpnItem>, k: nat, e: Expr, stack: seq<Num>)
    requires e.Bin? && Arithmetic(e) && NoRawNumber(items) && PostfixAt(items, k, e)
    ensures k + |Postfix(e.left)| + |Postfix(e.right)| < |items|
    ensures EvalFrom(items, k + |Postfix(e.left)| + |Postfix(e.right)|, stack + [Value(e.left)] + [Value(e.right)])
      == EvalFrom(items, k + |Postfix(e)|, stack + [Value(e)])
  {
    BinParts(items, k, e.sign, e.left, e.right);
    var j := k + |Postfix(e.left)| + |Postfix(e.right)|;
    OperatorOnTop(items, j, e.sign, stack, Value(e.left), Value(e.right));
    assert j + 1 == k + |Postfix(e)|;
  }

  /** The postfix items of an arithmetic tree evaluate to the tree's value. */
  lemma EvalPostfix(e: Expr)
    requires Arithmetic(e)
    ensures Eval(Postfix(e)) == Success(Value(e))
  {
    var items := Postfix(e);
    assert forall i :: 0 <= i < |items| ==> items[0 + i] == items[i];
    EvalFromPostfix(items, 0, e, []);
  }

  // ---------------------------------------------------------------------------------------------
  // When evaluation succeeds

  /** A number, or a math operator whose text the simple calculator knows. */
  predicate ArithmeticItem(x: RpnItem) {
    x.Numeric? || (IsMathOperator(x.item) && x.item.value in {"+", "-", "*", "/"})
  }

  predicate ArithmeticItems(items: seq<RpnItem>) {
    forall j :: 0 <= j < |items| ==> ArithmeticItem(items[j])
  }

  /** Operands left on the stack after `items`, if none was missing: numbers minus operators. */
  function Depth(items: seq<RpnItem>): int {
    if items == [] then 0
    else Depth(items[..|items| - 1]) + (if items[|items| - 1].Numeric? then 1 else -1)
  }

  /** Every operator finds two operands, and one operand is left at the end. */
  predicate Balanced(items: seq<RpnItem>) {
    && (forall j :: 0 <= j < |items| && items[j].Plain? ==> Depth(items[..j]) >= 2)
    && Depth(items) == 1
  }

  lemma DepthStep(items: seq<RpnItem>, k: nat)
    requires k < |items|
    ensures Depth(items[..k + 1]) == Depth(items[..k]) + (if items[k].Numeric? then 1 else -1)
  {
    assert items[..k + 1][..k] == items[..k];
  }

  lemma {:induction false} EvalFromBalanced(items: seq<RpnItem>, k: nat, stack: seq<Num>)
    requires k <= |items| && ArithmeticItems(items)
    requires |stack| == Depth(items[..k])
    ensures NoRawNumber(items)
    ensures EvalFrom(items, k, stack).Success? <==>
      (forall j :: k <= j < |items| && items[j].Plain? ==> Depth(items[..j]) >= 2) && Depth(items) == 1
    ensures EvalFrom(items, k, stack).Failure? ==>
      EvalFrom(items, k, stack).error in {NewCalculationError(NotEnoughOperands), NewCalculationError(TooManyOperands)}
    decreases |items| - k
  {
    assert NoRawNumber(items) by {
      forall j | 0 <= j < |items| ensures !(items[j].Plain? && items[j].item.typ == Number) {
        assert ArithmeticItem(items[j]);
      }
    }
    if k == |items| {
      assert items[..k] == items;
    } else {
      var x := items[k];
      assert ArithmeticItem(x);
      DepthStep(items, k);
      if x.Plain? {
        if |stack| >= 2 {
          var v := Apply(x.item.value, stack[|stack| - 2], stack[|stack| - 1]);
          assert v.Success?;
          EvalFromBalanced(items, k + 1, stack[..|stack| - 2] + [v.value]);
        }
      } else {
        EvalFromBalanced(items, k + 1, stack + [x.value]);
      }
    }
  }

  /** Which operand-count error evaluation stops with: "not enough operands" exactly when some
      operator still to come finds fewer than two, "too many operands" exactly when every one finds
      two but the final count is not one. */
  lemma {:induction false} EvalFromErrorKind(items: seq<RpnItem>, k: nat, stack: seq<Num>)
    requires k <= |items| && ArithmeticItems(items) && NoRawNumber(items)
    requires |stack| == Depth(items[..k])
    ensures EvalFrom(items, k, stack) == Failure(NewCalculationError(NotEnoughOperands)) <==>
      exists j :: k <= j < |items| && items[j].Plain? && Depth(items[..j]) < 2
    ensures EvalFrom(items, k, stack) == Failure(NewCalculationError(TooManyOperands)) <==>
      (forall j :: k <= j < |items| && items[j].Plain? ==> Depth(items[..j]) >= 2) && Depth(items) != 1
    decreases |items| - k
  {
    if k == |items| {
      assert items[..k] == items;
      assert |NotEnoughOperands| < |TooManyOperands|;
    } else {
      var x := items[k];
      assert ArithmeticItem(x);
      DepthStep(items, k);
      if x.Plain? {
        if |stack| >= 2 {
          var v := Apply(x.item.value, stack[|stack| - 2], stack[|stack| - 1]);
          assert v.Success?;
          EvalFromErrorKind(items, k + 1, stack[..|stack| - 2] + [v.value]);
        }
      } else {
        EvalFromErrorKind(items, k + 1, stack + [x.value]);
      }
    }
  }

  /** A sequence of numbers and `+ - * /` evaluates exactly when it is balanced; otherwise it fails
      with "not enough operands" when some operator finds fewer than two, and with "too many
      operands" when every operator finds two but more than one operand, or none, is left. */
  lemma EvalSucceedsIffBalanced(items: seq<RpnItem>)
    requires ArithmeticItems(items)
    ensures NoRawNumber(items)
    ensures Eval(items).Success? <==> Balanced(items)
    ensures Eval(items).Failure? ==>
      Eval(items).error in {NewCalculationError(NotEnoughOperands), NewCalculationError(TooManyOperands)}
    ensures Eval(items) == Failure(NewCalculationError(NotEnoughOperands)) <==>
      exists j :: 0 <= j < |items| && items[j].Plain? && Depth(items[..j]) < 2
    ensures Eval(items) == Failure(NewCalculationError(TooManyOperands)) <==>
      (forall j :: 0 <= j < |items| && items[j].Plain? ==> Depth(items[..j]) >= 2) && Depth(items) != 1
  {
    assert items[..0] == [];
    EvalFromBalanced(items, 0, []);
    EvalFromErrorKind(items, 0, []);
  }

  /** `^` passes the parser, but the simple calculator has no case for it: evaluating it fails. */
  lemma ExponentFails(ta: string, a: Num, tb: string, b: Num)
    ensures Eval([Numeric(ta, a), Numeric(tb, b), Plain(NewItem(Exponent, "^"))])
      == Failure(OperationFailure(NewCalculationError("Calculation error"), a, "^", b))
  {
    var items := [Numeric(ta, a), Numeric(tb, b), Plain(NewItem(Exponent, "^"))];
    NumberOnTop(items, 0, ta, a, []);
    NumberOnTop(items, 1, tb, b, [] + [a]);
    assert [] + [a] + [b] == [a, b];
    ExponentOnTop(items, 2, a, b);
  }

  /** `^` on top of two numbers: the simple calculator has no case for it. */
  lemma ExponentOnTop(items: seq<RpnItem>, k: nat, a: Num, b: Num)
    requires NoRawNumber(items) && k < |items| && items[k] == Plain(NewItem(Exponent, "^"))
    ensures EvalFrom(items, k, [a, b]) == Failure(OperationFailure(NewCalculationError("Calculation error"), a, "^", b))
  {
    assert Apply("^", a, b) == Failure(NewCalculationError("Calculation error"));
  }

  /** Evaluation gets past an operator only when the simple calculator knows it: a successful
      evaluation met nothing but `+ * - /` among the passed-through items. */
  lemma {:induction false} EvalFromKnownOperators(items: seq<RpnItem>, k: nat, stack: seq<Num>)
    requires k <= |items| && NoRawNumber(items)
    ensures EvalFrom(items, k, stack).Success? ==>
      forall j :: k <= j < |items| && items[j].Plain? ==> items[j].item.value in {"+", "*", "-", "/"}
    decreases |items| - k
  {
    if k < |items| {
      var x := items[k];
      if x.Plain? && IsMathOperator(x.item) && |stack| >= 2 {
        var b := stack[|stack| - 1];
        var a := stack[|stack| - 2];
        var r := Apply(x.item.value, a, b);
        if r.Success? {
          EvalFromKnownOperators(items, k + 1, stack[..|stack| - 2] + [r.value]);
        }
      } else if x.Numeric? {
        EvalFromKnownOperators(items, k + 1, stack + [x.value]);
      }
    }
  }

  /** No item sequence holding a `^` evaluates: the simple calculator has no case for it. */
  lemma ExponentNeverEvaluates(items: seq<RpnItem>)
    requires NoRawNumber(items)
    ensures (exists j :: 0 <= j < |items| && items[j].Plain? && items[j].item.value == "^") ==>
      Eval(items).Failure? && Eval(items).error.category == CalculationError
  {
    EvalFromKnownOperators(items, 0, []);
    EvalFailsWithCalculationError(items);
  }
}
