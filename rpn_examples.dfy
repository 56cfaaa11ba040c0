/** The cases pinned by pkg/reversepolish/calculator_test.go. */
module RpnExamples {
  import opened Wrappers
  import opened Float
  import opened CalcErrors
  import opened Lexer
  import opened PostfixParser
  import opened RpnCalculator
  import opened RpnProperties

  function N(t: string, v: real): RpnItem {
    Numeric(t, Finite(v))
  }

  function Op(c: char): RpnItem
    requires IsArithmeticSign(c)
  {
    Plain(SignItem(c))
  }

  /** The items of calculator_test.go:24-40: "15 7 1 1 + - / 3 * 2 1 1 + + -". */
  function TestProgram(): seq<RpnItem> {
    [ N("15", 15.0), N("7", 7.0), N("1", 1.0), N("1", 1.0), Op('+'), Op('-'), Op('/'),
      N("3", 3.0), Op('*'), N("2", 2.0), N("1", 1.0), N("1", 1.0), Op('+'), Op('+'), Op('-') ]
  }

  /** The tree those items are the postfix form of: ((15 / (7 - (1 + 1))) * 3) - (2 + (1 + 1)). */
  function TestTree(): Expr {
    var one := Lit("1", Finite(1.0));
    Bin('-',
      Bin('*', Bin('/', Lit("15", Finite(15.0)), Bin('-', Lit("7", Finite(7.0)), Bin('+', one, one))), Lit("3", Finite(3.0))),
      Bin('+', Lit("2", Finite(2.0)), Bin('+', one, one)))
  }

  lemma TestTreeItems()
    ensures Postfix(TestTree()) == TestProgram()
  {
    var one := Lit("1", Finite(1.0));
    var two := Bin('+', one, one);
    assert Postfix(two) == [N("1", 1.0), N("1", 1.0), Op('+')];
    var left := Bin('*', Bin('/', Lit("15", Finite(15.0)), Bin('-', Lit("7", Finite(7.0)), two)), Lit("3", Finite(3.0)));
    assert Postfix(left) == [N("15", 15.0), N("7", 7.0), N("1", 1.0), N("1", 1.0), Op('+'), Op('-'), Op('/'), N("3", 3.0), Op('*')];
    assert Postfix(Bin('+', Lit("2", Finite(2.0)), two)) == [N("2", 2.0), N("1", 1.0), N("1", 1.0), Op('+'), Op('+')];
  }

  lemma TestTreeValue()
    requires Arithmetic(TestTree())
    ensures Value(TestTree()) == Finite(5.0)
  {
  }

  /** calculator_test.go:21-44: the program evaluates to 5. */
  lemma TestProgramIsFive(items: seq<RpnItem>)
    requires items == TestProgram()
    ensures NoRawNumber(items) && Eval(items) == Success(Finite(5.0))
  {
    TestTreeItems();
    EvalPostfix(TestTree());
    TestTreeValue();
  }

  /** calculator_test.go:45-57: an operator with one operand on the stack. */
  lemma OperatorWithOneOperand()
    ensures Eval([N("1", 1.0), Op('+'), N("1", 1.0), Op('+')]) == Failure(NewCalculationError(NotEnoughOperands))
  {
    var items := [N("1", 1.0), Op('+'), N("1", 1.0), Op('+')];
    assert [] + [Finite(1.0)] == [Finite(1.0)];
    assert EvalFrom(items, 0, []) == EvalFrom(items, 1, [Finite(1.0)]);
  }

  /** calculator_test.go:58-69: a bracket in the items is invalid. */
  lemma BracketIsInvalid()
    ensures Eval([N("1", 1.0), N("1", 1.0), Plain(NewItem(LeftParenthesis, "("))])
      == Failure(NewCalculationError("invalid item in the RPN operation: ("))
  {
    var items := [N("1", 1.0), N("1", 1.0), Plain(NewItem(LeftParenthesis, "("))];
    assert [] + [Finite(1.0)] == [Finite(1.0)];
    assert EvalFrom(items, 0, []) == EvalFrom(items, 1, [Finite(1.0)]);
    assert [Finite(1.0)] + [Finite(1.0)] == [Finite(1.0), Finite(1.0)];
    assert EvalFrom(items, 1, [Finite(1.0)]) == EvalFrom(items, 2, [Finite(1.0), Finite(1.0)]);
    assert !IsMathOperator(items[2].item) && TextOf(items[2]) == "(";
    assert EvalFrom(items, 2, [Finite(1.0), Finite(1.0)]) == Failure(InvalidItem(items[2]));
    assert "invalid item in the RPN operation: " + "(" == "invalid item in the RPN operation: (";
  }

  /** calculator_test.go:70-82: two operands left at the end. */
  lemma OperandsLeftOver()
    ensures Eval([N("1", 1.0), N("1", 1.0), N("1", 1.0), Op('+')]) == Failure(NewCalculationError(TooManyOperands))
  {
    var items := [N("1", 1.0), N("1", 1.0), N("1", 1.0), Op('+')];
    var one := Finite(1.0);
    assert [] + [one] == [one] && [one] + [one] == [one, one] && [one, one] + [one] == [one, one, one];
    assert EvalFrom(items, 0, []) == EvalFrom(items, 3, [one, one, one]);
    assert [one, one, one][..1] + [Finite(2.0)] == [one, Finite(2.0)];
  }
}
