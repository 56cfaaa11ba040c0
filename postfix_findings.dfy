/** The operator loop of pkg/reversepolish/postfixparser.go:49-68 ends in an unconditional `break`,
    so an incoming operator pops at most one operator from the stack, where the shunting-yard
    algorithm pops for as long as the top binds at least as tightly. This module shows what that
    does to `1-2*3+4`, and defines the conversion with the loop the code evidently intends
    (`TextbookConvert`), proving that it keeps the stack ordered where the code as written does not. */
module PostfixFindings {
  import opened Wrappers
  import opened Float
  import opened Text
  import opened CalcErrors
  import opened Lexer
  import opened PostfixParser
  import opened RpnCalculator
  import opened RpnProperties
  import opened PostfixExamples

  /** What shunting-yard keeps true of its operator stack: an operator never sits directly on an
      operator that it would have popped. */
  predicate Ordered(stack: seq<Item>) {
    forall j :: 0 < j < |stack| && IsMathOperator(stack[j]) ==> !PopsTop(stack[j - 1], stack[j])
  }

  lemma OrderedPrefix(stack: seq<Item>, n: nat)
    requires Ordered(stack) && n <= |stack|
    ensures Ordered(stack[..n])
  {
    assert forall j :: 0 <= j < n ==> stack[..n][j] == stack[j];
  }

  // ---------------------------------------------------------------------------------------------
  // The code as written

  /** An operator that pops the top of the stack and would also pop the operator below it pops one
      and lands on the other: the stack is left out of order. */
  lemma PopOnceLeavesPoppable(out: seq<RpnItem>, stack: seq<Item>, a: Item, b: Item, it: Item)
    requires IsMathOperator(it) && PopsTop(a, it) && PopsTop(b, it)
    ensures Step(it, out, stack + [a, b]) == Success((out + [Plain(b)], stack + [a, it]))
    ensures !Ordered(stack + [a, it])
  {
    var s := stack + [a, b];
    assert Top(s) == b && Popped(s) == stack + [a];
    assert stack + [a] + [it] == stack + [a, it];
    var t := stack + [a, it];
    assert t[|t| - 2] == a && t[|t| - 1] == it;
  }

  /** `1-2*3+4`: with `-` and `*` on the stack, `+` pops `*` and is pushed onto `-`. */
  lemma MixedStackOutOfOrder()
    ensures Ordered([Item(Subtraction, "-"), Item(Multiplication, "*")])
    ensures Step(Item(Addition, "+"), [], [Item(Subtraction, "-"), Item(Multiplication, "*")])
      == Success(([Plain(Item(Multiplication, "*"))], [Item(Subtraction, "-"), Item(Addition, "+")]))
    ensures !Ordered([Item(Subtraction, "-"), Item(Addition, "+")])
  {
    var stack := [Item(Subtraction, "-"), Item(Multiplication, "*")];
    assert stack[0] == Item(Subtraction, "-") && stack[1] == Item(Multiplication, "*");
    PopOnceLeavesPoppable([], [], Item(Subtraction, "-"), Item(Multiplication, "*"), Item(Addition, "+"));
    assert [] + [Item(Subtraction, "-"), Item(Multiplication, "*")] == stack;
    assert [] + [Item(Subtraction, "-"), Item(Addition, "+")] == [Item(Subtraction, "-"), Item(Addition, "+")];
    assert [] + [Plain(Item(Multiplication, "*"))] == [Plain(Item(Multiplication, "*"))];
  }

  function One(): Expr { Lit("1", Finite(1.0)) }
  function Two(): Expr { Lit("2", Finite(2.0)) }
  function Three(): Expr { Lit("3", Finite(3.0)) }
  function Four(): Expr { Lit("4", Finite(4.0)) }

  /** `1-2*3+4` read with the usual precedence and left associativity: `(1 - 2*3) + 4`. */
  function MixedTree(): Expr {
    Bin('+', Bin('-', One(), Bin('*', Two(), Three())), Four())
  }

  /** The tree the as-written output is the postfix form of: `1 - (2*3 + 4)`. */
  function MixedAsWrittenTree(): Expr {
    Bin('-', One(), Bin('+', Bin('*', Two(), Three()), Four()))
  }

  lemma MixedValues()
    ensures Value(MixedTree()) == Finite(-1.0)
    ensures Value(MixedAsWrittenTree()) == Finite(-9.0)
  {
  }

  lemma MixedAsWrittenItems()
    ensures Postfix(MixedAsWrittenTree()) == [Numeric("1", Finite(1.0)), Numeric("2", Finite(2.0)), Numeric("3", Finite(3.0)),
      Plain(Item(Multiplication, "*")), Numeric("4", Finite(4.0)), Plain(Item(Addition, "+")), Plain(Item(Subtraction, "-"))]
  {
  }

  /** As written, `1-2*3+4` converts to `1 2 3 * 4 + -` and evaluates to -9, where its value is -1. */
  lemma MixedMisconverted(s: string)
    requires MixedText(s)
    ensures Convert(Scan(s)) == Success(Postfix(MixedAsWrittenTree()))
    ensures Eval(Convert(Scan(s)).value) == Success(Finite(-9.0))
    ensures Value(MixedTree()) == Finite(-1.0)
  {
    MixedScanned(s);
    MixedConverted(Scan(s));
    MixedAsWrittenItems();
    EvalPostfix(MixedAsWrittenTree());
    MixedValues();
  }

  // ---------------------------------------------------------------------------------------------
  // The loop as intended

  /** Pop operators to the output for as long as the top would be popped by `it`. */
  function PopWhile(out: seq<RpnItem>, stack: seq<Item>, it: Item): (r: (seq<RpnItem>, seq<Item>))
    ensures |r.1| <= |stack| && r.1 == stack[..|r.1|]
    ensures !PopsTop(Top(r.1), it)
    ensures forall j :: |r.1| <= j < |stack| ==> PopsTop(stack[j], it)
    ensures |r.0| == |out| + |stack| - |r.1| && r.0[..|out|] == out
    ensures forall j :: |out| <= j < |r.0| ==> r.0[j] == Plain(stack[|stack| - 1 - (j - |out|)])
    decreases |stack|
  {
    if stack != [] && PopsTop(Top(stack), it) then
      PopWhile(out + [Plain(Top(stack))], Popped(stack), it)
    else
      (out, stack)
  }

  /** One item, with the operator loop popping for as long as it should. */
  function TextbookStep(it: Item, out: seq<RpnItem>, stack: seq<Item>): Outcome<(seq<RpnItem>, seq<Item>)> {
    if IsMathOperator(it) then
      var r := PopWhile(out, stack, it);
      Success((r.0, r.1 + [it]))
    else
      Step(it, out, stack)
  }

  function TextbookConvertFrom(toks: seq<Item>, k: nat, out: seq<RpnItem>, stack: seq<Item>): Outcome<seq<RpnItem>>
    requires k <= |toks|
    decreases |toks| - k
  {
    if k == |toks| || toks[k].typ == Empty then Drain(out, stack)
    else match TextbookStep(toks[k], out, stack)
      case Failure(e) => Failure(e)
      case Success(os) => TextbookConvertFrom(toks, k + 1, os.0, os.1)
  }

  /** The conversion the code evidently intends. */
  function TextbookConvert(toks: seq<Item>): Outcome<seq<RpnItem>> {
    TextbookConvertFrom(toks, 0, [], [])
  }

  lemma {:induction false} PopToLeftPrefix(out: seq<RpnItem>, stack: seq<Item>)
    ensures PopToLeft(out, stack).Success? ==>
      var s := PopToLeft(out, stack).value.1;
      |s| <= |stack| && s == stack[..|s|]
    decreases |stack|
  {
    if stack != [] && !IsLeftBracket(Top(stack)) {
      PopToLeftPrefix(out + [Plain(Top(stack))], Popped(stack));
    }
  }

  /** Every step of the intended loop keeps the stack ordered. */
  lemma TextbookStepOrdered(it: Item, out: seq<RpnItem>, stack: seq<Item>)
    requires Ordered(stack) && TextbookStep(it, out, stack).Success?
    ensures Ordered(TextbookStep(it, out, stack).value.1)
  {
    if IsMathOperator(it) {
      var r := PopWhile(out, stack, it);
      OrderedPrefix(stack, |r.1|);
      var t := r.1 + [it];
      forall j | 0 < j < |t| && IsMathOperator(t[j]) ensures !PopsTop(t[j - 1], t[j]) {
        if j == |t| - 1 {
          assert t[j - 1] == Top(r.1) && t[j] == it;
        } else {
          assert t[j - 1] == r.1[j - 1] && t[j] == r.1[j];
        }
      }
    } else if it.typ == RightParenthesis {
      PopToLeftPrefix(out, stack);
      OrderedPrefix(stack, |PopToLeft(out, stack).value.1|);
    } else if it.typ == LeftParenthesis {
      var t := stack + [it];
      assert forall j :: 0 <= j < |stack| ==> t[j] == stack[j];
    }
  }

  /** From an ordered stack, the intended loop meets an ordered stack before every item. */
  lemma {:induction false} TextbookConvertFromOrdered(toks: seq<Item>, k: nat, out: seq<RpnItem>, stack: seq<Item>, m: nat)
    requires k <= m <= |toks| && Ordered(stack)
    ensures TextbookReaches(toks, k, out, stack, m) ==> Ordered(TextbookStackAt(toks, k, out, stack, m))
    decreases m - k
  {
    if k < m && toks[k].typ != Empty && TextbookStep(toks[k], out, stack).Success? {
      TextbookStepOrdered(toks[k], out, stack);
      var os := TextbookStep(toks[k], out, stack).value;
      TextbookConvertFromOrdered(toks, k + 1, os.0, os.1, m);
    }
  }

  /** The loop from `k` gets as far as item `m` without failing or stopping at an Empty item. */
  predicate TextbookReaches(toks: seq<Item>, k: nat, out: seq<RpnItem>, stack: seq<Item>, m: nat)
    requires k <= m <= |toks|
    decreases m - k
  {
    k == m || (toks[k].typ != Empty && TextbookStep(toks[k], out, stack).Success? &&
      var os := TextbookStep(toks[k], out, stack).value;
      TextbookReaches(toks, k + 1, os.0, os.1, m))
  }

  /** The operator stack when the loop from `k` reaches item `m`. */
  function TextbookStackAt(toks: seq<Item>, k: nat, out: seq<RpnItem>, stack: seq<Item>, m: nat): seq<Item>
    requires k <= m <= |toks|
    decreases m - k
  {
    if k == m || toks[k].typ == Empty || TextbookStep(toks[k], out, stack).Failure? then stack
    else
      var os := TextbookStep(toks[k], out, stack).value;
      TextbookStackAt(toks, k + 1, os.0, os.1, m)
  }

  /** Every stack the intended conversion goes through is ordered. */
  lemma TextbookStacksOrdered(toks: seq<Item>, m: nat)
    requires m <= |toks|
    ensures TextbookReaches(toks, 0, [], [], m) ==> Ordered(TextbookStackAt(toks, 0, [], [], m))
  {
    TextbookConvertFromOrdered(toks, 0, [], [], m);
  }

  // ---------------------------------------------------------------------------------------------
  // `1-2*3+4` with the intended loop

  lemma TextbookNumber(toks: seq<Item>, k: nat, out: seq<RpnItem>, stack: seq<Item>, d: char)
    requires k < |toks| && IsDigit(d) && toks[k] == Item(Number, [d])
    ensures TextbookConvertFrom(toks, k, out, stack) == TextbookConvertFrom(toks, k + 1, out + [Numeric([d], Finite(DigitValue(d) as real))], stack)
  {
    OneDigit(d);
  }

  lemma TextbookOperator(toks: seq<Item>, k: nat, out: seq<RpnItem>, stack: seq<Item>)
    requires k < |toks| && IsMathOperator(toks[k])
    ensures TextbookConvertFrom(toks, k, out, stack) ==
      TextbookConvertFrom(toks, k + 1, PopWhile(out, stack, toks[k]).0, PopWhile(out, stack, toks[k]).1 + [toks[k]])
  {
  }

  lemma TextbookMixed0(toks: seq<Item>, out: seq<RpnItem>, stack: seq<Item>)
    requires 0 < |toks| && toks[0] == Item(Number, "1") && out == [] && stack == []
    ensures TextbookConvertFrom(toks, 0, out, stack) == TextbookConvertFrom(toks, 1, [Numeric("1", Finite(1.0))], [])
  {
    TextbookNumber(toks, 0, out, stack, '1');
    assert out + [Numeric("1", Finite(1.0))] == [Numeric("1", Finite(1.0))];
  }

  lemma TextbookMixed1(toks: seq<Item>)
    requires 1 < |toks| && toks[1] == Item(Subtraction, "-")
    ensures TextbookConvertFrom(toks, 1, [Numeric("1", Finite(1.0))], []) == TextbookConvertFrom(toks, 2, [Numeric("1", Finite(1.0))], [Item(Subtraction, "-")])
  {
    TextbookOperator(toks, 1, [Numeric("1", Finite(1.0))], []);
    assert [] + [Item(Subtraction, "-")] == [Item(Subtraction, "-")];
  }

  lemma TextbookMixed2(toks: seq<Item>)
    requires 2 < |toks| && toks[2] == Item(Number, "2")
    ensures TextbookConvertFrom(toks, 2, [Numeric("1", Finite(1.0))], [Item(Subtraction, "-")]) == TextbookConvertFrom(toks, 3, [Numeric("1", Finite(1.0)), Numeric("2", Finite(2.0))], [Item(Subtraction, "-")])
  {
    TextbookNumber(toks, 2, [Numeric("1", Finite(1.0))], [Item(Subtraction, "-")], '2');
    assert [Numeric("1", Finite(1.0))] + [Numeric("2", Finite(2.0))] == [Numeric("1", Finite(1.0)), Numeric("2", Finite(2.0))];
  }

  lemma TextbookMixed3(toks: seq<Item>)
    requires 3 < |toks| && toks[3] == Item(Multiplication, "*")
    ensures TextbookConvertFrom(toks, 3, [Numeric("1", Finite(1.0)), Numeric("2", Finite(2.0))], [Item(Subtraction, "-")]) == TextbookConvertFrom(toks, 4, [Numeric("1", Finite(1.0)), Numeric("2", Finite(2.0))], [Item(Subtraction, "-"), Item(Multiplication, "*")])
  {
    assert Top([Item(Subtraction, "-")]) == Item(Subtraction, "-");
    TextbookOperator(toks, 3, [Numeric("1", Finite(1.0)), Numeric("2", Finite(2.0))], [Item(Subtraction, "-")]);
    assert [Item(Subtraction, "-")] + [Item(Multiplication, "*")] == [Item(Subtraction, "-"), Item(Multiplication, "*")];
  }

  lemma TextbookMixed4(toks: seq<Item>)
    requires 4 < |toks| && toks[4] == Item(Number, "3")
    ensures TextbookConvertFrom(toks, 4, [Numeric("1", Finite(1.0)), Numeric("2", Finite(2.0))], [Item(Subtraction, "-"), Item(Multiplication, "*")]) == TextbookConvertFrom(toks, 5, [Numeric("1", Finite(1.0)), Numeric("2", Finite(2.0)), Numeric("3", Finite(3.0))], [Item(Subtraction, "-"), Item(Multiplication, "*")])
  {
    TextbookNumber(toks, 4, [Numeric("1", Finite(1.0)), Numeric("2", Finite(2.0))], [Item(Subtraction, "-"), Item(Multiplication, "*")], '3');
    assert [Numeric("1", Finite(1.0)), Numeric("2", Finite(2.0))] + [Numeric("3", Finite(3.0))] == [Numeric("1", Finite(1.0)), Numeric("2", Finite(2.0)), Numeric("3", Finite(3.0))];
  }

  /** `+` pops both `*` and `-`. */
  lemma TextbookMixed5(toks: seq<Item>)
    requires 5 < |toks| && toks[5] == Item(Addition, "+")
    ensures TextbookConvertFrom(toks, 5, [Numeric("1", Finite(1.0)), Numeric("2", Finite(2.0)), Numeric("3", Finite(3.0))], [Item(Subtraction, "-"), Item(Multiplication, "*")]) == TextbookConvertFrom(toks, 6, [Numeric("1", Finite(1.0)), Numeric("2", Finite(2.0)), Numeric("3", Finite(3.0)), Plain(Item(Multiplication, "*")), Plain(Item(Subtraction, "-"))], [Item(Addition, "+")])
  {
    assert Top([Item(Subtraction, "-"), Item(Multiplication, "*")]) == Item(Multiplication, "*") && Popped([Item(Subtraction, "-"), Item(Multiplication, "*")]) == [Item(Subtraction, "-")];
    assert Top([Item(Subtraction, "-")]) == Item(Subtraction, "-") && Popped([Item(Subtraction, "-")]) == [];
    assert [Numeric("1", Finite(1.0)), Numeric("2", Finite(2.0)), Numeric("3", Finite(3.0))] + [Plain(Item(Multiplication, "*"))] == [Numeric("1", Finite(1.0)), Numeric("2", Finite(2.0)), Numeric("3", Finite(3.0)), Plain(Item(Multiplication, "*"))];
    assert [Numeric("1", Finite(1.0)), Numeric("2", Finite(2.0)), Numeric("3", Finite(3.0)), Plain(Item(Multiplication, "*"))] + [Plain(Item(Subtraction, "-"))] == [Numeric("1", Finite(1.0)), Numeric("2", Finite(2.0)), Numeric("3", Finite(3.0)), Plain(Item(Multiplication, "*")), Plain(Item(Subtraction, "-"))];
    assert PopWhile([Numeric("1", Finite(1.0)), Numeric("2", Finite(2.0)), Numeric("3", Finite(3.0))], [Item(Subtraction, "-"), Item(Multiplication, "*")], Item(Addition, "+")) == PopWhile([Numeric("1", Finite(1.0)), Numeric("2", Finite(2.0)), Numeric("3", Finite(3.0)), Plain(Item(Multiplication, "*"))], [Item(Subtraction, "-")], Item(Addition, "+"));
    assert PopWhile([Numeric("1", Finite(1.0)), Numeric("2", Finite(2.0)), Numeric("3", Finite(3.0)), Plain(Item(Multiplication, "*"))], [Item(Subtraction, "-")], Item(Addition, "+")) == PopWhile([Numeric("1", Finite(1.0)), Numeric("2", Finite(2.0)), Numeric("3", Finite(3.0)), Plain(Item(Multiplication, "*")), Plain(Item(Subtraction, "-"))], [], Item(Addition, "+"));
    TextbookOperator(toks, 5, [Numeric("1", Finite(1.0)), Numeric("2", Finite(2.0)), Numeric("3", Finite(3.0))], [Item(Subtraction, "-"), Item(Multiplication, "*")]);
    assert [] + [Item(Addition, "+")] == [Item(Addition, "+")];
  }

  lemma TextbookMixed6(toks: seq<Item>)
    requires 6 < |toks| && toks[6] == Item(Number, "4")
    ensures TextbookConvertFrom(toks, 6, [Numeric("1", Finite(1.0)), Numeric("2", Finite(2.0)), Numeric("3", Finite(3.0)), Plain(Item(Multiplication, "*")), Plain(Item(Subtraction, "-"))], [Item(Addition, "+")]) == TextbookConvertFrom(toks, 7, [Numeric("1", Finite(1.0)), Numeric("2", Finite(2.0)), Numeric("3", Finite(3.0)), Plain(Item(Multiplication, "*")), Plain(Item(Subtraction, "-")), Numeric("4", Finite(4.0))], [Item(Addition, "+")])
  {
    TextbookNumber(toks, 6, [Numeric("1", Finite(1.0)), Numeric("2", Finite(2.0)), Numeric("3", Finite(3.0)), Plain(Item(Multiplication, "*")), Plain(Item(Subtraction, "-"))], [Item(Addition, "+")], '4');
    assert [Numeric("1", Finite(1.0)), Numeric("2", Finite(2.0)), Numeric("3", Finite(3.0)), Plain(Item(Multiplication, "*")), Plain(Item(Subtraction, "-"))] + [Numeric("4", Finite(4.0))] == [Numeric("1", Finite(1.0)), Numeric("2", Finite(2.0)), Numeric("3", Finite(3.0)), Plain(Item(Multiplication, "*")), Plain(Item(Subtraction, "-")), Numeric("4", Finite(4.0))];
  }

  lemma TextbookMixedEnd(toks: seq<Item>)
    requires |toks| == 7
    ensures TextbookConvertFrom(toks, 7, [Numeric("1", Finite(1.0)), Numeric("2", Finite(2.0)), Numeric("3", Finite(3.0)), Plain(Item(Multiplication, "*")), Plain(Item(Subtraction, "-")), Numeric("4", Finite(4.0))], [Item(Addition, "+")]) == Success([Numeric("1", Finite(1.0)), Numeric("2", Finite(2.0)), Numeric("3", Finite(3.0)), Plain(Item(Multiplication, "*")), Plain(Item(Subtraction, "-")), Numeric("4", Finite(4.0)), Plain(Item(Addition, "+"))])
  {
    assert Top([Item(Addition, "+")]) == Item(Addition, "+") && Popped([Item(Addition, "+")]) == [];
    assert [Numeric("1", Finite(1.0)), Numeric("2", Finite(2.0)), Numeric("3", Finite(3.0)), Plain(Item(Multiplication, "*")), Plain(Item(Subtraction, "-")), Numeric("4", Finite(4.0))] + [Plain(Item(Addition, "+"))] == [Numeric("1", Finite(1.0)), Numeric("2", Finite(2.0)), Numeric("3", Finite(3.0)), Plain(Item(Multiplication, "*")), Plain(Item(Subtraction, "-")), Numeric("4", Finite(4.0)), Plain(Item(Addition, "+"))];
    assert Drain([Numeric("1", Finite(1.0)), Numeric("2", Finite(2.0)), Numeric("3", Finite(3.0)), Plain(Item(Multiplication, "*")), Plain(Item(Subtraction, "-")), Numeric("4", Finite(4.0))], [Item(Addition, "+")]) == Drain([Numeric("1", Finite(1.0)), Numeric("2", Finite(2.0)), Numeric("3", Finite(3.0)), Plain(Item(Multiplication, "*")), Plain(Item(Subtraction, "-")), Numeric("4", Finite(4.0)), Plain(Item(Addition, "+"))], []);
  }

  lemma MixedTreeItems()
    ensures Postfix(MixedTree()) == [Numeric("1", Finite(1.0)), Numeric("2", Finite(2.0)), Numeric("3", Finite(3.0)),
      Plain(Item(Multiplication, "*")), Plain(Item(Subtraction, "-")), Numeric("4", Finite(4.0)), Plain(Item(Addition, "+"))]
  {
  }

  lemma TextbookMixedConverted(toks: seq<Item>)
    requires MixedTokens(toks)
    ensures TextbookConvertFrom(toks, 0, [], []) == Success([Numeric("1", Finite(1.0)), Numeric("2", Finite(2.0)), Numeric("3", Finite(3.0)), Plain(Item(Multiplication, "*")), Plain(Item(Subtraction, "-")), Numeric("4", Finite(4.0)), Plain(Item(Addition, "+"))])
  {
    TextbookMixed0(toks, [], []);
    TextbookMixed1(toks);
    TextbookMixed2(toks);
    TextbookMixed3(toks);
    TextbookMixed4(toks);
    TextbookMixed5(toks);
    TextbookMixed6(toks);
    TextbookMixedEnd(toks);
  }

  /** With the intended loop, `1-2*3+4` converts to `1 2 3 * - 4 +` and evaluates to its value, -1. */
  lemma MixedTextbook(s: string)
    requires s == Mixed
    ensures TextbookConvert(Scan(s)) == Success(Postfix(MixedTree()))
    ensures Eval(TextbookConvert(Scan(s)).value) == Success(Finite(-1.0))
  {
    MixedTextHolds(s);
    MixedScanned(s);
    TextbookMixedConverted(Scan(s));
    MixedTreeItems();
    EvalPostfix(MixedTree());
    MixedValues();
  }
}
