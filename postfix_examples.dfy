/** The cases pinned by pkg/reversepolish/postfixparser_test.go, and one more input, taken through
    `Scan` and `Convert` one item at a time (each step a lemma of its own). `ParseInfix` returns
    `Convert(Scan(input))`, so these are its results. */
module PostfixExamples {
  import opened Wrappers
  import opened Float
  import opened CalcErrors
  import opened Lexer
  import opened LexerProperties
  import opened PostfixParser
  import opened Text

  // One conversion step for each kind of item, with the item known only by its position.

  lemma NumberConv(toks: seq<Item>, k: nat, out: seq<RpnItem>, stack: seq<Item>, d: char)
    requires k < |toks| && IsDigit(d) && toks[k] == Item(Number, [d])
    ensures ConvertFrom(toks, k, out, stack) == ConvertFrom(toks, k + 1, out + [Numeric([d], Finite(DigitValue(d) as real))], stack)
  {
    OneDigit(d);
  }

  lemma LeftConv(toks: seq<Item>, k: nat, out: seq<RpnItem>, stack: seq<Item>)
    requires k < |toks| && toks[k].typ == LeftParenthesis
    ensures ConvertFrom(toks, k, out, stack) == ConvertFrom(toks, k + 1, out, stack + [toks[k]])
  {
  }

  lemma RightConv(toks: seq<Item>, k: nat, out: seq<RpnItem>, stack: seq<Item>)
    requires k < |toks| && toks[k].typ == RightParenthesis
    ensures ConvertFrom(toks, k, out, stack) ==
      match PopToLeft(out, stack)
      case Failure(e) => Failure(e)
      case Success(os) => ConvertFrom(toks, k + 1, os.0, os.1)
  {
  }

  lemma PushConv(toks: seq<Item>, k: nat, out: seq<RpnItem>, stack: seq<Item>)
    requires k < |toks| && IsMathOperator(toks[k]) && !PopsTop(Top(stack), toks[k])
    ensures ConvertFrom(toks, k, out, stack) == ConvertFrom(toks, k + 1, out, stack + [toks[k]])
  {
  }

  lemma PopPushConv(toks: seq<Item>, k: nat, out: seq<RpnItem>, stack: seq<Item>)
    requires k < |toks| && IsMathOperator(toks[k]) && PopsTop(Top(stack), toks[k])
    ensures ConvertFrom(toks, k, out, stack) == ConvertFrom(toks, k + 1, out + [Plain(Top(stack))], Popped(stack) + [toks[k]])
  {
  }

  lemma ErrorConv(toks: seq<Item>, k: nat, out: seq<RpnItem>, stack: seq<Item>)
    requires k < |toks| && toks[k].typ == Error
    ensures ConvertFrom(toks, k, out, stack) == Failure(NewParsingError(toks[k].value))
  {
  }

  const Wiki := "3 + 4 * 2 / ( 1 - 5 ) ^  2 ^ 3"

  /** `s` holds the characters of `Wiki`. */
  predicate WikiText(s: string) {
    |s| == |Wiki| && forall i :: 0 <= i < |s| ==> s[i] == Wiki[i]
  }

  /** The items `Scan` gives for `Wiki`. */
  function WikiItems(): seq<Item> {
    [Item(Number, "3"), Item(Addition, "+"), Item(Number, "4"), Item(Multiplication, "*"), Item(Number, "2"), Item(Division, "/"), Item(LeftParenthesis, "("), Item(Number, "1"), Item(Subtraction, "-"), Item(Number, "5"), Item(RightParenthesis, ")"), Item(Exponent, "^"), Item(Number, "2"), Item(Exponent, "^"), Item(Number, "3")]
  }

  lemma WikiScan0(s: string)
    requires WikiText(s) && ScanFrom(s, 1) == WikiItems()[1..]
    ensures ScanFrom(s, 0) == WikiItems()[0..]
  {
    assert NumberRun(s, 1, 0) == RunEnd(1);
    NumberStep(s, 0, 1);
    assert s[0..1] == "3";
    assert WikiItems()[0..] == [WikiItems()[0]] + WikiItems()[1..];
  }

  lemma WikiScan1(s: string)
    requires WikiText(s) && ScanFrom(s, 2) == WikiItems()[1..]
    ensures ScanFrom(s, 1) == WikiItems()[1..]
  {
    SpaceStep(s, 1);
  }

  lemma WikiScan2(s: string)
    requires WikiText(s) && ScanFrom(s, 3) == WikiItems()[2..]
    ensures ScanFrom(s, 2) == WikiItems()[1..]
  {
    CharStep(s, 2);
    assert WikiItems()[1..] == [WikiItems()[1]] + WikiItems()[2..];
  }

  lemma WikiScan3(s: string)
    requires WikiText(s) && ScanFrom(s, 4) == WikiItems()[2..]
    ensures ScanFrom(s, 3) == WikiItems()[2..]
  {
    SpaceStep(s, 3);
  }

  lemma WikiScan4(s: string)
    requires WikiText(s) && ScanFrom(s, 5) == WikiItems()[3..]
    ensures ScanFrom(s, 4) == WikiItems()[2..]
  {
    assert NumberRun(s, 5, 0) == RunEnd(5);
    NumberStep(s, 4, 5);
    assert s[4..5] == "4";
    assert WikiItems()[2..] == [WikiItems()[2]] + WikiItems()[3..];
  }

  lemma WikiScan5(s: string)
    requires WikiText(s) && ScanFrom(s, 6) == WikiItems()[3..]
    ensures ScanFrom(s, 5) == WikiItems()[3..]
  {
    SpaceStep(s, 5);
  }

  lemma WikiScan6(s: string)
    requires WikiText(s) && ScanFrom(s, 7) == WikiItems()[4..]
    ensures ScanFrom(s, 6) == WikiItems()[3..]
  {
    CharStep(s, 6);
    assert WikiItems()[3..] == [WikiItems()[3]] + WikiItems()[4..];
  }

  lemma WikiScan7(s: string)
    requires WikiText(s) && ScanFrom(s, 8) == WikiItems()[4..]
    ensures ScanFrom(s, 7) == WikiItems()[4..]
  {
    SpaceStep(s, 7);
  }

  lemma WikiScan8(s: string)
    requires WikiText(s) && ScanFrom(s, 9) == WikiItems()[5..]
    ensures ScanFrom(s, 8) == WikiItems()[4..]
  {
    assert NumberRun(s, 9, 0) == RunEnd(9);
    NumberStep(s, 8, 9);
    assert s[8..9] == "2";
    assert WikiItems()[4..] == [WikiItems()[4]] + WikiItems()[5..];
  }

  lemma WikiScan9(s: string)
    requires WikiText(s) && ScanFrom(s, 10) == WikiItems()[5..]
    ensures ScanFrom(s, 9) == WikiItems()[5..]
  {
    SpaceStep(s, 9);
  }

  lemma WikiScan10(s: string)
    requires WikiText(s) && ScanFrom(s, 11) == WikiItems()[6..]
    ensures ScanFrom(s, 10) == WikiItems()[5..]
  {
    CharStep(s, 10);
    assert WikiItems()[5..] == [WikiItems()[5]] + WikiItems()[6..];
  }

  lemma WikiScan11(s: string)
    requires WikiText(s) && ScanFrom(s, 12) == WikiItems()[6..]
    ensures ScanFrom(s, 11) == WikiItems()[6..]
  {
    SpaceStep(s, 11);
  }

  lemma WikiScan12(s: string)
    requires WikiText(s) && ScanFrom(s, 13) == WikiItems()[7..]
    ensures ScanFrom(s, 12) == WikiItems()[6..]
  {
    CharStep(s, 12);
    assert WikiItems()[6..] == [WikiItems()[6]] + WikiItems()[7..];
  }

  lemma WikiScan13(s: string)
    requires WikiText(s) && ScanFrom(s, 14) == WikiItems()[7..]
    ensures ScanFrom(s, 13) == WikiItems()[7..]
  {
    SpaceStep(s, 13);
  }

  lemma WikiScan14(s: string)
    requires WikiText(s) && ScanFrom(s, 15) == WikiItems()[8..]
    ensures ScanFrom(s, 14) == WikiItems()[7..]
  {
    assert NumberRun(s, 15, 0) == RunEnd(15);
    NumberStep(s, 14, 15);
    assert s[14..15] == "1";
    assert WikiItems()[7..] == [WikiItems()[7]] + WikiItems()[8..];
  }

  lemma WikiScan15(s: string)
    requires WikiText(s) && ScanFrom(s, 16) == WikiItems()[8..]
    ensures ScanFrom(s, 15) == WikiItems()[8..]
  {
    SpaceStep(s, 15);
  }

  lemma WikiScan16(s: string)
    requires WikiText(s) && ScanFrom(s, 17) == WikiItems()[9..]
    ensures ScanFrom(s, 16) == WikiItems()[8..]
  {
    CharStep(s, 16);
    assert WikiItems()[8..] == [WikiItems()[8]] + WikiItems()[9..];
  }

  lemma WikiScan17(s: string)
    requires WikiText(s) && ScanFrom(s, 18) == WikiItems()[9..]
    ensures ScanFrom(s, 17) == WikiItems()[9..]
  {
    SpaceStep(s, 17);
  }

  lemma WikiScan18(s: string)
    requires WikiText(s) && ScanFrom(s, 19) == WikiItems()[10..]
    ensures ScanFrom(s, 18) == WikiItems()[9..]
  {
    assert NumberRun(s, 19, 0) == RunEnd(19);
    NumberStep(s, 18, 19);
    assert s[18..19] == "5";
    assert WikiItems()[9..] == [WikiItems()[9]] + WikiItems()[10..];
  }

  lemma WikiScan19(s: string)
    requires WikiText(s) && ScanFrom(s, 20) == WikiItems()[10..]
    ensures ScanFrom(s, 19) == WikiItems()[10..]
  {
    SpaceStep(s, 19);
  }

  lemma WikiScan20(s: string)
    requires WikiText(s) && ScanFrom(s, 21) == WikiItems()[11..]
    ensures ScanFrom(s, 20) == WikiItems()[10..]
  {
    CharStep(s, 20);
    assert WikiItems()[10..] == [WikiItems()[10]] + WikiItems()[11..];
  }

  lemma WikiScan21(s: string)
    requires WikiText(s) && ScanFrom(s, 22) == WikiItems()[11..]
    ensures ScanFrom(s, 21) == WikiItems()[11..]
  {
    SpaceStep(s, 21);
  }

  lemma WikiScan22(s: string)
    requires WikiText(s) && ScanFrom(s, 23) == WikiItems()[12..]
    ensures ScanFrom(s, 22) == WikiItems()[11..]
  {
    CharStep(s, 22);
    assert WikiItems()[11..] == [WikiItems()[11]] + WikiItems()[12..];
  }

  lemma WikiScan23(s: string)
    requires WikiText(s) && ScanFrom(s, 24) == WikiItems()[12..]
    ensures ScanFrom(s, 23) == WikiItems()[12..]
  {
    SpaceStep(s, 23);
  }

  lemma WikiScan24(s: string)
    requires WikiText(s) && ScanFrom(s, 25) == WikiItems()[12..]
    ensures ScanFrom(s, 24) == WikiItems()[12..]
  {
    SpaceStep(s, 24);
  }

  lemma WikiScan25(s: string)
    requires WikiText(s) && ScanFrom(s, 26) == WikiItems()[13..]
    ensures ScanFrom(s, 25) == WikiItems()[12..]
  {
    assert NumberRun(s, 26, 0) == RunEnd(26);
    NumberStep(s, 25, 26);
    assert s[25..26] == "2";
    assert WikiItems()[12..] == [WikiItems()[12]] + WikiItems()[13..];
  }

  lemma WikiScan26(s: string)
    requires WikiText(s) && ScanFrom(s, 27) == WikiItems()[13..]
    ensures ScanFrom(s, 26) == WikiItems()[13..]
  {
    SpaceStep(s, 26);
  }

  lemma WikiScan27(s: string)
    requires WikiText(s) && ScanFrom(s, 28) == WikiItems()[14..]
    ensures ScanFrom(s, 27) == WikiItems()[13..]
  {
    CharStep(s, 27);
    assert WikiItems()[13..] == [WikiItems()[13]] + WikiItems()[14..];
  }

  lemma WikiScan28(s: string)
    requires WikiText(s) && ScanFrom(s, 29) == WikiItems()[14..]
    ensures ScanFrom(s, 28) == WikiItems()[14..]
  {
    SpaceStep(s, 28);
  }

  lemma WikiScan29(s: string)
    requires WikiText(s) && ScanFrom(s, 30) == WikiItems()[15..]
    ensures ScanFrom(s, 29) == WikiItems()[14..]
  {
    assert NumberRun(s, 30, 0) == RunEnd(30);
    NumberStep(s, 29, 30);
    assert s[29..30] == "3";
    assert WikiItems()[14..] == [WikiItems()[14]] + WikiItems()[15..];
  }

  lemma WikiScanItems(s: string)
    requires WikiText(s)
    ensures ScanFrom(s, 0) == WikiItems()
  {
    assert ScanFrom(s, 30) == WikiItems()[15..];
    WikiScan29(s);
    WikiScan28(s);
    WikiScan27(s);
    WikiScan26(s);
    WikiScan25(s);
    WikiScan24(s);
    WikiScan23(s);
    WikiScan22(s);
    WikiScan21(s);
    WikiScan20(s);
    WikiScan19(s);
    WikiScan18(s);
    WikiScan17(s);
    WikiScan16(s);
    WikiScan15(s);
    WikiScan14(s);
    WikiScan13(s);
    WikiScan12(s);
    WikiScan11(s);
    WikiScan10(s);
    WikiScan9(s);
    WikiScan8(s);
    WikiScan7(s);
    WikiScan6(s);
    WikiScan5(s);
    WikiScan4(s);
    WikiScan3(s);
    WikiScan2(s);
    WikiScan1(s);
    WikiScan0(s);
  }

  /** The items `Scan` gives for `Wiki`, one by one. */
  predicate WikiTokens(toks: seq<Item>) {
    && |toks| == 15
    && toks[0] == Item(Number, "3")
    && toks[1] == Item(Addition, "+")
    && toks[2] == Item(Number, "4")
    && toks[3] == Item(Multiplication, "*")
    && toks[4] == Item(Number, "2")
    && toks[5] == Item(Division, "/")
    && toks[6] == Item(LeftParenthesis, "(")
    && toks[7] == Item(Number, "1")
    && toks[8] == Item(Subtraction, "-")
    && toks[9] == Item(Number, "5")
    && toks[10] == Item(RightParenthesis, ")")
    && toks[11] == Item(Exponent, "^")
    && toks[12] == Item(Number, "2")
    && toks[13] == Item(Exponent, "^")
    && toks[14] == Item(Number, "3")
  }

  lemma WikiTextHolds(s: string)
    requires s == Wiki
    ensures WikiText(s)
  {
  }

  lemma WikiScanned(s: string)
    requires WikiText(s)
    ensures WikiTokens(Scan(s))
  {
    WikiScanItems(s);
  }

  lemma WikiStep0(toks: seq<Item>, out: seq<RpnItem>, stack: seq<Item>)
    requires 0 < |toks| && toks[0] == Item(Number, "3") && out == [] && stack == []
    ensures ConvertFrom(toks, 0, out, stack) == ConvertFrom(toks, 1, [Numeric("3", Finite(3.0))], [])
  {
    NumberConv(toks, 0, out, stack, '3');
    assert out + [Numeric("3", Finite(3.0))] == [Numeric("3", Finite(3.0))];
  }

  lemma WikiStep1(toks: seq<Item>)
    requires 1 < |toks| && toks[1] == Item(Addition, "+")
    ensures ConvertFrom(toks, 1, [Numeric("3", Finite(3.0))], []) == ConvertFrom(toks, 2, [Numeric("3", Finite(3.0))], [Item(Addition, "+")])
  {
    PushConv(toks, 1, [Numeric("3", Finite(3.0))], []);
    assert [] + [Item(Addition, "+")] == [Item(Addition, "+")];
  }

  lemma WikiStep2(toks: seq<Item>)
    requires 2 < |toks| && toks[2] == Item(Number, "4")
    ensures ConvertFrom(toks, 2, [Numeric("3", Finite(3.0))], [Item(Addition, "+")]) == ConvertFrom(toks, 3, [Numeric("3", Finite(3.0)), Numeric("4", Finite(4.0))], [Item(Addition, "+")])
  {
    NumberConv(toks, 2, [Numeric("3", Finite(3.0))], [Item(Addition, "+")], '4');
    assert [Numeric("3", Finite(3.0))] + [Numeric("4", Finite(4.0))] == [Numeric("3", Finite(3.0)), Numeric("4", Finite(4.0))];
  }

  lemma WikiStep3(toks: seq<Item>)
    requires 3 < |toks| && toks[3] == Item(Multiplication, "*")
    ensures ConvertFrom(toks, 3, [Numeric("3", Finite(3.0)), Numeric("4", Finite(4.0))], [Item(Addition, "+")]) == ConvertFrom(toks, 4, [Numeric("3", Finite(3.0)), Numeric("4", Finite(4.0))], [Item(Addition, "+"), Item(Multiplication, "*")])
  {
    PushConv(toks, 3, [Numeric("3", Finite(3.0)), Numeric("4", Finite(4.0))], [Item(Addition, "+")]);
    assert [Item(Addition, "+")] + [Item(Multiplication, "*")] == [Item(Addition, "+"), Item(Multiplication, "*")];
  }

  lemma WikiStep4(toks: seq<Item>)
    requires 4 < |toks| && toks[4] == Item(Number, "2")
    ensures ConvertFrom(toks, 4, [Numeric("3", Finite(3.0)), Numeric("4", Finite(4.0))], [Item(Addition, "+"), Item(Multiplication, "*")]) == ConvertFrom(toks, 5, [Numeric("3", Finite(3.0)), Numeric("4", Finite(4.0)), Numeric("2", Finite(2.0))], [Item(Addition, "+"), Item(Multiplication, "*")])
  {
    NumberConv(toks, 4, [Numeric("3", Finite(3.0)), Numeric("4", Finite(4.0))], [Item(Addition, "+"), Item(Multiplication, "*")], '2');
    assert [Numeric("3", Finite(3.0)), Numeric("4", Finite(4.0))] + [Numeric("2", Finite(2.0))] == [Numeric("3", Finite(3.0)), Numeric("4", Finite(4.0)), Numeric("2", Finite(2.0))];
  }

  lemma WikiStep5(toks: seq<Item>)
    requires 5 < |toks| && toks[5] == Item(Division, "/")
    ensures ConvertFrom(toks, 5, [Numeric("3", Finite(3.0)), Numeric("4", Finite(4.0)), Numeric("2", Finite(2.0))], [Item(Addition, "+"), Item(Multiplication, "*")]) == ConvertFrom(toks, 6, [Numeric("3", Finite(3.0)), Numeric("4", Finite(4.0)), Numeric("2", Finite(2.0)), Plain(Item(Multiplication, "*"))], [Item(Addition, "+"), Item(Division, "/")])
  {
    assert Top([Item(Addition, "+"), Item(Multiplication, "*")]) == Item(Multiplication, "*") && Popped([Item(Addition, "+"), Item(Multiplication, "*")]) == [Item(Addition, "+")];
    PopPushConv(toks, 5, [Numeric("3", Finite(3.0)), Numeric("4", Finite(4.0)), Numeric("2", Finite(2.0))], [Item(Addition, "+"), Item(Multiplication, "*")]);
    assert [Numeric("3", Finite(3.0)), Numeric("4", Finite(4.0)), Numeric("2", Finite(2.0))] + [Plain(Item(Multiplication, "*"))] == [Numeric("3", Finite(3.0)), Numeric("4", Finite(4.0)), Numeric("2", Finite(2.0)), Plain(Item(Multiplication, "*"))];
    assert [Item(Addition, "+")] + [Item(Division, "/")] == [Item(Addition, "+"), Item(Division, "/")];
  }

  lemma WikiStep6(toks: seq<Item>)
    requires 6 < |toks| && toks[6] == Item(LeftParenthesis, "(")
    ensures ConvertFrom(toks, 6, [Numeric("3", Finite(3.0)), Numeric("4", Finite(4.0)), Numeric("2", Finite(2.0)), Plain(Item(Multiplication, "*"))], [Item(Addition, "+"), Item(Division, "/")]) == ConvertFrom(toks, 7, [Numeric("3", Finite(3.0)), Numeric("4", Finite(4.0)), Numeric("2", Finite(2.0)), Plain(Item(Multiplication, "*"))], [Item(Addition, "+"), Item(Division, "/"), Item(LeftParenthesis, "(")])
  {
    LeftConv(toks, 6, [Numeric("3", Finite(3.0)), Numeric("4", Finite(4.0)), Numeric("2", Finite(2.0)), Plain(Item(Multiplication, "*"))], [Item(Addition, "+"), Item(Division, "/")]);
    assert [Item(Addition, "+"), Item(Division, "/")] + [Item(LeftParenthesis, "(")] == [Item(Addition, "+"), Item(Division, "/"), Item(LeftParenthesis, "(")];
  }

  lemma WikiStep7(toks: seq<Item>)
    requires 7 < |toks| && toks[7] == Item(Number, "1")
    ensures ConvertFrom(toks, 7, [Numeric("3", Finite(3.0)), Numeric("4", Finite(4.0)), Numeric("2", Finite(2.0)), Plain(Item(Multiplication, "*"))], [Item(Addition, "+"), Item(Division, "/"), Item(LeftParenthesis, "(")]) == ConvertFrom(toks, 8, [Numeric("3", Finite(3.0)), Numeric("4", Finite(4.0)), Numeric("2", Finite(2.0)), Plain(Item(Multiplication, "*")), Numeric("1", Finite(1.0))], [Item(Addition, "+"), Item(Division, "/"), Item(LeftParenthesis, "(")])
  {
    NumberConv(toks, 7, [Numeric("3", Finite(3.0)), Numeric("4", Finite(4.0)), Numeric("2", Finite(2.0)), Plain(Item(Multiplication, "*"))], [Item(Addition, "+"), Item(Division, "/"), Item(LeftParenthesis, "(")], '1');
    assert [Numeric("3", Finite(3.0)), Numeric("4", Finite(4.0)), Numeric("2", Finite(2.0)), Plain(Item(Multiplication, "*"))] + [Numeric("1", Finite(1.0))] == [Numeric("3", Finite(3.0)), Numeric("4", Finite(4.0)), Numeric("2", Finite(2.0)), Plain(Item(Multiplication, "*")), Numeric("1", Finite(1.0))];
  }

  lemma WikiStep8(toks: seq<Item>)
    requires 8 < |toks| && toks[8] == Item(Subtraction, "-")
    ensures ConvertFrom(toks, 8, [Numeric("3", Finite(3.0)), Numeric("4", Finite(4.0)), Numeric("2", Finite(2.0)), Plain(Item(Multiplication, "*")), Numeric("1", Finite(1.0))], [Item(Addition, "+"), Item(Division, "/"), Item(LeftParenthesis, "(")]) == ConvertFrom(toks, 9, [Numeric("3", Finite(3.0)), Numeric("4", Finite(4.0)), Numeric("2", Finite(2.0)), Plain(Item(Multiplication, "*")), Numeric("1", Finite(1.0))], [Item(Addition, "+"), Item(Division, "/"), Item(LeftParenthesis, "("), Item(Subtraction, "-")])
  {
    PushConv(toks, 8, [Numeric("3", Finite(3.0)), Numeric("4", Finite(4.0)), Numeric("2", Finite(2.0)), Plain(Item(Multiplication, "*")), Numeric("1", Finite(1.0))], [Item(Addition, "+"), Item(Division, "/"), Item(LeftParenthesis, "(")]);
    assert [Item(Addition, "+"), Item(Division, "/"), Item(LeftParenthesis, "(")] + [Item(Subtraction, "-")] == [Item(Addition, "+"), Item(Division, "/"), Item(LeftParenthesis, "("), Item(Subtraction, "-")];
  }

  lemma WikiStep9(toks: seq<Item>)
    requires 9 < |toks| && toks[9] == Item(Number, "5")
    ensures ConvertFrom(toks, 9, [Numeric("3", Finite(3.0)), Numeric("4", Finite(4.0)), Numeric("2", Finite(2.0)), Plain(Item(Multiplication, "*")), Numeric("1", Finite(1.0))], [Item(Addition, "+"), Item(Division, "/"), Item(LeftParenthesis, "("), Item(Subtraction, "-")]) == ConvertFrom(toks, 10, [Numeric("3", Finite(3.0)), Numeric("4", Finite(4.0)), Numeric("2", Finite(2.0)), Plain(Item(Multiplication, "*")), Numeric("1", Finite(1.0)), Numeric("5", Finite(5.0))], [Item(Addition, "+"), Item(Division, "/"), Item(LeftParenthesis, "("), Item(Subtraction, "-")])
  {
    NumberConv(toks, 9, [Numeric("3", Finite(3.0)), Numeric("4", Finite(4.0)), Numeric("2", Finite(2.0)), Plain(Item(Multiplication, "*")), Numeric("1", Finite(1.0))], [Item(Addition, "+"), Item(Division, "/"), Item(LeftParenthesis, "("), Item(Subtraction, "-")], '5');
    assert [Numeric("3", Finite(3.0)), Numeric("4", Finite(4.0)), Numeric("2", Finite(2.0)), Plain(Item(Multiplication, "*")), Numeric("1", Finite(1.0))] + [Numeric("5", Finite(5.0))] == [Numeric("3", Finite(3.0)), Numeric("4", Finite(4.0)), Numeric("2", Finite(2.0)), Plain(Item(Multiplication, "*")), Numeric("1", Finite(1.0)), Numeric("5", Finite(5.0))];
  }

  lemma WikiStep10(toks: seq<Item>)
    requires 10 < |toks| && toks[10] == Item(RightParenthesis, ")")
    ensures ConvertFrom(toks, 10, [Numeric("3", Finite(3.0)), Numeric("4", Finite(4.0)), Numeric("2", Finite(2.0)), Plain(Item(Multiplication, "*")), Numeric("1", Finite(1.0)), Numeric("5", Finite(5.0))], [Item(Addition, "+"), Item(Division, "/"), Item(LeftParenthesis, "("), Item(Subtraction, "-")]) == ConvertFrom(toks, 11, [Numeric("3", Finite(3.0)), Numeric("4", Finite(4.0)), Numeric("2", Finite(2.0)), Plain(Item(Multiplication, "*")), Numeric("1", Finite(1.0)), Numeric("5", Finite(5.0)), Plain(Item(Subtraction, "-"))], [Item(Addition, "+"), Item(Division, "/")])
  {
    RightConv(toks, 10, [Numeric("3", Finite(3.0)), Numeric("4", Finite(4.0)), Numeric("2", Finite(2.0)), Plain(Item(Multiplication, "*")), Numeric("1", Finite(1.0)), Numeric("5", Finite(5.0))], [Item(Addition, "+"), Item(Division, "/"), Item(LeftParenthesis, "("), Item(Subtraction, "-")]);
    assert Top([Item(Addition, "+"), Item(Division, "/"), Item(LeftParenthesis, "("), Item(Subtraction, "-")]) == Item(Subtraction, "-") && Popped([Item(Addition, "+"), Item(Division, "/"), Item(LeftParenthesis, "("), Item(Subtraction, "-")]) == [Item(Addition, "+"), Item(Division, "/"), Item(LeftParenthesis, "(")];
    assert [Numeric("3", Finite(3.0)), Numeric("4", Finite(4.0)), Numeric("2", Finite(2.0)), Plain(Item(Multiplication, "*")), Numeric("1", Finite(1.0)), Numeric("5", Finite(5.0))] + [Plain(Item(Subtraction, "-"))] == [Numeric("3", Finite(3.0)), Numeric("4", Finite(4.0)), Numeric("2", Finite(2.0)), Plain(Item(Multiplication, "*")), Numeric("1", Finite(1.0)), Numeric("5", Finite(5.0)), Plain(Item(Subtraction, "-"))];
    assert PopToLeft([Numeric("3", Finite(3.0)), Numeric("4", Finite(4.0)), Numeric("2", Finite(2.0)), Plain(Item(Multiplication, "*")), Numeric("1", Finite(1.0)), Numeric("5", Finite(5.0))], [Item(Addition, "+"), Item(Division, "/"), Item(LeftParenthesis, "("), Item(Subtraction, "-")]) == PopToLeft([Numeric("3", Finite(3.0)), Numeric("4", Finite(4.0)), Numeric("2", Finite(2.0)), Plain(Item(Multiplication, "*")), Numeric("1", Finite(1.0)), Numeric("5", Finite(5.0)), Plain(Item(Subtraction, "-"))], [Item(Addition, "+"), Item(Division, "/"), Item(LeftParenthesis, "(")]);
    assert Top([Item(Addition, "+"), Item(Division, "/"), Item(LeftParenthesis, "(")]) == Item(LeftParenthesis, "(") && Popped([Item(Addition, "+"), Item(Division, "/"), Item(LeftParenthesis, "(")]) == [Item(Addition, "+"), Item(Division, "/")];
  }

  lemma WikiStep11(toks: seq<Item>)
    requires 11 < |toks| && toks[11] == Item(Exponent, "^")
    ensures ConvertFrom(toks, 11, [Numeric("3", Finite(3.0)), Numeric("4", Finite(4.0)), Numeric("2", Finite(2.0)), Plain(Item(Multiplication, "*")), Numeric("1", Finite(1.0)), Numeric("5", Finite(5.0)), Plain(Item(Subtraction, "-"))], [Item(Addition, "+"), Item(Division, "/")]) == ConvertFrom(toks, 12, [Numeric("3", Finite(3.0)), Numeric("4", Finite(4.0)), Numeric("2", Finite(2.0)), Plain(Item(Multiplication, "*")), Numeric("1", Finite(1.0)), Numeric("5", Finite(5.0)), Plain(Item(Subtraction, "-"))], [Item(Addition, "+"), Item(Division, "/"), Item(Exponent, "^")])
  {
    PushConv(toks, 11, [Numeric("3", Finite(3.0)), Numeric("4", Finite(4.0)), Numeric("2", Finite(2.0)), Plain(Item(Multiplication, "*")), Numeric("1", Finite(1.0)), Numeric("5", Finite(5.0)), Plain(Item(Subtraction, "-"))], [Item(Addition, "+"), Item(Division, "/")]);
    assert [Item(Addition, "+"), Item(Division, "/")] + [Item(Exponent, "^")] == [Item(Addition, "+"), Item(Division, "/"), Item(Exponent, "^")];
  }

  lemma WikiStep12(toks: seq<Item>)
    requires 12 < |toks| && toks[12] == Item(Number, "2")
    ensures ConvertFrom(toks, 12, [Numeric("3", Finite(3.0)), Numeric("4", Finite(4.0)), Numeric("2", Finite(2.0)), Plain(Item(Multiplication, "*")), Numeric("1", Finite(1.0)), Numeric("5", Finite(5.0)), Plain(Item(Subtraction, "-"))], [Item(Addition, "+"), Item(Division, "/"), Item(Exponent, "^")]) == ConvertFrom(toks, 13, [Numeric("3", Finite(3.0)), Numeric("4", Finite(4.0)), Numeric("2", Finite(2.0)), Plain(Item(Multiplication, "*")), Numeric("1", Finite(1.0)), Numeric("5", Finite(5.0)), Plain(Item(Subtraction, "-")), Numeric("2", Finite(2.0))], [Item(Addition, "+"), Item(Division, "/"), Item(Exponent, "^")])
  {
    NumberConv(toks, 12, [Numeric("3", Finite(3.0)), Numeric("4", Finite(4.0)), Numeric("2", Finite(2.0)), Plain(Item(Multiplication, "*")), Numeric("1", Finite(1.0)), Numeric("5", Finite(5.0)), Plain(Item(Subtraction, "-"))], [Item(Addition, "+"), Item(Division, "/"), Item(Exponent, "^")], '2');
    assert [Numeric("3", Finite(3.0)), Numeric("4", Finite(4.0)), Numeric("2", Finite(2.0)), Plain(Item(Multiplication, "*")), Numeric("1", Finite(1.0)), Numeric("5", Finite(5.0)), Plain(Item(Subtraction, "-"))] + [Numeric("2", Finite(2.0))] == [Numeric("3", Finite(3.0)), Numeric("4", Finite(4.0)), Numeric("2", Finite(2.0)), Plain(Item(Multiplication, "*")), Numeric("1", Finite(1.0)), Numeric("5", Finite(5.0)), Plain(Item(Subtraction, "-")), Numeric("2", Finite(2.0))];
  }

  lemma WikiStep13(toks: seq<Item>)
    requires 13 < |toks| && toks[13] == Item(Exponent, "^")
    ensures ConvertFrom(toks, 13, [Numeric("3", Finite(3.0)), Numeric("4", Finite(4.0)), Numeric("2", Finite(2.0)), Plain(Item(Multiplication, "*")), Numeric("1", Finite(1.0)), Numeric("5", Finite(5.0)), Plain(Item(Subtraction, "-")), Numeric("2", Finite(2.0))], [Item(Addition, "+"), Item(Division, "/"), Item(Exponent, "^")]) == ConvertFrom(toks, 14, [Numeric("3", Finite(3.0)), Numeric("4", Finite(4.0)), Numeric("2", Finite(2.0)), Plain(Item(Multiplication, "*")), Numeric("1", Finite(1.0)), Numeric("5", Finite(5.0)), Plain(Item(Subtraction, "-")), Numeric("2", Finite(2.0))], [Item(Addition, "+"), Item(Division, "/"), Item(Exponent, "^"), Item(Exponent, "^")])
  {
    PushConv(toks, 13, [Numeric("3", Finite(3.0)), Numeric("4", Finite(4.0)), Numeric("2", Finite(2.0)), Plain(Item(Multiplication, "*")), Numeric("1", Finite(1.0)), Numeric("5", Finite(5.0)), Plain(Item(Subtraction, "-")), Numeric("2", Finite(2.0))], [Item(Addition, "+"), Item(Division, "/"), Item(Exponent, "^")]);
    assert [Item(Addition, "+"), Item(Division, "/"), Item(Exponent, "^")] + [Item(Exponent, "^")] == [Item(Addition, "+"), Item(Division, "/"), Item(Exponent, "^"), Item(Exponent, "^")];
  }

  lemma WikiStep14(toks: seq<Item>)
    requires 14 < |toks| && toks[14] == Item(Number, "3")
    ensures ConvertFrom(toks, 14, [Numeric("3", Finite(3.0)), Numeric("4", Finite(4.0)), Numeric("2", Finite(2.0)), Plain(Item(Multiplication, "*")), Numeric("1", Finite(1.0)), Numeric("5", Finite(5.0)), Plain(Item(Subtraction, "-")), Numeric("2", Finite(2.0))], [Item(Addition, "+"), Item(Division, "/"), Item(Exponent, "^"), Item(Exponent, "^")]) == ConvertFrom(toks, 15, [Numeric("3", Finite(3.0)), Numeric("4", Finite(4.0)), Numeric("2", Finite(2.0)), Plain(Item(Multiplication, "*")), Numeric("1", Finite(1.0)), Numeric("5", Finite(5.0)), Plain(Item(Subtraction, "-")), Numeric("2", Finite(2.0)), Numeric("3", Finite(3.0))], [Item(Addition, "+"), Item(Division, "/"), Item(Exponent, "^"), Item(Exponent, "^")])
  {
    NumberConv(toks, 14, [Numeric("3", Finite(3.0)), Numeric("4", Finite(4.0)), Numeric("2", Finite(2.0)), Plain(Item(Multiplication, "*")), Numeric("1", Finite(1.0)), Numeric("5", Finite(5.0)), Plain(Item(Subtraction, "-")), Numeric("2", Finite(2.0))], [Item(Addition, "+"), Item(Division, "/"), Item(Exponent, "^"), Item(Exponent, "^")], '3');
    assert [Numeric("3", Finite(3.0)), Numeric("4", Finite(4.0)), Numeric("2", Finite(2.0)), Plain(Item(Multiplication, "*")), Numeric("1", Finite(1.0)), Numeric("5", Finite(5.0)), Plain(Item(Subtraction, "-")), Numeric("2", Finite(2.0))] + [Numeric("3", Finite(3.0))] == [Numeric("3", Finite(3.0)), Numeric("4", Finite(4.0)), Numeric("2", Finite(2.0)), Plain(Item(Multiplication, "*")), Numeric("1", Finite(1.0)), Numeric("5", Finite(5.0)), Plain(Item(Subtraction, "-")), Numeric("2", Finite(2.0)), Numeric("3", Finite(3.0))];
  }

  lemma WikiLast(toks: seq<Item>)
    requires |toks| == 15
    ensures ConvertFrom(toks, 15, [Numeric("3", Finite(3.0)), Numeric("4", Finite(4.0)), Numeric("2", Finite(2.0)), Plain(Item(Multiplication, "*")), Numeric("1", Finite(1.0)), Numeric("5", Finite(5.0)), Plain(Item(Subtraction, "-")), Numeric("2", Finite(2.0)), Numeric("3", Finite(3.0))], [Item(Addition, "+"), Item(Division, "/"), Item(Exponent, "^"), Item(Exponent, "^")]) == Success([Numeric("3", Finite(3.0)), Numeric("4", Finite(4.0)), Numeric("2", Finite(2.0)), Plain(Item(Multiplication, "*")), Numeric("1", Finite(1.0)), Numeric("5", Finite(5.0)), Plain(Item(Subtraction, "-")), Numeric("2", Finite(2.0)), Numeric("3", Finite(3.0)), Plain(Item(Exponent, "^")), Plain(Item(Exponent, "^")), Plain(Item(Division, "/")), Plain(Item(Addition, "+"))])
  {
    assert ConvertFrom(toks, 15, [Numeric("3", Finite(3.0)), Numeric("4", Finite(4.0)), Numeric("2", Finite(2.0)), Plain(Item(Multiplication, "*")), Numeric("1", Finite(1.0)), Numeric("5", Finite(5.0)), Plain(Item(Subtraction, "-")), Numeric("2", Finite(2.0)), Numeric("3", Finite(3.0))], [Item(Addition, "+"), Item(Division, "/"), Item(Exponent, "^"), Item(Exponent, "^")]) == Drain([Numeric("3", Finite(3.0)), Numeric("4", Finite(4.0)), Numeric("2", Finite(2.0)), Plain(Item(Multiplication, "*")), Numeric("1", Finite(1.0)), Numeric("5", Finite(5.0)), Plain(Item(Subtraction, "-")), Numeric("2", Finite(2.0)), Numeric("3", Finite(3.0))], [Item(Addition, "+"), Item(Division, "/"), Item(Exponent, "^"), Item(Exponent, "^")]);
    assert Top([Item(Addition, "+"), Item(Division, "/"), Item(Exponent, "^"), Item(Exponent, "^")]) == Item(Exponent, "^") && Popped([Item(Addition, "+"), Item(Division, "/"), Item(Exponent, "^"), Item(Exponent, "^")]) == [Item(Addition, "+"), Item(Division, "/"), Item(Exponent, "^")];
    assert [Numeric("3", Finite(3.0)), Numeric("4", Finite(4.0)), Numeric("2", Finite(2.0)), Plain(Item(Multiplication, "*")), Numeric("1", Finite(1.0)), Numeric("5", Finite(5.0)), Plain(Item(Subtraction, "-")), Numeric("2", Finite(2.0)), Numeric("3", Finite(3.0))] + [Plain(Item(Exponent, "^"))] == [Numeric("3", Finite(3.0)), Numeric("4", Finite(4.0)), Numeric("2", Finite(2.0)), Plain(Item(Multiplication, "*")), Numeric("1", Finite(1.0)), Numeric("5", Finite(5.0)), Plain(Item(Subtraction, "-")), Numeric("2", Finite(2.0)), Numeric("3", Finite(3.0)), Plain(Item(Exponent, "^"))];
    assert Drain([Numeric("3", Finite(3.0)), Numeric("4", Finite(4.0)), Numeric("2", Finite(2.0)), Plain(Item(Multiplication, "*")), Numeric("1", Finite(1.0)), Numeric("5", Finite(5.0)), Plain(Item(Subtraction, "-")), Numeric("2", Finite(2.0)), Numeric("3", Finite(3.0))], [Item(Addition, "+"), Item(Division, "/"), Item(Exponent, "^"), Item(Exponent, "^")]) == Drain([Numeric("3", Finite(3.0)), Numeric("4", Finite(4.0)), Numeric("2", Finite(2.0)), Plain(Item(Multiplication, "*")), Numeric("1", Finite(1.0)), Numeric("5", Finite(5.0)), Plain(Item(Subtraction, "-")), Numeric("2", Finite(2.0)), Numeric("3", Finite(3.0)), Plain(Item(Exponent, "^"))], [Item(Addition, "+"), Item(Division, "/"), Item(Exponent, "^")]);
    assert Top([Item(Addition, "+"), Item(Division, "/"), Item(Exponent, "^")]) == Item(Exponent, "^") && Popped([Item(Addition, "+"), Item(Division, "/"), Item(Exponent, "^")]) == [Item(Addition, "+"), Item(Division, "/")];
    assert [Numeric("3", Finite(3.0)), Numeric("4", Finite(4.0)), Numeric("2", Finite(2.0)), Plain(Item(Multiplication, "*")), Numeric("1", Finite(1.0)), Numeric("5", Finite(5.0)), Plain(Item(Subtraction, "-")), Numeric("2", Finite(2.0)), Numeric("3", Finite(3.0)), Plain(Item(Exponent, "^"))] + [Plain(Item(Exponent, "^"))] == [Numeric("3", Finite(3.0)), Numeric("4", Finite(4.0)), Numeric("2", Finite(2.0)), Plain(Item(Multiplication, "*")), Numeric("1", Finite(1.0)), Numeric("5", Finite(5.0)), Plain(Item(Subtraction, "-")), Numeric("2", Finite(2.0)), Numeric("3", Finite(3.0)), Plain(Item(Exponent, "^")), Plain(Item(Exponent, "^"))];
    assert Drain([Numeric("3", Finite(3.0)), Numeric("4", Finite(4.0)), Numeric("2", Finite(2.0)), Plain(Item(Multiplication, "*")), Numeric("1", Finite(1.0)), Numeric("5", Finite(5.0)), Plain(Item(Subtraction, "-")), Numeric("2", Finite(2.0)), Numeric("3", Finite(3.0)), Plain(Item(Exponent, "^"))], [Item(Addition, "+"), Item(Division, "/"), Item(Exponent, "^")]) == Drain([Numeric("3", Finite(3.0)), Numeric("4", Finite(4.0)), Numeric("2", Finite(2.0)), Plain(Item(Multiplication, "*")), Numeric("1", Finite(1.0)), Numeric("5", Finite(5.0)), Plain(Item(Subtraction, "-")), Numeric("2", Finite(2.0)), Numeric("3", Finite(3.0)), Plain(Item(Exponent, "^")), Plain(Item(Exponent, "^"))], [Item(Addition, "+"), Item(Division, "/")]);
    assert Top([Item(Addition, "+"), Item(Division, "/")]) == Item(Division, "/") && Popped([Item(Addition, "+"), Item(Division, "/")]) == [Item(Addition, "+")];
    assert [Numeric("3", Finite(3.0)), Numeric("4", Finite(4.0)), Numeric("2", Finite(2.0)), Plain(Item(Multiplication, "*")), Numeric("1", Finite(1.0)), Numeric("5", Finite(5.0)), Plain(Item(Subtraction, "-")), Numeric("2", Finite(2.0)), Numeric("3", Finite(3.0)), Plain(Item(Exponent, "^")), Plain(Item(Exponent, "^"))] + [Plain(Item(Division, "/"))] == [Numeric("3", Finite(3.0)), Numeric("4", Finite(4.0)), Numeric("2", Finite(2.0)), Plain(Item(Multiplication, "*")), Numeric("1", Finite(1.0)), Numeric("5", Finite(5.0)), Plain(Item(Subtraction, "-")), Numeric("2", Finite(2.0)), Numeric("3", Finite(3.0)), Plain(Item(Exponent, "^")), Plain(Item(Exponent, "^")), Plain(Item(Division, "/"))];
    assert Drain([Numeric("3", Finite(3.0)), Numeric("4", Finite(4.0)), Numeric("2", Finite(2.0)), Plain(Item(Multiplication, "*")), Numeric("1", Finite(1.0)), Numeric("5", Finite(5.0)), Plain(Item(Subtraction, "-")), Numeric("2", Finite(2.0)), Numeric("3", Finite(3.0)), Plain(Item(Exponent, "^")), Plain(Item(Exponent, "^"))], [Item(Addition, "+"), Item(Division, "/")]) == Drain([Numeric("3", Finite(3.0)), Numeric("4", Finite(4.0)), Numeric("2", Finite(2.0)), Plain(Item(Multiplication, "*")), Numeric("1", Finite(1.0)), Numeric("5", Finite(5.0)), Plain(Item(Subtraction, "-")), Numeric("2", Finite(2.0)), Numeric("3", Finite(3.0)), Plain(Item(Exponent, "^")), Plain(Item(Exponent, "^")), Plain(Item(Division, "/"))], [Item(Addition, "+")]);
    assert Top([Item(Addition, "+")]) == Item(Addition, "+") && Popped([Item(Addition, "+")]) == [];
    assert [Numeric("3", Finite(3.0)), Numeric("4", Finite(4.0)), Numeric("2", Finite(2.0)), Plain(Item(Multiplication, "*")), Numeric("1", Finite(1.0)), Numeric("5", Finite(5.0)), Plain(Item(Subtraction, "-")), Numeric("2", Finite(2.0)), Numeric("3", Finite(3.0)), Plain(Item(Exponent, "^")), Plain(Item(Exponent, "^")), Plain(Item(Division, "/"))] + [Plain(Item(Addition, "+"))] == [Numeric("3", Finite(3.0)), Numeric("4", Finite(4.0)), Numeric("2", Finite(2.0)), Plain(Item(Multiplication, "*")), Numeric("1", Finite(1.0)), Numeric("5", Finite(5.0)), Plain(Item(Subtraction, "-")), Numeric("2", Finite(2.0)), Numeric("3", Finite(3.0)), Plain(Item(Exponent, "^")), Plain(Item(Exponent, "^")), Plain(Item(Division, "/")), Plain(Item(Addition, "+"))];
    assert Drain([Numeric("3", Finite(3.0)), Numeric("4", Finite(4.0)), Numeric("2", Finite(2.0)), Plain(Item(Multiplication, "*")), Numeric("1", Finite(1.0)), Numeric("5", Finite(5.0)), Plain(Item(Subtraction, "-")), Numeric("2", Finite(2.0)), Numeric("3", Finite(3.0)), Plain(Item(Exponent, "^")), Plain(Item(Exponent, "^")), Plain(Item(Division, "/"))], [Item(Addition, "+")]) == Drain([Numeric("3", Finite(3.0)), Numeric("4", Finite(4.0)), Numeric("2", Finite(2.0)), Plain(Item(Multiplication, "*")), Numeric("1", Finite(1.0)), Numeric("5", Finite(5.0)), Plain(Item(Subtraction, "-")), Numeric("2", Finite(2.0)), Numeric("3", Finite(3.0)), Plain(Item(Exponent, "^")), Plain(Item(Exponent, "^")), Plain(Item(Division, "/")), Plain(Item(Addition, "+"))], []);
  }

  lemma WikiConverted(toks: seq<Item>)
    requires WikiTokens(toks)
    ensures ConvertFrom(toks, 0, [], []) == Success([Numeric("3", Finite(3.0)), Numeric("4", Finite(4.0)), Numeric("2", Finite(2.0)), Plain(Item(Multiplication, "*")), Numeric("1", Finite(1.0)), Numeric("5", Finite(5.0)), Plain(Item(Subtraction, "-")), Numeric("2", Finite(2.0)), Numeric("3", Finite(3.0)), Plain(Item(Exponent, "^")), Plain(Item(Exponent, "^")), Plain(Item(Division, "/")), Plain(Item(Addition, "+"))])
  {
    WikiStep0(toks, [], []);
    WikiStep1(toks);
    WikiStep2(toks);
    WikiStep3(toks);
    WikiStep4(toks);
    WikiStep5(toks);
    WikiStep6(toks);
    WikiStep7(toks);
    WikiStep8(toks);
    WikiStep9(toks);
    WikiStep10(toks);
    WikiStep11(toks);
    WikiStep12(toks);
    WikiStep13(toks);
    WikiStep14(toks);
    WikiLast(toks);
  }

  /** postfixparser_test.go:21-40: the example from the shunting-yard article converts as the test expects. */
  lemma WikiParsed(s: string)
    requires s == Wiki
    ensures Convert(Scan(s)) == Success([Numeric("3", Finite(3.0)), Numeric("4", Finite(4.0)), Numeric("2", Finite(2.0)), Plain(Item(Multiplication, "*")), Numeric("1", Finite(1.0)), Numeric("5", Finite(5.0)), Plain(Item(Subtraction, "-")), Numeric("2", Finite(2.0)), Numeric("3", Finite(3.0)), Plain(Item(Exponent, "^")), Plain(Item(Exponent, "^")), Plain(Item(Division, "/")), Plain(Item(Addition, "+"))])
  {
    WikiTextHolds(s);
    WikiScanned(s);
    WikiConverted(Scan(s));
  }

  const LexError := "2+2..2"

  /** `s` holds the characters of `LexError`. */
  predicate LexErrorText(s: string) {
    |s| == |LexError| && forall i :: 0 <= i < |s| ==> s[i] == LexError[i]
  }

  /** The items `Scan` gives for `LexError`. */
  function LexErrorItems(): seq<Item> {
    [Item(Number, "2"), Item(Addition, "+"), Item(Error, "invalid rune at: 4; could not lex: 2..")]
  }

  lemma LexErrorScan0(s: string)
    requires LexErrorText(s) && ScanFrom(s, 1) == LexErrorItems()[1..]
    ensures ScanFrom(s, 0) == LexErrorItems()[0..]
  {
    assert NumberRun(s, 1, 0) == RunEnd(1);
    NumberStep(s, 0, 1);
    assert s[0..1] == "2";
    assert LexErrorItems()[0..] == [LexErrorItems()[0]] + LexErrorItems()[1..];
  }

  lemma LexErrorScan1(s: string)
    requires LexErrorText(s) && ScanFrom(s, 2) == LexErrorItems()[2..]
    ensures ScanFrom(s, 1) == LexErrorItems()[1..]
  {
    CharStep(s, 1);
    assert LexErrorItems()[1..] == [LexErrorItems()[1]] + LexErrorItems()[2..];
  }

  lemma LexErrorMessage()
    ensures ErrorItem(4, "2..") == Item(Error, "invalid rune at: 4; could not lex: 2..")
  {
  }

  lemma LexErrorScan2(s: string)
    requires LexErrorText(s)
    ensures ScanFrom(s, 2) == LexErrorItems()[2..]
  {
    assert NumberRun(s, 4, 1) == SecondDot(4);
    assert NumberRun(s, 3, 0) == SecondDot(4);
    SecondDotStep(s, 2, 4);
    assert s[2..5] == "2..";
    LexErrorMessage();
    assert LexErrorItems()[2..] == [Item(Error, "invalid rune at: 4; could not lex: 2..")];
  }

  lemma LexErrorScanItems(s: string)
    requires LexErrorText(s)
    ensures ScanFrom(s, 0) == LexErrorItems()
  {
    LexErrorScan2(s);
    LexErrorScan1(s);
    LexErrorScan0(s);
  }

  /** The items `Scan` gives for `LexError`, one by one. */
  predicate LexErrorTokens(toks: seq<Item>) {
    && |toks| == 3
    && toks[0] == Item(Number, "2")
    && toks[1] == Item(Addition, "+")
    && toks[2] == Item(Error, "invalid rune at: 4; could not lex: 2..")
  }

  lemma LexErrorTextHolds(s: string)
    requires s == LexError
    ensures LexErrorText(s)
  {
  }

  lemma LexErrorScanned(s: string)
    requires LexErrorText(s)
    ensures LexErrorTokens(Scan(s))
  {
    LexErrorScanItems(s);
  }

  lemma LexErrorStep0(toks: seq<Item>, out: seq<RpnItem>, stack: seq<Item>)
    requires 0 < |toks| && toks[0] == Item(Number, "2") && out == [] && stack == []
    ensures ConvertFrom(toks, 0, out, stack) == ConvertFrom(toks, 1, [Numeric("2", Finite(2.0))], [])
  {
    NumberConv(toks, 0, out, stack, '2');
    assert out + [Numeric("2", Finite(2.0))] == [Numeric("2", Finite(2.0))];
  }

  lemma LexErrorStep1(toks: seq<Item>)
    requires 1 < |toks| && toks[1] == Item(Addition, "+")
    ensures ConvertFrom(toks, 1, [Numeric("2", Finite(2.0))], []) == ConvertFrom(toks, 2, [Numeric("2", Finite(2.0))], [Item(Addition, "+")])
  {
    PushConv(toks, 1, [Numeric("2", Finite(2.0))], []);
    assert [] + [Item(Addition, "+")] == [Item(Addition, "+")];
  }

  lemma LexErrorLast(toks: seq<Item>)
    requires 2 < |toks| && toks[2] == Item(Error, "invalid rune at: 4; could not lex: 2..")
    ensures ConvertFrom(toks, 2, [Numeric("2", Finite(2.0))], [Item(Addition, "+")]) == Failure(NewParsingError("invalid rune at: 4; could not lex: 2.."))
  {
    ErrorConv(toks, 2, [Numeric("2", Finite(2.0))], [Item(Addition, "+")]);
  }

  lemma LexErrorConverted(toks: seq<Item>)
    requires LexErrorTokens(toks)
    ensures ConvertFrom(toks, 0, [], []) == Failure(NewParsingError("invalid rune at: 4; could not lex: 2.."))
  {
    LexErrorStep0(toks, [], []);
    LexErrorStep1(toks);
    LexErrorLast(toks);
  }

  /** postfixparser_test.go:41-46: the lexer's Error item ends the conversion with a ParsingError carrying its text. */
  lemma LexErrorParsed(s: string)
    requires s == LexError
    ensures Convert(Scan(s)) == Failure(NewParsingError("invalid rune at: 4; could not lex: 2.."))
  {
    LexErrorTextHolds(s);
    LexErrorScanned(s);
    LexErrorConverted(Scan(s));
  }

  const Unclosed := "2+(2*3*5"

  /** `s` holds the characters of `Unclosed`. */
  predicate UnclosedText(s: string) {
    |s| == |Unclosed| && forall i :: 0 <= i < |s| ==> s[i] == Unclosed[i]
  }

  /** The items `Scan` gives for `Unclosed`. */
  function UnclosedItems(): seq<Item> {
    [Item(Number, "2"), Item(Addition, "+"), Item(LeftParenthesis, "("), Item(Number, "2"), Item(Multiplication, "*"), Item(Number, "3"), Item(Multiplication, "*"), Item(Number, "5")]
  }

  lemma UnclosedScan0(s: string)
    requires UnclosedText(s) && ScanFrom(s, 1) == UnclosedItems()[1..]
    ensures ScanFrom(s, 0) == UnclosedItems()[0..]
  {
    assert NumberRun(s, 1, 0) == RunEnd(1);
    NumberStep(s, 0, 1);
    assert s[0..1] == "2";
    assert UnclosedItems()[0..] == [UnclosedItems()[0]] + UnclosedItems()[1..];
  }

  lemma UnclosedScan1(s: string)
    requires UnclosedText(s) && ScanFrom(s, 2) == UnclosedItems()[2..]
    ensures ScanFrom(s, 1) == UnclosedItems()[1..]
  {
    CharStep(s, 1);
    assert UnclosedItems()[1..] == [UnclosedItems()[1]] + UnclosedItems()[2..];
  }

  lemma UnclosedScan2(s: string)
    requires UnclosedText(s) && ScanFrom(s, 3) == UnclosedItems()[3..]
    ensures ScanFrom(s, 2) == UnclosedItems()[2..]
  {
    CharStep(s, 2);
    assert UnclosedItems()[2..] == [UnclosedItems()[2]] + UnclosedItems()[3..];
  }

  lemma UnclosedScan3(s: string)
    requires UnclosedText(s) && ScanFrom(s, 4) == UnclosedItems()[4..]
    ensures ScanFrom(s, 3) == UnclosedItems()[3..]
  {
    assert NumberRun(s, 4, 0) == RunEnd(4);
    NumberStep(s, 3, 4);
    assert s[3..4] == "2";
    assert UnclosedItems()[3..] == [UnclosedItems()[3]] + UnclosedItems()[4..];
  }

  lemma UnclosedScan4(s: string)
    requires UnclosedText(s) && ScanFrom(s, 5) == UnclosedItems()[5..]
    ensures ScanFrom(s, 4) == UnclosedItems()[4..]
  {
    CharStep(s, 4);
    assert UnclosedItems()[4..] == [UnclosedItems()[4]] + UnclosedItems()[5..];
  }

  lemma UnclosedScan5(s: string)
    requires UnclosedText(s) && ScanFrom(s, 6) == UnclosedItems()[6..]
    ensures ScanFrom(s, 5) == UnclosedItems()[5..]
  {
    assert NumberRun(s, 6, 0) == RunEnd(6);
    NumberStep(s, 5, 6);
    assert s[5..6] == "3";
    assert UnclosedItems()[5..] == [UnclosedItems()[5]] + UnclosedItems()[6..];
  }

  lemma UnclosedScan6(s: string)
    requires UnclosedText(s) && ScanFrom(s, 7) == UnclosedItems()[7..]
    ensures ScanFrom(s, 6) == UnclosedItems()[6..]
  {
    CharStep(s, 6);
    assert UnclosedItems()[6..] == [UnclosedItems()[6]] + UnclosedItems()[7..];
  }

  lemma UnclosedScan7(s: string)
    requires UnclosedText(s) && ScanFrom(s, 8) == UnclosedItems()[8..]
    ensures ScanFrom(s, 7) == UnclosedItems()[7..]
  {
    assert NumberRun(s, 8, 0) == RunEnd(8);
    NumberStep(s, 7, 8);
    assert s[7..8] == "5";
    assert UnclosedItems()[7..] == [UnclosedItems()[7]] + UnclosedItems()[8..];
  }

  lemma UnclosedScanItems(s: string)
    requires UnclosedText(s)
    ensures ScanFrom(s, 0) == UnclosedItems()
  {
    assert ScanFrom(s, 8) == UnclosedItems()[8..];
    UnclosedScan7(s);
    UnclosedScan6(s);
    UnclosedScan5(s);
    UnclosedScan4(s);
    UnclosedScan3(s);
    UnclosedScan2(s);
    UnclosedScan1(s);
    UnclosedScan0(s);
  }

  /** The items `Scan` gives for `Unclosed`, one by one. */
  predicate UnclosedTokens(toks: seq<Item>) {
    && |toks| == 8
    && toks[0] == Item(Number, "2")
    && toks[1] == Item(Addition, "+")
    && toks[2] == Item(LeftParenthesis, "(")
    && toks[3] == Item(Number, "2")
    && toks[4] == Item(Multiplication, "*")
    && toks[5] == Item(Number, "3")
    && toks[6] == Item(Multiplication, "*")
    && toks[7] == Item(Number, "5")
  }

  lemma UnclosedTextHolds(s: string)
    requires s == Unclosed
    ensures UnclosedText(s)
  {
  }

  lemma UnclosedScanned(s: string)
    requires UnclosedText(s)
    ensures UnclosedTokens(Scan(s))
  {
    UnclosedScanItems(s);
  }

  lemma UnclosedStep0(toks: seq<Item>, out: seq<RpnItem>, stack: seq<Item>)
    requires 0 < |toks| && toks[0] == Item(Number, "2") && out == [] && stack == []
    ensures ConvertFrom(toks, 0, out, stack) == ConvertFrom(toks, 1, [Numeric("2", Finite(2.0))], [])
  {
    NumberConv(toks, 0, out, stack, '2');
    assert out + [Numeric("2", Finite(2.0))] == [Numeric("2", Finite(2.0))];
  }

  lemma UnclosedStep1(toks: seq<Item>)
    requires 1 < |toks| && toks[1] == Item(Addition, "+")
    ensures ConvertFrom(toks, 1, [Numeric("2", Finite(2.0))], []) == ConvertFrom(toks, 2, [Numeric("2", Finite(2.0))], [Item(Addition, "+")])
  {
    PushConv(toks, 1, [Numeric("2", Finite(2.0))], []);
    assert [] + [Item(Addition, "+")] == [Item(Addition, "+")];
  }

  lemma UnclosedStep2(toks: seq<Item>)
    requires 2 < |toks| && toks[2] == Item(LeftParenthesis, "(")
    ensures ConvertFrom(toks, 2, [Numeric("2", Finite(2.0))], [Item(Addition, "+")]) == ConvertFrom(toks, 3, [Numeric("2", Finite(2.0))], [Item(Addition, "+"), Item(LeftParenthesis, "(")])
  {
    LeftConv(toks, 2, [Numeric("2", Finite(2.0))], [Item(Addition, "+")]);
    assert [Item(Addition, "+")] + [Item(LeftParenthesis, "(")] == [Item(Addition, "+"), Item(LeftParenthesis, "(")];
  }

  lemma UnclosedStep3(toks: seq<Item>)
    requires 3 < |toks| && toks[3] == Item(Number, "2")
    ensures ConvertFrom(toks, 3, [Numeric("2", Finite(2.0))], [Item(Addition, "+"), Item(LeftParenthesis, "(")]) == ConvertFrom(toks, 4, [Numeric("2", Finite(2.0)), Numeric("2", Finite(2.0))], [Item(Addition, "+"), Item(LeftParenthesis, "(")])
  {
    NumberConv(toks, 3, [Numeric("2", Finite(2.0))], [Item(Addition, "+"), Item(LeftParenthesis, "(")], '2');
    assert [Numeric("2", Finite(2.0))] + [Numeric("2", Finite(2.0))] == [Numeric("2", Finite(2.0)), Numeric("2", Finite(2.0))];
  }

  lemma UnclosedStep4(toks: seq<Item>)
    requires 4 < |toks| && toks[4] == Item(Multiplication, "*")
    ensures ConvertFrom(toks, 4, [Numeric("2", Finite(2.0)), Numeric("2", Finite(2.0))], [Item(Addition, "+"), Item(LeftParenthesis, "(")]) == ConvertFrom(toks, 5, [Numeric("2", Finite(2.0)), Numeric("2", Finite(2.0))], [Item(Addition, "+"), Item(LeftParenthesis, "("), Item(Multiplication, "*")])
  {
    PushConv(toks, 4, [Numeric("2", Finite(2.0)), Numeric("2", Finite(2.0))], [Item(Addition, "+"), Item(LeftParenthesis, "(")]);
    assert [Item(Addition, "+"), Item(LeftParenthesis, "(")] + [Item(Multiplication, "*")] == [Item(Addition, "+"), Item(LeftParenthesis, "("), Item(Multiplication, "*")];
  }

  lemma UnclosedStep5(toks: seq<Item>)
    requires 5 < |toks| && toks[5] == Item(Number, "3")
    ensures ConvertFrom(toks, 5, [Numeric("2", Finite(2.0)), Numeric("2", Finite(2.0))], [Item(Addition, "+"), Item(LeftParenthesis, "("), Item(Multiplication, "*")]) == ConvertFrom(toks, 6, [Numeric("2", Finite(2.0)), Numeric("2", Finite(2.0)), Numeric("3", Finite(3.0))], [Item(Addition, "+"), Item(LeftParenthesis, "("), Item(Multiplication, "*")])
  {
    NumberConv(toks, 5, [Numeric("2", Finite(2.0)), Numeric("2", Finite(2.0))], [Item(Addition, "+"), Item(LeftParenthesis, "("), Item(Multiplication, "*")], '3');
    assert [Numeric("2", Finite(2.0)), Numeric("2", Finite(2.0))] + [Numeric("3", Finite(3.0))] == [Numeric("2", Finite(2.0)), Numeric("2", Finite(2.0)), Numeric("3", Finite(3.0))];
  }

  lemma UnclosedStep6(toks: seq<Item>)
    requires 6 < |toks| && toks[6] == Item(Multiplication, "*")
    ensures ConvertFrom(toks, 6, [Numeric("2", Finite(2.0)), Numeric("2", Finite(2.0)), Numeric("3", Finite(3.0))], [Item(Addition, "+"), Item(LeftParenthesis, "("), Item(Multiplication, "*")]) == ConvertFrom(toks, 7, [Numeric("2", Finite(2.0)), Numeric("2", Finite(2.0)), Numeric("3", Finite(3.0)), Plain(Item(Multiplication, "*"))], [Item(Addition, "+"), Item(LeftParenthesis, "("), Item(Multiplication, "*")])
  {
    assert Top([Item(Addition, "+"), Item(LeftParenthesis, "("), Item(Multiplication, "*")]) == Item(Multiplication, "*") && Popped([Item(Addition, "+"), Item(LeftParenthesis, "("), Item(Multiplication, "*")]) == [Item(Addition, "+"), Item(LeftParenthesis, "(")];
    PopPushConv(toks, 6, [Numeric("2", Finite(2.0)), Numeric("2", Finite(2.0)), Numeric("3", Finite(3.0))], [Item(Addition, "+"), Item(LeftParenthesis, "("), Item(Multiplication, "*")]);
    assert [Numeric("2", Finite(2.0)), Numeric("2", Finite(2.0)), Numeric("3", Finite(3.0))] + [Plain(Item(Multiplication, "*"))] == [Numeric("2", Finite(2.0)), Numeric("2", Finite(2.0)), Numeric("3", Finite(3.0)), Plain(Item(Multiplication, "*"))];
    assert [Item(Addition, "+"), Item(LeftParenthesis, "(")] + [Item(Multiplication, "*")] == [Item(Addition, "+"), Item(LeftParenthesis, "("), Item(Multiplication, "*")];
  }

  lemma UnclosedStep7(toks: seq<Item>)
    requires 7 < |toks| && toks[7] == Item(Number, "5")
    ensures ConvertFrom(toks, 7, [Numeric("2", Finite(2.0)), Numeric("2", Finite(2.0)), Numeric("3", Finite(3.0)), Plain(Item(Multiplication, "*"))], [Item(Addition, "+"), Item(LeftParenthesis, "("), Item(Multiplication, "*")]) == ConvertFrom(toks, 8, [Numeric("2", Finite(2.0)), Numeric("2", Finite(2.0)), Numeric("3", Finite(3.0)), Plain(Item(Multiplication, "*")), Numeric("5", Finite(5.0))], [Item(Addition, "+"), Item(LeftParenthesis, "("), Item(Multiplication, "*")])
  {
    NumberConv(toks, 7, [Numeric("2", Finite(2.0)), Numeric("2", Finite(2.0)), Numeric("3", Finite(3.0)), Plain(Item(Multiplication, "*"))], [Item(Addition, "+"), Item(LeftParenthesis, "("), Item(Multiplication, "*")], '5');
    assert [Numeric("2", Finite(2.0)), Numeric("2", Finite(2.0)), Numeric("3", Finite(3.0)), Plain(Item(Multiplication, "*"))] + [Numeric("5", Finite(5.0))] == [Numeric("2", Finite(2.0)), Numeric("2", Finite(2.0)), Numeric("3", Finite(3.0)), Plain(Item(Multiplication, "*")), Numeric("5", Finite(5.0))];
  }

  lemma UnclosedLast(toks: seq<Item>)
    requires |toks| == 8
    ensures ConvertFrom(toks, 8, [Numeric("2", Finite(2.0)), Numeric("2", Finite(2.0)), Numeric("3", Finite(3.0)), Plain(Item(Multiplication, "*")), Numeric("5", Finite(5.0))], [Item(Addition, "+"), Item(LeftParenthesis, "("), Item(Multiplication, "*")]) == Failure(NewParsingError("mismatched parantheses"))
  {
    assert ConvertFrom(toks, 8, [Numeric("2", Finite(2.0)), Numeric("2", Finite(2.0)), Numeric("3", Finite(3.0)), Plain(Item(Multiplication, "*")), Numeric("5", Finite(5.0))], [Item(Addition, "+"), Item(LeftParenthesis, "("), Item(Multiplication, "*")]) == Drain([Numeric("2", Finite(2.0)), Numeric("2", Finite(2.0)), Numeric("3", Finite(3.0)), Plain(Item(Multiplication, "*")), Numeric("5", Finite(5.0))], [Item(Addition, "+"), Item(LeftParenthesis, "("), Item(Multiplication, "*")]);
    assert Top([Item(Addition, "+"), Item(LeftParenthesis, "("), Item(Multiplication, "*")]) == Item(Multiplication, "*") && Popped([Item(Addition, "+"), Item(LeftParenthesis, "("), Item(Multiplication, "*")]) == [Item(Addition, "+"), Item(LeftParenthesis, "(")];
    assert [Numeric("2", Finite(2.0)), Numeric("2", Finite(2.0)), Numeric("3", Finite(3.0)), Plain(Item(Multiplication, "*")), Numeric("5", Finite(5.0))] + [Plain(Item(Multiplication, "*"))] == [Numeric("2", Finite(2.0)), Numeric("2", Finite(2.0)), Numeric("3", Finite(3.0)), Plain(Item(Multiplication, "*")), Numeric("5", Finite(5.0)), Plain(Item(Multiplication, "*"))];
    assert Drain([Numeric("2", Finite(2.0)), Numeric("2", Finite(2.0)), Numeric("3", Finite(3.0)), Plain(Item(Multiplication, "*")), Numeric("5", Finite(5.0))], [Item(Addition, "+"), Item(LeftParenthesis, "("), Item(Multiplication, "*")]) == Drain([Numeric("2", Finite(2.0)), Numeric("2", Finite(2.0)), Numeric("3", Finite(3.0)), Plain(Item(Multiplication, "*")), Numeric("5", Finite(5.0)), Plain(Item(Multiplication, "*"))], [Item(Addition, "+"), Item(LeftParenthesis, "(")]);
    assert Top([Item(Addition, "+"), Item(LeftParenthesis, "(")]) == Item(LeftParenthesis, "(");
  }

  lemma UnclosedConverted(toks: seq<Item>)
    requires UnclosedTokens(toks)
    ensures ConvertFrom(toks, 0, [], []) == Failure(NewParsingError("mismatched parantheses"))
  {
    UnclosedStep0(toks, [], []);
    UnclosedStep1(toks);
    UnclosedStep2(toks);
    UnclosedStep3(toks);
    UnclosedStep4(toks);
    UnclosedStep5(toks);
    UnclosedStep6(toks);
    UnclosedStep7(toks);
    UnclosedLast(toks);
  }

  /** postfixparser_test.go:47-52: a `(` left on the stack at the end is a mismatch. */
  lemma UnclosedParsed(s: string)
    requires s == Unclosed
    ensures Convert(Scan(s)) == Failure(NewParsingError("mismatched parantheses"))
  {
    UnclosedTextHolds(s);
    UnclosedScanned(s);
    UnclosedConverted(Scan(s));
  }

  const Unopened := "2+(2*3*5))"

  /** `s` holds the characters of `Unopened`. */
  predicate UnopenedText(s: string) {
    |s| == |Unopened| && forall i :: 0 <= i < |s| ==> s[i] == Unopened[i]
  }

  /** The items `Scan` gives for `Unopened`. */
  function UnopenedItems(): seq<Item> {
    [Item(Number, "2"), Item(Addition, "+"), Item(LeftParenthesis, "("), Item(Number, "2"), Item(Multiplication, "*"), Item(Number, "3"), Item(Multiplication, "*"), Item(Number, "5"), Item(RightParenthesis, ")"), Item(RightParenthesis, ")")]
  }

  lemma UnopenedScan0(s: string)
    requires UnopenedText(s) && ScanFrom(s, 1) == UnopenedItems()[1..]
    ensures ScanFrom(s, 0) == UnopenedItems()[0..]
  {
    assert NumberRun(s, 1, 0) == RunEnd(1);
    NumberStep(s, 0, 1);
    assert s[0..1] == "2";
    assert UnopenedItems()[0..] == [UnopenedItems()[0]] + UnopenedItems()[1..];
  }

  lemma UnopenedScan1(s: string)
    requires UnopenedText(s) && ScanFrom(s, 2) == UnopenedItems()[2..]
    ensures ScanFrom(s, 1) == UnopenedItems()[1..]
  {
    CharStep(s, 1);
    assert UnopenedItems()[1..] == [UnopenedItems()[1]] + UnopenedItems()[2..];
  }

  lemma UnopenedScan2(s: string)
    requires UnopenedText(s) && ScanFrom(s, 3) == UnopenedItems()[3..]
    ensures ScanFrom(s, 2) == UnopenedItems()[2..]
  {
    CharStep(s, 2);
    assert UnopenedItems()[2..] == [UnopenedItems()[2]] + UnopenedItems()[3..];
  }

  lemma UnopenedScan3(s: string)
    requires UnopenedText(s) && ScanFrom(s, 4) == UnopenedItems()[4..]
    ensures ScanFrom(s, 3) == UnopenedItems()[3..]
  {
    assert NumberRun(s, 4, 0) == RunEnd(4);
    NumberStep(s, 3, 4);
    assert s[3..4] == "2";
    assert UnopenedItems()[3..] == [UnopenedItems()[3]] + UnopenedItems()[4..];
  }

  lemma UnopenedScan4(s: string)
    requires UnopenedText(s) && ScanFrom(s, 5) == UnopenedItems()[5..]
    ensures ScanFrom(s, 4) == UnopenedItems()[4..]
  {
    CharStep(s, 4);
    assert UnopenedItems()[4..] == [UnopenedItems()[4]] + UnopenedItems()[5..];
  }

  lemma UnopenedScan5(s: string)
    requires UnopenedText(s) && ScanFrom(s, 6) == UnopenedItems()[6..]
    ensures ScanFrom(s, 5) == UnopenedItems()[5..]
  {
    assert NumberRun(s, 6, 0) == RunEnd(6);
    NumberStep(s, 5, 6);
    assert s[5..6] == "3";
    assert UnopenedItems()[5..] == [UnopenedItems()[5]] + UnopenedItems()[6..];
  }

  lemma UnopenedScan6(s: string)
    requires UnopenedText(s) && ScanFrom(s, 7) == UnopenedItems()[7..]
    ensures ScanFrom(s, 6) == UnopenedItems()[6..]
  {
    CharStep(s, 6);
    assert UnopenedItems()[6..] == [UnopenedItems()[6]] + UnopenedItems()[7..];
  }

  lemma UnopenedScan7(s: string)
    requires UnopenedText(s) && ScanFrom(s, 8) == UnopenedItems()[8..]
    ensures ScanFrom(s, 7) == UnopenedItems()[7..]
  {
    assert NumberRun(s, 8, 0) == RunEnd(8);
    NumberStep(s, 7, 8);
    assert s[7..8] == "5";
    assert UnopenedItems()[7..] == [UnopenedItems()[7]] + UnopenedItems()[8..];
  }

  lemma UnopenedScan8(s: string)
    requires UnopenedText(s) && ScanFrom(s, 9) == UnopenedItems()[9..]
    ensures ScanFrom(s, 8) == UnopenedItems()[8..]
  {
    CharStep(s, 8);
    assert UnopenedItems()[8..] == [UnopenedItems()[8]] + UnopenedItems()[9..];
  }

  lemma UnopenedScan9(s: string)
    requires UnopenedText(s) && ScanFrom(s, 10) == UnopenedItems()[10..]
    ensures ScanFrom(s, 9) == UnopenedItems()[9..]
  {
    CharStep(s, 9);
    assert UnopenedItems()[9..] == [UnopenedItems()[9]] + UnopenedItems()[10..];
  }

  lemma UnopenedScanItems(s: string)
    requires UnopenedText(s)
    ensures ScanFrom(s, 0) == UnopenedItems()
  {
    assert ScanFrom(s, 10) == UnopenedItems()[10..];
    UnopenedScan9(s);
    UnopenedScan8(s);
    UnopenedScan7(s);
    UnopenedScan6(s);
    UnopenedScan5(s);
    UnopenedScan4(s);
    UnopenedScan3(s);
    UnopenedScan2(s);
    UnopenedScan1(s);
    UnopenedScan0(s);
  }

  /** The items `Scan` gives for `Unopened`, one by one. */
  predicate UnopenedTokens(toks: seq<Item>) {
    && |toks| == 10
    && toks[0] == Item(Number, "2")
    && toks[1] == Item(Addition, "+")
    && toks[2] == Item(LeftParenthesis, "(")
    && toks[3] == Item(Number, "2")
    && toks[4] == Item(Multiplication, "*")
    && toks[5] == Item(Number, "3")
    && toks[6] == Item(Multiplication, "*")
    && toks[7] == Item(Number, "5")
    && toks[8] == Item(RightParenthesis, ")")
    && toks[9] == Item(RightParenthesis, ")")
  }

  lemma UnopenedTextHolds(s: string)
    requires s == Unopened
    ensures UnopenedText(s)
  {
  }

  lemma UnopenedScanned(s: string)
    requires UnopenedText(s)
    ensures UnopenedTokens(Scan(s))
  {
    UnopenedScanItems(s);
  }

  lemma UnopenedStep0(toks: seq<Item>, out: seq<RpnItem>, stack: seq<Item>)
    requires 0 < |toks| && toks[0] == Item(Number, "2") && out == [] && stack == []
    ensures ConvertFrom(toks, 0, out, stack) == ConvertFrom(toks, 1, [Numeric("2", Finite(2.0))], [])
  {
    NumberConv(toks, 0, out, stack, '2');
    assert out + [Numeric("2", Finite(2.0))] == [Numeric("2", Finite(2.0))];
  }

  lemma UnopenedStep1(toks: seq<Item>)
    requires 1 < |toks| && toks[1] == Item(Addition, "+")
    ensures ConvertFrom(toks, 1, [Numeric("2", Finite(2.0))], []) == ConvertFrom(toks, 2, [Numeric("2", Finite(2.0))], [Item(Addition, "+")])
  {
    PushConv(toks, 1, [Numeric("2", Finite(2.0))], []);
    assert [] + [Item(Addition, "+")] == [Item(Addition, "+")];
  }

  lemma UnopenedStep2(toks: seq<Item>)
    requires 2 < |toks| && toks[2] == Item(LeftParenthesis, "(")
    ensures ConvertFrom(toks, 2, [Numeric("2", Finite(2.0))], [Item(Addition, "+")]) == ConvertFrom(toks, 3, [Numeric("2", Finite(2.0))], [Item(Addition, "+"), Item(LeftParenthesis, "(")])
  {
    LeftConv(toks, 2, [Numeric("2", Finite(2.0))], [Item(Addition, "+")]);
    assert [Item(Addition, "+")] + [Item(LeftParenthesis, "(")] == [Item(Addition, "+"), Item(LeftParenthesis, "(")];
  }

  lemma UnopenedStep3(toks: seq<Item>)
    requires 3 < |toks| && toks[3] == Item(Number, "2")
    ensures ConvertFrom(toks, 3, [Numeric("2", Finite(2.0))], [Item(Addition, "+"), Item(LeftParenthesis, "(")]) == ConvertFrom(toks, 4, [Numeric("2", Finite(2.0)), Numeric("2", Finite(2.0))], [Item(Addition, "+"), Item(LeftParenthesis, "(")])
  {
    NumberConv(toks, 3, [Numeric("2", Finite(2.0))], [Item(Addition, "+"), Item(LeftParenthesis, "(")], '2');
    assert [Numeric("2", Finite(2.0))] + [Numeric("2", Finite(2.0))] == [Numeric("2", Finite(2.0)), Numeric("2", Finite(2.0))];
  }

  lemma UnopenedStep4(toks: seq<Item>)
    requires 4 < |toks| && toks[4] == Item(Multiplication, "*")
    ensures ConvertFrom(toks, 4, [Numeric("2", Finite(2.0)), Numeric("2", Finite(2.0))], [Item(Addition, "+"), Item(LeftParenthesis, "(")]) == ConvertFrom(toks, 5, [Numeric("2", Finite(2.0)), Numeric("2", Finite(2.0))], [Item(Addition, "+"), Item(LeftParenthesis, "("), Item(Multiplication, "*")])
  {
    PushConv(toks, 4, [Numeric("2", Finite(2.0)), Numeric("2", Finite(2.0))], [Item(Addition, "+"), Item(LeftParenthesis, "(")]);
    assert [Item(Addition, "+"), Item(LeftParenthesis, "(")] + [Item(Multiplication, "*")] == [Item(Addition, "+"), Item(LeftParenthesis, "("), Item(Multiplication, "*")];
  }

  lemma UnopenedStep5(toks: seq<Item>)
    requires 5 < |toks| && toks[5] == Item(Number, "3")
    ensures ConvertFrom(toks, 5, [Numeric("2", Finite(2.0)), Numeric("2", Finite(2.0))], [Item(Addition, "+"), Item(LeftParenthesis, "("), Item(Multiplication, "*")]) == ConvertFrom(toks, 6, [Numeric("2", Finite(2.0)), Numeric("2", Finite(2.0)), Numeric("3", Finite(3.0))], [Item(Addition, "+"), Item(LeftParenthesis, "("), Item(Multiplication, "*")])
  {
    NumberConv(toks, 5, [Numeric("2", Finite(2.0)), Numeric("2", Finite(2.0))], [Item(Addition, "+"), Item(LeftParenthesis, "("), Item(Multiplication, "*")], '3');
    assert [Numeric("2", Finite(2.0)), Numeric("2", Finite(2.0))] + [Numeric("3", Finite(3.0))] == [Numeric("2", Finite(2.0)), Numeric("2", Finite(2.0)), Numeric("3", Finite(3.0))];
  }

  lemma UnopenedStep6(toks: seq<Item>)
    requires 6 < |toks| && toks[6] == Item(Multiplication, "*")
    ensures ConvertFrom(toks, 6, [Numeric("2", Finite(2.0)), Numeric("2", Finite(2.0)), Numeric("3", Finite(3.0))], [Item(Addition, "+"), Item(LeftParenthesis, "("), Item(Multiplication, "*")]) == ConvertFrom(toks, 7, [Numeric("2", Finite(2.0)), Numeric("2", Finite(2.0)), Numeric("3", Finite(3.0)), Plain(Item(Multiplication, "*"))], [Item(Addition, "+"), Item(LeftParenthesis, "("), Item(Multiplication, "*")])
  {
    assert Top([Item(Addition, "+"), Item(LeftParenthesis, "("), Item(Multiplication, "*")]) == Item(Multiplication, "*") && Popped([Item(Addition, "+"), Item(LeftParenthesis, "("), Item(Multiplication, "*")]) == [Item(Addition, "+"), Item(LeftParenthesis, "(")];
    PopPushConv(toks, 6, [Numeric("2", Finite(2.0)), Numeric("2", Finite(2.0)), Numeric("3", Finite(3.0))], [Item(Addition, "+"), Item(LeftParenthesis, "("), Item(Multiplication, "*")]);
    assert [Numeric("2", Finite(2.0)), Numeric("2", Finite(2.0)), Numeric("3", Finite(3.0))] + [Plain(Item(Multiplication, "*"))] == [Numeric("2", Finite(2.0)), Numeric("2", Finite(2.0)), Numeric("3", Finite(3.0)), Plain(Item(Multiplication, "*"))];
    assert [Item(Addition, "+"), Item(LeftParenthesis, "(")] + [Item(Multiplication, "*")] == [Item(Addition, "+"), Item(LeftParenthesis, "("), Item(Multiplication, "*")];
  }

  lemma UnopenedStep7(toks: seq<Item>)
    requires 7 < |toks| && toks[7] == Item(Number, "5")
    ensures ConvertFrom(toks, 7, [Numeric("2", Finite(2.0)), Numeric("2", Finite(2.0)), Numeric("3", Finite(3.0)), Plain(Item(Multiplication, "*"))], [Item(Addition, "+"), Item(LeftParenthesis, "("), Item(Multiplication, "*")]) == ConvertFrom(toks, 8, [Numeric("2", Finite(2.0)), Numeric("2", Finite(2.0)), Numeric("3", Finite(3.0)), Plain(Item(Multiplication, "*")), Numeric("5", Finite(5.0))], [Item(Addition, "+"), Item(LeftParenthesis, "("), Item(Multiplication, "*")])
  {
    NumberConv(toks, 7, [Numeric("2", Finite(2.0)), Numeric("2", Finite(2.0)), Numeric("3", Finite(3.0)), Plain(Item(Multiplication, "*"))], [Item(Addition, "+"), Item(LeftParenthesis, "("), Item(Multiplication, "*")], '5');
    assert [Numeric("2", Finite(2.0)), Numeric("2", Finite(2.0)), Numeric("3", Finite(3.0)), Plain(Item(Multiplication, "*"))] + [Numeric("5", Finite(5.0))] == [Numeric("2", Finite(2.0)), Numeric("2", Finite(2.0)), Numeric("3", Finite(3.0)), Plain(Item(Multiplication, "*")), Numeric("5", Finite(5.0))];
  }

  lemma UnopenedStep8(toks: seq<Item>)
    requires 8 < |toks| && toks[8] == Item(RightParenthesis, ")")
    ensures ConvertFrom(toks, 8, [Numeric("2", Finite(2.0)), Numeric("2", Finite(2.0)), Numeric("3", Finite(3.0)), Plain(Item(Multiplication, "*")), Numeric("5", Finite(5.0))], [Item(Addition, "+"), Item(LeftParenthesis, "("), Item(Multiplication, "*")]) == ConvertFrom(toks, 9, [Numeric("2", Finite(2.0)), Numeric("2", Finite(2.0)), Numeric("3", Finite(3.0)), Plain(Item(Multiplication, "*")), Numeric("5", Finite(5.0)), Plain(Item(Multiplication, "*"))], [Item(Addition, "+")])
  {
    RightConv(toks, 8, [Numeric("2", Finite(2.0)), Numeric("2", Finite(2.0)), Numeric("3", Finite(3.0)), Plain(Item(Multiplication, "*")), Numeric("5", Finite(5.0))], [Item(Addition, "+"), Item(LeftParenthesis, "("), Item(Multiplication, "*")]);
    assert Top([Item(Addition, "+"), Item(LeftParenthesis, "("), Item(Multiplication, "*")]) == Item(Multiplication, "*") && Popped([Item(Addition, "+"), Item(LeftParenthesis, "("), Item(Multiplication, "*")]) == [Item(Addition, "+"), Item(LeftParenthesis, "(")];
    assert [Numeric("2", Finite(2.0)), Numeric("2", Finite(2.0)), Numeric("3", Finite(3.0)), Plain(Item(Multiplication, "*")), Numeric("5", Finite(5.0))] + [Plain(Item(Multiplication, "*"))] == [Numeric("2", Finite(2.0)), Numeric("2", Finite(2.0)), Numeric("3", Finite(3.0)), Plain(Item(Multiplication, "*")), Numeric("5", Finite(5.0)), Plain(Item(Multiplication, "*"))];
    assert PopToLeft([Numeric("2", Finite(2.0)), Numeric("2", Finite(2.0)), Numeric("3", Finite(3.0)), Plain(Item(Multiplication, "*")), Numeric("5", Finite(5.0))], [Item(Addition, "+"), Item(LeftParenthesis, "("), Item(Multiplication, "*")]) == PopToLeft([Numeric("2", Finite(2.0)), Numeric("2", Finite(2.0)), Numeric("3", Finite(3.0)), Plain(Item(Multiplication, "*")), Numeric("5", Finite(5.0)), Plain(Item(Multiplication, "*"))], [Item(Addition, "+"), Item(LeftParenthesis, "(")]);
    assert Top([Item(Addition, "+"), Item(LeftParenthesis, "(")]) == Item(LeftParenthesis, "(") && Popped([Item(Addition, "+"), Item(LeftParenthesis, "(")]) == [Item(Addition, "+")];
  }

  lemma UnopenedLast(toks: seq<Item>)
    requires 9 < |toks| && toks[9] == Item(RightParenthesis, ")")
    ensures ConvertFrom(toks, 9, [Numeric("2", Finite(2.0)), Numeric("2", Finite(2.0)), Numeric("3", Finite(3.0)), Plain(Item(Multiplication, "*")), Numeric("5", Finite(5.0)), Plain(Item(Multiplication, "*"))], [Item(Addition, "+")]) == Failure(NewParsingError("mismatched parantheses"))
  {
    RightConv(toks, 9, [Numeric("2", Finite(2.0)), Numeric("2", Finite(2.0)), Numeric("3", Finite(3.0)), Plain(Item(Multiplication, "*")), Numeric("5", Finite(5.0)), Plain(Item(Multiplication, "*"))], [Item(Addition, "+")]);
    assert Top([Item(Addition, "+")]) == Item(Addition, "+") && Popped([Item(Addition, "+")]) == [];
    assert [Numeric("2", Finite(2.0)), Numeric("2", Finite(2.0)), Numeric("3", Finite(3.0)), Plain(Item(Multiplication, "*")), Numeric("5", Finite(5.0)), Plain(Item(Multiplication, "*"))] + [Plain(Item(Addition, "+"))] == [Numeric("2", Finite(2.0)), Numeric("2", Finite(2.0)), Numeric("3", Finite(3.0)), Plain(Item(Multiplication, "*")), Numeric("5", Finite(5.0)), Plain(Item(Multiplication, "*")), Plain(Item(Addition, "+"))];
    assert PopToLeft([Numeric("2", Finite(2.0)), Numeric("2", Finite(2.0)), Numeric("3", Finite(3.0)), Plain(Item(Multiplication, "*")), Numeric("5", Finite(5.0)), Plain(Item(Multiplication, "*"))], [Item(Addition, "+")]) == PopToLeft([Numeric("2", Finite(2.0)), Numeric("2", Finite(2.0)), Numeric("3", Finite(3.0)), Plain(Item(Multiplication, "*")), Numeric("5", Finite(5.0)), Plain(Item(Multiplication, "*")), Plain(Item(Addition, "+"))], []);
  }

  lemma UnopenedConverted(toks: seq<Item>)
    requires UnopenedTokens(toks)
    ensures ConvertFrom(toks, 0, [], []) == Failure(NewParsingError("mismatched parantheses"))
  {
    UnopenedStep0(toks, [], []);
    UnopenedStep1(toks);
    UnopenedStep2(toks);
    UnopenedStep3(toks);
    UnopenedStep4(toks);
    UnopenedStep5(toks);
    UnopenedStep6(toks);
    UnopenedStep7(toks);
    UnopenedStep8(toks);
    UnopenedLast(toks);
  }

  /** postfixparser_test.go:53-58: a `)` that finds the stack empty is a mismatch. */
  lemma UnopenedParsed(s: string)
    requires s == Unopened
    ensures Convert(Scan(s)) == Failure(NewParsingError("mismatched parantheses"))
  {
    UnopenedTextHolds(s);
    UnopenedScanned(s);
    UnopenedConverted(Scan(s));
  }

  const Mixed := "1-2*3+4"

  /** `s` holds the characters of `Mixed`. */
  predicate MixedText(s: string) {
    |s| == |Mixed| && forall i :: 0 <= i < |s| ==> s[i] == Mixed[i]
  }

  /** The items `Scan` gives for `Mixed`. */
  function MixedItems(): seq<Item> {
    [Item(Number, "1"), Item(Subtraction, "-"), Item(Number, "2"), Item(Multiplication, "*"), Item(Number, "3"), Item(Addition, "+"), Item(Number, "4")]
  }

  lemma MixedScan0(s: string)
    requires MixedText(s) && ScanFrom(s, 1) == MixedItems()[1..]
    ensures ScanFrom(s, 0) == MixedItems()[0..]
  {
    assert NumberRun(s, 1, 0) == RunEnd(1);
    NumberStep(s, 0, 1);
    assert s[0..1] == "1";
    assert MixedItems()[0..] == [MixedItems()[0]] + MixedItems()[1..];
  }

  lemma MixedScan1(s: string)
    requires MixedText(s) && ScanFrom(s, 2) == MixedItems()[2..]
    ensures ScanFrom(s, 1) == MixedItems()[1..]
  {
    CharStep(s, 1);
    assert MixedItems()[1..] == [MixedItems()[1]] + MixedItems()[2..];
  }

  lemma MixedScan2(s: string)
    requires MixedText(s) && ScanFrom(s, 3) == MixedItems()[3..]
    ensures ScanFrom(s, 2) == MixedItems()[2..]
  {
    assert NumberRun(s, 3, 0) == RunEnd(3);
    NumberStep(s, 2, 3);
    assert s[2..3] == "2";
    assert MixedItems()[2..] == [MixedItems()[2]] + MixedItems()[3..];
  }

  lemma MixedScan3(s: string)
    requires MixedText(s) && ScanFrom(s, 4) == MixedItems()[4..]
    ensures ScanFrom(s, 3) == MixedItems()[3..]
  {
    CharStep(s, 3);
    assert MixedItems()[3..] == [MixedItems()[3]] + MixedItems()[4..];
  }

  lemma MixedScan4(s: string)
    requires MixedText(s) && ScanFrom(s, 5) == MixedItems()[5..]
    ensures ScanFrom(s, 4) == MixedItems()[4..]
  {
    assert NumberRun(s, 5, 0) == RunEnd(5);
    NumberStep(s, 4, 5);
    assert s[4..5] == "3";
    assert MixedItems()[4..] == [MixedItems()[4]] + MixedItems()[5..];
  }

  lemma MixedScan5(s: string)
    requires MixedText(s) && ScanFrom(s, 6) == MixedItems()[6..]
    ensures ScanFrom(s, 5) == MixedItems()[5..]
  {
    CharStep(s, 5);
    assert MixedItems()[5..] == [MixedItems()[5]] + MixedItems()[6..];
  }

  lemma MixedScan6(s: string)
    requires MixedText(s) && ScanFrom(s, 7) == MixedItems()[7..]
    ensures ScanFrom(s, 6) == MixedItems()[6..]
  {
    assert NumberRun(s, 7, 0) == RunEnd(7);
    NumberStep(s, 6, 7);
    assert s[6..7] == "4";
    assert MixedItems()[6..] == [MixedItems()[6]] + MixedItems()[7..];
  }

  lemma MixedScanItems(s: string)
    requires MixedText(s)
    ensures ScanFrom(s, 0) == MixedItems()
  {
    assert ScanFrom(s, 7) == MixedItems()[7..];
    MixedScan6(s);
    MixedScan5(s);
    MixedScan4(s);
    MixedScan3(s);
    MixedScan2(s);
    MixedScan1(s);
    MixedScan0(s);
  }

  /** The items `Scan` gives for `Mixed`, one by one. */
  predicate MixedTokens(toks: seq<Item>) {
    && |toks| == 7
    && toks[0] == Item(Number, "1")
    && toks[1] == Item(Subtraction, "-")
    && toks[2] == Item(Number, "2")
    && toks[3] == Item(Multiplication, "*")
    && toks[4] == Item(Number, "3")
    && toks[5] == Item(Addition, "+")
    && toks[6] == Item(Number, "4")
  }

  lemma MixedTextHolds(s: string)
    requires s == Mixed
    ensures MixedText(s)
  {
  }

  lemma MixedScanned(s: string)
    requires MixedText(s)
    ensures MixedTokens(Scan(s))
  {
    MixedScanItems(s);
  }

  lemma MixedStep0(toks: seq<Item>, out: seq<RpnItem>, stack: seq<Item>)
    requires 0 < |toks| && toks[0] == Item(Number, "1") && out == [] && stack == []
    ensures ConvertFrom(toks, 0, out, stack) == ConvertFrom(toks, 1, [Numeric("1", Finite(1.0))], [])
  {
    NumberConv(toks, 0, out, stack, '1');
    assert out + [Numeric("1", Finite(1.0))] == [Numeric("1", Finite(1.0))];
  }

  lemma MixedStep1(toks: seq<Item>)
    requires 1 < |toks| && toks[1] == Item(Subtraction, "-")
    ensures ConvertFrom(toks, 1, [Numeric("1", Finite(1.0))], []) == ConvertFrom(toks, 2, [Numeric("1", Finite(1.0))], [Item(Subtraction, "-")])
  {
    PushConv(toks, 1, [Numeric("1", Finite(1.0))], []);
    assert [] + [Item(Subtraction, "-")] == [Item(Subtraction, "-")];
  }

  lemma MixedStep2(toks: seq<Item>)
    requires 2 < |toks| && toks[2] == Item(Number, "2")
    ensures ConvertFrom(toks, 2, [Numeric("1", Finite(1.0))], [Item(Subtraction, "-")]) == ConvertFrom(toks, 3, [Numeric("1", Finite(1.0)), Numeric("2", Finite(2.0))], [Item(Subtraction, "-")])
  {
    NumberConv(toks, 2, [Numeric("1", Finite(1.0))], [Item(Subtraction, "-")], '2');
    assert [Numeric("1", Finite(1.0))] + [Numeric("2", Finite(2.0))] == [Numeric("1", Finite(1.0)), Numeric("2", Finite(2.0))];
  }

  lemma MixedStep3(toks: seq<Item>)
    requires 3 < |toks| && toks[3] == Item(Multiplication, "*")
    ensures ConvertFrom(toks, 3, [Numeric("1", Finite(1.0)), Numeric("2", Finite(2.0))], [Item(Subtraction, "-")]) == ConvertFrom(toks, 4, [Numeric("1", Finite(1.0)), Numeric("2", Finite(2.0))], [Item(Subtraction, "-"), Item(Multiplication, "*")])
  {
    PushConv(toks, 3, [Numeric("1", Finite(1.0)), Numeric("2", Finite(2.0))], [Item(Subtraction, "-")]);
    assert [Item(Subtraction, "-")] + [Item(Multiplication, "*")] == [Item(Subtraction, "-"), Item(Multiplication, "*")];
  }

  lemma MixedStep4(toks: seq<Item>)
    requires 4 < |toks| && toks[4] == Item(Number, "3")
    ensures ConvertFrom(toks, 4, [Numeric("1", Finite(1.0)), Numeric("2", Finite(2.0))], [Item(Subtraction, "-"), Item(Multiplication, "*")]) == ConvertFrom(toks, 5, [Numeric("1", Finite(1.0)), Numeric("2", Finite(2.0)), Numeric("3", Finite(3.0))], [Item(Subtraction, "-"), Item(Multiplication, "*")])
  {
    NumberConv(toks, 4, [Numeric("1", Finite(1.0)), Numeric("2", Finite(2.0))], [Item(Subtraction, "-"), Item(Multiplication, "*")], '3');
    assert [Numeric("1", Finite(1.0)), Numeric("2", Finite(2.0))] + [Numeric("3", Finite(3.0))] == [Numeric("1", Finite(1.0)), Numeric("2", Finite(2.0)), Numeric("3", Finite(3.0))];
  }

  lemma MixedStep5(toks: seq<Item>)
    requires 5 < |toks| && toks[5] == Item(Addition, "+")
    ensures ConvertFrom(toks, 5, [Numeric("1", Finite(1.0)), Numeric("2", Finite(2.0)), Numeric("3", Finite(3.0))], [Item(Subtraction, "-"), Item(Multiplication, "*")]) == ConvertFrom(toks, 6, [Numeric("1", Finite(1.0)), Numeric("2", Finite(2.0)), Numeric("3", Finite(3.0)), Plain(Item(Multiplication, "*"))], [Item(Subtraction, "-"), Item(Addition, "+")])
  {
    assert Top([Item(Subtraction, "-"), Item(Multiplication, "*")]) == Item(Multiplication, "*") && Popped([Item(Subtraction, "-"), Item(Multiplication, "*")]) == [Item(Subtraction, "-")];
    PopPushConv(toks, 5, [Numeric("1", Finite(1.0)), Numeric("2", Finite(2.0)), Numeric("3", Finite(3.0))], [Item(Subtraction, "-"), Item(Multiplication, "*")]);
    assert [Numeric("1", Finite(1.0)), Numeric("2", Finite(2.0)), Numeric("3", Finite(3.0))] + [Plain(Item(Multiplication, "*"))] == [Numeric("1", Finite(1.0)), Numeric("2", Finite(2.0)), Numeric("3", Finite(3.0)), Plain(Item(Multiplication, "*"))];
    assert [Item(Subtraction, "-")] + [Item(Addition, "+")] == [Item(Subtraction, "-"), Item(Addition, "+")];
  }

  lemma MixedStep6(toks: seq<Item>)
    requires 6 < |toks| && toks[6] == Item(Number, "4")
    ensures ConvertFrom(toks, 6, [Numeric("1", Finite(1.0)), Numeric("2", Finite(2.0)), Numeric("3", Finite(3.0)), Plain(Item(Multiplication, "*"))], [Item(Subtraction, "-"), Item(Addition, "+")]) == ConvertFrom(toks, 7, [Numeric("1", Finite(1.0)), Numeric("2", Finite(2.0)), Numeric("3", Finite(3.0)), Plain(Item(Multiplication, "*")), Numeric("4", Finite(4.0))], [Item(Subtraction, "-"), Item(Addition, "+")])
  {
    NumberConv(toks, 6, [Numeric("1", Finite(1.0)), Numeric("2", Finite(2.0)), Numeric("3", Finite(3.0)), Plain(Item(Multiplication, "*"))], [Item(Subtraction, "-"), Item(Addition, "+")], '4');
    assert [Numeric("1", Finite(1.0)), Numeric("2", Finite(2.0)), Numeric("3", Finite(3.0)), Plain(Item(Multiplication, "*"))] + [Numeric("4", Finite(4.0))] == [Numeric("1", Finite(1.0)), Numeric("2", Finite(2.0)), Numeric("3", Finite(3.0)), Plain(Item(Multiplication, "*")), Numeric("4", Finite(4.0))];
  }

  lemma MixedLast(toks: seq<Item>)
    requires |toks| == 7
    ensures ConvertFrom(toks, 7, [Numeric("1", Finite(1.0)), Numeric("2", Finite(2.0)), Numeric("3", Finite(3.0)), Plain(Item(Multiplication, "*")), Numeric("4", Finite(4.0))], [Item(Subtraction, "-"), Item(Addition, "+")]) == Success([Numeric("1", Finite(1.0)), Numeric("2", Finite(2.0)), Numeric("3", Finite(3.0)), Plain(Item(Multiplication, "*")), Numeric("4", Finite(4.0)), Plain(Item(Addition, "+")), Plain(Item(Subtraction, "-"))])
  {
    assert ConvertFrom(toks, 7, [Numeric("1", Finite(1.0)), Numeric("2", Finite(2.0)), Numeric("3", Finite(3.0)), Plain(Item(Multiplication, "*")), Numeric("4", Finite(4.0))], [Item(Subtraction, "-"), Item(Addition, "+")]) == Drain([Numeric("1", Finite(1.0)), Numeric("2", Finite(2.0)), Numeric("3", Finite(3.0)), Plain(Item(Multiplication, "*")), Numeric("4", Finite(4.0))], [Item(Subtraction, "-"), Item(Addition, "+")]);
    assert Top([Item(Subtraction, "-"), Item(Addition, "+")]) == Item(Addition, "+") && Popped([Item(Subtraction, "-"), Item(Addition, "+")]) == [Item(Subtraction, "-")];
    assert [Numeric("1", Finite(1.0)), Numeric("2", Finite(2.0)), Numeric("3", Finite(3.0)), Plain(Item(Multiplication, "*")), Numeric("4", Finite(4.0))] + [Plain(Item(Addition, "+"))] == [Numeric("1", Finite(1.0)), Numeric("2", Finite(2.0)), Numeric("3", Finite(3.0)), Plain(Item(Multiplication, "*")), Numeric("4", Finite(4.0)), Plain(Item(Addition, "+"))];
    assert Drain([Numeric("1", Finite(1.0)), Numeric("2", Finite(2.0)), Numeric("3", Finite(3.0)), Plain(Item(Multiplication, "*")), Numeric("4", Finite(4.0))], [Item(Subtraction, "-"), Item(Addition, "+")]) == Drain([Numeric("1", Finite(1.0)), Numeric("2", Finite(2.0)), Numeric("3", Finite(3.0)), Plain(Item(Multiplication, "*")), Numeric("4", Finite(4.0)), Plain(Item(Addition, "+"))], [Item(Subtraction, "-")]);
    assert Top([Item(Subtraction, "-")]) == Item(Subtraction, "-") && Popped([Item(Subtraction, "-")]) == [];
    assert [Numeric("1", Finite(1.0)), Numeric("2", Finite(2.0)), Numeric("3", Finite(3.0)), Plain(Item(Multiplication, "*")), Numeric("4", Finite(4.0)), Plain(Item(Addition, "+"))] + [Plain(Item(Subtraction, "-"))] == [Numeric("1", Finite(1.0)), Numeric("2", Finite(2.0)), Numeric("3", Finite(3.0)), Plain(Item(Multiplication, "*")), Numeric("4", Finite(4.0)), Plain(Item(Addition, "+")), Plain(Item(Subtraction, "-"))];
    assert Drain([Numeric("1", Finite(1.0)), Numeric("2", Finite(2.0)), Numeric("3", Finite(3.0)), Plain(Item(Multiplication, "*")), Numeric("4", Finite(4.0)), Plain(Item(Addition, "+"))], [Item(Subtraction, "-")]) == Drain([Numeric("1", Finite(1.0)), Numeric("2", Finite(2.0)), Numeric("3", Finite(3.0)), Plain(Item(Multiplication, "*")), Numeric("4", Finite(4.0)), Plain(Item(Addition, "+")), Plain(Item(Subtraction, "-"))], []);
  }

  lemma MixedConverted(toks: seq<Item>)
    requires MixedTokens(toks)
    ensures ConvertFrom(toks, 0, [], []) == Success([Numeric("1", Finite(1.0)), Numeric("2", Finite(2.0)), Numeric("3", Finite(3.0)), Plain(Item(Multiplication, "*")), Numeric("4", Finite(4.0)), Plain(Item(Addition, "+")), Plain(Item(Subtraction, "-"))])
  {
    MixedStep0(toks, [], []);
    MixedStep1(toks);
    MixedStep2(toks);
    MixedStep3(toks);
    MixedStep4(toks);
    MixedStep5(toks);
    MixedStep6(toks);
    MixedLast(toks);
  }

  /** An operator that should pop two stacked operators pops one: `-` stays below `+`. */
  lemma MixedParsed(s: string)
    requires s == Mixed
    ensures Convert(Scan(s)) == Success([Numeric("1", Finite(1.0)), Numeric("2", Finite(2.0)), Numeric("3", Finite(3.0)), Plain(Item(Multiplication, "*")), Numeric("4", Finite(4.0)), Plain(Item(Addition, "+")), Plain(Item(Subtraction, "-"))])
  {
    MixedTextHolds(s);
    MixedScanned(s);
    MixedConverted(Scan(s));
  }

}
