/** The cases pinned by pkg/lexer/lexer_test.go, proved about `Scan`. The long sample is taken
    one item at a time, each step a lemma of its own. */
module LexerExamples {
  import opened Lexer
  import opened LexerProperties

  const Sample := "1+2*(3^2/0.5534)-   5.0"

  /** The thirteen items lexer_test.go:18-32 expects for the sample. */
  function SampleItems(): seq<Item> {
    [
      Item(Number, "1"),
      Item(Addition, "+"),
      Item(Number, "2"),
      Item(Multiplication, "*"),
      Item(LeftParenthesis, "("),
      Item(Number, "3"),
      Item(Exponent, "^"),
      Item(Number, "2"),
      Item(Division, "/"),
      Item(Number, "0.5534"),
      Item(RightParenthesis, ")"),
      Item(Subtraction, "-"),
      Item(Number, "5.0")
    ]
  }

  /** `s` holds the characters of `Sample`. */
  predicate SampleText(s: string) {
    |s| == |Sample| && forall i :: 0 <= i < |s| ==> s[i] == Sample[i]
  }

  lemma SampleStep0(s: string)
    requires SampleText(s) && ScanFrom(s, 1) == SampleItems()[1..]
    ensures ScanFrom(s, 0) == SampleItems()[0..]
  {
    assert NumberRun(s, 1, 0) == RunEnd(1);
    NumberStep(s, 0, 1);
    assert s[0..1] == "1";
    assert SampleItems()[0..] == [SampleItems()[0]] + SampleItems()[1..];
  }

  lemma SampleStep1(s: string)
    requires SampleText(s) && ScanFrom(s, 2) == SampleItems()[2..]
    ensures ScanFrom(s, 1) == SampleItems()[1..]
  {
    CharStep(s, 1);
    assert SampleItems()[1..] == [SampleItems()[1]] + SampleItems()[2..];
  }

  lemma SampleStep2(s: string)
    requires SampleText(s) && ScanFrom(s, 3) == SampleItems()[3..]
    ensures ScanFrom(s, 2) == SampleItems()[2..]
  {
    assert NumberRun(s, 3, 0) == RunEnd(3);
    NumberStep(s, 2, 3);
    assert s[2..3] == "2";
    assert SampleItems()[2..] == [SampleItems()[2]] + SampleItems()[3..];
  }

  lemma SampleStep3(s: string)
    requires SampleText(s) && ScanFrom(s, 4) == SampleItems()[4..]
    ensures ScanFrom(s, 3) == SampleItems()[3..]
  {
    CharStep(s, 3);
    assert SampleItems()[3..] == [SampleItems()[3]] + SampleItems()[4..];
  }

  lemma SampleStep4(s: string)
    requires SampleText(s) && ScanFrom(s, 5) == SampleItems()[5..]
    ensures ScanFrom(s, 4) == SampleItems()[4..]
  {
    CharStep(s, 4);
    assert SampleItems()[4..] == [SampleItems()[4]] + SampleItems()[5..];
  }

  lemma SampleStep5(s: string)
    requires SampleText(s) && ScanFrom(s, 6) == SampleItems()[6..]
    ensures ScanFrom(s, 5) == SampleItems()[5..]
  {
    assert NumberRun(s, 6, 0) == RunEnd(6);
    NumberStep(s, 5, 6);
    assert s[5..6] == "3";
    assert SampleItems()[5..] == [SampleItems()[5]] + SampleItems()[6..];
  }

  lemma SampleStep6(s: string)
    requires SampleText(s) && ScanFrom(s, 7) == SampleItems()[7..]
    ensures ScanFrom(s, 6) == SampleItems()[6..]
  {
    CharStep(s, 6);
    assert SampleItems()[6..] == [SampleItems()[6]] + SampleItems()[7..];
  }

  lemma SampleStep7(s: string)
    requires SampleText(s) && ScanFrom(s, 8) == SampleItems()[8..]
    ensures ScanFrom(s, 7) == SampleItems()[7..]
  {
    assert NumberRun(s, 8, 0) == RunEnd(8);
    NumberStep(s, 7, 8);
    assert s[7..8] == "2";
    assert SampleItems()[7..] == [SampleItems()[7]] + SampleItems()[8..];
  }

  lemma SampleStep8(s: string)
    requires SampleText(s) && ScanFrom(s, 9) == SampleItems()[9..]
    ensures ScanFrom(s, 8) == SampleItems()[8..]
  {
    CharStep(s, 8);
    assert SampleItems()[8..] == [SampleItems()[8]] + SampleItems()[9..];
  }

  lemma SampleStep9(s: string)
    requires SampleText(s) && ScanFrom(s, 15) == SampleItems()[10..]
    ensures ScanFrom(s, 9) == SampleItems()[9..]
  {
    assert NumberRun(s, 15, 1) == RunEnd(15);
    assert NumberRun(s, 14, 1) == RunEnd(15);
    assert NumberRun(s, 13, 1) == RunEnd(15);
    assert NumberRun(s, 12, 1) == RunEnd(15);
    assert NumberRun(s, 11, 1) == RunEnd(15);
    assert NumberRun(s, 10, 0) == RunEnd(15);
    NumberStep(s, 9, 15);
    assert s[9..15] == "0.5534";
    assert SampleItems()[9..] == [SampleItems()[9]] + SampleItems()[10..];
  }

  lemma SampleStep15(s: string)
    requires SampleText(s) && ScanFrom(s, 16) == SampleItems()[11..]
    ensures ScanFrom(s, 15) == SampleItems()[10..]
  {
    CharStep(s, 15);
    assert SampleItems()[10..] == [SampleItems()[10]] + SampleItems()[11..];
  }

  lemma SampleStep16(s: string)
    requires SampleText(s) && ScanFrom(s, 17) == SampleItems()[12..]
    ensures ScanFrom(s, 16) == SampleItems()[11..]
  {
    CharStep(s, 16);
    assert SampleItems()[11..] == [SampleItems()[11]] + SampleItems()[12..];
  }

  lemma SampleStep17(s: string)
    requires SampleText(s) && ScanFrom(s, 18) == SampleItems()[12..]
    ensures ScanFrom(s, 17) == SampleItems()[12..]
  {
    SpaceStep(s, 17);
  }

  lemma SampleStep18(s: string)
    requires SampleText(s) && ScanFrom(s, 19) == SampleItems()[12..]
    ensures ScanFrom(s, 18) == SampleItems()[12..]
  {
    SpaceStep(s, 18);
  }

  lemma SampleStep19(s: string)
    requires SampleText(s) && ScanFrom(s, 20) == SampleItems()[12..]
    ensures ScanFrom(s, 19) == SampleItems()[12..]
  {
    SpaceStep(s, 19);
  }

  lemma SampleStep20(s: string)
    requires SampleText(s) && ScanFrom(s, 23) == SampleItems()[13..]
    ensures ScanFrom(s, 20) == SampleItems()[12..]
  {
    assert NumberRun(s, 23, 1) == RunEnd(23);
    assert NumberRun(s, 22, 1) == RunEnd(23);
    assert NumberRun(s, 21, 0) == RunEnd(23);
    NumberStep(s, 20, 23);
    assert s[20..23] == "5.0";
    assert SampleItems()[12..] == [SampleItems()[12]] + SampleItems()[13..];
  }

  lemma SampleScanned(s: string)
    requires SampleText(s)
    ensures ScanFrom(s, 0) == SampleItems()
  {
    assert ScanFrom(s, 23) == SampleItems()[13..];
    SampleStep20(s);
    SampleStep19(s);
    SampleStep18(s);
    SampleStep17(s);
    SampleStep16(s);
    SampleStep15(s);
    SampleStep9(s);
    SampleStep8(s);
    SampleStep7(s);
    SampleStep6(s);
    SampleStep5(s);
    SampleStep4(s);
    SampleStep3(s);
    SampleStep2(s);
    SampleStep1(s);
    SampleStep0(s);
  }

  /** lexer_test.go:15-33: the scanner sends exactly the items the test lists for the sample. */
  lemma SampleScan(s: string)
    requires s == Sample
    ensures ScanFrom(s, 0) == SampleItems()
  {
    SampleScanned(s);
  }

  /** lexer_test.go:34-40: a leading dot is an invalid rune at index 0. */
  lemma LeadingDot(s: string)
    requires s == ".5534-5.0"
    ensures Scan(s) == [Item(Error, "invalid rune at: 0; could not lex: .")]
  {
    InvalidCharStep(s, 0);
    assert [s[0]] == ".";
    assert ErrorItem(0, ".") == Item(Error, "invalid rune at: 0; could not lex: .");
  }

  /** A number whose second dot is at index 4, whatever follows it. */
  lemma SecondDotAtFour(s: string)
    requires |s| > 4 && s[0] == '5' && s[1] == '.' && s[2] == '5' && s[3] == '5' && s[4] == '.'
    ensures Scan(s) == [ErrorItem(4, "5.55.")]
  {
    assert NumberRun(s, 4, 1) == SecondDot(4);
    assert NumberRun(s, 3, 1) == SecondDot(4);
    assert NumberRun(s, 2, 1) == SecondDot(4);
    assert NumberRun(s, 1, 0) == SecondDot(4);
    SecondDotStep(s, 0, 4);
    assert s[0..5] == "5.55.";
  }

  /** lexer_test.go:41-47: the second dot of "5.55.34" is at index 4. */
  lemma SecondDotLate(s: string)
    requires s == "5.55.34-5.0"
    ensures Scan(s) == [Item(Error, "invalid rune at: 4; could not lex: 5.55.")]
  {
    SecondDotAtFour(s);
    assert ErrorItem(4, "5.55.") == Item(Error, "invalid rune at: 4; could not lex: 5.55.");
  }

  /** A number whose second dot is at index 2, whatever follows it. */
  lemma SecondDotAtTwo(s: string)
    requires |s| > 2 && s[0] == '5' && s[1] == '.' && s[2] == '.'
    ensures Scan(s) == [ErrorItem(2, "5..")]
  {
    assert NumberRun(s, 2, 1) == SecondDot(2);
    assert NumberRun(s, 1, 0) == SecondDot(2);
    SecondDotStep(s, 0, 2);
    assert s[0..3] == "5..";
  }

  /** lexer_test.go:48-54: the second dot of "5..5534" is at index 2. */
  lemma SecondDotEarly(s: string)
    requires s == "5..5534-5.0"
    ensures Scan(s) == [Item(Error, "invalid rune at: 2; could not lex: 5..")]
  {
    SecondDotAtTwo(s);
    assert ErrorItem(2, "5..") == Item(Error, "invalid rune at: 2; could not lex: 5..");
  }
}
