/** The cases pinned by pkg/simplecalculator/simplecalculator_test.go. */
module SimpleExamples {
  import opened Wrappers
  import opened Float
  import opened CalcErrors
  import opened SimpleCalculator
  import opened SimpleProperties

  /** simplecalculator_test.go:20-29. */
  lemma ParseAddition(s: string)
    requires s == "2+3.1"
    ensures Parse(s) == Success(SimpleOperation(Finite(2.0), Finite(3.1), "+"))
  {
    assert s == "2" + ['+'] + "3.1";
    OneDigit('2');
    DigitDotDigit('3', '1');
    ParseOneSign("2", '+', "3.1");
  }

  /** simplecalculator_test.go:30-39. */
  lemma ParseSubtraction(s: string)
    requires s == "3-2.1"
    ensures Parse(s) == Success(SimpleOperation(Finite(3.0), Finite(2.1), "-"))
  {
    assert s == "3" + ['-'] + "2.1";
    OneDigit('3');
    DigitDotDigit('2', '1');
    ParseOneSign("3", '-', "2.1");
  }

  /** simplecalculator_test.go:40-49. */
  lemma ParseMultiplication(s: string)
    requires s == "3.2*2.1"
    ensures Parse(s) == Success(SimpleOperation(Finite(3.2), Finite(2.1), "*"))
  {
    assert s == "3.2" + ['*'] + "2.1";
    DigitDotDigit('3', '2');
    DigitDotDigit('2', '1');
    ParseOneSign("3.2", '*', "2.1");
  }

  /** simplecalculator_test.go:50-59. */
  lemma ParseDivision(s: string)
    requires s == "3/2"
    ensures Parse(s) == Success(SimpleOperation(Finite(3.0), Finite(2.0), "/"))
  {
    assert s == "3" + ['/'] + "2";
    OneDigit('3');
    OneDigit('2');
    ParseOneSign("3", '/', "2");
  }

  /** simplecalculator_test.go:60-71: two signs, adjacent or not. */
  lemma ParseTwoSigns()
    ensures Parse("3++2") == Failure(NewParsingError("Operation contains more than one operation sign"))
    ensures Parse("3+2-3*4") == Failure(NewParsingError("Operation contains more than one operation sign"))
  {
    TwoSigns("3++2", 1, 2);
    TwoSigns("3+2-3*4", 1, 3);
  }

  /** simplecalculator_test.go:72-77. */
  lemma ParseNoSign()
    ensures Parse("3") == Failure(NewParsingError("Operation does not contain operation sign"))
  {
  }

  /** simplecalculator_test.go:78-83. */
  lemma ParseFirstNotANumber(s: string)
    requires s == "aa*2"
    ensures Parse(s) == Failure(NewParsingErrorWrap(ParseFloatFailure("aa"), "First operation argument could not be parsed to number"))
  {
    assert s == "aa" + ['*'] + "2";
    OneSignNoMatch(s, 2);
    SplitAtFirst("aa", "2", '*');
    SplitWithoutSeparator("2", '*');
    LetterDoesNotParse("aa");
  }

  /** simplecalculator_test.go:84-89: when neither argument parses, the first is reported. */
  lemma ParseNeitherANumber(s: string)
    requires s == "aa+bb"
    ensures Parse(s) == Failure(NewParsingErrorWrap(ParseFloatFailure("aa"), "First operation argument could not be parsed to number"))
  {
    assert s == "aa" + ['+'] + "bb";
    OneSignNoMatch(s, 2);
    SplitAtFirst("aa", "bb", '+');
    SplitWithoutSeparator("bb", '+');
    LetterDoesNotParse("aa");
  }

  /** simplecalculator_test.go:90-95. */
  lemma ParseSecondNotANumber(s: string)
    requires s == "2+bb"
    ensures Parse(s) == Failure(NewParsingErrorWrap(ParseFloatFailure("bb"), "Second operation argument could not be parsed to number"))
  {
    assert s == "2" + ['+'] + "bb";
    OneSignNoMatch(s, 1);
    SplitAtFirst("2", "bb", '+');
    SplitWithoutSeparator("bb", '+');
    OneDigit('2');
    LetterDoesNotParse("bb");
  }

  /** simplecalculator_test.go:126-167. */
  lemma CalculateSigns()
    ensures Calculate(SimpleOperation(Finite(2.0), Finite(3.1), "+")) == Success(Finite(5.1))
    ensures Calculate(SimpleOperation(Finite(3.0), Finite(2.5), "-")) == Success(Finite(0.5))
    ensures Calculate(SimpleOperation(Finite(3.0), Finite(2.0), "*")) == Success(Finite(6.0))
    ensures Calculate(SimpleOperation(Finite(5.0), Finite(2.0), "/")) == Success(Finite(2.5))
  {
  }

  /** simplecalculator_test.go:168-187. */
  lemma CalculateUnknownOperator()
    ensures Calculate(SimpleOperation(Finite(5.0), Finite(2.0), "++")) == Failure(NewCalculationError("Calculation error"))
    ensures Calculate(SimpleOperation(Finite(5.0), Finite(2.0), "")) == Failure(NewCalculationError("Calculation error"))
  {
  }
}
