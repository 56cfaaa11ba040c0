# A verified model of the calculator's core

This project models the core of `mateuszkrasucki/calculator`, a Go calculator with two front ends. The command line (`cmd/cli`) evaluates infix expressions with a shunting-yard converter and a reverse-Polish evaluator. The HTTP service (`cmd/server`) evaluates "number sign number" expressions.

The model covers:

- **The lexer** (`pkg/lexer`). The pure function `Lexer.Scan` gives the item sequence the scanner sends. The class `Lexer.Lexer` is the scanner itself: its `start`, `pos` and `lastStep` cursors and its state functions are modelled as methods. It is proved to send exactly `Scan(input)`.
- **The infix-to-postfix converter** `ParseInfix` (`pkg/reversepolish/postfixparser.go`). `PostfixParser.ParseInfix` is a method over a lexer object and an `OperatorsStack` object. It is proved equal to the pure `PostfixParser.Convert(Scan(input))`. The converter keeps the source's unconditional `break`, so an incoming operator pops at most one stacked operator.
- **The RPN evaluator** (`pkg/reversepolish/calculator.go`). This is a method over a `NumericStack` object, proved equal to the pure `RpnCalculator.Eval`.
- **The simple two-argument parser and calculator**, in both copies: `pkg/simplecalculator` and the copy in `pkg/calculator`.
- **The error package** (`pkg/errors`).
- **The `pkg/calculator` composition**: parse-then-calculate, the validating middleware, and the two services the commands wire up.

**Properties proved**

- The scanner's output is well formed, and only whitespace is dropped.
- Every lexer error names a misplaced or second dot, or an unknown character. It ends the conversion with the lexer's text, unless a `)` without its `(` fails first.
- The two stack loops send operators top first and fail exactly when a bracket is unmatched.
- Any `^` that reaches the evaluator makes it fail.
- The converter keeps every number text in order and every operator.
- Evaluating the postfix form of an expression tree gives the tree's value.
- An arithmetic item sequence evaluates exactly when it is balanced.
- Each stage fails only with its own error category.
- The two simple-calculator copies agree.
- Validation consults the next calculator exactly for allowed, non-blank input.

**How the Go code is represented**

- Numbers are exact reals plus the IEEE infinities and NaN (`Float.Num`).
- `strconv.ParseFloat` is modelled for optionally signed decimal literals.
- A Go interface value is modelled by what its one method returns: a `Calculator.Calculator` is a function from input to outcome.
- Errors are values of `CalcErrors.CalcError`; `Success`/`Failure` stand for Go's `(value, nil)` / `(zero, err)` pairs.
- The Go `context.Context` parameters are dropped, because nothing in the core reads them.

One behaviour of the code as written is recorded under "Findings": `ParseInfix` converts `1-2*3+4` wrongly. The model follows the code as written, so the two pipelines reproduce the wrong answer (`Calculator.CliMixed`). The corrected conversion is modelled beside it.

## Model

| member | source | states |
|---|---|---|
| Lexer.SingleCharType | pkg/lexer/lexer.go:137-150 | each of `( ) + - * / ^` has its own item type, never Empty, Number or Error |
| Lexer.NumberRun | pkg/lexer/lexer.go:159-180 | the `lexNumber` loop either ends at an index inside the input or stops at a dot inside the input |
| Lexer.Lexer.constructor | pkg/lexer/lexer.go:54-80 | a new lexer has sent exactly `Scan(input)` and none of it has been received yet |
| Lexer.Lexer.NextItem | pkg/lexer/lexer.go:61-69 | returns the next sent item and advances by one; after the last item it returns the Empty item and stays put |
| Lexer.Lexer.Run | pkg/lexer/lexer.go:82-88 | running the state functions from the start until nil sends exactly `Scan(input)` |
| Lexer.Lexer.UnknownRound | pkg/lexer/lexer.go:129-157 | one call of `lexUnknown` keeps "sent so far + still to send = all items"; it stops, advances, or enters `lexNumber` one past the digit |
| Lexer.Lexer.NumberRound | pkg/lexer/lexer.go:159-176 | one call of `lexNumber` keeps the same invariant and then stops or returns to `lexUnknown` |
| Lexer.Lexer.Emit | pkg/lexer/lexer.go:90-94 | sends the item `input[start:pos]` with the given type and starts the next item at `pos` |
| Lexer.Lexer.EmitError | pkg/lexer/lexer.go:96-103 | sends "invalid rune at: pos-1; could not lex: input[start:pos]" as an Error item |
| Lexer.Lexer.Next | pkg/lexer/lexer.go:105-117 | reads the character at `pos`, or eof past the end; `pos` moves by one either way |
| Lexer.Lexer.StepBack | pkg/lexer/lexer.go:119-122 | un-reads the last step |
| Lexer.Lexer.Skip | pkg/lexer/lexer.go:124-127 | drops what was read from the current item |
| Lexer.Lexer.LexUnknownStep | pkg/lexer/lexer.go:129-157 | the case split of `lexUnknown`: eof stops, a digit enters `lexNumber`, whitespace is skipped, a one-character token is sent, anything else is an Error item |
| Lexer.Lexer.LexNumberStep | pkg/lexer/lexer.go:159-176 | `lexNumber` sends the whole digit-and-dot run as a Number item, or an Error item at the second dot |
| Lexer.Collect | pkg/lexer/lexer.go:61-69 | calling `NextItem` until the Empty item yields exactly `Scan(input)` |
| Lexer.ScanHasNoEmptyItem | pkg/lexer/lexer.go:129-176 | the scanner never sends the Empty item, so Empty marks the end of the stream |
| LexerProperties.SpaceStep | pkg/lexer/lexer.go:135-136 | whitespace produces no item |
| LexerProperties.CharStep | pkg/lexer/lexer.go:137-150 | a one-character token is one item whose text is that character |
| LexerProperties.NumberStep | pkg/lexer/lexer.go:159-176 | a number item covers its whole run, and the character ending the run is scanned again |
| LexerProperties.SecondDotStep | pkg/lexer/lexer.go:162-168 | a second dot ends the stream with an Error item naming the dot's index and the text up to it |
| LexerProperties.InvalidCharStep | pkg/lexer/lexer.go:151-153 | any other character ends the stream with an Error item at its index |
| LexerProperties.SingleCharTypesDistinct | pkg/lexer/lexer.go:137-150 | distinct token characters get distinct item types |
| LexerProperties.NumberRunSpec | pkg/lexer/lexer.go:159-180 | a finished run is all digits and dots with at most one dot, and stops before a non-number character; a stopped run stops at its second dot |
| LexerProperties.NumberTextIsDecimal | pkg/lexer/lexer.go:159-176 | every Number item's text is a decimal literal starting with a digit |
| LexerProperties.ScanWellFormed | pkg/lexer/lexer.go:129-176 | every item is Number, Error or a one-character token with its own type, and an Error item can only be last |
| LexerProperties.NoErrorWithoutDots | pkg/lexer/lexer.go:129-176 | input of digits, whitespace and token characters only never produces an Error item |
| LexerProperties.ErrorCause | pkg/lexer/lexer.go:96-103 | an Error item names the index of a dot or an unknown character, and its text ends with that character |
| LexerProperties.BlankScansEmpty | pkg/lexer/lexer.go:135-136 | all-whitespace input sends no item |
| LexerProperties.TextsAreInputWithoutSpaces | pkg/lexer/lexer.go:129-176 | without an error, the item texts concatenated are the input with its whitespace removed |
| LexerExamples.SampleScan | pkg/lexer/lexer_test.go:15-33 | the sample expression scans to the thirteen items the test lists |
| LexerExamples.LeadingDot | pkg/lexer/lexer_test.go:34-40 | ".5534-5.0" is an invalid rune at index 0 |
| LexerExamples.SecondDotAtFour | pkg/lexer/lexer_test.go:41-47 | any input starting "5.55." scans to one Error item at index 4 |
| LexerExamples.SecondDotLate | pkg/lexer/lexer_test.go:41-47 | "5.55.34-5.0" gives the error text the test expects |
| LexerExamples.SecondDotAtTwo | pkg/lexer/lexer_test.go:48-54 | any input starting "5.." scans to one Error item at index 2 |
| LexerExamples.SecondDotEarly | pkg/lexer/lexer_test.go:48-54 | "5..5534-5.0" gives the error text the test expects |
| Text.NatToString | pkg/lexer/lexer.go:99 | `%d` of a non-negative number is a non-empty digit string |
| Text.NatToStringRoundTrip | pkg/lexer/lexer.go:99 | reading the digits back gives the number |
| Text.NatToStringNoLeadingZero | pkg/lexer/lexer.go:99 | no leading zero except for 0 itself |
| Float.ParseFloat | pkg/reversepolish/postfixparser.go:99 | an accepted text is a finite number; it contains no newline, `*` or `/`, and no sign after its first character; a decimal literal parses to its exact value |
| Float.DivisionByZeroIsNotFinite | pkg/simplecalculator/simplecalculator.go:72-73 | float division by zero gives an infinity or NaN, never an error |
| CalcErrors.ConstructorsRecordCategory | pkg/errors/errors.go:33-97 | each constructor records its own category and the description, and a cause exactly when it wraps |
| CalcErrors.StatusCode | pkg/errors/errors.go:109-112 | 400 exactly for InputError and ParsingError, and 500 for the other three categories |
| CalcErrors.StatusCodesCoverCategories | pkg/errors/errors.go:19-25 | the status table has an entry for every category |
| CalcErrors.ErrorTextMentionsCategory | pkg/errors/errors.go:38-57 | an error's text contains its category name, wrapped or not |
| CalcErrors.CategoryNamesNotNested | pkg/errors/errors.go:11-17 | one category name occurs inside another only when they are the same category |
| CalcErrors.ContainsCheckComparesCategories | pkg/reversepolish/postfixparser_test.go:69 | the tests' `strings.Contains(err.Error(), expected.Error())` check on unwrapped errors compares categories, nothing more |
| CalcErrors.QuoteRoundTrip | pkg/simplecalculator/simplecalculator.go:53-58 | the wrapped `strconv.ParseFloat` error shows the rejected text as `strconv.Quote` writes it; reading the escapes back gives exactly that text |
| CalcErrors.QuotedIsPrintable | pkg/calculator/simplecalculator.go:52-57 | the quoted text holds no raw ASCII control character, and every `"` in it is escaped with a backslash |
| CalcErrors.TabIsEscaped | pkg/simplecalculator/simplecalculator.go:53-54 | the cause text for the rejected argument `a<tab>b` is `strconv.ParseFloat: parsing "a\tb": invalid syntax`, with the tab escaped |
| PostfixParser.Precedence | pkg/reversepolish/postfixparser.go:206-217 | `^` is 3, `* /` are 2, `+ -` are 1, everything that is not a math operator is 0 |
| PostfixParser.ParseNumber | pkg/reversepolish/postfixparser.go:94-105 | succeeds exactly for a Number item whose text parses, keeping text and value; every failure is a ParsingError |
| PostfixParser.OperatorsStack.Push | pkg/reversepolish/postfixparser.go:252-259 | pushes an operator; anything else leaves the stack unchanged and is an InternalError |
| PostfixParser.OperatorsStack.Pop | pkg/reversepolish/postfixparser.go:232-240 | removes and returns the top, or returns the Empty item from an empty stack |
| PostfixParser.OperatorsStack.Peek | pkg/reversepolish/postfixparser.go:242-250 | returns the top without removing it, or the Empty item |
| PostfixParser.ParseInfix | pkg/reversepolish/postfixparser.go:32-92 | the loop over the lexer's items with the stack object returns `Convert(Scan(input))` |
| PostfixParser.HandleItem | pkg/reversepolish/postfixparser.go:39-81 | one pass of the main loop updates the output and the stack object as `Step` says |
| PostfixParser.PopToLeftBracket | pkg/reversepolish/postfixparser.go:72-78 | the `)` loop on the stack object does what `PopToLeft` says |
| PostfixParser.DrainStack | pkg/reversepolish/postfixparser.go:84-91 | the final loop on the stack object does what `Drain` says |
| PostfixProperties.PopToLeftSpec | pkg/reversepolish/postfixparser.go:72-78 | `)` succeeds exactly when a `(` is on the stack, and otherwise fails with "mismatched parantheses"; with `b` the topmost `(`, the items above it go to the output top first, the `(` is dropped and the stack below `b` stays as it was |
| PostfixProperties.PopToLeftAt | pkg/reversepolish/postfixparser.go:72-78 | with `b` the topmost `(`: the output gains the items above `b` top first, the stack becomes `stack[..b]`, and one `(` is gone |
| PostfixProperties.DrainSpec | pkg/reversepolish/postfixparser.go:84-89 | the final drain fails exactly when a bracket is left on the stack, with the mismatch error; otherwise the whole stack follows the output, top first |
| PostfixProperties.DrainWithoutBrackets | pkg/reversepolish/postfixparser.go:84-89 | draining a stack without brackets never fails |
| PostfixProperties.StepSpec | pkg/reversepolish/postfixparser.go:39-81 | one pass fails only with a ParsingError, keeps output and stack well shaped, adds a number's text to the output's numbers, and loses no operator |
| PostfixProperties.ConvertSpec | pkg/reversepolish/postfixparser.go:32-92 | a successful conversion outputs only parsed numbers and math operators, with the input's number texts in order and exactly its math operators |
| PostfixProperties.ConvertFailsWithParsingError | pkg/reversepolish/postfixparser.go:32-92 | every conversion failure is a ParsingError |
| PostfixProperties.ScannedNumberParses | pkg/reversepolish/postfixparser.go:94-105 | every Number item the scanner sends parses to its decimal value |
| PostfixProperties.StepLeftCount | pkg/reversepolish/postfixparser.go:39-81 | one pass of the main loop adds a `(` to the stack for `(`, removes one for `)`, and leaves their number alone otherwise |
| PostfixProperties.LexerErrorIsParsingError | pkg/reversepolish/postfixparser.go:40-41 | a lexer error always ends the conversion: with the lexer's text as a ParsingError when every `)` before it closes an open `(`, and with the mismatch error otherwise |
| PostfixProperties.ExponentConverted | pkg/reversepolish/postfixparser.go:48-69 | a `^` the scanner sends reaches the converter's output |
| PostfixExamples.WikiParsed | pkg/reversepolish/postfixparser_test.go:21-40 | "3 + 4 * 2 / ( 1 - 5 ) ^  2 ^ 3" converts to the thirteen items the test expects |
| PostfixExamples.LexErrorParsed | pkg/reversepolish/postfixparser_test.go:41-46 | "2+2..2" fails with "invalid rune at: 4; could not lex: 2.." as a ParsingError |
| PostfixExamples.UnclosedParsed | pkg/reversepolish/postfixparser_test.go:47-52 | "2+(2*3*5" fails with the mismatch error |
| PostfixExamples.UnopenedParsed | pkg/reversepolish/postfixparser_test.go:53-58 | "2+(2*3*5))" fails with the mismatch error |
| PostfixExamples.MixedParsed | pkg/reversepolish/postfixparser.go:49-69 | "1-2*3+4" converts to `1 2 3 * 4 + -` |
| PostfixFindings.PopOnceLeavesPoppable | pkg/reversepolish/postfixparser.go:49-69 | when the incoming operator would pop both of the two top operators, it pops one and lands on the other, leaving the stack out of order |
| PostfixFindings.MixedStackOutOfOrder | pkg/reversepolish/postfixparser.go:49-69 | in "1-2*3+4", `+` pops `*` and is pushed onto `-` |
| PostfixFindings.MixedMisconverted | pkg/reversepolish/postfixparser.go:49-69 | as written, "1-2*3+4" converts to the postfix form of `1-(2*3+4)` and evaluates to -9, while its value is -1 |
| PostfixFindings.PopWhile | pkg/reversepolish/postfixparser.go:49-68 | the intended loop pops exactly the run of top operators the incoming one pops, in stack order, and stops at one it does not pop |
| PostfixFindings.TextbookStepOrdered | pkg/reversepolish/postfixparser.go:49-69 | each step of the intended conversion keeps the stack ordered |
| PostfixFindings.TextbookStacksOrdered | pkg/reversepolish/postfixparser.go:49-69 | every stack the intended conversion passes through is ordered |
| PostfixFindings.MixedTextbook | pkg/reversepolish/postfixparser.go:49-69 | with the intended loop, "1-2*3+4" converts to `1 2 3 * - 4 +` and evaluates to -1 |
| RpnCalculator.Apply | pkg/reversepolish/calculator.go:32-33 | the binary step succeeds exactly for `+ * - /`; any other operator fails with "Calculation error" |
| RpnCalculator.NumericStack.Length | pkg/reversepolish/calculator.go:53-55 | the number of operands |
| RpnCalculator.NumericStack.Pop | pkg/reversepolish/calculator.go:57-66 | removes and returns the top, or returns 0 from an empty stack |
| RpnCalculator.NumericStack.Push | pkg/reversepolish/calculator.go:68-70 | appends an operand |
| RpnCalculator.Operate | pkg/reversepolish/calculator.go:25-38 | pops the second and then the first operand, applies the operator and pushes the result; a failure is reported with both operands |
| RpnCalculator.Calculate | pkg/reversepolish/calculator.go:20-51 | the loop over the items with the stack object returns `Eval(items)` |
| RpnProperties.EvalFailsWithCalculationError | pkg/reversepolish/calculator.go:20-51 | every evaluation failure is a CalculationError |
| RpnProperties.EvalPostfix | pkg/reversepolish/calculator.go:20-51 | evaluating the postfix form of an arithmetic expression tree gives the tree's value |
| RpnProperties.EvalSucceedsIffBalanced | pkg/reversepolish/calculator.go:20-51 | numbers and `+ - * /` evaluate exactly when every operator finds two operands and one value is left; the error is "not enough operands on stack" exactly when some operator finds fewer than two, and "too many operands on the stack at the end of calculation" exactly when every operator finds two but the final count is not one |
| RpnProperties.EvalFromErrorKind | pkg/reversepolish/calculator.go:23-48 | from any point of the evaluation, the same exact split between the two operand-count errors for the operators still to come |
| RpnProperties.ExponentFails | pkg/reversepolish/calculator.go:32-36 | `a b ^` fails with the wrapped "Calculation error" naming both operands |
| RpnProperties.EvalFromKnownOperators | pkg/reversepolish/calculator.go:25-38 | a successful evaluation met only `+ * - /` among the passed-through items |
| RpnProperties.ExponentNeverEvaluates | pkg/reversepolish/calculator.go:25-38 | every item sequence holding a `^` fails to evaluate, with a CalculationError |
| RpnExamples.TestProgramIsFive | pkg/reversepolish/calculator_test.go:21-44 | the test's program evaluates to 5 |
| RpnExamples.OperatorWithOneOperand | pkg/reversepolish/calculator_test.go:45-57 | an operator with one operand on the stack fails with "not enough operands on stack" |
| RpnExamples.BracketIsInvalid | pkg/reversepolish/calculator_test.go:58-69 | a bracket among the items is an invalid item |
| RpnExamples.OperandsLeftOver | pkg/reversepolish/calculator_test.go:70-82 | two operands left at the end fail with "too many operands" |
| SimpleCalculator.Split | pkg/simplecalculator/simplecalculator.go:36-51 | the pieces joined by the separator give back the input, no piece holds the separator, and there are at least two pieces when the separator occurs |
| SimpleCalculator.PickedSign | pkg/simplecalculator/simplecalculator.go:36-51 | the chosen sign occurs in the input, and there is none exactly when the input has no sign |
| SimpleCalculator.Calculate | pkg/simplecalculator/simplecalculator.go:64-77 | succeeds exactly for `+ * - /`; otherwise fails with "Calculation error" |
| SimpleProperties.TwoSigns | pkg/simplecalculator/simplecalculator.go:21-29 | two signs with no newline between them match the "more than one sign" pattern |
| SimpleProperties.OneSignNoMatch | pkg/simplecalculator/simplecalculator.go:21-29 | input with a single sign does not match it |
| SimpleProperties.SplitJoin | pkg/simplecalculator/simplecalculator.go:39 | splitting a join of separator-free pieces gives back the pieces |
| SimpleProperties.ParseOneSign | pkg/simplecalculator/simplecalculator.go:20-62 | one sign between two parsable numbers parses to those numbers and that sign |
| SimpleProperties.ParseSuccessShape | pkg/simplecalculator/simplecalculator.go:20-62 | a successful parse saw exactly one sign with a parsable number on each side |
| SimpleProperties.ParseFailsWithParsingError | pkg/simplecalculator/simplecalculator.go:20-62 | every parse failure is a ParsingError |
| SimpleProperties.ParsedOperationCalculates | pkg/simplecalculator/simplecalculator.go:64-77 | a parsed operation always calculates |
| SimpleExamples.ParseAddition | pkg/simplecalculator/simplecalculator_test.go:20-29 | "2+3.1" parses to 2, 3.1, "+" |
| SimpleExamples.ParseSubtraction | pkg/simplecalculator/simplecalculator_test.go:30-39 | "3-2.1" parses to 3, 2.1, "-" |
| SimpleExamples.ParseMultiplication | pkg/simplecalculator/simplecalculator_test.go:40-49 | "3.2*2.1" parses to 3.2, 2.1, "*" |
| SimpleExamples.ParseDivision | pkg/simplecalculator/simplecalculator_test.go:50-59 | "3/2" parses to 3, 2, "/" |
| SimpleExamples.ParseTwoSigns | pkg/simplecalculator/simplecalculator_test.go:60-71 | "3++2" and "3+2-3*4" are rejected as having more than one sign |
| SimpleExamples.ParseNoSign | pkg/simplecalculator/simplecalculator_test.go:72-77 | "3" is rejected as having no sign |
| SimpleExamples.ParseFirstNotANumber | pkg/simplecalculator/simplecalculator_test.go:78-83 | "aa*2" is rejected because its first argument does not parse |
| SimpleExamples.ParseNeitherANumber | pkg/simplecalculator/simplecalculator_test.go:84-89 | for "aa+bb" the first argument is the one reported |
| SimpleExamples.ParseSecondNotANumber | pkg/simplecalculator/simplecalculator_test.go:90-95 | "2+bb" is rejected because its second argument does not parse |
| SimpleExamples.CalculateSigns | pkg/simplecalculator/simplecalculator_test.go:126-167 | the four signs compute 5.1, 0.5, 6 and 2.5 |
| SimpleExamples.CalculateUnknownOperator | pkg/simplecalculator/simplecalculator_test.go:168-187 | "++" and "" are calculation errors |
| Calculator.Calculate | pkg/calculator/calculator.go:29-37 | a parse error is returned unchanged; otherwise the result is the parsed operation's own result or error |
| Calculator.New | pkg/calculator/calculator.go:23-26 | the calculator built from a parser answers every input as `Calculate` with that parser |
| Calculator.CalculateErrors | pkg/calculator/calculator_test.go:72-91 | a failure of a built calculator is the parser's error or the operation's own, never one of its own |
| Calculator.TrimLeft | pkg/calculator/middleware.go:38 | removes exactly the leading whitespace: the rest is a suffix that starts with a non-space |
| Calculator.TrimRight | pkg/calculator/middleware.go:38 | removes exactly the trailing whitespace: the rest is a prefix that ends with a non-space |
| Calculator.TrimSpaceEmpty | pkg/calculator/middleware.go:38-40 | trimming leaves nothing exactly when the input is all whitespace |
| Calculator.BlankIffSpaces | pkg/calculator/middleware.go:29-40 | input that matches the pattern is blank exactly when it is all spaces |
| Calculator.ValidateMiddleware | pkg/calculator/middleware.go:18-22 | wrapping a calculator answers every input as `Validate` does |
| Calculator.ValidateSpec | pkg/calculator/middleware.go:28-43 | a character outside `[ 0-9+()^\-*/.]` is an InputError; all-space input gives 0; anything else is the next calculator's answer, unchanged |
| Calculator.ValidatePassesOn | pkg/calculator/middleware_test.go:28-45 | "2+2" is handed to the next calculator, and its result or error comes back unchanged |
| Calculator.ValidateStops | pkg/calculator/middleware_test.go:46-63 | "" gives 0 and "2a+2" gives the InputError, whatever the next calculator would say |
| Calculator.LoggingMiddleware | pkg/calculator/middleware.go:57-60 | the logging middleware answers as the calculator it wraps |
| Calculator.CalculateSimple | pkg/calculator/simplecalculator.go:63-76 | succeeds exactly for `+ * - /`; otherwise fails with "Calculation error" |
| Calculator.SimpleParse | pkg/calculator/simplecalculator.go:19-61 | fails exactly when the parse fails, with the same error; the operation it returns calculates as `simpleOperation.calculate` |
| Calculator.SimpleCopiesAgree | pkg/calculator/simplecalculator.go:19-76 | the `pkg/calculator` copy and the `pkg/simplecalculator` copy give the same errors, the same arguments and sign, and the same results |
| Calculator.ServerIsSimple | cmd/server/server.go:28-30 | on validated, non-blank input the service answers what the simple calculator computes |
| Calculator.ServerErrors | cmd/server/server.go:28-30 | the service fails with an InputError exactly for a disallowed character, and otherwise only with a ParsingError |
| Calculator.ServerOneSign | cmd/server/server.go:28-30 | one sign between two numbers, in allowed characters, gives the sign applied to the numbers |
| Calculator.SignCalculates | pkg/simplecalculator/simplecalculator.go:64-77 | each sign is applied as its arithmetic operation |
| Calculator.InfixParse | pkg/reversepolish/postfixparser.go:32-92 | as a parser, `ParseInfix` fails exactly when the conversion fails, with its error; the operation it returns has no unconverted number and calculates as the RPN evaluator |
| Calculator.CliIsRpn | cmd/cli/cli.go:58-59 | on validated, non-blank input the command answers the conversion error, or the evaluation of the converted items |
| Calculator.CliErrors | cmd/cli/cli.go:58-59 | the command fails with an InputError exactly for a disallowed character, and otherwise with a ParsingError or a CalculationError |
| Calculator.CliLexErrorIsDot | pkg/calculator/middleware.go:29-36 | after validation, a lexer error can only be a misplaced or second dot; the command answers the lexer's text as a ParsingError when every `)` before it closes an open `(`, and the mismatch error otherwise |
| Calculator.CliExponentFails | cmd/cli/cli.go:58-59 | every validated input whose items hold a `^` fails, with a CalculationError once conversion succeeds |
| Calculator.CliMixed | cmd/cli/cli.go:58-59 | the command answers -9 for "1-2*3+4" |

## Left out

- The lexer's goroutine and channel: the scanner runs to completion when it is created, and `NextItem` reads the items in order. Concurrency is not modelled.
- Characters are modelled one position each, as for ASCII input. `unicode.IsDigit` and `unicode.IsSpace` are restricted to ASCII, and multi-byte runes are not modelled. After validation only ASCII reaches the lexer.
- Calculator.TrimSpace: strips only ASCII whitespace, not Go's other Unicode spaces. Input reaching it has passed the pattern, whose only whitespace is the space.
- Float.Num: numbers are exact reals with infinities and NaN. There is no float64 rounding, no signed zero and no overflow.
- Float.ParseFloat: exponents, `inf`/`nan`, hexadecimal forms and underscores are not modelled. Each of these needs a letter, which the middleware rejects.
- Float.ParseFloat: range errors are not modelled. A literal beyond the float64 range, such as `1` followed by 309 zeros, uses only allowed characters and passes validation. Go's `strconv.ParseFloat` rejects it with `ErrRange`, so `parseNumber` (postfixparser.go:99-102) and both simple parsers answer a ParsingError. The model accepts it as an exact number, so `PostfixProperties.ScannedNumberParses`, `Calculator.ServerOneSign` and both pipelines answer a number there.
- CalcErrors.Quote: characters beyond ASCII are written as themselves. Go's `strconv.Quote` escapes the non-printable ones as `\u` or `\U` sequences. Non-ASCII text reaches the quoting only when a simple parser is called directly, without the validating middleware in front of it.
- Float.FormatF: `%f` rounds half up on the exact value. Go rounds the float64 value correctly.
- Regular-expression compile errors (`Validation regex failure`, pkg/calculator/middleware.go:30-32 and pkg/simplecalculator/simplecalculator.go:23-25, with its copy in pkg/calculator/simplecalculator.go) cannot happen with the constant patterns, so those branches are not modelled.
- PostfixParser.Step: the `invalid item returned from lexer` branch (postfixparser.go:79-80) is not reachable, because the earlier cases cover every item type the lexer sends.
- The 0 returned alongside every Go error is not modelled: a `Failure` carries only the error.
- `simplecalculator.NewOperation` (used at pkg/reversepolish/calculator.go:32) is not part of this model. The binary step applies `simpleOperation.Calculate` of the same package, which has no `^` case.
- `rpnOperation` declares `Calculate`, but `OperationInterface` asks for an unexported `calculate`. The command-line pipeline is modelled as cmd/cli/cli.go evidently intends: the items are evaluated by the RPN evaluator.
- RpnCalculator.Eval: requires that no unconverted Number item remains. In Go such an item would make the type assertion at calculator.go:40 panic, and `ParseInfix` never produces one (`Calculator.InfixParse`).
- The logging middleware's log line, the HTTP transport, endpoints and JSON encoding (transport.go, endpoint.go, error.go and `MarshalJSON` in errors.go) are I/O and are not modelled.
- Reading the CLI input (`getInput`, inputreader.go) and the panic on error in cli.go are I/O and are not modelled.
- PostfixParser.HandleItem: the body of the `ParseInfix` loop is its own method, so that each proof stays small.
- PostfixFindings.TextbookConvert: the intended conversion is modelled beside the as-written one. The pipelines use the code as written.

## Findings

| source | as written | input that shows it | evidently intended | confidence | as-written member | corrected member |
|---|---|---|---|---|---|---|
| pkg/reversepolish/postfixparser.go:49-68 | The operator loop ends with an unconditional `break`. An incoming operator therefore pops at most one stacked operator, even when the next one down should also be popped. | `1-2*3+4` converts to `1 2 3 * 4 + -`, the command answers -9, and the value is -1 | Shunting-yard pops every stacked operator of higher precedence, or of equal precedence when the incoming operator is left-associative: `1 2 3 * - 4 +`, which is -1 | not executed | PostfixFindings.MixedMisconverted | PostfixFindings.MixedTextbook |
