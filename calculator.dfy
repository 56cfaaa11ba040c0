/** pkg/calculator: the calculator that parses and then calculates (calculator.go), the middleware
    that validates its input (middleware.go), the package's own copy of the simple two-argument
    parser (simplecalculator.go), and the two services the commands assemble from them
    (cmd/cli/cli.go, cmd/server/server.go). A Go interface value is modelled by what its one
    method returns: a `Calculator` is a function from input to outcome, an operation is the
    outcome of its `calculate`. The context arguments carry nothing any of these read. */
module Calculator {
  import opened Wrappers
  import opened Float
  import opened Text
  import opened CalcErrors
  import opened Lexer
  import opened PostfixParser
  import LexerProperties
  import PostfixProperties
  import Rpn = RpnCalculator
  import RpnProperties
  import Simple = SimpleCalculator
  import SimpleProperties
  import PostfixExamples
  import PostfixFindings

  // ---------------------------------------------------------------------------------------------
  // calculator.go

  /** `OperationInterface`: a parsed operation, known by what its `calculate` returns. */
  datatype Operation = Operation(calculate: () -> Outcome<Num>)

  /** `parser`: the text to an operation, or the error that stopped parsing. */
  type Parser = string -> Outcome<Operation>

  /** The `Calculator` interface: what `Calculate` returns for each input. */
  type Calculator = string -> Outcome<Num>

  /** `calculator.Calculate`: parse; a parse error is returned as it is, otherwise the parsed
      operation is calculated and its result, or its error, is returned. */
  function Calculate(parse: Parser, input: string): (r: Outcome<Num>)
    ensures parse(input).Failure? ==> r == Failure(parse(input).error)
    ensures parse(input).Success? ==> r == parse(input).value.calculate()
  {
    match parse(input)
    case Failure(e) => Failure(e)
    case Success(operation) => operation.calculate()
  }

  /** `New`: the calculator that parses with `parsingFunc`. */
  function New(parsingFunc: Parser): (c: Calculator)
    ensures forall input :: c(input) == Calculate(parsingFunc, input)
  {
    input => Calculate(parsingFunc, input)
  }

  /** What a calculator built by `New` can fail with: the parser's errors and the operations'. */
  lemma CalculateErrors(parse: Parser, input: string)
    requires New(parse)(input).Failure?
    ensures || (parse(input).Failure? && New(parse)(input).error == parse(input).error)
            || (parse(input).Success? && parse(input).value.calculate() == New(parse)(input))
  {
  }

  // ---------------------------------------------------------------------------------------------
  // middleware.go

  /** The characters of the class in `^[ 0-9+\(\)\^\-*\/\.]*$`. */
  predicate Allowed(c: char) {
    c == ' ' || IsDigit(c) || c in "+()^-*/."
  }

  /** The pattern is anchored at both ends: every character must be in the class. */
  predicate AllAllowed(s: string) {
    forall i :: 0 <= i < |s| ==> Allowed(s[i])
  }

  const InvalidCharacters := "Invalid characters in input string"

  /** Leading whitespace removed: what is left starts with a non-space. */
  function TrimLeft(s: string): (t: string)
    ensures |t| <= |s| && t == s[|s| - |t|..]
    ensures forall i :: 0 <= i < |s| - |t| ==> IsSpace(s[i])
    ensures t == [] || !IsSpace(t[0])
  {
    if s != [] && IsSpace(s[0]) then TrimLeft(s[1..]) else s
  }

  /** Trailing whitespace removed: what is left ends with a non-space. */
  function TrimRight(s: string): (t: string)
    ensures |t| <= |s| && t == s[..|t|]
    ensures forall i :: |t| <= i < |s| ==> IsSpace(s[i])
    ensures t == [] || !IsSpace(t[|t| - 1])
  {
    if s != [] && IsSpace(s[|s| - 1]) then TrimRight(s[..|s| - 1]) else s
  }

  /** `strings.TrimSpace`: leading and trailing whitespace removed. */
  function TrimSpace(s: string): string {
    TrimRight(TrimLeft(s))
  }

  /** Trimming leaves nothing exactly when the text is all whitespace. */
  lemma TrimSpaceEmpty(s: string)
    ensures TrimSpace(s) == [] <==> forall i :: 0 <= i < |s| ==> IsSpace(s[i])
  {
    var l := TrimLeft(s);
    if TrimSpace(s) == [] {
      assert l == [];
    } else {
      var t := TrimSpace(s);
      assert l[0] == t[0] && !IsSpace(l[0]);
      assert s[|s| - |l|] == l[0];
    }
  }

  /** The space is the only whitespace the pattern admits: input that passed the pattern is blank
      exactly when it is all spaces. */
  lemma BlankIffSpaces(s: string)
    requires AllAllowed(s)
    ensures TrimSpace(s) == [] <==> forall i :: 0 <= i < |s| ==> s[i] == ' '
  {
    TrimSpaceEmpty(s);
    forall i | 0 <= i < |s| ensures IsSpace(s[i]) <==> s[i] == ' ' {
      AllowedSpace(s[i]);
    }
  }

  lemma AllowedSpace(c: char)
    requires Allowed(c)
    ensures IsSpace(c) <==> c == ' '
  {
  }

  /** `validateMiddleware.Calculate`: reject a character outside the pattern, answer 0 for blank
      input, and hand anything else to the next calculator. */
  function Validate(next: Calculator, input: string): (r: Outcome<Num>) {
    if !AllAllowed(input) then Failure(NewInputError(InvalidCharacters))
    else if TrimSpace(input) == [] then Success(Finite(0.0))
    else next(input)
  }

  /** `ValidateMiddleware()(next)`. */
  function ValidateMiddleware(next: Calculator): (c: Calculator)
    ensures forall input :: c(input) == Validate(next, input)
  {
    input => Validate(next, input)
  }

  /** What validation does, stated without trimming: the next calculator is consulted exactly for
      input made of allowed characters that are not all spaces, and its answer is passed on as it
      is; otherwise the answer does not depend on it. */
  lemma ValidateSpec(next: Calculator, input: string)
    ensures !AllAllowed(input) ==> Validate(next, input) == Failure(NewInputError(InvalidCharacters))
    ensures AllAllowed(input) && (forall i :: 0 <= i < |input| ==> input[i] == ' ') ==>
      Validate(next, input) == Success(Finite(0.0))
    ensures AllAllowed(input) && (exists i :: 0 <= i < |input| && input[i] != ' ') ==>
      Validate(next, input) == next(input)
  {
    if AllAllowed(input) {
      BlankIffSpaces(input);
    }
  }

  /** The first two cases of middleware_test.go: "2+2" goes to the next calculator, whose result
      or error comes back unchanged. */
  lemma ValidatePassesOn(next: Calculator)
    ensures Validate(next, "2+2") == next("2+2")
  {
    var s := "2+2";
    assert Allowed(s[0]) && Allowed(s[1]) && Allowed(s[2]);
    assert s[0] != ' ';
    ValidateSpec(next, s);
  }

  /** The last two cases of middleware_test.go: "" gives 0 and "2a+2" is an InputError, whatever
      the next calculator would say. */
  lemma ValidateStops(next: Calculator)
    ensures Validate(next, "") == Success(Finite(0.0))
    ensures Validate(next, "2a+2") == Failure(NewInputError(InvalidCharacters))
  {
    var bad := "2a+2";
    assert !Allowed(bad[1]);
  }

  /** `loggingMiddleware.Calculate`: logs the input, then hands it on unchanged. */
  function LoggingMiddleware(next: Calculator): (c: Calculator)
    ensures forall input :: c(input) == next(input)
  {
    input => next(input)
  }

  // ---------------------------------------------------------------------------------------------
  // simplecalculator.go (the copy in pkg/calculator)

  /** `simpleOperation` of pkg/calculator: the sign is kept in a field named `operand`. */
  datatype SimpleOperation = SimpleOperation(arg1: Num, arg2: Num, operand: string)

  /** `SimpleParse`, as far as it finds the operation: reject two signs, pick the sign, split on
      it and parse the first two pieces. */
  function ParseSimple(input: string): Outcome<SimpleOperation> {
    if Simple.MultipleSigns(input) then Failure(NewParsingError("Operation contains more than one operation sign"))
    else match Simple.PickedSign(input)
      case None => Failure(NewParsingError("Operation does not contain operation sign"))
      case Some(c) =>
        var args := Simple.Split(input, c);
        match ParseFloat(args[0])
        case None =>
          Failure(NewParsingErrorWrap(ParseFloatFailure(args[0]), "First operation argument could not be parsed to number"))
        case Some(arg1) =>
          match ParseFloat(args[1])
          case None =>
            Failure(NewParsingErrorWrap(ParseFloatFailure(args[1]), "Second operation argument could not be parsed to number"))
          case Some(arg2) => Success(SimpleOperation(arg1, arg2, [c]))
  }

  /** `simpleOperation.calculate`: `+ * - /` applied to the arguments; any other operand is a
      CalculationError. */
  function CalculateSimple(operation: SimpleOperation): (r: Outcome<Num>)
    ensures r.Success? <==> operation.operand in {"+", "*", "-", "/"}
    ensures r.Failure? ==> r.error == NewCalculationError("Calculation error")
  {
    match operation.operand
    case "+" => Success(Add(operation.arg1, operation.arg2))
    case "*" => Success(Mul(operation.arg1, operation.arg2))
    case "-" => Success(Sub(operation.arg1, operation.arg2))
    case "/" => Success(Div(operation.arg1, operation.arg2))
    case _ => Failure(NewCalculationError("Calculation error"))
  }

  /** `SimpleParse` as a `parser`: the operation it returns calculates as `simpleOperation` does. */
  function SimpleParse(input: string): (r: Outcome<Operation>)
    ensures r.Failure? <==> ParseSimple(input).Failure?
    ensures r.Failure? ==> r.error == ParseSimple(input).error
    ensures r.Success? ==> r.value.calculate() == CalculateSimple(ParseSimple(input).value)
  {
    match ParseSimple(input)
    case Failure(e) => Failure(e)
    case Success(operation) => Success(Operation(() => CalculateSimple(operation)))
  }

  /** The two copies of the simple calculator agree: the same errors, the same arguments and sign,
      the same results. */
  lemma SimpleCopiesAgree(input: string)
    ensures ParseSimple(input).Failure? <==> Simple.Parse(input).Failure?
    ensures ParseSimple(input).Failure? ==> ParseSimple(input).error == Simple.Parse(input).error
    ensures ParseSimple(input).Success? ==>
      var p, q := ParseSimple(input).value, Simple.Parse(input).value;
      && p.arg1 == q.arg1 && p.arg2 == q.arg2 && p.operand == q.operator
      && CalculateSimple(p) == Simple.Calculate(q)
  {
  }

  // ---------------------------------------------------------------------------------------------
  // The HTTP service: cmd/server/server.go

  /** `New(SimpleParse)`, wrapped in the logging and then the validating middleware. */
  function Server(): Calculator {
    ValidateMiddleware(LoggingMiddleware(New(SimpleParse)))
  }

  /** The service's answer to input that passed validation: the simple calculator's. */
  lemma ServerIsSimple(input: string)
    requires AllAllowed(input) && exists i :: 0 <= i < |input| && input[i] != ' '
    ensures Simple.Parse(input).Failure? ==> Server()(input) == Failure(Simple.Parse(input).error)
    ensures Simple.Parse(input).Success? ==> Server()(input) == Simple.Calculate(Simple.Parse(input).value)
  {
    ValidateSpec(LoggingMiddleware(New(SimpleParse)), input);
    SimpleCopiesAgree(input);
  }

  /** The service fails with an InputError exactly for a character outside the pattern, and
      otherwise only with a ParsingError: an operation it parsed always calculates. */
  lemma ServerErrors(input: string)
    ensures Server()(input).Failure? && Server()(input).error.category == InputError <==> !AllAllowed(input)
    ensures Server()(input).Failure? && AllAllowed(input) ==> Server()(input).error.category == ParsingError
  {
    ValidateSpec(LoggingMiddleware(New(SimpleParse)), input);
    if AllAllowed(input) && exists i :: 0 <= i < |input| && input[i] != ' ' {
      ServerIsSimple(input);
      SimpleProperties.ParseFailsWithParsingError(input);
      if Simple.Parse(input).Success? {
        SimpleProperties.ParsedOperationCalculates(input);
      }
    }
  }

  /** One sign between two numbers, in allowed characters: the service answers with the sign
      applied to the numbers. */
  lemma ServerOneSign(a: string, c: char, b: string)
    requires Simple.IsOperationSign(c) && Simple.NoSigns(a) && Simple.NoSigns(b)
    requires ParseFloat(a).Some? && ParseFloat(b).Some?
    requires AllAllowed(a + [c] + b)
    ensures Server()(a + [c] + b) == Success(RpnProperties.Combine(c, ParseFloat(a).value, ParseFloat(b).value))
  {
    var s := a + [c] + b;
    assert s[|a|] == c && c != ' ';
    var x, y := ParseFloat(a).value, ParseFloat(b).value;
    SimpleProperties.ParseOneSign(a, c, b);
    assert Simple.Parse(s) == Success(Simple.SimpleOperation(x, y, [c]));
    ServerIsSimple(s);
    SignCalculates(c, x, y);
  }

  /** The simple calculator applies a sign as the sign's arithmetic. */
  lemma SignCalculates(c: char, x: Num, y: Num)
    requires Simple.IsOperationSign(c)
    ensures Simple.Calculate(Simple.SimpleOperation(x, y, [c])) == Success(RpnProperties.Combine(c, x, y))
  {
  }

  // ---------------------------------------------------------------------------------------------
  // The command-line calculator: cmd/cli/cli.go

  /** Converted output never holds an unconverted number. */
  lemma OutShapeHasNoRawNumber(out: seq<RpnItem>)
    requires PostfixProperties.OutShape(out)
    ensures Rpn.NoRawNumber(out)
  {
    forall j | 0 <= j < |out| ensures !(out[j].Plain? && out[j].item.typ == Number) {
      assert out[j].Plain? ==> IsMathOperator(out[j].item);
    }
  }

  /** `ParseInfix` as a `parser`: what `ParseInfix` computes, with the RPN evaluation of the items
      as the operation's calculation. */
  function InfixParse(input: string): (r: Outcome<Operation>)
    ensures r.Failure? <==> Convert(Scan(input)).Failure?
    ensures r.Failure? ==> r.error == Convert(Scan(input)).error
    ensures r.Success? ==> Rpn.NoRawNumber(Convert(Scan(input)).value)
    ensures r.Success? ==> r.value.calculate() == Rpn.Eval(Convert(Scan(input)).value)
  {
    match Convert(Scan(input))
    case Failure(e) => Failure(e)
    case Success(items) =>
      ScanHasNoEmptyItem(input);
      PostfixProperties.ConvertSpec(Scan(input));
      OutShapeHasNoRawNumber(items);
      Success(Operation(() => Rpn.Eval(items)))
  }

  /** `New(ParseInfix)` wrapped in the validating middleware. */
  function Cli(): Calculator {
    ValidateMiddleware(New(InfixParse))
  }

  /** The command's answer to input that passed validation: the converted items, evaluated. */
  lemma CliIsRpn(input: string)
    requires AllAllowed(input) && exists i :: 0 <= i < |input| && input[i] != ' '
    ensures Convert(Scan(input)).Failure? ==> Cli()(input) == Failure(Convert(Scan(input)).error)
    ensures Convert(Scan(input)).Success? ==>
      Rpn.NoRawNumber(Convert(Scan(input)).value) && Cli()(input) == Rpn.Eval(Convert(Scan(input)).value)
  {
    ValidateSpec(New(InfixParse), input);
  }

  /** The command fails with an InputError exactly for a character outside the pattern, and
      otherwise with a ParsingError from conversion or a CalculationError from evaluation. */
  lemma CliErrors(input: string)
    ensures Cli()(input).Failure? && Cli()(input).error.category == InputError <==> !AllAllowed(input)
    ensures Cli()(input).Failure? && AllAllowed(input) ==>
      Cli()(input).error.category in {ParsingError, CalculationError}
  {
    ValidateSpec(New(InfixParse), input);
    if AllAllowed(input) && exists i :: 0 <= i < |input| && input[i] != ' ' {
      CliIsRpn(input);
      PostfixProperties.ConvertFailsWithParsingError(Scan(input));
      if Convert(Scan(input)).Success? {
        RpnProperties.EvalFailsWithCalculationError(Convert(Scan(input)).value);
      }
    }
  }

  /** Of the characters the pattern admits, only the dot can stop the scanner: a lexer error in
      validated input is a misplaced or second dot. It comes back as a ParsingError carrying the
      scanner's text when every `)` before it closes an open `(`; otherwise the unmatched `)`
      fails first, with the mismatch error. */
  lemma CliLexErrorIsDot(input: string) returns (p: nat, t: string)
    requires AllAllowed(input) && LexerProperties.HasError(Scan(input))
    ensures p < |input| && input[p] == '.'
    ensures Scan(input)[|Scan(input)| - 1] == ErrorItem(p, t)
    ensures PostfixProperties.ClosesOnlyOpened(Scan(input)) ==>
      Cli()(input) == Failure(NewParsingError(ErrorItem(p, t).value))
    ensures !PostfixProperties.ClosesOnlyOpened(Scan(input)) ==>
      Cli()(input) == Failure(NewParsingError(Mismatched))
  {
    p, t := LexerProperties.ErrorCause(input);
    assert Allowed(input[p]) && !LexerProperties.Lexable(input[p]);
    assert input[p] != ' ';
    CliIsRpn(input);
    PostfixProperties.LexerErrorIsParsingError(input);
  }

  /** `^` passes validation and the converter, but the evaluator has no case for it: every input
      whose items hold a `^` fails, with a CalculationError once conversion succeeds. */
  lemma CliExponentFails(input: string)
    requires AllAllowed(input)
    requires exists j :: 0 <= j < |Scan(input)| && Scan(input)[j].typ == Exponent
    ensures Cli()(input).Failure?
    ensures Convert(Scan(input)).Success? ==> Cli()(input).error.category == CalculationError
  {
    var toks := Scan(input);
    var j :| 0 <= j < |toks| && toks[j].typ == Exponent;
    if forall i :: 0 <= i < |input| ==> input[i] == ' ' {
      LexerProperties.BlankScansEmpty(input, 0);
      assert false;
    }
    CliIsRpn(input);
    if Convert(toks).Success? {
      var m := PostfixProperties.ExponentConverted(input, j);
      RpnProperties.ExponentNeverEvaluates(Convert(toks).value);
    }
  }

  /** End to end, the conversion error of `ParseInfix` shows: the command answers -9 for
      `1-2*3+4`, whose value is -1. */
  lemma CliMixed(s: string)
    requires s == PostfixExamples.Mixed
    ensures Cli()(s) == Success(Finite(-9.0))
  {
    PostfixExamples.MixedTextHolds(s);
    assert AllAllowed(s) && s[0] != ' ';
    CliIsRpn(s);
    PostfixFindings.MixedMisconverted(s);
  }
}
