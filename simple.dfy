/** pkg/simplecalculator/simplecalculator.go: a parser for "<number><sign><number>" and the switch
    that applies the sign. The regular expression and `strings.Split` it relies on are modelled
    here as explicit functions. */
module SimpleCalculator {
  import opened Wrappers
  import opened Float
  import opened CalcErrors

  /** The signs `+ - / *` of the character class `[\+\-\/\*]`. */
  predicate IsOperationSign(c: char) {
    c == '+' || c == '-' || c == '/' || c == '*'
  }

  predicate NoSigns(s: string) {
    forall k :: 0 <= k < |s| ==> !IsOperationSign(s[k])
  }

  predicate NoNewlineBetween(s: string, i: int, j: int) {
    forall m :: i < m < j && 0 <= m < |s| ==> s[m] != '\n'
  }

  /** `regexp.MatchString(".*[\\+\\-\\/\\*]+.*[\\+\\-\\/\\*]+.*", s)`: the match need not be anchored,
      and `.` matches anything but a newline, so it holds exactly when two signs occur with no
      newline between them. */
  predicate MultipleSigns(s: string) {
    exists i, j :: 0 <= i < j < |s| && IsOperationSign(s[i]) && IsOperationSign(s[j]) && NoNewlineBetween(s, i, j)
  }

  /** The inverse of `Split`: the parts with `c` between each two. */
  function Join(parts: seq<string>, c: char): string
    requires |parts| >= 1
  {
    if |parts| == 1 then parts[0] else parts[0] + [c] + Join(parts[1..], c)
  }

  /** `strings.Split(s, string(c))`: the pieces between the occurrences of `c`, one more than there
      are occurrences; `Split("", c)` is `[""]`. */
  function Split(s: string, c: char): (parts: seq<string>)
    ensures |parts| >= 1 && Join(parts, c) == s
    ensures forall k :: 0 <= k < |parts| ==> c !in parts[k]
    ensures c in s ==> |parts| >= 2
  {
    if s == [] then [[]]
    else
      var rest := Split(s[1..], c);
      if s[0] == c then
        assert s == [] + [c] + Join(rest, c);
        [[]] + rest
      else
        var parts := [[s[0]] + rest[0]] + rest[1..];
        assert parts[1..] == rest[1..];
        assert Join(parts, c) == s by {
          if |rest| > 1 {
            assert rest == [rest[0]] + rest[1..];
          }
        }
        assert forall k :: 1 <= k < |parts| ==> parts[k] == rest[k];
        parts
  }

  /** The switch at simplecalculator.go:36-51: the first of `+ * - /` the input contains. */
  function PickedSign(input: string): (c: Option<char>)
    ensures c.Some? ==> IsOperationSign(c.value) && c.value in input
    ensures c.None? <==> forall k :: 0 <= k < |input| ==> !IsOperationSign(input[k])
  {
    if '+' in input then Some('+')
    else if '*' in input then Some('*')
    else if '-' in input then Some('-')
    else if '/' in input then Some('/')
    else None
  }

  /** `simpleOperation`. */
  datatype SimpleOperation = SimpleOperation(arg1: Num, arg2: Num, operator: string)

  /** `Parse`: reject two signs, pick the sign, split on it and parse the first two pieces. */
  function Parse(input: string): Outcome<SimpleOperation> {
    if MultipleSigns(input) then Failure(NewParsingError("Operation contains more than one operation sign"))
    else match PickedSign(input)
      case None => Failure(NewParsingError("Operation does not contain operation sign"))
      case Some(c) =>
        var args := Split(input, c);
        match ParseFloat(args[0])
        case None =>
          Failure(NewParsingErrorWrap(ParseFloatFailure(args[0]), "First operation argument could not be parsed to number"))
        case Some(arg1) =>
          match ParseFloat(args[1])
          case None =>
            Failure(NewParsingErrorWrap(ParseFloatFailure(args[1]), "Second operation argument could not be parsed to number"))
          case Some(arg2) => Success(SimpleOperation(arg1, arg2, [c]))
  }

  /** `simpleOperation.Calculate`: `+ * - /` applied to the arguments; any other operator is a
      CalculationError. */
  function Calculate(operation: SimpleOperation): (r: Outcome<Num>)
    ensures r.Success? <==> operation.operator in {"+", "*", "-", "/"}
    ensures r.Failure? ==> r.error == NewCalculationError("Calculation error")
  {
    match operation.operator
    case "+" => Success(Add(operation.arg1, operation.arg2))
    case "*" => Success(Mul(operation.arg1, operation.arg2))
    case "-" => Success(Sub(operation.arg1, operation.arg2))
    case "/" => Success(Div(operation.arg1, operation.arg2))
    case _ => Failure(NewCalculationError("Calculation error"))
  }
}
