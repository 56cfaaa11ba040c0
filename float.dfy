/** Go's float64 as far as the calculator uses it: the four arithmetic operations with IEEE 754
    infinities and NaN, `strconv.ParseFloat` on decimal literals, and `%f` formatting.
    Finite values are exact reals: rounding to 53 bits and signed zero are not modelled. */
module Float {
  import opened Wrappers
  import opened Text

  datatype Num = Finite(r: real) | PosInf | NegInf | NaN

  function Neg(a: Num): Num {
    match a
    case Finite(x) => Finite(-x)
    case PosInf => NegInf
    case NegInf => PosInf
    case NaN => NaN
  }

  function Add(a: Num, b: Num): Num {
    match (a, b)
    case (Finite(x), Finite(y)) => Finite(x + y)
    case (NaN, _) => NaN
    case (_, NaN) => NaN
    case (PosInf, NegInf) => NaN
    case (NegInf, PosInf) => NaN
    case (PosInf, _) => PosInf
    case (NegInf, _) => NegInf
    case (_, PosInf) => PosInf
    case (_, NegInf) => NegInf
  }

  function Sub(a: Num, b: Num): Num {
    Add(a, Neg(b))
  }

  /** -1, 0 or 1 for a non-NaN value. */
  function Sign(a: Num): int
    requires !a.NaN?
  {
    match a
    case Finite(x) => if x < 0.0 then -1 else if x == 0.0 then 0 else 1
    case PosInf => 1
    case NegInf => -1
  }

  function InfWithSign(s: int): Num {
    if s < 0 then NegInf else PosInf
  }

  function Mul(a: Num, b: Num): Num {
    match (a, b)
    case (Finite(x), Finite(y)) => Finite(x * y)
    case (NaN, _) => NaN
    case (_, NaN) => NaN
    case _ => if Sign(a) == 0 || Sign(b) == 0 then NaN else InfWithSign(Sign(a) * Sign(b))
  }

  /** Division; a zero divisor is taken as +0, so x/0 is +Inf for x > 0, -Inf for x < 0 and NaN for x = 0. */
  function Div(a: Num, b: Num): Num {
    match (a, b)
    case (Finite(x), Finite(y)) =>
      if y != 0.0 then Finite(x / y)
      else if x == 0.0 then NaN
      else InfWithSign(Sign(a))
    case (NaN, _) => NaN
    case (_, NaN) => NaN
    case (Finite(_), _) => Finite(0.0)
    case (_, Finite(y)) => InfWithSign(if y == 0.0 then Sign(a) else Sign(a) * Sign(b))
    case _ => NaN
  }

  /** Dividing a finite number by zero is not an error: it yields a non-finite value. */
  lemma DivisionByZeroIsNotFinite(x: real)
    ensures !Div(Finite(x), Finite(0.0)).Finite?
    ensures Div(Finite(x), Finite(0.0)).NaN? <==> x == 0.0
  {
  }

  function CountChar(s: string, c: char): nat {
    if s == [] then 0 else (if s[0] == c then 1 else 0) + CountChar(s[1..], c)
  }

  /** A decimal literal: digits with at most one '.', and at least one digit ("5.", ".5" and "5" are all accepted). */
  predicate IsDecimal(s: string) {
    && (forall i :: 0 <= i < |s| ==> IsDigit(s[i]) || s[i] == '.')
    && CountChar(s, '.') <= 1
    && exists i :: 0 <= i < |s| && IsDigit(s[i])
  }

  /** The digits of a decimal literal, the dot left out. */
  function DigitsOf(s: string): (d: string)
    requires forall i :: 0 <= i < |s| ==> IsDigit(s[i]) || s[i] == '.'
    ensures AllDigits(d)
  {
    if s == [] then []
    else if s[0] == '.' then DigitsOf(s[1..])
    else [s[0]] + DigitsOf(s[1..])
  }

  /** How many characters follow the dot (0 without a dot). */
  function FractionLength(s: string): nat {
    if s == [] then 0 else if s[0] == '.' then |s| - 1 else FractionLength(s[1..])
  }

  function Pow10(n: nat): (p: nat)
    ensures p > 0
  {
    if n == 0 then 1 else 10 * Pow10(n - 1)
  }

  /** The exact value of a decimal literal. */
  function DecimalValue(s: string): real
    requires IsDecimal(s)
  {
    (DigitsValue(DigitsOf(s)) as real) / (Pow10(FractionLength(s)) as real)
  }

  predicate IsSign(c: char) {
    c == '+' || c == '-'
  }

  /** `strconv.ParseFloat(s, 64)` for an optionally signed decimal literal; any other text is a syntax error. */
  function ParseFloat(s: string): (r: Option<Num>)
    ensures r.Some? ==> r.value.Finite?
    ensures r.Some? ==> forall i :: 0 <= i < |s| ==> s[i] != '\n' && (i > 0 ==> !IsSign(s[i]))
    ensures r.Some? ==> forall i :: 0 <= i < |s| ==> s[i] != '*' && s[i] != '/'
    ensures IsDecimal(s) ==> r == Some(Finite(DecimalValue(s)))
  {
    if s != [] && IsSign(s[0]) then
      var u := s[1..];
      if IsDecimal(u) then
        assert forall i :: 0 < i < |s| ==> s[i] == u[i - 1];
        Some(Finite(if s[0] == '-' then -DecimalValue(u) else DecimalValue(u)))
      else None
    else if IsDecimal(s) then Some(Finite(DecimalValue(s)))
    else None
  }

  /** A single digit parses to its value. */
  lemma OneDigit(d: char)
    requires IsDigit(d)
    ensures ParseFloat([d]) == Some(Finite(DigitValue(d) as real))
  {
    var s := [d];
    assert s[1..] == [];
    assert CountChar(s, '.') == 0;
    assert IsDigit(s[0]);
    assert DigitsOf(s) == [d];
    assert [d][..0] == [];
    assert DigitsValue([d]) == DigitValue(d);
    assert FractionLength(s) == 0;
  }

  /** "d.e" parses to d + e/10. */
  lemma DigitDotDigit(d: char, e: char)
    requires IsDigit(d) && IsDigit(e)
    ensures ParseFloat([d, '.', e]) == Some(Finite((DigitValue(d) * 10 + DigitValue(e)) as real / 10.0))
  {
    var s := [d, '.', e];
    assert s[1..] == ['.', e] && s[1..][1..] == [e] && [e][1..] == [];
    assert CountChar([e], '.') == 0;
    assert CountChar(s[1..], '.') == 1;
    assert CountChar(s, '.') == 1;
    assert IsDigit(s[0]);
    assert DigitsOf([e]) == [e];
    assert DigitsOf(s[1..]) == [e];
    assert DigitsOf(s) == [d, e];
    assert [d, e][..1] == [d] && [d][..0] == [];
    assert DigitsValue([d]) == DigitValue(d);
    assert DigitsValue([d, e]) == DigitValue(d) * 10 + DigitValue(e);
    assert Pow10(1) == 10;
    assert FractionLength(s) == 1;
  }

  /** Text starting with a letter is a syntax error. */
  lemma LetterDoesNotParse(s: string)
    requires |s| > 0 && 'a' <= s[0] <= 'z'
    ensures ParseFloat(s) == None
  {
    assert !IsDecimal(s);
  }

  /** `%s` applied to the six-digit fractional part: zero-padded on the left. */
  function PadLeft6(s: string): string
    decreases 6 - |s|
  {
    if |s| >= 6 then s else PadLeft6("0" + s)
  }

  /** `%f`: sign, integer part, '.', six decimals rounded half up; infinities and NaN as Go prints them. */
  function FormatF(a: Num): string {
    match a
    case PosInf => "+Inf"
    case NegInf => "-Inf"
    case NaN => "NaN"
    case Finite(x) =>
      var m := ((if x < 0.0 then -x else x) * 1000000.0 + 0.5).Floor;
      (if x < 0.0 then "-" else "") + NatToString(m / 1000000) + "." + PadLeft6(NatToString(m % 1000000))
  }
}
