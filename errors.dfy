/** The error vocabulary of pkg/errors/errors.go: five categories, a description, an optional wrapped
    cause, the text `Error()` returns and the HTTP status a category maps to. */
module CalcErrors {
  import opened Wrappers
  import opened Text

  datatype Category = InputError | ParsingError | CalculationError | EncodingError | InternalError

  /** The category constants (errors.go:11-17). */
  function CategoryName(c: Category): string {
    match c
    case InputError => "InputError"
    case ParsingError => "ParsingError"
    case CalculationError => "CalculationError"
    case EncodingError => "EncodingError"
    case InternalError => "InternalError"
  }

  /** What a `...Wrap` constructor wraps: a `strconv.ParseFloat` syntax error for the given text,
      or another calculator error. */
  datatype Cause = ParseFloatFailure(input: string) | Inner(error: CalcError)

  /** `calcError`: its category, its description and, for the wrapping constructors, the wrapped error. */
  datatype CalcError = CalcError(category: Category, description: string, cause: Option<Cause>)

  type Outcome<T> = Result<T, CalcError>

  function NewCategorized(category: Category, description: string): CalcError {
    CalcError(category, description, None)
  }

  function NewWrapCategorized(cause: Cause, category: Category, description: string): CalcError {
    CalcError(category, description, Some(cause))
  }

  function NewCalcError(description: string): CalcError { NewCategorized(InternalError, description) }
  function NewCalcErrorWrap(cause: Cause, description: string): CalcError { NewWrapCategorized(cause, InternalError, description) }
  function NewInputError(description: string): CalcError { NewCategorized(InputError, description) }
  function NewInputErrorWrap(cause: Cause, description: string): CalcError { NewWrapCategorized(cause, InputError, description) }
  function NewParsingError(description: string): CalcError { NewCategorized(ParsingError, description) }
  function NewParsingErrorWrap(cause: Cause, description: string): CalcError { NewWrapCategorized(cause, ParsingError, description) }
  function NewCalculationError(description: string): CalcError { NewCategorized(CalculationError, description) }
  function NewCalculationErrorWrap(cause: Cause, description: string): CalcError { NewWrapCategorized(cause, CalculationError, description) }
  function NewEncodingError(description: string): CalcError { NewCategorized(EncodingError, description) }
  function NewEncodingErrorWrap(cause: Cause, description: string): CalcError { NewWrapCategorized(cause, EncodingError, description) }

  /** Every constructor records its own kind's category (the generic `NewCalcError` pair records
      InternalError), the given description, and a cause exactly when it is a wrapping constructor. */
  lemma ConstructorsRecordCategory(d: string, c: Cause)
    ensures NewCalcError(d) == CalcError(InternalError, d, None)
    ensures NewCalcErrorWrap(c, d) == CalcError(InternalError, d, Some(c))
    ensures NewInputError(d) == CalcError(InputError, d, None)
    ensures NewInputErrorWrap(c, d) == CalcError(InputError, d, Some(c))
    ensures NewParsingError(d) == CalcError(ParsingError, d, None)
    ensures NewParsingErrorWrap(c, d) == CalcError(ParsingError, d, Some(c))
    ensures NewCalculationError(d) == CalcError(CalculationError, d, None)
    ensures NewCalculationErrorWrap(c, d) == CalcError(CalculationError, d, Some(c))
    ensures NewEncodingError(d) == CalcError(EncodingError, d, None)
    ensures NewEncodingErrorWrap(c, d) == CalcError(EncodingError, d, Some(c))
  {
  }

  /** `Error()`: the embedded error is `pkgerrors.New(category)` or `pkgerrors.Wrap(cause, category)`,
      whose text is the category name, followed for a wrapped error by ": " and the cause's text. */
  function ErrorText(e: CalcError): string {
    match e.cause
    case None => CategoryName(e.category)
    case Some(c) => CategoryName(e.category) + ": " + CauseText(c)
  }

  /** The text of a wrapped cause; a `strconv.NumError` reads
      `strconv.ParseFloat: parsing <s as strconv.Quote writes it>: invalid syntax`. */
  function CauseText(c: Cause): string {
    match c
    case ParseFloatFailure(s) => "strconv.ParseFloat: parsing " + Quote(s) + ": invalid syntax"
    case Inner(e) => ErrorText(e)
  }

  // ---------------------------------------------------------------------------------------------
  // strconv.Quote, for ASCII text

  function HexDigit(n: nat): (c: char)
    requires n < 16
    ensures IsHexDigit(c) && HexValue(c) == n
  {
    if n < 10 then DigitChar(n) else ((n - 10) + 'a' as int) as char
  }

  predicate IsHexDigit(c: char) {
    IsDigit(c) || 'a' <= c <= 'f'
  }

  function HexValue(c: char): (n: nat)
    requires IsHexDigit(c)
    ensures n < 16
  {
    if IsDigit(c) then DigitValue(c) else (c as int) - ('a' as int) + 10
  }

  /** The letter of a one-letter escape: `\a \b \f \n \r \t \v`, and the quote and the backslash. */
  function EscapeLetter(c: char): Option<char> {
    if c == '\U{7}' then Some('a')
    else if c == '\U{8}' then Some('b')
    else if c == '\U{C}' then Some('f')
    else if c == '\n' then Some('n')
    else if c == '\r' then Some('r')
    else if c == '\t' then Some('t')
    else if c == '\U{B}' then Some('v')
    else if c == '"' || c == '\\' then Some(c)
    else None
  }

  /** How one character is written inside the quotes: printable ASCII as itself, except `"` and
      `\`; the seven named control characters by letter; other ASCII controls and DEL as `\x`
      and two lower-case hex digits; characters beyond ASCII as themselves. */
  function QuoteChar(c: char): string {
    if c == '"' || c == '\\' then ['\\', c]
    else if ' ' <= c < '\U{7F}' then [c]
    else if EscapeLetter(c).Some? then ['\\', EscapeLetter(c).value]
    else if c <= '\U{7F}' then ['\\', 'x', HexDigit(c as int / 16), HexDigit(c as int % 16)]
    else [c]
  }

  function QuoteBody(s: string): string {
    if s == [] then [] else QuoteChar(s[0]) + QuoteBody(s[1..])
  }

  /** `strconv.Quote`: the escaped text between double quotes. */
  function Quote(s: string): (q: string)
    ensures |q| >= 2 && q[0] == '"' && q[|q| - 1] == '"'
  {
    "\"" + QuoteBody(s) + "\""
  }

  /** The character a one-letter escape stands for. */
  function Unescape(e: char): Option<char> {
    if e == 'a' then Some('\U{7}')
    else if e == 'b' then Some('\U{8}')
    else if e == 'f' then Some('\U{C}')
    else if e == 'n' then Some('\n')
    else if e == 'r' then Some('\r')
    else if e == 't' then Some('\t')
    else if e == 'v' then Some('\U{B}')
    else if e == '"' || e == '\\' then Some(e)
    else None
  }

  function Prepend(c: char, r: Option<string>): Option<string> {
    if r.Some? then Some([c] + r.value) else None
  }

  /** Reading the escapes of a quoted body back, as `strconv.Unquote` does; `None` for an
      escape it does not know. */
  function UnquoteBody(t: string): Option<string>
    decreases |t|
  {
    if t == [] then Some([])
    else if t[0] != '\\' then Prepend(t[0], UnquoteBody(t[1..]))
    else if |t| >= 2 && Unescape(t[1]).Some? then Prepend(Unescape(t[1]).value, UnquoteBody(t[2..]))
    else if |t| >= 4 && t[1] == 'x' && IsHexDigit(t[2]) && IsHexDigit(t[3]) then
      Prepend((HexValue(t[2]) * 16 + HexValue(t[3])) as char, UnquoteBody(t[4..]))
    else None
  }

  lemma UnquoteChar(c: char, rest: string)
    ensures UnquoteBody(QuoteChar(c) + rest) == Prepend(c, UnquoteBody(rest))
  {
    if c == '"' || c == '\\' {
      UnquoteLetter(c, c, rest);
    } else if ' ' <= c < '\U{7F}' || c > '\U{7F}' {
      UnquotePlain(c, rest);
    } else if EscapeLetter(c).Some? {
      UnquoteLetter(c, EscapeLetter(c).value, rest);
    } else {
      UnquoteHex(c, rest);
    }
  }

  lemma UnquotePlain(c: char, rest: string)
    requires c != '"' && c != '\\' && (' ' <= c < '\U{7F}' || c > '\U{7F}')
    ensures QuoteChar(c) == [c]
    ensures UnquoteBody([c] + rest) == Prepend(c, UnquoteBody(rest))
  {
    assert ([c] + rest)[1..] == rest;
  }

  lemma UnquoteLetter(c: char, e: char, rest: string)
    requires EscapeLetter(c) == Some(e)
    ensures QuoteChar(c) == ['\\', e]
    ensures UnquoteBody(['\\', e] + rest) == Prepend(c, UnquoteBody(rest))
  {
    assert (['\\', e] + rest)[2..] == rest;
  }

  lemma UnquoteHex(c: char, rest: string)
    requires c <= '\U{7F}' && !(' ' <= c < '\U{7F}') && EscapeLetter(c).None?
    ensures QuoteChar(c) == ['\\', 'x', HexDigit(c as int / 16), HexDigit(c as int % 16)]
    ensures UnquoteBody(QuoteChar(c) + rest) == Prepend(c, UnquoteBody(rest))
  {
    var t := QuoteChar(c) + rest;
    assert t[4..] == rest;
    assert HexValue(t[2]) * 16 + HexValue(t[3]) == c as int;
  }

  /** Unquoting what `strconv.Quote` wrote gives the text back. */
  lemma {:induction false} QuoteRoundTrip(s: string)
    ensures UnquoteBody(QuoteBody(s)) == Some(s)
  {
    if s != [] {
      QuoteRoundTrip(s[1..]);
      UnquoteChar(s[0], QuoteBody(s[1..]));
      assert [s[0]] + s[1..] == s;
    }
  }

  /** A tab in the rejected text is shown escaped: `parsing "a\tb"`. */
  lemma TabIsEscaped()
    ensures CauseText(ParseFloatFailure("a\tb")) == "strconv.ParseFloat: parsing \"a\\tb\": invalid syntax"
  {
    assert QuoteBody("a\tb") == "a" + "\\t" + "b" by {
      assert "a\tb"[1..] == "\tb" && "\tb"[1..] == "b" && "b"[1..] == [];
    }
  }

  /** The quoted text holds no ASCII control character, and every `"` in it is escaped. */
  lemma {:induction false} QuotedIsPrintable(s: string)
    ensures forall i :: 0 <= i < |QuoteBody(s)| ==> !(QuoteBody(s)[i] < ' ' || QuoteBody(s)[i] == '\U{7F}')
    ensures forall i :: 0 <= i < |QuoteBody(s)| && QuoteBody(s)[i] == '"' ==> 0 < i && QuoteBody(s)[i - 1] == '\\'
  {
    if s != [] {
      QuotedIsPrintable(s[1..]);
      var h, t := QuoteChar(s[0]), QuoteBody(s[1..]);
      assert QuoteBody(s) == h + t;
      forall i | 0 <= i < |h + t|
        ensures !((h + t)[i] < ' ' || (h + t)[i] == '\U{7F}')
        ensures (h + t)[i] == '"' ==> 0 < i && (h + t)[i - 1] == '\\'
      {
        if i >= |h| {
          assert (h + t)[i] == t[i - |h|];
          if i > |h| {
            assert (h + t)[i - 1] == t[i - 1 - |h|];
          }
        }
      }
    }
  }

  /** `statusCodeDict` (errors.go:19-25). */
  const StatusCodes: map<Category, int> := map[
    InputError := 400, ParsingError := 400,
    CalculationError := 500, EncodingError := 500, InternalError := 500]

  /** `StatusCode`: client errors (bad input, unparsable expression) are 400, all others 500. */
  function StatusCode(e: CalcError): (code: int)
    ensures code == 400 <==> e.category == InputError || e.category == ParsingError
    ensures code == 500 <==> e.category in {CalculationError, EncodingError, InternalError}
  {
    StatusCodesCoverCategories(e.category);
    StatusCodes[e.category]
  }

  lemma StatusCodesCoverCategories(c: Category)
    ensures c in StatusCodes
  {
    match c
    case InputError =>
    case ParsingError =>
    case CalculationError =>
    case EncodingError =>
    case InternalError =>
  }

  /** Whatever it wraps, an error's text mentions its own category's name. */
  lemma ErrorTextMentionsCategory(e: CalcError)
    ensures Contains(ErrorText(e), CategoryName(e.category))
  {
    var n := CategoryName(e.category);
    assert HasPrefix(ErrorText(e), n) by {
      if e.cause.Some? {
        assert ErrorText(e) == n + (": " + CauseText(e.cause.value));
      }
    }
    PrefixIsContained(ErrorText(e), n);
  }

  lemma NotContainedByFirstChar(s: string, t: string)
    requires |t| > 0
    requires forall i :: 0 <= i <= |s| - |t| ==> s[i] != t[0]
    ensures !Contains(s, t)
  {
    forall i | 0 <= i <= |s| - |t| ensures !OccursAt(s, t, i) {
      assert s[i..i + |t|][0] == s[i];
    }
  }

  /** No category name occurs inside another one. */
  lemma CategoryNamesNotNested(a: Category, b: Category)
    ensures Contains(CategoryName(a), CategoryName(b)) <==> a == b
  {
    var s, t := CategoryName(a), CategoryName(b);
    if a == b {
      PrefixIsContained(s, t);
    } else if |t| > |s| {
    } else if (a, b) == (InternalError, InputError) {
      forall i | 0 <= i <= |s| - |t| ensures !OccursAt(s, t, i) {
        assert s[i..i + |t|][0] == s[i] && s[i..i + |t|][2] == s[i + 2];
      }
    } else {
      NotContainedByFirstChar(s, t);
    }
  }

  /** The tests compare errors with `strings.Contains(err.Error(), expected.Error())`; for unwrapped
      errors that holds exactly when the two categories agree, so those tests check categories only. */
  lemma ContainsCheckComparesCategories(got: CalcError, expected: CalcError)
    requires expected.cause.None?
    ensures got.category == expected.category ==> Contains(ErrorText(got), ErrorText(expected))
    ensures got.cause.None? ==>
      (Contains(ErrorText(got), ErrorText(expected)) <==> got.category == expected.category)
  {
    ErrorTextMentionsCategory(got);
    CategoryNamesNotNested(got.category, expected.category);
  }
}
