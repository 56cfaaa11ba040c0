/** What pkg/reversepolish/postfixparser.go promises about its output, stated about `Convert`
    (the method `ParseInfix` is proved to return `Convert(Scan(input))`). */
module PostfixProperties {
  import opened Wrappers
  import opened Float
  import opened CalcErrors
  import opened Lexer
  import opened LexerProperties
  import opened PostfixParser

  // ---------------------------------------------------------------------------------------------
  // Shapes

  /** The operator stack only ever holds `(` and math operators. */
  predicate StackShape(stack: seq<Item>) {
    forall j :: 0 <= j < |stack| ==> IsLeftBracket(stack[j]) || IsMathOperator(stack[j])
  }

  /** Output holds parsed numbers and math operators only: no bracket, no error. */
  predicate OutShape(out: seq<RpnItem>) {
    forall j :: 0 <= j < |out| ==>
      || (out[j].Numeric? && ParseFloat(out[j].text) == Some(out[j].value))
      || (out[j].Plain? && IsMathOperator(out[j].item))
  }

  /** No Empty item: the converter reads the whole sequence. */
  predicate NoEmpty(toks: seq<Item>) {
    forall j :: 0 <= j < |toks| ==> toks[j].typ != Empty
  }

  // ---------------------------------------------------------------------------------------------
  // What is counted

  /** The texts of the numbers in the output, in order. */
  function NumberTexts(out: seq<RpnItem>): seq<string> {
    if out == [] then []
    else NumberTexts(out[..|out| - 1]) + (if out[|out| - 1].Numeric? then [out[|out| - 1].text] else [])
  }

  /** The texts of the Number items of a stream, in order. */
  function TokenNumberTexts(toks: seq<Item>): seq<string> {
    if toks == [] then []
    else TokenNumberTexts(toks[..|toks| - 1]) + (if toks[|toks| - 1].typ == Number then [toks[|toks| - 1].value] else [])
  }

  /** The math operators among some items, as a multiset. */
  function MathOps(toks: seq<Item>): multiset<Item> {
    if toks == [] then multiset{}
    else MathOps(toks[..|toks| - 1]) + (if IsMathOperator(toks[|toks| - 1]) then multiset{toks[|toks| - 1]} else multiset{})
  }

  /** The operators passed through to the output, as a multiset. */
  function OutOps(out: seq<RpnItem>): multiset<Item> {
    if out == [] then multiset{}
    else OutOps(out[..|out| - 1]) + (if out[|out| - 1].Plain? then multiset{out[|out| - 1].item} else multiset{})
  }

  lemma {:induction false} TokenNumberTextsAppend(a: seq<Item>, b: seq<Item>)
    ensures TokenNumberTexts(a + b) == TokenNumberTexts(a) + TokenNumberTexts(b)
    decreases |b|
  {
    if b == [] {
      assert a + b == a;
    } else {
      assert (a + b)[..|a + b| - 1] == a + b[..|b| - 1];
      TokenNumberTextsAppend(a, b[..|b| - 1]);
    }
  }

  lemma {:induction false} MathOpsAppend(a: seq<Item>, b: seq<Item>)
    ensures MathOps(a + b) == MathOps(a) + MathOps(b)
    decreases |b|
  {
    if b == [] {
      assert a + b == a;
    } else {
      assert (a + b)[..|a + b| - 1] == a + b[..|b| - 1];
      MathOpsAppend(a, b[..|b| - 1]);
    }
  }

  /** Appending a number to the output: its text joins the numbers; no operator is added. */
  lemma AppendNumeric(out: seq<RpnItem>, n: RpnItem)
    requires n.Numeric?
    ensures NumberTexts(out + [n]) == NumberTexts(out) + [n.text]
    ensures OutOps(out + [n]) == OutOps(out)
  {
    assert (out + [n])[..|out|] == out;
  }

  /** Appending an operator to the output: the numbers are unchanged. */
  lemma AppendPlain(out: seq<RpnItem>, it: Item)
    ensures NumberTexts(out + [Plain(it)]) == NumberTexts(out)
    ensures OutOps(out + [Plain(it)]) == OutOps(out) + multiset{it}
  {
    assert (out + [Plain(it)])[..|out|] == out;
  }

  lemma StackTop(stack: seq<Item>)
    requires stack != []
    ensures stack == Popped(stack) + [Top(stack)]
    ensures MathOps(stack) == MathOps(Popped(stack)) + (if IsMathOperator(Top(stack)) then multiset{Top(stack)} else multiset{})
  {
  }

  lemma StackPush(stack: seq<Item>, it: Item)
    ensures MathOps(stack + [it]) == MathOps(stack) + (if IsMathOperator(it) then multiset{it} else multiset{})
    ensures StackShape(stack) && (IsLeftBracket(it) || IsMathOperator(it)) ==> StackShape(stack + [it])
  {
    assert (stack + [it])[..|stack|] == stack;
  }

  lemma {:induction false} MathOpsHas(toks: seq<Item>, j: nat)
    requires j < |toks| && IsMathOperator(toks[j])
    ensures toks[j] in MathOps(toks)
    decreases |toks|
  {
    if j < |toks| - 1 {
      var p := toks[..|toks| - 1];
      assert p[j] == toks[j];
      MathOpsHas(p, j);
    }
  }

  lemma {:induction false} OutOpsHas(out: seq<RpnItem>, x: Item) returns (m: nat)
    requires x in OutOps(out)
    ensures m < |out| && out[m] == Plain(x)
    decreases |out|
  {
    var p := out[..|out| - 1];
    if x in OutOps(p) {
      m := OutOpsHas(p, x);
      assert out[m] == p[m];
    } else {
      m := |out| - 1;
    }
  }

  // ---------------------------------------------------------------------------------------------
  // The two stack loops

  /** Stack items as the loops hand them to the output: top first, each passed through. */
  function TopFirst(stack: seq<Item>): seq<RpnItem> {
    if stack == [] then [] else [Plain(stack[|stack| - 1])] + TopFirst(stack[..|stack| - 1])
  }

  predicate HasLeftBracket(stack: seq<Item>) {
    exists j :: 0 <= j < |stack| && IsLeftBracket(stack[j])
  }

  predicate HasBracket(stack: seq<Item>) {
    exists j :: 0 <= j < |stack| && IsBracket(stack[j])
  }

  /** `b` is the index of the topmost `(` on the stack. */
  predicate TopmostLeft(stack: seq<Item>, b: int) {
    && 0 <= b < |stack| && IsLeftBracket(stack[b])
    && forall j :: b < j < |stack| ==> !IsLeftBracket(stack[j])
  }

  /** The number of `(` on the stack. */
  function LeftCount(stack: seq<Item>): nat {
    if stack == [] then 0
    else LeftCount(stack[..|stack| - 1]) + (if IsLeftBracket(stack[|stack| - 1]) then 1 else 0)
  }

  lemma {:induction false} LeftCountPositive(stack: seq<Item>)
    ensures LeftCount(stack) > 0 <==> HasLeftBracket(stack)
    decreases |stack|
  {
    if stack != [] {
      var n := |stack| - 1;
      var p := stack[..n];
      LeftCountPositive(p);
      if HasLeftBracket(p) {
        var j :| 0 <= j < |p| && IsLeftBracket(p[j]);
        assert stack[j] == p[j];
      }
      if HasLeftBracket(stack) && !IsLeftBracket(stack[n]) {
        var j :| 0 <= j < |stack| && IsLeftBracket(stack[j]);
        assert p[j] == stack[j];
      }
    }
  }

  /** A stack holding a `(` has a topmost one. */
  lemma {:induction false} FindTopmostLeft(stack: seq<Item>) returns (b: nat)
    requires HasLeftBracket(stack)
    ensures TopmostLeft(stack, b)
    decreases |stack|
  {
    var n := |stack| - 1;
    if IsLeftBracket(stack[n]) {
      b := n;
    } else {
      var p := stack[..n];
      var j :| 0 <= j < |stack| && IsLeftBracket(stack[j]);
      assert p[j] == stack[j];
      b := FindTopmostLeft(p);
      assert forall i :: b < i < n ==> stack[i] == p[i];
    }
  }

  /** With `b` the topmost `(`: the items above it go to the output top first, and the stack is
      cut just below it, so one `(` is gone. */
  lemma {:induction false} PopToLeftAt(out: seq<RpnItem>, stack: seq<Item>, b: int)
    requires TopmostLeft(stack, b)
    ensures PopToLeft(out, stack) == Success((out + TopFirst(stack[b + 1..]), stack[..b]))
    ensures LeftCount(stack[..b]) + 1 == LeftCount(stack)
    decreases |stack|
  {
    var n := |stack| - 1;
    var p := stack[..n];
    assert Top(stack) == stack[n] && Popped(stack) == p;
    if b == n {
      assert TopFirst(stack[b + 1..]) == [];
      assert out + [] == out;
    } else {
      assert !IsLeftBracket(stack[n]);
      assert TopmostLeft(p, b) by {
        assert forall j :: b < j < |p| ==> p[j] == stack[j];
      }
      PopToLeftAt(out + [Plain(stack[n])], p, b);
      var above := stack[b + 1..];
      assert above[..|above| - 1] == p[b + 1..] && above[|above| - 1] == stack[n];
      assert p[..b] == stack[..b];
      assert out + [Plain(stack[n])] + TopFirst(p[b + 1..]) == out + TopFirst(above);
    }
  }

  /** `)`: the loop succeeds exactly when a `(` is on the stack, and otherwise fails with the
      mismatch error; on success the operators above the topmost `(` move to the output top first,
      the `(` is dropped, and the stack below it stays. */
  lemma {:induction false} PopToLeftSpec(out: seq<RpnItem>, stack: seq<Item>)
    requires StackShape(stack) && OutShape(out)
    ensures PopToLeft(out, stack).Success? <==> HasLeftBracket(stack)
    ensures PopToLeft(out, stack).Failure? ==> PopToLeft(out, stack).error == NewParsingError(Mismatched)
    ensures forall b :: TopmostLeft(stack, b) ==>
      PopToLeft(out, stack) == Success((out + TopFirst(stack[b + 1..]), stack[..b]))
    ensures PopToLeft(out, stack).Success? ==>
      var (o, s) := PopToLeft(out, stack).value;
      && OutShape(o) && StackShape(s)
      && NumberTexts(o) == NumberTexts(out)
      && OutOps(o) + MathOps(s) == OutOps(out) + MathOps(stack)
    decreases |stack|
  {
    if stack != [] {
      StackTop(stack);
      var n := |stack| - 1;
      if IsLeftBracket(Top(stack)) {
        assert IsLeftBracket(stack[n]);
      } else {
        AppendPlain(out, Top(stack));
        PopToLeftSpec(out + [Plain(Top(stack))], Popped(stack));
        if HasLeftBracket(stack) {
          var j :| 0 <= j < |stack| && IsLeftBracket(stack[j]);
          assert Popped(stack)[j] == stack[j];
        }
        if HasLeftBracket(Popped(stack)) {
          var j :| 0 <= j < |Popped(stack)| && IsLeftBracket(Popped(stack)[j]);
          assert stack[j] == Popped(stack)[j];
        }
      }
    }
    forall b | TopmostLeft(stack, b)
      ensures PopToLeft(out, stack) == Success((out + TopFirst(stack[b + 1..]), stack[..b]))
    {
      PopToLeftAt(out, stack, b);
    }
  }

  /** Draining stops at the first bracket it meets, counting from the top. */
  lemma {:induction false} DrainFails(out: seq<RpnItem>, stack: seq<Item>)
    ensures Drain(out, stack).Failure? <==> HasBracket(stack)
    decreases |stack|
  {
    if stack != [] {
      var n := |stack| - 1;
      var p := stack[..n];
      assert Top(stack) == stack[n] && Popped(stack) == p;
      if !IsBracket(stack[n]) {
        DrainFails(out + [Plain(stack[n])], p);
        if HasBracket(stack) {
          var j :| 0 <= j < |stack| && IsBracket(stack[j]);
          assert p[j] == stack[j];
        }
        if HasBracket(p) {
          var j :| 0 <= j < |p| && IsBracket(p[j]);
          assert stack[j] == p[j];
        }
      }
    }
  }

  /** A successful drain sends the stack top first. */
  lemma {:induction false} DrainSends(out: seq<RpnItem>, stack: seq<Item>)
    ensures Drain(out, stack).Success? ==> Drain(out, stack).value == out + TopFirst(stack)
    decreases |stack|
  {
    if stack == [] {
      assert out + [] == out;
    } else {
      var n := |stack| - 1;
      var p := stack[..n];
      assert Top(stack) == stack[n] && Popped(stack) == p;
      if !IsBracket(stack[n]) {
        var o := out + [Plain(stack[n])];
        assert Drain(out, stack) == Drain(o, p);
        DrainSends(o, p);
        assert TopFirst(stack) == [Plain(stack[n])] + TopFirst(p);
        assert o + TopFirst(p) == out + ([Plain(stack[n])] + TopFirst(p));
      }
    }
  }

  /** End of input: draining fails exactly when a bracket is left on the stack, with the mismatch
      error; on success the whole stack follows the output, top first. */
  lemma {:induction false} DrainSpec(out: seq<RpnItem>, stack: seq<Item>)
    requires StackShape(stack) && OutShape(out)
    ensures Drain(out, stack).Failure? <==> HasBracket(stack)
    ensures Drain(out, stack).Failure? ==> Drain(out, stack).error == NewParsingError(Mismatched)
    ensures Drain(out, stack).Success? ==> Drain(out, stack).value == out + TopFirst(stack)
    ensures Drain(out, stack).Success? ==>
      var o := Drain(out, stack).value;
      && OutShape(o)
      && NumberTexts(o) == NumberTexts(out)
      && OutOps(o) == OutOps(out) + MathOps(stack)
    decreases |stack|
  {
    DrainFails(out, stack);
    DrainSends(out, stack);
    if stack != [] {
      StackTop(stack);
      if !IsBracket(Top(stack)) {
        AppendPlain(out, Top(stack));
        DrainSpec(out + [Plain(Top(stack))], Popped(stack));
      }
    }
  }

  /** Draining a stack without brackets never fails: the stack reversed is appended. */
  lemma {:induction false} DrainWithoutBrackets(out: seq<RpnItem>, stack: seq<Item>)
    requires forall j :: 0 <= j < |stack| ==> !IsBracket(stack[j])
    ensures Drain(out, stack).Success?
    decreases |stack|
  {
    if stack != [] {
      DrainWithoutBrackets(out + [Plain(Top(stack))], Popped(stack));
    }
  }

  // ---------------------------------------------------------------------------------------------
  // The main loop

  /** What one pass of the main loop keeps: the shapes of the output and the stack, the numbers
      so far (plus the item's text for a number), and the operators (plus the item for a math
      operator). */
  predicate StepKeeps(it: Item, out: seq<RpnItem>, stack: seq<Item>, o: seq<RpnItem>, s: seq<Item>) {
    && OutShape(o) && StackShape(s)
    && NumberTexts(o) == NumberTexts(out) + (if it.typ == Number then [it.value] else [])
    && OutOps(o) + MathOps(s) == OutOps(out) + MathOps(stack) + (if IsMathOperator(it) then multiset{it} else multiset{})
  }

  lemma StepNumber(it: Item, out: seq<RpnItem>, stack: seq<Item>)
    requires it.typ == Number && StackShape(stack) && OutShape(out) && ParseNumber(it).Success?
    ensures StepKeeps(it, out, stack, out + [ParseNumber(it).value], stack)
  {
    var n := ParseNumber(it).value;
    assert OutShape(out + [n]);
    AppendNumeric(out, n);
  }

  lemma StepOperator(it: Item, out: seq<RpnItem>, stack: seq<Item>)
    requires IsMathOperator(it) && StackShape(stack) && OutShape(out)
    ensures PopsTop(Top(stack), it) ==>
      StepKeeps(it, out, stack, out + [Plain(Top(stack))], Popped(stack) + [it])
    ensures !PopsTop(Top(stack), it) ==> StepKeeps(it, out, stack, out, stack + [it])
  {
    StackPush(stack, it);
    if PopsTop(Top(stack), it) {
      StackTop(stack);
      StackPush(Popped(stack), it);
      AppendPlain(out, Top(stack));
      assert OutShape(out + [Plain(Top(stack))]);
    }
  }

  /** One pass of the main loop: failures are ParsingErrors; the stack keeps its shape and the
      output its shape; a number joins the output's numbers; a math operator moves to the stack
      (possibly sending the previous top to the output), and no operator is lost. */
  lemma StepSpec(it: Item, out: seq<RpnItem>, stack: seq<Item>)
    requires it.typ != Empty && StackShape(stack) && OutShape(out)
    ensures Step(it, out, stack).Failure? ==> Step(it, out, stack).error.category == ParsingError
    ensures Step(it, out, stack).Success? ==>
      StepKeeps(it, out, stack, Step(it, out, stack).value.0, Step(it, out, stack).value.1)
  {
    if it.typ == Number {
      if ParseNumber(it).Success? {
        StepNumber(it, out, stack);
      }
    } else if it.typ == LeftParenthesis {
      StackPush(stack, it);
    } else if it.typ == RightParenthesis {
      PopToLeftSpec(out, stack);
    } else if it.typ != Error {
      StepOperator(it, out, stack);
    }
  }

  /** Every failure of the converter is a ParsingError. */
  lemma {:induction false} ConvertFromFailsWithParsingError(toks: seq<Item>, k: nat, out: seq<RpnItem>, stack: seq<Item>)
    requires k <= |toks| && StackShape(stack) && OutShape(out)
    ensures ConvertFrom(toks, k, out, stack).Failure? ==> ConvertFrom(toks, k, out, stack).error.category == ParsingError
    decreases |toks| - k
  {
    if k == |toks| || toks[k].typ == Empty {
      DrainSpec(out, stack);
    } else {
      StepSpec(toks[k], out, stack);
      if Step(toks[k], out, stack).Success? {
        var (o, s) := Step(toks[k], out, stack).value;
        ConvertFromFailsWithParsingError(toks, k + 1, o, s);
      }
    }
  }

  lemma SuffixFront(toks: seq<Item>, k: nat)
    requires k < |toks|
    ensures TokenNumberTexts(toks[k..]) == (if toks[k].typ == Number then [toks[k].value] else []) + TokenNumberTexts(toks[k + 1..])
    ensures MathOps(toks[k..]) == (if IsMathOperator(toks[k]) then multiset{toks[k]} else multiset{}) + MathOps(toks[k + 1..])
  {
    var it := toks[k];
    assert toks[k..] == [it] + toks[k + 1..];
    TokenNumberTextsAppend([it], toks[k + 1..]);
    MathOpsAppend([it], toks[k + 1..]);
    assert [it][..0] == [];
  }

  /** On success the output holds parsed numbers and math operators only; the numbers keep their
      input order; every math operator of the input, and every one still on the stack, appears in
      the output exactly once. */
  lemma {:induction false} ConvertFromSpec(toks: seq<Item>, k: nat, out: seq<RpnItem>, stack: seq<Item>)
    requires k <= |toks| && NoEmpty(toks) && StackShape(stack) && OutShape(out)
    requires ConvertFrom(toks, k, out, stack).Success?
    ensures OutShape(ConvertFrom(toks, k, out, stack).value)
    ensures NumberTexts(ConvertFrom(toks, k, out, stack).value) == NumberTexts(out) + TokenNumberTexts(toks[k..])
    ensures OutOps(ConvertFrom(toks, k, out, stack).value) == OutOps(out) + MathOps(stack) + MathOps(toks[k..])
    decreases |toks| - k
  {
    if k == |toks| {
      DrainSpec(out, stack);
      assert toks[k..] == [];
    } else {
      var it := toks[k];
      StepSpec(it, out, stack);
      var (o, s) := Step(it, out, stack).value;
      assert ConvertFrom(toks, k, out, stack) == ConvertFrom(toks, k + 1, o, s);
      ConvertFromSpec(toks, k + 1, o, s);
      SpecStep(toks, k, out, stack, o, s, ConvertFrom(toks, k + 1, o, s).value);
    }
  }

  /** The inductive step of `ConvertFromSpec`, with the recursive result `res` given. */
  lemma SpecStep(toks: seq<Item>, k: nat, out: seq<RpnItem>, stack: seq<Item>, o: seq<RpnItem>, s: seq<Item>, res: seq<RpnItem>)
    requires k < |toks| && StepKeeps(toks[k], out, stack, o, s)
    requires NumberTexts(res) == NumberTexts(o) + TokenNumberTexts(toks[k + 1..])
    requires OutOps(res) == OutOps(o) + MathOps(s) + MathOps(toks[k + 1..])
    ensures NumberTexts(res) == NumberTexts(out) + TokenNumberTexts(toks[k..])
    ensures OutOps(res) == OutOps(out) + MathOps(stack) + MathOps(toks[k..])
  {
    SuffixFront(toks, k);
    var x := if toks[k].typ == Number then [toks[k].value] else [];
    var y := if IsMathOperator(toks[k]) then multiset{toks[k]} else multiset{};
    Regroup(NumberTexts(out), x, TokenNumberTexts(toks[k + 1..]), OutOps(out) + MathOps(stack), y, MathOps(toks[k + 1..]));
  }

  lemma Regroup(a: seq<string>, b: seq<string>, c: seq<string>, m: multiset<Item>, n: multiset<Item>, p: multiset<Item>)
    ensures (a + b) + c == a + (b + c)
    ensures (m + n) + p == m + (n + p)
  {
  }

  /** The converter's promise for a whole item stream. */
  lemma ConvertSpec(toks: seq<Item>)
    requires NoEmpty(toks) && Convert(toks).Success?
    ensures OutShape(Convert(toks).value)
    ensures NumberTexts(Convert(toks).value) == TokenNumberTexts(toks)
    ensures OutOps(Convert(toks).value) == MathOps(toks)
  {
    ConvertFromSpec(toks, 0, [], []);
    assert toks[0..] == toks;
  }

  lemma ConvertFailsWithParsingError(toks: seq<Item>)
    ensures Convert(toks).Failure? ==> Convert(toks).error.category == ParsingError
  {
    ConvertFromFailsWithParsingError(toks, 0, [], []);
  }

  /** A `^` the scanner sends reaches the converter's output as it is. */
  lemma ExponentConverted(s: string, j: nat) returns (m: nat)
    requires j < |Scan(s)| && Scan(s)[j].typ == Exponent && Convert(Scan(s)).Success?
    ensures m < |Convert(Scan(s)).value| && Convert(Scan(s)).value[m] == Plain(Item(Exponent, "^"))
  {
    var toks := Scan(s);
    ScanHasNoEmptyItem(s);
    ConvertSpec(toks);
    ScanWellFormed(s);
    assert GoodItem(toks[j]);
    SingleCharTypesDistinct(toks[j].value[0], '^');
    assert toks[j] == Item(Exponent, "^");
    MathOpsHas(toks, j);
    m := OutOpsHas(Convert(toks).value, toks[j]);
  }

  // ---------------------------------------------------------------------------------------------
  // Lexer errors

  /** Numbers the scanner sends always parse. */
  lemma ScannedNumberParses(it: Item)
    requires GoodItem(it) && it.typ == Number
    ensures ParseNumber(it) == Success(Numeric(it.value, Finite(DecimalValue(it.value))))
  {
  }

  /** `(` opens, `)` closes. */
  function BracketDelta(it: Item): int {
    if IsLeftBracket(it) then 1 else if IsRightBracket(it) then -1 else 0
  }

  /** Opened minus closed brackets among some items. */
  function Depth(toks: seq<Item>): int {
    if toks == [] then 0 else Depth(toks[..|toks| - 1]) + BracketDelta(toks[|toks| - 1])
  }

  /** Every `)` closes a `(` opened before it: no prefix closes more brackets than it opens. */
  predicate ClosesOnlyOpened(toks: seq<Item>) {
    forall j :: 0 <= j <= |toks| ==> Depth(toks[..j]) >= 0
  }

  lemma DepthStep(toks: seq<Item>, k: nat)
    requires k < |toks|
    ensures Depth(toks[..k + 1]) == Depth(toks[..k]) + BracketDelta(toks[k])
  {
    assert toks[..k + 1][..k] == toks[..k];
  }

  /** One pass of the main loop opens or closes a `(` on the stack exactly as the item does. */
  lemma StepLeftCount(it: Item, out: seq<RpnItem>, stack: seq<Item>)
    requires it.typ != Empty && it.typ != Error && StackShape(stack) && OutShape(out)
    requires Step(it, out, stack).Success?
    ensures LeftCount(Step(it, out, stack).value.1) == LeftCount(stack) + BracketDelta(it)
  {
    if it.typ == LeftParenthesis {
      assert (stack + [it])[..|stack|] == stack;
    } else if it.typ == RightParenthesis {
      PopToLeftSpec(out, stack);
      var b := FindTopmostLeft(stack);
      PopToLeftAt(out, stack, b);
    } else if it.typ != Number {
      assert (stack + [it])[..|stack|] == stack;
      if PopsTop(Top(stack), it) {
        assert (Popped(stack) + [it])[..|Popped(stack)|] == Popped(stack);
      }
    }
  }

  /** From item `k` of a stream the scanner ended with an Error item, with as many `(` on the stack
      as the items so far left open: the converter fails with the scanner's text when every later
      `)` closes an open `(`, and with the mismatch error otherwise. */
  lemma {:induction false} LexerErrorFrom(toks: seq<Item>, k: nat, out: seq<RpnItem>, stack: seq<Item>)
    requires WellFormed(toks) && k < |toks| && toks[|toks| - 1].typ == Error
    requires StackShape(stack) && OutShape(out) && LeftCount(stack) == Depth(toks[..k])
    ensures (forall j :: k < j <= |toks| ==> Depth(toks[..j]) >= 0) ==>
      ConvertFrom(toks, k, out, stack) == Failure(NewParsingError(toks[|toks| - 1].value))
    ensures !(forall j :: k < j <= |toks| ==> Depth(toks[..j]) >= 0) ==>
      ConvertFrom(toks, k, out, stack) == Failure(NewParsingError(Mismatched))
    decreases |toks| - k
  {
    var it := toks[k];
    assert GoodItem(it);
    DepthStep(toks, k);
    if it.typ == Error {
      assert k == |toks| - 1;
      assert Depth(toks[..k + 1]) >= 0;
    } else {
      assert k < |toks| - 1;
      if it.typ == Number {
        ScannedNumberParses(it);
      }
      if it.typ == RightParenthesis && LeftCount(stack) == 0 {
        LeftCountPositive(stack);
        PopToLeftSpec(out, stack);
        assert Depth(toks[..k + 1]) < 0;
      } else {
        if it.typ == RightParenthesis {
          LeftCountPositive(stack);
          PopToLeftSpec(out, stack);
        }
        assert Step(it, out, stack).Success?;
        var (o, s) := Step(it, out, stack).value;
        StepSpec(it, out, stack);
        StepLeftCount(it, out, stack);
        LexerErrorFrom(toks, k + 1, o, s);
        assert Depth(toks[..k + 1]) >= 0;
        assert (forall j :: k < j <= |toks| ==> Depth(toks[..j]) >= 0)
          <==> (forall j :: k + 1 < j <= |toks| ==> Depth(toks[..j]) >= 0);
      }
    }
  }

  /** `ParseInfix` on input the scanner rejects: when every `)` before the Error item closes an
      open `(`, the scanner's text comes back as a ParsingError; otherwise a `)` without its `(`
      fails first, with the mismatch error. */
  lemma LexerErrorIsParsingError(s: string)
    requires HasError(Scan(s))
    ensures ClosesOnlyOpened(Scan(s)) ==>
      Convert(Scan(s)) == Failure(NewParsingError(Scan(s)[|Scan(s)| - 1].value))
    ensures !ClosesOnlyOpened(Scan(s)) ==> Convert(Scan(s)) == Failure(NewParsingError(Mismatched))
  {
    ScanWellFormed(s);
    var toks := Scan(s);
    var k :| 0 <= k < |toks| && toks[k].typ == Error;
    assert k == |toks| - 1;
    assert toks[..0] == [];
    LexerErrorFrom(toks, 0, [], []);
    assert ClosesOnlyOpened(toks) <==> forall j :: 0 < j <= |toks| ==> Depth(toks[..j]) >= 0;
  }
}
