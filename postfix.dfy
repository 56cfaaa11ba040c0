/** pkg/reversepolish/postfixparser.go: `ParseInfix`, a shunting-yard variant that turns the lexer's
    items into postfix order. The pure function `Convert` is what the converter computes for a
    sequence of items; the method `ParseInfix`, written over the `Lexer` class and an
    `OperatorsStack` object as the source is, is proved to return `Convert(Scan(input))`. */
module PostfixParser {
  import opened Wrappers
  import opened Float
  import opened CalcErrors
  import opened Lexer

  /** An item of the postfix output: a `numericItem` (type Number, its text and its parsed value),
      or a lexer item passed through as it was received. */
  datatype RpnItem = Numeric(text: string, value: Num) | Plain(item: Item)

  /** `GetType` of an output item. */
  function TypeOf(x: RpnItem): ItemType {
    match x
    case Numeric(_, _) => Number
    case Plain(it) => it.typ
  }

  /** `GetString` of an output item. */
  function TextOf(x: RpnItem): string {
    match x
    case Numeric(t, _) => t
    case Plain(it) => it.value
  }

  predicate IsLeftBracket(it: Item) {
    it.typ == LeftParenthesis
  }

  predicate IsRightBracket(it: Item) {
    it.typ == RightParenthesis
  }

  predicate IsBracket(it: Item) {
    IsLeftBracket(it) || IsRightBracket(it)
  }

  /** Anything but a number, an error or the Empty item. */
  predicate IsOperator(it: Item) {
    it.typ != Number && it.typ != Error && it.typ != Empty
  }

  /** `+ - * / ^`: an operator that is not a bracket. */
  predicate IsMathOperator(it: Item) {
    IsOperator(it) && !IsBracket(it)
  }

  /** `getPrecedenceLevel`: higher binds tighter. */
  function Precedence(it: Item): (p: nat)
    ensures p <= 3
    ensures p == 3 <==> it.typ == Exponent
    ensures p == 2 <==> it.typ == Multiplication || it.typ == Division
    ensures p == 1 <==> it.typ == Addition || it.typ == Subtraction
    ensures p == 0 <==> !IsMathOperator(it)
  {
    match it.typ
    case Exponent => 3
    case Multiplication => 2
    case Division => 2
    case Addition => 1
    case Subtraction => 1
    case _ => 0
  }

  /** `isLeftAssociative`: every operator except `^` (and, as the source has it, the brackets). */
  predicate IsLeftAssociative(it: Item) {
    IsOperator(it) && it.typ != Exponent
  }

  /** `parseNumber`: a Number item with its value, or a ParsingError naming the text. */
  function ParseNumber(it: Item): (r: Outcome<RpnItem>)
    ensures r.Success? <==> it.typ == Number && ParseFloat(it.value).Some?
    ensures r.Success? ==> r.value == Numeric(it.value, ParseFloat(it.value).value)
    ensures r.Failure? ==> r.error.category == ParsingError
  {
    var description := "could not parse " + it.value + " as a number";
    if it.typ != Number then Failure(NewParsingError(description))
    else match ParseFloat(it.value)
      case None => Failure(NewParsingErrorWrap(ParseFloatFailure(it.value), description))
      case Some(n) => Success(Numeric(it.value, n))
  }

  const Mismatched := "mismatched parantheses"

  /** `peek`/`pop` on an empty stack give the Empty item. */
  function Top(stack: seq<Item>): Item {
    if stack == [] then NewEmptyItem() else stack[|stack| - 1]
  }

  /** The stack after `pop`. */
  function Popped(stack: seq<Item>): seq<Item> {
    if stack == [] then [] else stack[..|stack| - 1]
  }

  /** Whether an incoming operator pops the stack top (postfixparser.go:53-60): the top is a math
      operator and binds tighter, or as tight and the incoming operator is left-associative. */
  predicate PopsTop(top: Item, incoming: Item) {
    && IsMathOperator(top)
    && (Precedence(top) > Precedence(incoming)
        || (Precedence(top) == Precedence(incoming) && IsLeftAssociative(incoming)))
  }

  /** The `)` loop: pop to the output until a `(`, which is dropped; an empty stack first is a
      mismatch. */
  function PopToLeft(out: seq<RpnItem>, stack: seq<Item>): Outcome<(seq<RpnItem>, seq<Item>)>
    decreases |stack|
  {
    if stack == [] then Failure(NewParsingError(Mismatched))
    else if IsLeftBracket(Top(stack)) then Success((out, Popped(stack)))
    else PopToLeft(out + [Plain(Top(stack))], Popped(stack))
  }

  /** The loop after the last item: everything left on the stack goes to the output, top first;
      a bracket among it is a mismatch. */
  function Drain(out: seq<RpnItem>, stack: seq<Item>): Outcome<seq<RpnItem>>
    decreases |stack|
  {
    if stack == [] then Success(out)
    else if IsBracket(Top(stack)) then Failure(NewParsingError(Mismatched))
    else Drain(out + [Plain(Top(stack))], Popped(stack))
  }

  /** One pass of the main loop for a non-Empty item: the new output and operator stack, or the
      failure that ends `ParseInfix`. An incoming operator pops at most one stacked operator: the
      loop at postfixparser.go:49-68 ends with an unconditional `break`. */
  function Step(it: Item, out: seq<RpnItem>, stack: seq<Item>): Outcome<(seq<RpnItem>, seq<Item>)> {
    match it.typ
    case Empty => Success((out, stack))
    case Error => Failure(NewParsingError(it.value))
    case Number =>
      (match ParseNumber(it)
       case Failure(e) => Failure(e)
       case Success(n) => Success((out + [n], stack)))
    case LeftParenthesis => Success((out, stack + [it]))
    case RightParenthesis => PopToLeft(out, stack)
    case _ =>
      if PopsTop(Top(stack), it) then Success((out + [Plain(Top(stack))], Popped(stack) + [it]))
      else Success((out, stack + [it]))
  }

  /** The main loop from item `k` on, with output `out` and operator stack `stack` so far; the
      first Empty item ends it. */
  function ConvertFrom(toks: seq<Item>, k: nat, out: seq<RpnItem>, stack: seq<Item>): Outcome<seq<RpnItem>>
    requires k <= |toks|
    decreases |toks| - k
  {
    if k == |toks| || toks[k].typ == Empty then Drain(out, stack)
    else match Step(toks[k], out, stack)
      case Failure(e) => Failure(e)
      case Success(os) => ConvertFrom(toks, k + 1, os.0, os.1)
  }

  /** The postfix form of an item stream (read up to the first Empty item). */
  function Convert(toks: seq<Item>): Outcome<seq<RpnItem>> {
    ConvertFrom(toks, 0, [], [])
  }

  /** `operatorsStack`: the slice of pending operators, top last. */
  class OperatorsStack {
    var stack: seq<Item>

    constructor ()
      ensures stack == []
    {
      stack := [];
    }

    /** `push`: only operators are accepted; anything else leaves the stack as it was and is an
        InternalError. */
    method Push(i: Item) returns (err: Option<CalcError>)
      modifies this
      ensures IsOperator(i) ==> stack == old(stack) + [i] && err == None
      ensures !IsOperator(i) ==>
        stack == old(stack) && err == Some(NewCalcError("pushing invalid item to operators stack"))
    {
      if !IsOperator(i) {
        return Some(NewCalcError("pushing invalid item to operators stack"));
      }
      stack := stack + [i];
      return None;
    }

    /** `pop`: the top item and the stack without it, or the Empty item from an empty stack. */
    method Pop() returns (i: Item)
      modifies this
      ensures i == Top(old(stack)) && stack == Popped(old(stack))
    {
      if |stack| == 0 {
        return NewEmptyItem();
      }
      i := stack[|stack| - 1];
      stack := stack[..|stack| - 1];
    }

    /** `peek`: the top item without removing it, or the Empty item. */
    method Peek() returns (i: Item)
      ensures i == Top(stack)
      ensures i.typ == Empty <==> stack == [] || stack[|stack| - 1].typ == Empty
    {
      if |stack| == 0 {
        return NewEmptyItem();
      }
      i := stack[|stack| - 1];
    }
  }

  /** Every entry is an operator: what `push` lets through. */
  predicate AllOperators(stack: seq<Item>) {
    forall j :: 0 <= j < |stack| ==> IsOperator(stack[j])
  }

  /** The stack as it was before a `pop` that returned `p`. */
  function Unpopped(p: Item, stack: seq<Item>): seq<Item> {
    if p.typ == Empty then stack else stack + [p]
  }

  lemma UnpopTop(stack: seq<Item>)
    requires AllOperators(stack)
    ensures Unpopped(Top(stack), Popped(stack)) == stack
    ensures AllOperators(Popped(stack))
  {
    if stack != [] {
      assert stack == stack[..|stack| - 1] + [stack[|stack| - 1]];
    }
  }

  /** `ParseInfix`: read the lexer's items until the Empty item and convert them. */
  method ParseInfix(input: string) returns (r: Outcome<seq<RpnItem>>)
    ensures r == Convert(Scan(input))
  {
    var l := new Lexer(input);
    ghost var toks := Scan(input);
    ScanHasNoEmptyItem(input);
    var items: seq<RpnItem> := [];
    var opStack := new OperatorsStack();
    ghost var k := 0;
    var i := l.NextItem();
    while i.typ != Empty
      invariant l.emitted == toks && k <= |toks|
      invariant k < |toks| ==> l.received == k + 1 && i == toks[k]
      invariant k == |toks| ==> l.received == k && i == NewEmptyItem()
      invariant AllOperators(opStack.stack)
      invariant ConvertFrom(toks, k, items, opStack.stack) == Convert(toks)
      decreases |toks| - k
    {
      var next := HandleItem(opStack, items, i);
      if next.Failure? {
        return Failure(next.error);
      }
      items := next.value;
      k := k + 1;
      i := l.NextItem();
    }

    r := DrainStack(opStack, items);
  }

  /** One pass of the loop at postfixparser.go:30-82 for an item that is not Empty: what `Step`
      says, with the operator stack updated in place. */
  method HandleItem(opStack: OperatorsStack, items: seq<RpnItem>, i: Item) returns (r: Outcome<seq<RpnItem>>)
    requires i.typ != Empty && AllOperators(opStack.stack)
    modifies opStack
    ensures Step(i, items, old(opStack.stack)).Failure? ==> r == Failure(Step(i, items, old(opStack.stack)).error)
    ensures Step(i, items, old(opStack.stack)).Success? ==>
      && r == Success(Step(i, items, old(opStack.stack)).value.0)
      && opStack.stack == Step(i, items, old(opStack.stack)).value.1
    ensures AllOperators(opStack.stack)
  {
    if i.typ == Error {
      return Failure(NewParsingError(i.value));
    } else if i.typ == Number {
      var numItem := ParseNumber(i);
      if numItem.Failure? {
        return Failure(numItem.error);
      }
      return Success(items + [numItem.value]);
    } else if IsMathOperator(i) {
      // the `for` loop at lines 49-68 ends in an unconditional `break`: its body runs once
      var topItem := opStack.Peek();
      var out := items;
      if PopsTop(topItem, i) {
        var _ := opStack.Pop();
        out := out + [Plain(topItem)];
      }
      var _ := opStack.Push(i);
      return Success(out);
    } else if IsLeftBracket(i) {
      var _ := opStack.Push(i);
      return Success(items);
    } else {
      r := PopToLeftBracket(opStack, items);
    }
  }

  /** The loop at postfixparser.go:73-78, run for a `)`. */
  method PopToLeftBracket(opStack: OperatorsStack, items: seq<RpnItem>) returns (r: Outcome<seq<RpnItem>>)
    requires AllOperators(opStack.stack)
    modifies opStack
    ensures PopToLeft(items, old(opStack.stack)).Failure? ==> r == Failure(PopToLeft(items, old(opStack.stack)).error)
    ensures PopToLeft(items, old(opStack.stack)).Success? ==>
      && r == Success(PopToLeft(items, old(opStack.stack)).value.0)
      && opStack.stack == PopToLeft(items, old(opStack.stack)).value.1
    ensures AllOperators(opStack.stack)
  {
    ghost var stackBefore := opStack.stack;
    var out := items;
    var poppedItem := opStack.Pop();
    UnpopTop(stackBefore);
    while !IsLeftBracket(poppedItem)
      invariant AllOperators(opStack.stack)
      invariant poppedItem.typ == Empty ==> opStack.stack == []
      invariant PopToLeft(out, Unpopped(poppedItem, opStack.stack)) == PopToLeft(items, stackBefore)
      decreases |opStack.stack| + (if poppedItem.typ == Empty then 0 else 1)
    {
      if poppedItem.typ == Empty {
        return Failure(NewParsingError(Mismatched));
      }
      out := out + [Plain(poppedItem)];
      ghost var s := opStack.stack;
      poppedItem := opStack.Pop();
      UnpopTop(s);
    }
    return Success(out);
  }

  /** The loop at postfixparser.go:84-89, run after the last item. */
  method DrainStack(opStack: OperatorsStack, items: seq<RpnItem>) returns (r: Outcome<seq<RpnItem>>)
    requires AllOperators(opStack.stack)
    modifies opStack
    ensures r == Drain(items, old(opStack.stack))
  {
    ghost var stackBefore := opStack.stack;
    var out := items;
    var poppedItem := opStack.Pop();
    UnpopTop(stackBefore);
    while poppedItem.typ != Empty
      invariant AllOperators(opStack.stack)
      invariant poppedItem.typ == Empty ==> opStack.stack == []
      invariant Drain(out, Unpopped(poppedItem, opStack.stack)) == Drain(items, stackBefore)
      decreases |opStack.stack| + (if poppedItem.typ == Empty then 0 else 1)
    {
      if IsBracket(poppedItem) {
        return Failure(NewParsingError(Mismatched));
      }
      out := out + [Plain(poppedItem)];
      ghost var s := opStack.stack;
      poppedItem := opStack.Pop();
      UnpopTop(s);
    }
    return Success(out);
  }
}
