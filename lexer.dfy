/** pkg/lexer/lexer.go: a state-function scanner that turns an expression into typed items.
    The pure function `Scan` is the item sequence the scanner sends; the class `Lexer` is the scanner
    itself, with its `start`/`pos`/`lastStep` cursors, proved to send exactly `Scan(input)`. */
module Lexer {
  import opened Text

  datatype ItemType =
    | Empty | Number | LeftParenthesis | RightParenthesis
    | Addition | Subtraction | Multiplication | Division | Exponent | Error

  /** `item`: a type and the scanned text (for an Error item, the diagnostic). */
  datatype Item = Item(typ: ItemType, value: string)

  function NewItem(t: ItemType, value: string): Item {
    Item(t, value)
  }

  /** What `NextItem` returns once the channel is closed. */
  function NewEmptyItem(): Item {
    Item(Empty, "")
  }

  /** The item type of a one-character token, if `c` is one. */
  function SingleCharType(c: char): (t: ItemType)
    requires IsSingleChar(c)
    ensures t != Empty && t != Number && t != Error
  {
    match c
    case '(' => LeftParenthesis
    case ')' => RightParenthesis
    case '+' => Addition
    case '-' => Subtraction
    case '*' => Multiplication
    case '/' => Division
    case '^' => Exponent
  }

  predicate IsSingleChar(c: char) {
    c == '(' || c == ')' || c == '+' || c == '-' || c == '*' || c == '/' || c == '^'
  }

  predicate IsPartOfNumber(c: char) {
    c == '.' || IsDigit(c)
  }

  /** The Error item `emitError` sends when the offending character is at `at` and the current item
      is `text`: "invalid rune at: <at>; could not lex: <text>". */
  function ErrorItem(at: nat, text: string): Item {
    Item(Error, "invalid rune at: " + NatToString(at) + "; could not lex: " + text)
  }

  /** How a number run that continues at index `k` ends, `dots` dots having been seen already. */
  datatype RunOutcome = RunEnd(end: nat) | SecondDot(at: nat)

  /** The `lexNumber` loop: consume digits and dots until something else; a second dot stops it. */
  function NumberRun(input: string, k: nat, dots: nat): (o: RunOutcome)
    requires k <= |input| && dots <= 1
    ensures o.RunEnd? ==> k <= o.end <= |input|
    ensures o.SecondDot? ==> k <= o.at < |input| && input[o.at] == '.'
    decreases |input| - k
  {
    if k < |input| && IsPartOfNumber(input[k]) then
      var d := if input[k] == '.' then dots + 1 else dots;
      if d > 1 then SecondDot(k) else NumberRun(input, k + 1, d)
    else RunEnd(k)
  }

  /** The items sent when `lexUnknown` starts at index `i`. */
  function ScanFrom(input: string, i: nat): seq<Item>
    requires i <= |input|
    decreases |input| - i, 1
  {
    if i == |input| then []
    else if IsDigit(input[i]) then ScanNumber(input, i)
    else if IsSpace(input[i]) then ScanFrom(input, i + 1)
    else if IsSingleChar(input[i]) then [Item(SingleCharType(input[i]), [input[i]])] + ScanFrom(input, i + 1)
    else [ErrorItem(i, [input[i]])]
  }

  /** The items sent when a number starts with the digit at index `i`. */
  function ScanNumber(input: string, i: nat): seq<Item>
    requires i < |input|
    decreases |input| - i, 0
  {
    match NumberRun(input, i + 1, 0)
    case SecondDot(k) => [ErrorItem(k, input[i..k + 1])]
    case RunEnd(j) => [Item(Number, input[i..j])] + ScanFrom(input, j)
  }

  /** Everything the scanner sends for `input`, in order. */
  function Scan(input: string): seq<Item> {
    ScanFrom(input, 0)
  }

  /** A rune returned by `next`: a character, or `eof` past the end of the input. */
  datatype Rune = Eof | Char(c: char)

  /** The state functions `lexUnknown` and `lexNumber`, and `nil` (stop). */
  datatype State = LexUnknown | LexNumber | Stop

  lemma AppendAssociates<T>(a: seq<T>, b: seq<T>, c: seq<T>)
    ensures a + (b + c) == (a + b) + c
  {
  }

  class Lexer {
    const input: string
    var start: int
    var pos: int
    var lastStep: int
    /** Every item sent on the channel so far. */
    var emitted: seq<Item>
    /** How many of them `NextItem` has handed out. */
    var received: nat

    /** `Lex`/`lex`: the scanner runs to completion (the goroutine is not modelled) and nothing
        has been received yet. */
    constructor (input: string)
      ensures this.input == input
      ensures emitted == Scan(input) && received == 0
    {
      this.input := input;
      start, pos, lastStep := 0, 0, 0;
      emitted, received := [], 0;
      new;
      Run();
    }

    /** `NextItem`: the next item sent, or the Empty item once all have been received. */
    method NextItem() returns (i: Item)
      modifies this`received
      ensures old(received) < |emitted| ==> i == emitted[old(received)] && received == old(received) + 1
      ensures old(received) >= |emitted| ==> i == NewEmptyItem() && received == old(received)
    {
      if received < |emitted| {
        i := emitted[received];
        received := received + 1;
      } else {
        i := NewEmptyItem();
      }
    }

    /** What `run` keeps true between calls of the state functions: the items sent so far followed
        by what the current state function and its successors send are all the items of the input. */
    ghost predicate Scanning(state: State, all: seq<Item>)
      reads this
    {
      && (state == LexUnknown ==> 0 <= start == pos <= |input| && emitted + ScanFrom(input, pos) == all)
      && (state == LexNumber ==>
            0 <= start == pos - 1 && pos <= |input| && IsDigit(input[start]) && emitted + ScanNumber(input, start) == all)
      && (state == Stop ==> emitted == all)
    }

    /** `run`: call state functions until one returns nil. */
    method Run()
      requires start == pos == 0 && emitted == []
      modifies this`start, this`pos, this`lastStep, this`emitted
      ensures emitted == Scan(input)
    {
      var state := LexUnknown;
      assert emitted + ScanFrom(input, pos) == Scan(input);
      while state != Stop
        invariant Scanning(state, Scan(input))
        decreases if state == Stop then 0 else |input| + 1 - pos, if state == LexNumber then 1 else 0
      {
        if state == LexUnknown {
          state := UnknownRound(Scan(input));
        } else {
          state := NumberRound(Scan(input));
        }
      }
    }

    /** One call of `lexUnknown` inside `run`. */
    method UnknownRound(ghost all: seq<Item>) returns (next: State)
      requires Scanning(LexUnknown, all)
      modifies this`start, this`pos, this`lastStep, this`emitted
      ensures Scanning(next, all)
      ensures next == Stop || (next == LexUnknown && pos > old(pos)) || (next == LexNumber && pos == old(pos) + 1)
    {
      ghost var e, p := emitted, pos;
      next := LexUnknownStep();
      if p < |input| {
        var c := input[p];
        if IsSingleChar(c) {
          AppendAssociates(e, [Item(SingleCharType(c), [c])], ScanFrom(input, pos));
        } else if !IsDigit(c) && !IsSpace(c) {
          assert ScanFrom(input, p) == [ErrorItem(p, [c])];
        }
      } else {
        assert ScanFrom(input, p) == [];
        assert e + [] == e;
      }
    }

    /** One call of `lexNumber` inside `run`. */
    method NumberRound(ghost all: seq<Item>) returns (next: State)
      requires Scanning(LexNumber, all)
      modifies this`start, this`pos, this`lastStep, this`emitted
      ensures Scanning(next, all)
      ensures next == Stop || (next == LexUnknown && pos >= old(pos))
    {
      ghost var e, i := emitted, start;
      next := LexNumberStep();
      match NumberRun(input, i + 1, 0)
      case SecondDot(k) =>
        var x := ErrorItem(k, input[i..k + 1]);
        assert next == Stop && emitted == e + [x];
        assert ScanNumber(input, i) == [x];
      case RunEnd(j) =>
        var x := Item(Number, input[i..j]);
        assert next == LexUnknown && start == pos == j && emitted == e + [x];
        assert ScanNumber(input, i) == [x] + ScanFrom(input, j);
        AppendAssociates(e, [x], ScanFrom(input, j));
    }

    /** `emit`: send the current item with type `t` and start the next one. */
    method Emit(t: ItemType)
      requires 0 <= start <= pos <= |input|
      modifies this`start, this`lastStep, this`emitted
      ensures emitted == old(emitted) + [Item(t, input[old(start)..pos])]
      ensures start == pos && lastStep == 0
    {
      emitted := emitted + [Item(t, input[start..pos])];
      start := pos;
      lastStep := 0;
    }

    /** `emitError`: send an Error item naming the last character read and the text of the current item. */
    method EmitError()
      requires 0 <= start < pos <= |input|
      modifies this`start, this`lastStep, this`emitted
      ensures emitted == old(emitted) + [ErrorItem(pos - 1, input[old(start)..pos])]
      ensures start == pos && lastStep == 0
    {
      emitted := emitted + [ErrorItem(pos - 1, input[start..pos])];
      start := pos;
      lastStep := 0;
    }

    /** `next`: read one character (one position, as for ASCII), or eof past the end. */
    method Next() returns (r: Rune)
      requires 0 <= pos
      modifies this`pos, this`lastStep
      ensures pos == old(pos) + 1 && lastStep == 1
      ensures r == if old(pos) < |input| then Char(input[old(pos)]) else Eof
    {
      if pos >= |input| {
        pos := pos + 1;
        lastStep := 1;
        return Eof;
      }
      r := Char(input[pos]);
      pos := pos + 1;
      lastStep := 1;
    }

    /** `stepBack`: un-read the last character read. */
    method StepBack()
      modifies this`pos, this`lastStep
      ensures pos == old(pos) - old(lastStep) && lastStep == 0
    {
      pos := pos - lastStep;
      lastStep := 0;
    }

    /** `skip`: drop what was read so far from the current item. */
    method Skip()
      modifies this`start, this`lastStep
      ensures start == pos && lastStep == 0
    {
      start := pos;
      lastStep := 0;
    }

    /** `lexUnknown`: one character decides: end of input stops, a digit starts a number, whitespace is
        skipped, a bracket or operator is sent as a one-character item, anything else is an error. */
    method LexUnknownStep() returns (next: State)
      requires 0 <= start == pos <= |input|
      modifies this`start, this`pos, this`lastStep, this`emitted
      ensures old(pos) == |input| ==> next == Stop && emitted == old(emitted)
      ensures old(pos) < |input| ==> var c := input[old(pos)];
        && (IsDigit(c) ==> next == LexNumber && start == old(pos) && pos == old(pos) + 1 && emitted == old(emitted))
        && (IsSpace(c) ==> next == LexUnknown && start == pos == old(pos) + 1 && emitted == old(emitted))
        && (IsSingleChar(c) ==>
              next == LexUnknown && start == pos == old(pos) + 1 && emitted == old(emitted) + [Item(SingleCharType(c), [c])])
        && (!IsDigit(c) && !IsSpace(c) && !IsSingleChar(c) ==>
              next == Stop && emitted == old(emitted) + [ErrorItem(old(pos), [c])])
    {
      var r := Next();
      if r == Eof {
        return Stop;
      }
      var c := r.c;
      assert input[start..pos] == [c];
      if IsDigit(c) {
        return LexNumber;
      } else if IsSpace(c) {
        Skip();
      } else if IsSingleChar(c) {
        Emit(SingleCharType(c));
      } else {
        EmitError();
        return Stop;
      }
      return LexUnknown;
    }

    /** `lexNumber`: read digits and dots, counting the dots; a second dot is an error, otherwise the
        character that ended the run is un-read and the number item is sent. */
    method LexNumberStep() returns (next: State)
      requires 0 <= start == pos - 1 && pos <= |input|
      modifies this`start, this`pos, this`lastStep, this`emitted
      ensures match NumberRun(input, old(pos), 0)
        case SecondDot(k) => next == Stop && emitted == old(emitted) + [ErrorItem(k, input[old(start)..k + 1])]
        case RunEnd(j) =>
          next == LexUnknown && start == pos == j && emitted == old(emitted) + [Item(Number, input[old(start)..j])]
    {
      var dotCounter := 0;
      var r := Next();
      while r != Eof && IsPartOfNumber(r.c)
        invariant old(pos) < pos <= |input| + 1 && lastStep == 1
        invariant r == if pos - 1 < |input| then Char(input[pos - 1]) else Eof
        invariant dotCounter <= 1 && NumberRun(input, pos - 1, dotCounter) == NumberRun(input, old(pos), 0)
        invariant start == old(start) && emitted == old(emitted)
        decreases |input| + 1 - pos
      {
        if r.c == '.' {
          dotCounter := dotCounter + 1;
          if dotCounter > 1 {
            EmitError();
            return Stop;
          }
        }
        r := Next();
      }
      StepBack();
      Emit(Number);
      return LexUnknown;
    }
  }

  /** Draining a scanner with `NextItem` until the Empty item, as the tests and `ParseInfix` do,
      yields exactly the scanned items. */
  method Collect(input: string) returns (items: seq<Item>)
    ensures items == Scan(input)
  {
    var l := new Lexer(input);
    ScanHasNoEmptyItem(input);
    items := [];
    var i := l.NextItem();
    while i.typ != Empty
      invariant l.emitted == Scan(input) && |items| <= |l.emitted| && items == l.emitted[..|items|]
      invariant |items| < |l.emitted| ==> l.received == |items| + 1 && i == l.emitted[|items|]
      invariant |items| == |l.emitted| ==> l.received == |items| && i == NewEmptyItem()
      decreases |l.emitted| - |items|
    {
      items := items + [i];
      i := l.NextItem();
    }
  }

  /** The scanner never sends the Empty item, so Empty marks the end of the stream. */
  lemma ScanHasNoEmptyItem(input: string)
    ensures forall k :: 0 <= k < |Scan(input)| ==> Scan(input)[k].typ != Empty
  {
    ScanFromHasNoEmptyItem(input, 0);
  }

  lemma {:induction false} ScanFromHasNoEmptyItem(input: string, i: nat)
    requires i <= |input|
    ensures forall k :: 0 <= k < |ScanFrom(input, i)| ==> ScanFrom(input, i)[k].typ != Empty
    decreases |input| - i
  {
    if i < |input| {
      if IsDigit(input[i]) {
        match NumberRun(input, i + 1, 0)
        case SecondDot(k) =>
        case RunEnd(j) =>
          assert ScanFrom(input, i) == [Item(Number, input[i..j])] + ScanFrom(input, j);
          ScanFromHasNoEmptyItem(input, j);
      } else if IsSpace(input[i]) || IsSingleChar(input[i]) {
        ScanFromHasNoEmptyItem(input, i + 1);
      }
    }
  }
}
