/** What pkg/lexer/lexer.go promises about the items it sends, stated about `Scan` (the class
    `Lexer` is proved to send exactly `Scan(input)`). */
module LexerProperties {
  import opened Text
  import opened Float
  import opened Lexer

  // ---------------------------------------------------------------------------------------------
  // One step of `lexUnknown` / `lexNumber`

  /** Whitespace is skipped: no item, and scanning resumes at the next character. */
  lemma SpaceStep(s: string, i: nat)
    requires i < |s| && IsSpace(s[i])
    ensures ScanFrom(s, i) == ScanFrom(s, i + 1)
  {
  }

  /** Input that is whitespace from index `i` on sends no item from there. */
  lemma {:induction false} BlankScansEmpty(s: string, i: nat)
    requires i <= |s| && forall k :: i <= k < |s| ==> IsSpace(s[k])
    ensures ScanFrom(s, i) == []
    decreases |s| - i
  {
    if i < |s| {
      BlankScansEmpty(s, i + 1);
    }
  }

  /** Each of `( ) + - * / ^` is one item of its own kind whose text is that character. */
  lemma CharStep(s: string, i: nat)
    requires i < |s| && IsSingleChar(s[i])
    ensures ScanFrom(s, i) == [Item(SingleCharType(s[i]), [s[i]])] + ScanFrom(s, i + 1)
  {
  }

  /** A digit starts a number item that covers the whole run; the character ending the run is
      scanned again. */
  lemma NumberStep(s: string, i: nat, j: nat)
    requires i < |s| && IsDigit(s[i]) && NumberRun(s, i + 1, 0) == RunEnd(j)
    ensures ScanFrom(s, i) == [Item(Number, s[i..j])] + ScanFrom(s, j)
  {
  }

  /** A second dot in a number run ends the stream with an Error item at the dot, carrying the
      text from the number's first digit up to and including that dot. */
  lemma SecondDotStep(s: string, i: nat, k: nat)
    requires i < |s| && IsDigit(s[i]) && NumberRun(s, i + 1, 0) == SecondDot(k)
    ensures ScanFrom(s, i) == [ErrorItem(k, s[i..k + 1])]
  {
  }

  /** Any other character ends the stream with an Error item at its index. */
  lemma InvalidCharStep(s: string, i: nat)
    requires i < |s| && !IsDigit(s[i]) && !IsSpace(s[i]) && !IsSingleChar(s[i])
    ensures ScanFrom(s, i) == [ErrorItem(i, [s[i]])]
  {
  }

  /** The six item types the scanner sends for the characters `( ) + - * / ^` are all distinct. */
  lemma SingleCharTypesDistinct(c: char, d: char)
    requires IsSingleChar(c) && IsSingleChar(d)
    ensures SingleCharType(c) == SingleCharType(d) <==> c == d
  {
  }

  // ---------------------------------------------------------------------------------------------
  // Number runs

  predicate AllPartOfNumber(s: string) {
    forall k :: 0 <= k < |s| ==> IsPartOfNumber(s[k])
  }

  /** The run `lexNumber` consumes from index `k` on, `dots` dots already seen: a run that ends
      normally is the maximal run of digits and dots and holds at most one dot in all; a run that
      stops early stops at the second dot. */
  lemma {:induction false} NumberRunSpec(s: string, k: nat, dots: nat)
    requires k <= |s| && dots <= 1
    ensures NumberRun(s, k, dots).RunEnd? ==>
      var j := NumberRun(s, k, dots).end;
      && AllPartOfNumber(s[k..j])
      && (j == |s| || !IsPartOfNumber(s[j]))
      && dots + CountChar(s[k..j], '.') <= 1
    ensures NumberRun(s, k, dots).SecondDot? ==>
      var p := NumberRun(s, k, dots).at;
      && AllPartOfNumber(s[k..p])
      && s[p] == '.'
      && dots + CountChar(s[k..p], '.') == 1
    decreases |s| - k
  {
    if k < |s| && IsPartOfNumber(s[k]) {
      var d := if s[k] == '.' then dots + 1 else dots;
      if d <= 1 {
        NumberRunSpec(s, k + 1, d);
        match NumberRun(s, k + 1, d)
        case RunEnd(j) =>
          assert s[k..j][1..] == s[k + 1..j];
        case SecondDot(p) =>
          assert s[k..p][1..] == s[k + 1..p];
      } else {
        assert s[k..k] == [];
      }
    } else {
      assert s[k..k] == [];
    }
  }

  /** The text of every number item is a decimal literal that starts with a digit. */
  lemma NumberTextIsDecimal(s: string, i: nat, j: nat)
    requires i < |s| && IsDigit(s[i]) && NumberRun(s, i + 1, 0) == RunEnd(j)
    ensures |s[i..j]| > 0 && IsDigit(s[i..j][0]) && IsDecimal(s[i..j])
  {
    NumberRunSpec(s, i + 1, 0);
    var t := s[i..j];
    assert t[1..] == s[i + 1..j];
    assert CountChar(t, '.') == CountChar(s[i + 1..j], '.');
    assert forall k :: 0 < k < |t| ==> t[k] == s[i + 1..j][k - 1];
  }

  // ---------------------------------------------------------------------------------------------
  // The shape of the item stream

  /** An item the scanner can send: Empty never; a number as a decimal literal starting with a
      digit; a one-character item with its matching type. */
  predicate GoodItem(it: Item) {
    && it.typ != Empty
    && (it.typ == Number ==> |it.value| > 0 && IsDigit(it.value[0]) && IsDecimal(it.value))
    && (it.typ != Number && it.typ != Error ==>
          |it.value| == 1 && IsSingleChar(it.value[0]) && SingleCharType(it.value[0]) == it.typ)
  }

  /** Every item is a good item, and an Error item can only be the last one. */
  predicate WellFormed(items: seq<Item>) {
    forall k :: 0 <= k < |items| ==> GoodItem(items[k]) && (items[k].typ == Error ==> k == |items| - 1)
  }

  lemma {:induction false} ScanFromWellFormed(s: string, i: nat)
    requires i <= |s|
    ensures WellFormed(ScanFrom(s, i))
    decreases |s| - i
  {
    if i < |s| {
      if IsDigit(s[i]) {
        match NumberRun(s, i + 1, 0)
        case SecondDot(p) =>
        case RunEnd(j) =>
          NumberStep(s, i, j);
          NumberTextIsDecimal(s, i, j);
          ScanFromWellFormed(s, j);
      } else if IsSpace(s[i]) {
        ScanFromWellFormed(s, i + 1);
      } else if IsSingleChar(s[i]) {
        ScanFromWellFormed(s, i + 1);
      }
    }
  }

  /** The scanner's output is well formed; in particular nothing follows an Error item. */
  lemma ScanWellFormed(s: string)
    ensures WellFormed(Scan(s))
  {
    ScanFromWellFormed(s, 0);
  }

  // ---------------------------------------------------------------------------------------------
  // Errors

  predicate HasError(items: seq<Item>) {
    exists k :: 0 <= k < |items| && items[k].typ == Error
  }

  /** Characters that can never cause an error: digits, whitespace and the one-character tokens. */
  predicate Lexable(c: char) {
    IsDigit(c) || IsSpace(c) || IsSingleChar(c)
  }

  /** Without dots and without foreign characters, the scanner reports no error. */
  lemma {:induction false} NoErrorWithoutDotsFrom(s: string, i: nat)
    requires i <= |s| && forall k :: i <= k < |s| ==> Lexable(s[k])
    ensures !HasError(ScanFrom(s, i))
    decreases |s| - i
  {
    if i < |s| {
      if IsDigit(s[i]) {
        NumberRunSpec(s, i + 1, 0);
        match NumberRun(s, i + 1, 0)
        case SecondDot(_) =>
        case RunEnd(j) =>
          NumberStep(s, i, j);
          NoErrorWithoutDotsFrom(s, j);
      } else {
        NoErrorWithoutDotsFrom(s, i + 1);
      }
    }
  }

  lemma NoErrorWithoutDots(s: string)
    requires forall k :: 0 <= k < |s| ==> Lexable(s[k])
    ensures !HasError(Scan(s))
  {
    NoErrorWithoutDotsFrom(s, 0);
  }

  /** An error after items that are not errors is the error of what follows them. */
  lemma ErrorInTail(x: seq<Item>, rest: seq<Item>)
    requires HasError(x + rest) && forall k :: 0 <= k < |x| ==> x[k].typ != Error
    ensures HasError(rest) && (x + rest)[|x + rest| - 1] == rest[|rest| - 1]
  {
    var k :| 0 <= k < |x + rest| && (x + rest)[k].typ == Error;
    assert rest[k - |x|].typ == Error;
  }

  /** From a character that does not end the stream, scanning sends at most one item, which is no
      error, and resumes further on. */
  lemma Advance(s: string, i: nat) returns (j: nat, x: seq<Item>)
    requires i < |s| && Lexable(s[i]) && !(IsDigit(s[i]) && NumberRun(s, i + 1, 0).SecondDot?)
    ensures i < j <= |s| && ScanFrom(s, i) == x + ScanFrom(s, j)
    ensures forall k :: 0 <= k < |x| ==> x[k].typ != Error
  {
    if IsDigit(s[i]) {
      j := NumberRun(s, i + 1, 0).end;
      NumberStep(s, i, j);
      x := [Item(Number, s[i..j])];
    } else if IsSpace(s[i]) {
      SpaceStep(s, i);
      j, x := i + 1, [];
      assert x + ScanFrom(s, j) == ScanFrom(s, j);
    } else {
      CharStep(s, i);
      j, x := i + 1, [Item(SingleCharType(s[i]), [s[i]])];
    }
  }

  lemma SecondDotCause(s: string, i: nat) returns (p: nat, t: string)
    requires i < |s| && IsDigit(s[i]) && NumberRun(s, i + 1, 0).SecondDot?
    ensures i <= p < |s| && !Lexable(s[p]) && |t| > 0 && t[|t| - 1] == s[p]
    ensures ScanFrom(s, i) == [ErrorItem(p, t)]
  {
    p := NumberRun(s, i + 1, 0).at;
    SecondDotStep(s, i, p);
    t := s[i..p + 1];
    assert t[|t| - 1] == s[p] == '.';
  }

  /** An Error item names the index `p` of the offending character, and that character is a dot
      (a misplaced or second dot) or a character the scanner does not know; the item's text ends
      with that character. */
  lemma {:induction false} ErrorCauseFrom(s: string, i: nat) returns (p: nat, t: string)
    requires i <= |s| && HasError(ScanFrom(s, i))
    ensures i <= p < |s| && !Lexable(s[p]) && |t| > 0 && t[|t| - 1] == s[p]
    ensures ScanFrom(s, i)[|ScanFrom(s, i)| - 1] == ErrorItem(p, t)
    decreases |s| - i
  {
    assert i < |s|;
    if IsDigit(s[i]) && NumberRun(s, i + 1, 0).SecondDot? {
      p, t := SecondDotCause(s, i);
    } else if !Lexable(s[i]) {
      InvalidCharStep(s, i);
      p, t := i, [s[i]];
    } else {
      var j, x := Advance(s, i);
      ErrorInTail(x, ScanFrom(s, j));
      p, t := ErrorCauseFrom(s, j);
    }
  }

  lemma ErrorCause(s: string) returns (p: nat, t: string)
    requires HasError(Scan(s))
    ensures p < |s| && !Lexable(s[p]) && |t| > 0 && t[|t| - 1] == s[p]
    ensures Scan(s)[|Scan(s)| - 1] == ErrorItem(p, t)
  {
    p, t := ErrorCauseFrom(s, 0);
  }

  // ---------------------------------------------------------------------------------------------
  // Nothing but whitespace is lost

  /** The item texts, concatenated in order. */
  function Texts(items: seq<Item>): string {
    if items == [] then [] else items[0].value + Texts(items[1..])
  }

  /** `s` without its whitespace, order kept. */
  function RemoveSpaces(s: string): string {
    if s == [] then [] else (if IsSpace(s[0]) then [] else [s[0]]) + RemoveSpaces(s[1..])
  }

  lemma {:induction false} RemoveSpacesOfNoSpaces(a: string, b: string)
    requires forall k :: 0 <= k < |a| ==> !IsSpace(a[k])
    ensures RemoveSpaces(a + b) == a + RemoveSpaces(b)
  {
    if a != [] {
      assert (a + b)[0] == a[0] && (a + b)[1..] == a[1..] + b;
      assert a == [a[0]] + a[1..];
      RemoveSpacesOfNoSpaces(a[1..], b);
    } else {
      assert a + b == b;
    }
  }

  /** On input the scanner accepts, the item texts are the input with its whitespace removed. */
  lemma {:induction false} TextsFrom(s: string, i: nat)
    requires i <= |s| && !HasError(ScanFrom(s, i))
    ensures Texts(ScanFrom(s, i)) == RemoveSpaces(s[i..])
    decreases |s| - i
  {
    if i < |s| {
      assert s[i..][1..] == s[i + 1..];
      if IsDigit(s[i]) {
        match NumberRun(s, i + 1, 0)
        case SecondDot(_) =>
        case RunEnd(j) =>
          NumberStep(s, i, j);
          NumberRunSpec(s, i + 1, 0);
          var rest := ScanFrom(s, j);
          assert ScanFrom(s, i)[1..] == rest;
          assert !HasError(rest) by {
            forall k | 0 <= k < |rest| ensures rest[k].typ != Error {
              assert rest[k] == ScanFrom(s, i)[k + 1];
            }
          }
          TextsFrom(s, j);
          assert s[i..] == s[i..j] + s[j..];
          RemoveSpacesOfNoSpaces(s[i..j], s[j..]);
      } else if IsSpace(s[i]) {
        TextsFrom(s, i + 1);
      } else if IsSingleChar(s[i]) {
        CharStep(s, i);
        var rest := ScanFrom(s, i + 1);
        assert ScanFrom(s, i)[1..] == rest;
        assert !HasError(rest) by {
          forall k | 0 <= k < |rest| ensures rest[k].typ != Error {
            assert rest[k] == ScanFrom(s, i)[k + 1];
          }
        }
        TextsFrom(s, i + 1);
      }
    }
  }

  lemma TextsAreInputWithoutSpaces(s: string)
    requires !HasError(Scan(s))
    ensures Texts(Scan(s)) == RemoveSpaces(s)
  {
    TextsFrom(s, 0);
  }
}
