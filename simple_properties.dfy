/** What pkg/simplecalculator/simplecalculator.go promises: `Parse` accepts exactly
    "<number><sign><number>" with a single sign, and a parsed operation always calculates. */
module SimpleProperties {
  import opened Wrappers
  import opened Float
  import opened CalcErrors
  import opened SimpleCalculator

  // ---------------------------------------------------------------------------------------------
  // strings.Split

  lemma {:induction false} SplitWithoutSeparator(a: string, c: char)
    requires c !in a
    ensures Split(a, c) == [a]
  {
    if a != [] {
      SplitWithoutSeparator(a[1..], c);
      assert [a[0]] + a[1..] == a;
    }
  }

  lemma {:induction false} SplitAtFirst(a: string, rest: string, c: char)
    requires c !in a
    ensures Split(a + [c] + rest, c) == [a] + Split(rest, c)
  {
    var s := a + [c] + rest;
    if a == [] {
      assert s[0] == c && s[1..] == rest;
    } else {
      assert s[0] == a[0] && s[1..] == a[1..] + [c] + rest;
      SplitAtFirst(a[1..], rest, c);
      assert [a[0]] + a[1..] == a;
    }
  }

  /** Splitting what `Join` built gives the parts back, when no part holds the separator. */
  lemma {:induction false} SplitJoin(parts: seq<string>, c: char)
    requires |parts| >= 1 && forall k :: 0 <= k < |parts| ==> c !in parts[k]
    ensures Split(Join(parts, c), c) == parts
    decreases |parts|
  {
    if |parts| == 1 {
      SplitWithoutSeparator(parts[0], c);
    } else {
      SplitAtFirst(parts[0], Join(parts[1..], c), c);
      SplitJoin(parts[1..], c);
    }
  }

  // ---------------------------------------------------------------------------------------------
  // The regular expression

  /** Two signs with no newline between them match. */
  lemma TwoSigns(s: string, i: nat, j: nat)
    requires i < j < |s| && IsOperationSign(s[i]) && IsOperationSign(s[j])
    requires forall m :: i < m < j ==> s[m] != '\n'
    ensures MultipleSigns(s)
  {
    assert NoNewlineBetween(s, i, j);
  }

  /** Input with one sign does not match. */
  lemma OneSignNoMatch(s: string, p: nat)
    requires p < |s| && forall k :: 0 <= k < |s| && k != p ==> !IsOperationSign(s[k])
    ensures !MultipleSigns(s)
  {
  }

  // ---------------------------------------------------------------------------------------------
  // Parse

  /** One sign between two numbers: `Parse` succeeds with those numbers and that sign. */
  lemma ParseOneSign(a: string, c: char, b: string)
    requires IsOperationSign(c) && NoSigns(a) && NoSigns(b)
    requires ParseFloat(a).Some? && ParseFloat(b).Some?
    ensures Parse(a + [c] + b) == Success(SimpleOperation(ParseFloat(a).value, ParseFloat(b).value, [c]))
  {
    var s := a + [c] + b;
    assert forall k :: 0 <= k < |s| && k != |a| ==> !IsOperationSign(s[k]) by {
      forall k | 0 <= k < |s| && k != |a| ensures !IsOperationSign(s[k]) {
        if k < |a| {
          assert s[k] == a[k];
        } else {
          assert s[k] == b[k - |a| - 1];
        }
      }
    }
    OneSignNoMatch(s, |a|);
    assert s[|a|] == c;
    assert PickedSign(s) == Some(c) by {
      forall d | IsOperationSign(d) && d != c ensures d !in s {
        forall k | 0 <= k < |s| ensures s[k] != d {
          if k != |a| {
            assert !IsOperationSign(s[k]);
          }
        }
      }
    }
    assert c !in a && c !in b by {
      assert forall k :: 0 <= k < |a| ==> a[k] != c;
      assert forall k :: 0 <= k < |b| ==> b[k] != c;
    }
    SplitAtFirst(a, b, c);
    SplitWithoutSeparator(b, c);
  }

  /** A sign, a number and the sign again match the expression. */
  lemma SignNumberSign(a: string, c: char, b: string, rest: string)
    requires IsOperationSign(c) && ParseFloat(b).Some?
    ensures MultipleSigns(a + [c] + b + [c] + rest)
  {
    var s := a + [c] + b + [c] + rest;
    var j := |a| + 1 + |b|;
    assert s[|a|] == c && s[j] == c;
    assert forall m :: |a| < m < j ==> s[m] == b[m - |a| - 1];
    TwoSigns(s, |a|, j);
  }

  /** Without two signs in a row, splitting on a sign that occurs gives two pieces, when the
      second one is a number (a number holds no newline to separate two signs). */
  lemma TwoPieces(s: string, c: char)
    requires IsOperationSign(c) && c in s && !MultipleSigns(s)
    requires ParseFloat(Split(s, c)[1]).Some?
    ensures |Split(s, c)| == 2
  {
    var args := Split(s, c);
    if |args| > 2 {
      assert Join(args, c) == args[0] + [c] + Join(args[1..], c);
      assert args[1..][1..] == args[2..];
      assert Join(args[1..], c) == args[1] + [c] + Join(args[2..], c);
      assert s == args[0] + [c] + args[1] + [c] + Join(args[2..], c);
      SignNumberSign(args[0], c, args[1], Join(args[2..], c));
    }
  }

  /** Without two signs in a row, the numbers on either side of the one sign hold no sign. */
  lemma SignFreeSides(a: string, c: char, b: string)
    requires IsOperationSign(c) && !MultipleSigns(a + [c] + b)
    requires ParseFloat(a).Some? && ParseFloat(b).Some?
    ensures NoSigns(a) && NoSigns(b)
  {
    var s := a + [c] + b;
    if |a| > 0 && IsOperationSign(a[0]) {
      assert forall m :: 0 < m < |a| ==> s[m] == a[m];
      TwoSigns(s, 0, |a|);
    }
    if |b| > 0 && IsOperationSign(b[0]) {
      TwoSigns(s, |a|, |a| + 1);
    }
  }

  /** A successful `Parse` saw exactly one sign, with a parsable number on each side. */
  lemma ParseSuccessShape(s: string) returns (a: string, c: char, b: string)
    requires Parse(s).Success?
    ensures s == a + [c] + b && IsOperationSign(c) && NoSigns(a) && NoSigns(b)
    ensures ParseFloat(a).Some? && ParseFloat(b).Some?
    ensures Parse(s).value == SimpleOperation(ParseFloat(a).value, ParseFloat(b).value, [c])
  {
    c := PickedSign(s).value;
    var args := Split(s, c);
    a, b := args[0], args[1];
    TwoPieces(s, c);
    assert Join(args, c) == a + [c] + Join(args[1..], c);
    SignFreeSides(a, c, b);
  }

  /** Every failure of `Parse` is a ParsingError. */
  lemma ParseFailsWithParsingError(s: string)
    ensures Parse(s).Failure? ==> Parse(s).error.category == ParsingError
  {
  }

  /** A parsed operation always calculates. */
  lemma ParsedOperationCalculates(s: string)
    requires Parse(s).Success?
    ensures Calculate(Parse(s).value).Success?
  {
    var a, c, b := ParseSuccessShape(s);
    assert [c] in {"+", "*", "-", "/"};
  }
}
