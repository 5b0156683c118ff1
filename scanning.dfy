/** Line splitting as `bufio.Scanner` with its default split function `bufio.ScanLines`
    performs it for `ParseLine` and `ParseLineToCustomEncoder` (pipeline.go): a token ends at
    each `\n`, one trailing `\r` is dropped from it, and a final non-empty segment without a
    `\n` is a token too.
 */
module Scanning {
  import opened Streams

  const NL: byte := 10
  const CR: byte := 13

  /** A token with one trailing carriage return removed (ScanLines' `dropCR`). */
  function DropCR(s: Bytes): (r: Bytes)
    ensures s == r || s == r + [CR]
    ensures |r| > 0 && r[|r| - 1] == CR ==> s == r + [CR]
  {
    if |s| > 0 && s[|s| - 1] == CR then s[..|s| - 1] else s
  }

  /** The position of the first newline, or `|s|` when there is none. */
  function IndexOfNL(s: Bytes): (i: nat)
    ensures i <= |s|
    ensures forall k | 0 <= k < i :: s[k] != NL
    ensures i < |s| ==> s[i] == NL
  {
    if |s| == 0 then 0 else if s[0] == NL then 0 else 1 + IndexOfNL(s[1..])
  }

  /** The tokens the scanner yields for the complete input `s`. */
  function Lines(s: Bytes): seq<Bytes>
    decreases |s|
  {
    if |s| == 0 then []
    else
      var i := IndexOfNL(s);
      if i < |s| then [DropCR(s[..i])] + Lines(s[i + 1..]) else [DropCR(s)]
  }

  /** Each line terminated by a newline again. */
  function Unlines(ls: seq<Bytes>): Bytes
  {
    if ls == [] then [] else ls[0] + [NL] + Unlines(ls[1..])
  }

  function CountNL(s: Bytes): nat
  {
    if s == [] then 0 else (if s[0] == NL then 1 else 0) + CountNL(s[1..])
  }

  /** A byte string the scanner hands back unchanged as one token. */
  predicate PlainLine(l: Bytes)
  {
    NL !in l && (|l| == 0 || l[|l| - 1] != CR)
  }

  /** The first newline of `s` is at `i` when `s[..i]` has none and `s[i]` is one. */
  lemma IndexOfNLAt(s: Bytes, i: nat)
    requires i <= |s|
    requires forall k | 0 <= k < i :: s[k] != NL
    requires i < |s| ==> s[i] == NL
    ensures IndexOfNL(s) == i
  {
  }

  /** How the scanner splits a non-empty input at its first newline `i` (or at its end). */
  lemma LinesSplit(s: Bytes, i: nat)
    requires 0 < |s| && i <= |s|
    requires forall k | 0 <= k < i :: s[k] != NL
    requires i < |s| ==> s[i] == NL
    ensures i < |s| ==> Lines(s) == [DropCR(s[..i])] + Lines(s[i + 1..])
    ensures i == |s| ==> Lines(s) == [DropCR(s)]
  {
    IndexOfNLAt(s, i);
  }

  /** A non-empty plain line is scanned as itself. */
  lemma LinesOfPlainLine(l: Bytes)
    requires |l| > 0 && PlainLine(l)
    ensures Lines(l) == [l]
  {
    LinesSplit(l, |l|);
  }

  /** A plain line followed by a newline is scanned as itself, then the scanner goes on with
      what follows. */
  lemma LinesCons(l: Bytes, rest: Bytes)
    requires PlainLine(l)
    ensures Lines(l + [NL] + rest) == [l] + Lines(rest)
  {
    var s := l + [NL] + rest;
    LinesSplit(s, |l|);
    assert s[..|l|] == l && s[|l| + 1..] == rest;
  }

  /** No token contains a newline. */
  lemma {:induction false} LinesHaveNoNewline(s: Bytes)
    ensures forall k | 0 <= k < |Lines(s)| :: NL !in Lines(s)[k]
    decreases |s|
  {
    if |s| > 0 {
      var i := IndexOfNL(s);
      if i < |s| {
        assert NL !in s[..i];
        LinesHaveNoNewline(s[i + 1..]);
      } else {
        assert NL !in s;
      }
    }
  }

  lemma {:induction false} CountNLAppend(a: Bytes, b: Bytes)
    ensures CountNL(a + b) == CountNL(a) + CountNL(b)
  {
    if a == [] {
      assert a + b == b;
    } else {
      assert (a + b)[1..] == a[1..] + b;
      CountNLAppend(a[1..], b);
    }
  }

  lemma {:induction false} CountNLNone(a: Bytes)
    requires NL !in a
    ensures CountNL(a) == 0
  {
    if a != [] {
      CountNLNone(a[1..]);
    }
  }

  /** The scanner yields one token per newline, plus one for a final unterminated segment:
      so `"1\n2\n3"` gives three tokens and `"1\n2\n3\n"` gives three as well. */
  lemma {:induction false} LinesCount(s: Bytes)
    ensures |Lines(s)| == CountNL(s) + (if |s| > 0 && s[|s| - 1] != NL then 1 else 0)
    decreases |s|
  {
    if |s| > 0 {
      var i := IndexOfNL(s);
      if i < |s| {
        assert s == s[..i] + [NL] + s[i + 1..];
        CountNLAppend(s[..i] + [NL], s[i + 1..]);
        CountNLAppend(s[..i], [NL]);
        assert NL !in s[..i];
        CountNLNone(s[..i]);
        LinesCount(s[i + 1..]);
        if |s[i + 1..]| > 0 {
          assert s[i + 1..][|s[i + 1..]| - 1] == s[|s| - 1];
        }
      } else {
        assert NL !in s;
        CountNLNone(s);
      }
    }
  }

  lemma UnlinesCons(l: Bytes, ls: seq<Bytes>)
    ensures Unlines([l] + ls) == l + [NL] + Unlines(ls)
  {
    assert ([l] + ls)[1..] == ls;
  }

  /** The newline `Unlines` adds after a final unterminated segment, seen from the front. */
  lemma ReterminatedSplit(s: Bytes, i: nat)
    requires i < |s| && s[i] == NL
    ensures var rest := s[i + 1..];
      s[..i] + [NL] + (if |rest| > 0 && rest[|rest| - 1] != NL then rest + [NL] else rest)
      == if s[|s| - 1] != NL then s + [NL] else s
  {
    var head, rest := s[..i], s[i + 1..];
    assert s == head + [NL] + rest;
    if |rest| > 0 {
      assert s[|s| - 1] == rest[|rest| - 1];
      assert head + [NL] + (rest + [NL]) == s + [NL];
    }
  }

  /** Re-terminating the tokens restores an input without carriage returns, up to the
      newline the scanner drops after a final unterminated segment. */
  lemma {:induction false} UnlinesOfLines(s: Bytes)
    requires CR !in s
    ensures Unlines(Lines(s)) == if |s| > 0 && s[|s| - 1] != NL then s + [NL] else s
    decreases |s|
  {
    if |s| > 0 {
      var i := IndexOfNL(s);
      LinesSplit(s, i);
      if i < |s| {
        assert Unlines(Lines(s)) == s[..i] + [NL] + Unlines(Lines(s[i + 1..])) by {
          assert DropCR(s[..i]) == s[..i] by {
            assert CR !in s[..i];
          }
          UnlinesCons(s[..i], Lines(s[i + 1..]));
        }
        assert CR !in s[i + 1..];
        UnlinesOfLines(s[i + 1..]);
        ReterminatedSplit(s, i);
      } else {
        assert DropCR(s) == s;
        UnlinesCons(s, []);
      }
    }
  }

  /** Scanning newline-terminated plain lines gives back exactly those lines. */
  lemma {:induction false} LinesOfUnlines(ls: seq<Bytes>)
    requires forall k | 0 <= k < |ls| :: PlainLine(ls[k])
    ensures Lines(Unlines(ls)) == ls
  {
    if ls != [] {
      var u := Unlines(ls);
      var l := ls[0];
      assert u == l + [NL] + Unlines(ls[1..]);
      IndexOfNLAt(u, |l|);
      assert u[..|l|] == l;
      assert u[|l| + 1..] == Unlines(ls[1..]);
      LinesOfUnlines(ls[1..]);
    }
  }

  /** The readonly scenario's input `"1\n2\n3"` holds the three lines `"1"`, `"2"`, `"3"`. */
  lemma ThreeLines()
    ensures Lines(Text("1\n2\n3")) == [Text("1"), Text("2"), Text("3")]
  {
    var one, two, three := Text("1"), Text("2"), Text("3");
    assert one == [49] && two == [50] && three == [51];
    assert Text("1\n2\n3") == one + [NL] + (two + [NL] + three);
    LinesOfPlainLine(three);
    LinesCons(two, three);
    LinesCons(one, two + [NL] + three);
  }
}
