/**
 `test_counts` of a whole output (crates/attemptdb-adapters/src/signals.rs): the tail is cut by octets, and
 its lines are read as text. Dafny's `char` is a Unicode scalar value, as Rust's is.
 */
module TestOutput {
  import opened Wrappers
  import opened Text
  import opened TestCounts
  import opened Utf8

  function Scalars(s: string): (scalars: seq<Scalar>)
    ensures |scalars| == |s| && forall i :: 0 <= i < |s| ==> scalars[i] == s[i] as int
  {
    seq(|s|, i requires 0 <= i < |s| => s[i] as int)
  }

  function Octets(s: string): seq<Byte> {
    Encode(Scalars(s))
  }

  lemma OctetsOfConcat(a: string, b: string)
    ensures Octets(a + b) == Octets(a) + Octets(b)
  {
    assert Scalars(a + b) == Scalars(a) + Scalars(b);
    EncodeOfConcat(Scalars(a), Scalars(b));
  }

  // ---------------------------------------------------------------------------
  // The tail
  // ---------------------------------------------------------------------------

  /** The longest end of an output, in whole characters, within the 8 KiB that are read. */
  function TailOf(output: string): string {
    if output == [] || |Octets(output)| <= TAIL then output else TailOf(output[1..])
  }

  /** The octet at which character `k` starts. */
  function Position(output: string, k: nat): nat
    requires k <= |output|
  {
    |Octets(output[..k])|
  }

  lemma PositionIsBoundary(output: string, k: nat)
    requires k <= |output|
    ensures Position(output, k) + |Octets(output[k..])| == |Octets(output)|
    ensures IsBoundary(Octets(output), Position(output, k))
  {
    assert output == output[..k] + output[k..];
    OctetsOfConcat(output[..k], output[k..]);
    TextEndsAtBoundary(Scalars(output), Scalars(output[..k]));
  }

  lemma NextPosition(output: string, k: nat, end: nat)
    requires k < end <= |output|
    ensures Position(output, k + 1) == Position(output, k) + |EncodeChar(output[k] as int)|
    ensures Position(output, k + 1) <= Position(output, end)
  {
    assert output[..k + 1] == output[..k] + [output[k]];
    OctetsOfConcat(output[..k], [output[k]]);
    var one := Scalars([output[k]]);
    assert one == [output[k] as int] && Encode(one[1..]) == [];
    assert output[..end] == output[..k + 1] + output[k + 1..end];
    OctetsOfConcat(output[..k + 1], output[k + 1..end]);
  }

  /** A character that starts before the last 8 KiB is not in the tail. */
  lemma TailStartsLater(output: string, k: nat)
    requires k < |output| && |Octets(output)| > Position(output, k) + TAIL
    ensures TailOf(output[k..]) == TailOf(output[k + 1..])
  {
    PositionIsBoundary(output, k);
    assert output[k..][1..] == output[k + 1..];
  }

  /** Cutting at the first boundary of the last 8 KiB leaves exactly that tail. */
  method CutTail(output: string) returns (tail: string)
    ensures tail == TailOf(output)
  {
    var octets := Octets(output);
    assert IsText(octets);
    var start := TailStart(octets);
    ghost var end := CharacterAt(output, start);
    var at, k := 0, 0;
    assert output[0..] == output && Position(output, 0) == 0;
    while at < start
      invariant 0 <= k <= end && at == Position(output, k) <= start
      invariant TailOf(output[k..]) == TailOf(output)
    {
      PositionIsBoundary(output, k);
      TailStartsLater(output, k);
      NextPosition(output, k, end);
      at := at + |EncodeChar(output[k] as int)|;
      k := k + 1;
    }
    PositionIsBoundary(output, k);
    tail := output[k..];
  }

  lemma CharacterAt(output: string, start: nat) returns (k: nat)
    requires start <= |Octets(output)| && IsBoundary(Octets(output), start)
    ensures k <= |output| && Position(output, k) == start
  {
    k := BoundaryCutsText(Scalars(output), start);
    assert Scalars(output)[..k] == Scalars(output[..k]);
  }

  /** `test_counts`. */
  method ReadOutput(output: string, r: Readers) returns (counts: Option<Counts>)
    ensures counts == Answer(TotalsOf(Lines(TailOf(output)), r))
  {
    var tail := CutTail(output);
    counts := ReadTestCounts(tail, r);
  }

  // ---------------------------------------------------------------------------
  // Summaries at the end of an output
  // ---------------------------------------------------------------------------

  /** What comes before a text that fits is cut, never the text. */
  lemma {:induction false} TailKeepsTheEnd(before: string, text: string) returns (k: nat)
    requires |Octets(text)| <= TAIL
    ensures k <= |before| && TailOf(before + text) == before[k..] + text
    decreases |before|
  {
    var output := before + text;
    if output == [] || |Octets(output)| <= TAIL {
      k := 0;
      assert before[0..] == before;
    } else {
      assert before == [] ==> output == text;
      assert output[1..] == before[1..] + text;
      k := TailKeepsTheEnd(before[1..], text);
      assert before[1..][k..] == before[k + 1..];
      k := k + 1;
    }
  }

  lemma {:induction false} LineLengthBehind(line: string, rest: string)
    requires '\n' !in line
    ensures LineLength(line + ['\n'] + rest) == |line|
    decreases |line|
  {
    if line != [] {
      LineLengthBehind(line[1..], rest);
      assert (line + ['\n'] + rest)[1..] == line[1..] + ['\n'] + rest;
    }
  }

  lemma FirstLine(line: string, rest: string)
    requires '\n' !in line
    ensures Lines(line + ['\n'] + rest) == [Chomp(line)] + Lines(rest)
  {
    var s := line + ['\n'] + rest;
    LineLengthBehind(line, rest);
    assert s[..|line|] == line && s[|line| + 1..] == rest;
  }

  lemma {:induction false} CutFirstLine(s: string) returns (line: string, rest: string)
    requires s != [] && s[|s| - 1] == '\n'
    ensures s == line + ['\n'] + rest && '\n' !in line && (rest == [] || rest[|rest| - 1] == '\n')
    decreases |s|
  {
    if s[0] == '\n' {
      line, rest := [], s[1..];
    } else {
      line, rest := CutFirstLine(s[1..]);
      assert s == [s[0]] + line + ['\n'] + rest;
      line := [s[0]] + line;
    }
  }

  lemma Associates<T>(a: seq<T>, b: seq<T>, c: seq<T>)
    ensures a + (b + c) == a + b + c
  {
  }

  lemma LineInFront(line: string, rest: string, text: string)
    requires '\n' !in line && Lines(rest + text) == Lines(rest) + Lines(text)
    ensures Lines(line + ['\n'] + rest + text) == Lines(line + ['\n'] + rest) + Lines(text)
  {
    FirstLine(line, rest);
    FirstLine(line, rest + text);
    Associates(line + ['\n'], rest, text);
    Associates([Chomp(line)], Lines(rest), Lines(text));
  }

  /** Whole lines before a text: its lines come after theirs. */
  lemma {:induction false} LinesOfConcat(before: string, text: string)
    requires before == [] || before[|before| - 1] == '\n'
    ensures Lines(before + text) == Lines(before) + Lines(text)
    decreases |before|
  {
    if before == [] {
      assert before + text == text;
    } else {
      var line, rest := CutFirstLine(before);
      LinesOfConcat(rest, text);
      LineInFront(line, rest, text);
    }
  }

  predicate NoneRecognised(lines: seq<string>, r: Readers) {
    forall i :: 0 <= i < |lines| ==> Recognised(lines[i], r).None?
  }

  /** The total after a line depends on the total before it alone. */
  lemma TotalOnly(t: Totals, u: Totals, raw: string, r: Readers)
    requires t.total == u.total
    ensures AfterLine(t, raw, r).total == AfterLine(u, raw, r).total
  {
  }

  lemma {:induction false} UnrecognisedTotal(lines: seq<string>, r: Readers)
    requires NoneRecognised(lines, r)
    ensures TotalsOf(lines, r).total == ZERO
    decreases |lines|
  {
    if lines != [] {
      UnrecognisedTotal(lines[..|lines| - 1], r);
    }
  }

  lemma {:induction false} UnrecognisedAddNothing(lines: seq<string>, more: seq<string>, r: Readers)
    requires NoneRecognised(lines, r)
    ensures TotalsOf(lines + more, r).total == TotalsOf(more, r).total
    decreases |more|
  {
    if more == [] {
      assert lines + more == lines;
      UnrecognisedTotal(lines, r);
    } else {
      var all, most, last := lines + more, more[..|more| - 1], more[|more| - 1];
      assert all == lines + most + [last] && more == most + [last];
      TotalsSnoc(lines + most, last, r);
      TotalsSnoc(most, last, r);
      UnrecognisedAddNothing(lines, most, r);
      TotalOnly(TotalsOf(lines + most, r), TotalsOf(most, r), last, r);
    }
  }

  /**
   An output that ends in coloured summaries, among lines no reader knows, that fit the tail: whatever
   whole lines come before, if no reader knows those of them that are read, the answer is the three sums.
   `k` is where the tail cuts what comes before.
   */
  lemma OutputCountsAreTheSums(before: string, os: seq<Output>, r: Readers) returns (k: nat)
    requires AllGood(os, r) && Separates(r.alphanumeric) && Fits(Sum(os)) && Sum(os) != ZERO
    requires before == [] || before[|before| - 1] == '\n'
    requires |Octets(Unlines(Printouts(os, r)))| <= TAIL
    ensures k <= |before| && TailOf(before + Unlines(Printouts(os, r))) == before[k..] + Unlines(Printouts(os, r))
    ensures NoneRecognised(Lines(before[k..]), r) ==>
      Answer(TotalsOf(Lines(TailOf(before + Unlines(Printouts(os, r)))), r)) == Some(Sum(os))
  {
    var text := Unlines(Printouts(os, r));
    k := TailKeepsTheEnd(before, text);
    if NoneRecognised(Lines(before[k..]), r) {
      LinesOfConcat(before[k..], text);
      UnrecognisedAddNothing(Lines(before[k..]), Lines(text), r);
      TestCountsAreTheSums(os, r);
      LinesArePrintouts(os, r);
      TotalIsSum(os, r);
    }
  }
}
