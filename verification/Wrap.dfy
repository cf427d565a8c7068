/**
 Greedy text wrapping (`wrap` and `wrap_from`, crates/attempt/src/cmd_schema.rs).
 A layout is a division of the words into lines; the greedy one is shown to be legal and to use the
 fewest lines of any legal layout.
 */
module Wrap {
  import opened Text

  const WIDTH: nat := 88

  type Line = seq<string>
  type Layout = seq<Line>

  function Flatten(lines: Layout): seq<string> {
    if lines == [] then [] else lines[0] + Flatten(lines[1..])
  }

  /** A line may exceed the width only when it is a single word. */
  predicate Fits(line: Line, width: nat) {
    line != [] && (|line| == 1 || JoinedLength(line) <= width)
  }

  predicate Legal(lines: Layout, words: seq<string>, width: nat) {
    Flatten(lines) == words && forall i :: 0 <= i < |lines| ==> Fits(lines[i], width)
  }

  /** How many words the first line takes when it already holds the first `taken`. */
  function Fill(words: seq<string>, taken: nat, width: nat): (n: nat)
    requires 1 <= taken <= |words|
    ensures taken <= n <= |words|
    decreases |words| - taken
  {
    if taken < |words| && JoinedLength(words[..taken]) + 1 + |words[taken]| <= width then
      Fill(words, taken + 1, width)
    else
      taken
  }

  /** Each line takes as many words as it can. */
  function Greedy(words: seq<string>, width: nat): Layout
    decreases |words|
  {
    if words == [] then
      []
    else
      var n := Fill(words, 1, width);
      [words[..n]] + Greedy(words[n..], width)
  }

  // ---------------------------------------------------------------------------
  // The greedy layout is legal
  // ---------------------------------------------------------------------------

  lemma JoinedLengthPrefix(words: seq<string>, n: nat)
    requires 1 <= n < |words|
    ensures JoinedLength(words[..n + 1]) == JoinedLength(words[..n]) + 1 + |words[n]|
  {
    assert words[..n + 1] == words[..n] + [words[n]];
    JoinedLengthSnoc(words[..n], words[n]);
  }

  lemma {:induction false} FillFits(words: seq<string>, taken: nat, width: nat)
    requires 1 <= taken <= |words| && Fits(words[..taken], width)
    ensures Fits(words[..Fill(words, taken, width)], width)
    decreases |words| - taken
  {
    if taken < |words| && JoinedLength(words[..taken]) + 1 + |words[taken]| <= width {
      JoinedLengthPrefix(words, taken);
      FillFits(words, taken + 1, width);
    }
  }

  lemma {:induction false} GreedyIsLegal(words: seq<string>, width: nat)
    ensures Legal(Greedy(words, width), words, width)
    decreases |words|
  {
    if words != [] {
      var n := Fill(words, 1, width);
      FillFits(words, 1, width);
      GreedyIsLegal(words[n..], width);
      assert words == words[..n] + words[n..];
    }
  }

  // ---------------------------------------------------------------------------
  // No legal layout uses fewer lines
  // ---------------------------------------------------------------------------

  lemma {:induction false} JoinedLengthGrows(words: seq<string>, n: nat, m: nat)
    requires 1 <= n <= m <= |words|
    ensures JoinedLength(words[..n]) <= JoinedLength(words[..m])
    decreases m
  {
    if n < m {
      JoinedLengthPrefix(words, m - 1);
      JoinedLengthGrows(words, n, m - 1);
    }
  }

  /** A line that starts the text and fits is no longer than the greedy one. */
  lemma {:induction false} FillIsMaximal(words: seq<string>, taken: nat, width: nat, k: nat)
    requires 1 <= taken <= |words| && taken <= k <= |words|
    requires Fits(words[..k], width)
    ensures k <= Fill(words, taken, width)
    decreases |words| - taken
  {
    if taken < k {
      JoinedLengthPrefix(words, taken);
      JoinedLengthGrows(words, taken + 1, k);
      FillIsMaximal(words, taken + 1, width, k);
    }
  }

  /** A layout with its first `k` words left out; lines that become empty disappear. */
  function DropWords(lines: Layout, k: nat): Layout
    requires k <= |Flatten(lines)|
    decreases lines
  {
    if k == 0 then lines
    else if k < |lines[0]| then [lines[0][k..]] + lines[1..]
    else DropWords(lines[1..], k - |lines[0]|)
  }

  lemma {:induction false} SuffixFits(line: Line, k: nat, width: nat)
    requires Fits(line, width) && k < |line| && AllWords(line)
    ensures Fits(line[k..], width)
  {
    JoinedLengthSuffix(line, k);
  }

  lemma {:induction false} DropWordsIsLegal(lines: Layout, words: seq<string>, width: nat, k: nat)
    requires Legal(lines, words, width) && k <= |words| && AllWords(words)
    ensures Legal(DropWords(lines, k), words[k..], width)
    ensures |DropWords(lines, k)| <= |lines|
    decreases |lines|
  {
    if k == 0 {
      assert words[0..] == words;
    } else {
      var first := lines[0];
      var rest := Flatten(lines[1..]);
      assert words == first + rest;
      assert words[..|first|] == first;
      assert forall i :: 0 <= i < |lines[1..]| ==> Fits(lines[1..][i], width);
      if k < |first| {
        assert forall i :: 0 <= i < |first| ==> first[i] == words[i];
        SuffixFits(first, k, width);
        assert ([first[k..]] + lines[1..])[1..] == lines[1..];
        assert words[k..] == first[k..] + rest;
      } else {
        assert rest == words[|first|..];
        DropWordsIsLegal(lines[1..], rest, width, k - |first|);
        assert rest[k - |first|..] == words[k..];
      }
    }
  }

  /** Greedy is optimal: every legal layout of the words has at least as many lines. */
  lemma {:induction false} GreedyIsOptimal(lines: Layout, words: seq<string>, width: nat)
    requires Legal(lines, words, width) && AllWords(words)
    ensures |Greedy(words, width)| <= |lines|
    decreases |words|
  {
    if words != [] {
      var n := Fill(words, 1, width);
      var k := |lines[0]|;
      assert words == lines[0] + Flatten(lines[1..]);
      assert words[..k] == lines[0];
      assert Fits(lines[0], width);
      FillIsMaximal(words, 1, width, k);
      DropWordsIsLegal(lines, words, width, n);
      FewerAfterFirst(lines, words, width, n);
      GreedyIsOptimal(DropWords(lines, n), words[n..], width);
    }
  }

  /** Leaving out at least the whole first line leaves at least one line fewer. */
  lemma FewerAfterFirst(lines: Layout, words: seq<string>, width: nat, n: nat)
    requires Legal(lines, words, width) && AllWords(words)
    requires lines != [] && |lines[0]| <= n <= |words|
    ensures |DropWords(lines, n)| < |lines|
  {
    assert Fits(lines[0], width);
    var rest := Flatten(lines[1..]);
    assert rest == words[|lines[0]|..];
    assert forall i :: 0 <= i < |lines[1..]| ==> Fits(lines[1..][i], width);
    DropWordsIsLegal(lines[1..], rest, width, n - |lines[0]|);
  }

  // ---------------------------------------------------------------------------
  // The printed text
  // ---------------------------------------------------------------------------

  function Spaces(n: nat): (s: string)
    ensures |s| == n
    ensures forall i :: 0 <= i < n ==> s[i] == ' '
  {
    seq(n, i => ' ')
  }

  /** `format!("{lead:<indent$}")`. */
  function Padded(lead: string, indent: nat): (s: string)
    ensures lead <= s && |s| == (if |lead| < indent then indent else |lead|)
    ensures forall i :: |lead| <= i < |s| ==> s[i] == ' '
  {
    if |lead| < indent then lead + Spaces(indent - |lead|) else lead
  }

  /** Every line on its own row, the first after `first` (when there is one) and the rest after `pad`. */
  function Printed(lines: Layout, first: string, pad: string): string {
    if lines == [] then ""
    else (if first == "" then pad else first) + Join(lines[0]) + "\n" + Printed(lines[1..], "", pad)
  }

  lemma {:induction false} PrintedSnoc(lines: Layout, line: Line, first: string, pad: string)
    ensures Printed(lines + [line], first, pad)
      == Printed(lines, first, pad)
       + (if lines != [] || first == "" then pad else first) + Join(line) + "\n"
    decreases |lines|
  {
    if lines == [] {
      assert lines + [line] == [line];
      assert Printed([line][1..], "", pad) == "";
    } else {
      assert (lines + [line])[1..] == lines[1..] + [line];
      PrintedSnoc(lines[1..], line, "", pad);
    }
  }

  lemma {:induction false} WordsAfterSpaces(n: nat, s: string)
    ensures Words(Spaces(n) + s) == Words(s)
    decreases n
  {
    if n == 0 {
      assert Spaces(0) + s == s;
    } else {
      assert (Spaces(n) + s)[1..] == Spaces(n - 1) + s;
      WordsAfterSpaces(n - 1, s);
    }
  }

  /** The printed text holds the words of the layout, in order. */
  lemma {:induction false} WordsOfPrinted(lines: Layout, indent: nat)
    requires AllWords(Flatten(lines))
    ensures Words(Printed(lines, "", Spaces(indent))) == Flatten(lines)
    decreases |lines|
  {
    if lines != [] {
      var line, rest := lines[0], Printed(lines[1..], "", Spaces(indent));
      assert forall i :: 0 <= i < |line| ==> line[i] == Flatten(lines)[i];
      assert forall i :: 0 <= i < |Flatten(lines[1..])| ==> Flatten(lines[1..])[i] == Flatten(lines)[|line| + i];
      assert Printed(lines, "", Spaces(indent)) == Spaces(indent) + (Join(line) + ['\n'] + rest);
      WordsAfterSpaces(indent, Join(line) + ['\n'] + rest);
      WordsAroundSpace(Join(line), '\n', rest);
      WordsOfJoin(line);
      WordsOfPrinted(lines[1..], indent);
    }
  }

  /** The layout the loop still produces when the line so far is `current` and `rest` is unread. */
  function Resume(current: Line, rest: seq<string>, width: nat): Layout
    decreases |rest|
  {
    if rest == [] then
      if current == [] then [] else [current]
    else if current != [] && JoinedLength(current) + 1 + |rest[0]| > width then
      [current] + Resume([rest[0]], rest[1..], width)
    else
      Resume(current + [rest[0]], rest[1..], width)
  }

  lemma ResumeFlush(done: Layout, current: Line, rest: seq<string>, width: nat)
    requires current != []
    requires rest == [] || JoinedLength(current) + 1 + |rest[0]| > width
    ensures done + Resume(current, rest, width) == done + [current] + Resume([], rest, width)
  {
    if rest != [] {
      assert [] + [rest[0]] == [rest[0]];
    }
  }

  lemma ResumeExtend(current: Line, words: seq<string>, i: nat, width: nat)
    requires i < |words|
    requires current == [] || JoinedLength(current) + 1 + |words[i]| <= width
    ensures Resume(current, words[i..], width) == Resume(current + [words[i]], words[i + 1..], width)
  {
    assert words[i..][1..] == words[i + 1..];
  }

  lemma GreedyEndsLine(words: seq<string>, n: nat, width: nat)
    requires 1 <= n <= |words| && Fill(words, 1, width) == Fill(words, n, width)
    requires n == |words| || JoinedLength(words[..n]) + 1 + |words[n]| > width
    ensures Greedy(words, width) == [words[..n]] + Greedy(words[n..], width)
  {
  }

  /** The loop's layout is the greedy one. */
  lemma {:induction false} ResumeIsGreedy(current: Line, rest: seq<string>, width: nat)
    requires current != [] ==> Fill(current + rest, 1, width) == Fill(current + rest, |current|, width)
    ensures Resume(current, rest, width) == Greedy(current + rest, width)
    decreases |rest|
  {
    var words, n := current + rest, |current|;
    assert words[..n] == current && words[n..] == rest;
    if rest == [] {
      if current != [] {
        GreedyEndsLine(words, n, width);
      }
    } else {
      assert words[n] == rest[0];
      if current != [] && JoinedLength(current) + 1 + |rest[0]| > width {
        GreedyEndsLine(words, n, width);
        assert [rest[0]] + rest[1..] == rest;
        ResumeIsGreedy([rest[0]], rest[1..], width);
      } else {
        assert (current + [rest[0]]) + rest[1..] == words;
        ResumeIsGreedy(current + [rest[0]], rest[1..], width);
      }
    }
  }

  lemma AppendWord(current: Line, word: string)
    requires IsWord(word)
    ensures Join(current + [word]) == (if current == [] then "" else Join(current) + " ") + word
    ensures Join(current + [word]) != ""
  {
    JoinSnoc(current, word);
  }

  /**
   The loop of `wrap_from`: the lines printed when it ends, and the line still being built.
   `lead` is the local `first` before the loop and `first` is it afterwards.
   */
  method PrintFullLines(words: seq<string>, lead: string, pad: string, width: nat)
    returns (out: string, line: string, first: string, ghost done: Layout, ghost current: Line)
    requires AllWords(words)
    ensures line == Join(current) && (line == "" <==> current == [])
    ensures Resume([], words, width) == done + Resume(current, [], width)
    ensures out == Printed(done, lead, pad)
    ensures first == if done == [] then lead else ""
  {
    first, out, line, current, done := lead, "", "", [], [];
    var i := 0;
    while i < |words|
      invariant 0 <= i <= |words|
      invariant line == Join(current)
      invariant line == "" <==> current == []
      invariant Resume([], words, width) == done + Resume(current, words[i..], width)
      invariant out == Printed(done, lead, pad)
      invariant first == if done == [] then lead else ""
    {
      var word := words[i];
      if line != "" && |line| + 1 + |word| > width {
        PrintedSnoc(done, current, lead, pad);
        ResumeFlush(done, current, words[i..], width);
        done, current := done + [current], [];
        out := out + (if first == "" then pad else first);
        first := "";
        out := out + line;
        out := out + "\n";
        line := "";
      }
      AppendWord(current, word);
      ResumeExtend(current, words, i, width);
      current := current + [word];
      if line != "" {
        line := line + " ";
      }
      line := line + word;
      i := i + 1;
    }
    assert words[i..] == [];
  }

  /** `wrap_from`: prints the greedy layout, `lead` standing in the indent of the first line. */
  method WrapFrom(lead: string, text: string, indent: nat) returns (out: string)
    requires indent <= WIDTH
    ensures out == Printed(Greedy(Words(text), WIDTH - indent),
                           if lead == "" then "" else Padded(lead, indent), Spaces(indent))
  {
    var words, width := Words(text), WIDTH - indent;
    var pad := Spaces(indent);
    var prefix := if lead == "" then "" else Padded(lead, indent);
    var line, first;
    ghost var done, current;
    out, line, first, done, current := PrintFullLines(words, prefix, pad, width);
    if line != "" {
      PrintedSnoc(done, current, prefix, pad);
      ResumeFlush(done, current, [], width);
      done := done + [current];
      out := out + (if first == "" then pad else first);
      out := out + line;
      out := out + "\n";
    }
    assert [] + words == words && done + [] == done;
    ResumeIsGreedy([], words, width);
    assert Greedy(words, width) == done;
  }

  // ---------------------------------------------------------------------------
  // The rows of the printed text
  // ---------------------------------------------------------------------------

  /** The rows: the first behind `first`, when there is one, and the others behind `pad`. */
  function Rows(lines: Layout, first: string, pad: string): (rows: seq<string>)
    ensures |rows| == |lines|
    ensures forall i :: 0 <= i < |lines| ==> rows[i] == (if i == 0 && first != "" then first else pad) + Join(lines[i])
  {
    if lines == [] then []
    else [(if first == "" then pad else first) + Join(lines[0])] + Rows(lines[1..], "", pad)
  }

  lemma {:induction false} PrintedIsItsRows(lines: Layout, first: string, pad: string)
    ensures Printed(lines, first, pad) == Unlines(Rows(lines, first, pad))
    decreases |lines|
  {
    if lines != [] {
      PrintedIsItsRows(lines[1..], "", pad);
      var rows := Rows(lines, first, pad);
      assert rows[1..] == Rows(lines[1..], "", pad);
    }
  }

  lemma {:induction false} JoinIsOneLine(words: seq<string>)
    requires AllWords(words)
    ensures OneLine(Join(words))
    decreases |words|
  {
    if |words| == 1 {
      assert IsWord(words[0]);
    } else if |words| > 1 {
      assert IsWord(words[0]);
      assert forall i :: 0 <= i < |words[1..]| ==> words[1..][i] == words[i + 1];
      JoinIsOneLine(words[1..]);
    }
  }

  /** Read line by line, the printed text is the layout: each line behind its lead or the indentation. */
  lemma LinesOfPrinted(lines: Layout, first: string, pad: string)
    requires OneLine(first) && OneLine(pad) && forall i :: 0 <= i < |lines| ==> AllWords(lines[i])
    ensures Text.Lines(Printed(lines, first, pad)) == Rows(lines, first, pad)
  {
    PrintedIsItsRows(lines, first, pad);
    var rows := Rows(lines, first, pad);
    forall i | 0 <= i < |rows|
      ensures OneLine(rows[i])
    {
      JoinIsOneLine(lines[i]);
    }
    LinesOfUnlines(rows);
  }

  lemma {:induction false} WordsOfLayout(lines: Layout, i: nat)
    requires i < |lines| && AllWords(Flatten(lines))
    ensures AllWords(lines[i])
    decreases |lines|
  {
    var rest := Flatten(lines[1..]);
    assert forall k :: 0 <= k < |lines[0]| ==> lines[0][k] == Flatten(lines)[k];
    assert forall k :: 0 <= k < |rest| ==> rest[k] == Flatten(lines)[|lines[0]| + k];
    if i > 0 {
      WordsOfLayout(lines[1..], i - 1);
    }
  }

  /** The text is laid out on these rows: indented, and within the width unless the row is one word. */
  predicate WithinWidth(rows: seq<string>, lines: Layout, indent: nat) {
    && |rows| == |lines|
    && forall i :: 0 <= i < |rows| ==>
         && rows[i] == Spaces(indent) + Join(lines[i])
         && (|rows[i]| <= WIDTH || |lines[i]| == 1)
  }

  lemma RowsAreWithinWidth(lines: Layout, words: seq<string>, indent: nat)
    requires indent <= WIDTH && AllWords(words) && Legal(lines, words, WIDTH - indent)
    ensures WithinWidth(Text.Lines(Printed(lines, "", Spaces(indent))), lines, indent)
  {
    forall i | 0 <= i < |lines|
      ensures AllWords(lines[i])
    {
      WordsOfLayout(lines, i);
    }
    LinesOfPrinted(lines, "", Spaces(indent));
    forall i | 0 <= i < |lines|
      ensures |Spaces(indent) + Join(lines[i])| <= WIDTH || |lines[i]| == 1
    {
      assert Fits(lines[i], WIDTH - indent);
    }
  }

  /**
   `wrap`. The printed text holds exactly the words of the input in order, and is the printing of a
   legal layout with the fewest possible lines.
   */
  method WrapText(text: string, indent: nat) returns (out: string, ghost lines: Layout)
    requires indent <= WIDTH
    ensures out == Printed(lines, "", Spaces(indent))
    ensures Words(out) == Words(text)
    ensures Legal(lines, Words(text), WIDTH - indent)
    ensures forall other: Layout :: Legal(other, Words(text), WIDTH - indent) ==> |lines| <= |other|
    ensures WithinWidth(Text.Lines(out), lines, indent)
  {
    out := WrapFrom("", text, indent);
    lines := Greedy(Words(text), WIDTH - indent);
    GreedyIsLegal(Words(text), WIDTH - indent);
    WordsOfPrinted(lines, indent);
    RowsAreWithinWidth(lines, Words(text), indent);
    forall other: Layout | Legal(other, Words(text), WIDTH - indent)
      ensures |lines| <= |other|
    {
      GreedyIsOptimal(other, Words(text), WIDTH - indent);
    }
  }
}
