/**
 Words and whitespace as Rust's `str` sees them: `char::is_whitespace`, `split_whitespace`, `trim`,
 `join(" ")` and `lines`. Shared by the command classifier, the text wrapper and the test-count reader.
 */
module Text {

  /** The Unicode property White_Space. */
  predicate IsWhitespace(c: char) {
    var n := c as int;
    9 <= n <= 13 || n == 0x20 || n == 0x85 || n == 0xA0 || n == 0x1680 || 0x2000 <= n <= 0x200A
    || n == 0x2028 || n == 0x2029 || n == 0x202F || n == 0x205F || n == 0x3000
  }

  predicate IsWord(w: string) {
    w != [] && forall i :: 0 <= i < |w| ==> !IsWhitespace(w[i])
  }

  predicate AllWords(ws: seq<string>) {
    forall i :: 0 <= i < |ws| ==> IsWord(ws[i])
  }

  function WordLength(s: string): (n: nat)
    ensures n <= |s|
    ensures forall i :: 0 <= i < n ==> !IsWhitespace(s[i])
    ensures n < |s| ==> IsWhitespace(s[n])
    ensures s != [] && !IsWhitespace(s[0]) ==> n > 0
  {
    if s == [] || IsWhitespace(s[0]) then 0 else 1 + WordLength(s[1..])
  }

  /** `split_whitespace`: the maximal runs of characters that are not whitespace. */
  function Words(s: string): (ws: seq<string>)
    ensures AllWords(ws)
    decreases |s|
  {
    if s == [] then
      []
    else if IsWhitespace(s[0]) then
      Words(s[1..])
    else
      var n := WordLength(s);
      [s[..n]] + Words(s[n..])
  }

  function TrimStart(s: string): (t: string)
    ensures |t| <= |s|
    ensures t != [] ==> !IsWhitespace(t[0])
  {
    if s != [] && IsWhitespace(s[0]) then TrimStart(s[1..]) else s
  }

  function TrimEnd(s: string): (t: string)
    ensures |t| <= |s|
    ensures t <= s
    ensures t != [] ==> !IsWhitespace(t[|t| - 1])
  {
    if s != [] && IsWhitespace(s[|s| - 1]) then TrimEnd(s[..|s| - 1]) else s
  }

  function Trim(s: string): (t: string)
    ensures |t| <= |s|
  {
    TrimEnd(TrimStart(s))
  }

  /** The length of `words` joined by single spaces. */
  function JoinedLength(words: seq<string>): nat {
    if words == [] then 0
    else if |words| == 1 then |words[0]|
    else |words[0]| + 1 + JoinedLength(words[1..])
  }

  function Join(words: seq<string>): (s: string)
    ensures |s| == JoinedLength(words)
  {
    if words == [] then ""
    else if |words| == 1 then words[0]
    else words[0] + " " + Join(words[1..])
  }

  lemma {:induction false} WordLengthBeforeSpace(a: string, c: char, b: string)
    requires IsWhitespace(c)
    ensures WordLength(a + [c] + b) == WordLength(a)
  {
    if a != [] && !IsWhitespace(a[0]) {
      assert (a + [c] + b)[1..] == a[1..] + [c] + b;
      WordLengthBeforeSpace(a[1..], c, b);
    }
  }

  /** Whitespace separates: the words of two texts around it are the words of each. */
  lemma {:induction false} WordsAroundSpace(a: string, c: char, b: string)
    requires IsWhitespace(c)
    ensures Words(a + [c] + b) == Words(a) + Words(b)
    decreases |a|
  {
    var s := a + [c] + b;
    if a == [] {
      assert s[1..] == b;
    } else if IsWhitespace(a[0]) {
      assert s[1..] == a[1..] + [c] + b;
      WordsAroundSpace(a[1..], c, b);
    } else {
      var n := WordLength(a);
      WordLengthBeforeSpace(a, c, b);
      assert s[..n] == a[..n];
      assert s[n..] == a[n..] + [c] + b;
      WordsAroundSpace(a[n..], c, b);
      assert [a[..n]] + (Words(a[n..]) + Words(b)) == [a[..n]] + Words(a[n..]) + Words(b);
    }
  }

  lemma WordAlone(w: string)
    requires IsWord(w)
    ensures Words(w) == [w]
  {
    var n := WordLength(w);
    assert n == |w|;
    assert w[..n] == w && w[n..] == [];
  }

  /** Joining words and splitting the result gives the words back. */
  lemma {:induction false} WordsOfJoin(words: seq<string>)
    requires AllWords(words)
    ensures Words(Join(words)) == words
    decreases |words|
  {
    if words != [] {
      WordAlone(words[0]);
      assert [words[0]] + words[1..] == words;
      if |words| > 1 {
        assert words[0] + " " + Join(words[1..]) == words[0] + [' '] + Join(words[1..]);
        WordsAroundSpace(words[0], ' ', Join(words[1..]));
        WordsOfJoin(words[1..]);
      }
    }
  }

  lemma {:induction false} JoinedLengthSnoc(words: seq<string>, w: string)
    ensures JoinedLength(words + [w]) == if words == [] then |w| else JoinedLength(words) + 1 + |w|
    decreases |words|
  {
    if |words| == 0 {
      assert words + [w] == [w];
    } else {
      assert (words + [w])[1..] == words[1..] + [w];
      JoinedLengthSnoc(words[1..], w);
    }
  }

  lemma {:induction false} JoinSnoc(words: seq<string>, w: string)
    ensures Join(words + [w]) == if words == [] then w else Join(words) + " " + w
    decreases |words|
  {
    if |words| == 0 {
      assert words + [w] == [w];
    } else {
      assert (words + [w])[1..] == words[1..] + [w];
      JoinSnoc(words[1..], w);
      if |words| > 1 {
        assert words[0] + " " + (Join(words[1..]) + " " + w) == words[0] + " " + Join(words[1..]) + " " + w;
      }
    }
  }

  /** Joining the words of a text never makes it longer. */
  lemma {:induction false} JoinedLengthOfWords(s: string)
    ensures JoinedLength(Words(s)) <= |s|
    decreases |s|
  {
    if s != [] {
      if IsWhitespace(s[0]) {
        JoinedLengthOfWords(s[1..]);
      } else {
        var n := WordLength(s);
        if n < |s| {
          assert s[n..][1..] == s[n + 1..];
          JoinedLengthOfWords(s[n + 1..]);
        }
      }
    }
  }

  /** Leaving out words at the front shortens the join. */
  lemma {:induction false} JoinedLengthSuffix(words: seq<string>, k: nat)
    requires k <= |words| && AllWords(words)
    ensures JoinedLength(words[k..]) <= JoinedLength(words)
    ensures k > 0 ==> JoinedLength(words[k..]) < JoinedLength(words)
  {
    if k == 0 {
      assert words[0..] == words;
    } else {
      var rest := words[1..];
      assert forall i :: 0 <= i < |rest| ==> rest[i] == words[i + 1];
      JoinedLengthSuffix(rest, k - 1);
      assert rest[k - 1..] == words[k..];
      assert IsWord(words[0]);
      assert JoinedLength(rest) < JoinedLength(words);
    }
  }

  // ---------------------------------------------------------------------------
  // Lines
  // ---------------------------------------------------------------------------

  predicate IsLineEnd(c: char) {
    c == '\n' || c == '\r'
  }

  predicate OneLine(s: string) {
    forall i :: 0 <= i < |s| ==> !IsLineEnd(s[i])
  }

  function LineLength(s: string): (n: nat)
    ensures n <= |s| && (n < |s| ==> s[n] == '\n')
  {
    if s == [] || s[0] == '\n' then 0 else 1 + LineLength(s[1..])
  }

  function Chomp(s: string): string {
    if s != [] && s[|s| - 1] == '\r' then s[..|s| - 1] else s
  }

  /** `str::lines`. */
  function Lines(s: string): seq<string>
    decreases |s|
  {
    if s == [] then []
    else
      var n := LineLength(s);
      if n == |s| then [s] else [Chomp(s[..n])] + Lines(s[n + 1..])
  }

  /** Each line with its line feed. */
  function Unlines(lines: seq<string>): string {
    if lines == [] then [] else lines[0] + ['\n'] + Unlines(lines[1..])
  }

  lemma {:induction false} LineLengthOf(line: string, rest: string)
    requires OneLine(line)
    ensures LineLength(line + ['\n'] + rest) == |line|
    decreases |line|
  {
    var s := line + ['\n'] + rest;
    if line != [] {
      LineLengthOf(line[1..], rest);
      assert s[1..] == line[1..] + ['\n'] + rest;
    }
  }

  lemma {:induction false} LinesOfUnlines(lines: seq<string>)
    requires forall i :: 0 <= i < |lines| ==> OneLine(lines[i])
    ensures Lines(Unlines(lines)) == lines
    decreases |lines|
  {
    if lines != [] {
      var line, rest := lines[0], Unlines(lines[1..]);
      var s := line + ['\n'] + rest;
      assert OneLine(lines[0]);
      LineLengthOf(line, rest);
      assert s[..|line|] == line && s[|line| + 1..] == rest;
      LinesOfUnlines(lines[1..]);
    }
  }
}
