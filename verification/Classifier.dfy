/**
 The shell command classifier (crates/attemptdb-adapters/src/common.rs): a splitter on shell
 separators, a classifier of one segment that calls itself through `bash -c` and `npx`, and a fold
 that keeps the most significant segment. The tables that name programs are parameters.
 */
module Classifier {
  import opened Wrappers
  import opened Sequences
  import opened Text

  /** The coarse categories, most significant first (`CATEGORY_PRIORITY`). */
  datatype Category = Git | Test | Build | Install | Network | Run | Fs | Other

  datatype Facts = Facts(category: Category, gitSubcommand: Option<string>, subcategory: string)

  const UNCLASSIFIED := Facts(Other, None, "unknown")

  const GIT_PRIORITY: seq<string> := [
    "commit", "push", "pull", "merge", "rebase", "cherry-pick", "revert", "reset", "checkout", "switch",
    "stash", "tag", "clone", "fetch", "add", "rm", "mv", "branch", "worktree", "status", "log", "diff", "show"
  ]

  const CHAIN_PRIORITY: seq<string> := [
    "git.commit", "deploy", "git.push", "test.run", "pkg.test", "infra.iac", "infra.k8s", "infra.docker",
    "github.pr_write", "git.rewrite", "git.branch", "db.client", "pkg.build", "build.sys", "lint.run",
    "pkg.lint", "pkg.install"
  ]

  const COMMAND_WRAPPERS: seq<string> := ["sudo", "env", "time", "nohup", "exec", "command", "nice"]
  const SHELLS: seq<string> := ["bash", "sh", "zsh", "dash", "fish"]
  const RUNNERS: seq<string> := ["npx", "bunx", "pnpx"]

  /** The word lists: the category of an ordinary program, and the fine-grained name of a segment. */
  datatype Tables = Tables(
    category: (string, string, seq<string>) -> Category,
    subcategory: (string, Option<string>, seq<string>) -> string)

  // ---------------------------------------------------------------------------
  // Significance
  // ---------------------------------------------------------------------------

  function Rank(c: Category): (r: nat)
    ensures r <= 7
  {
    match c
    case Git => 0
    case Test => 1
    case Build => 2
    case Install => 3
    case Network => 4
    case Run => 5
    case Fs => 6
    case Other => 7
  }

  /** The first index of `x`, or the length when it is absent. */
  function Position(xs: seq<string>, x: string): (i: nat)
    ensures i <= |xs|
    ensures i < |xs| ==> xs[i] == x
    ensures forall j :: 0 <= j < i ==> xs[j] != x
  {
    if xs == [] || xs[0] == x then 0 else 1 + Position(xs[1..], x)
  }

  function GitRank(sub: Option<string>): (r: nat)
    ensures sub.Some? ==> r <= |GIT_PRIORITY|
    ensures sub.None? ==> r == |GIT_PRIORITY| + 1
  {
    match sub
    case Some(s) => Position(GIT_PRIORITY, s)
    case None => |GIT_PRIORITY| + 1
  }

  predicate Outranks(a: Facts, b: Facts) {
    Rank(a.category) < Rank(b.category)
    || (Rank(a.category) == Rank(b.category) && GitRank(a.gitSubcommand) < GitRank(b.gitSubcommand))
  }

  /** `outranks` is a strict weak order: one can rank the segments by it. */
  lemma OutranksIsStrictWeakOrder(a: Facts, b: Facts, c: Facts)
    ensures !Outranks(a, a)
    ensures Outranks(a, b) ==> !Outranks(b, a)
    ensures Outranks(a, b) && Outranks(b, c) ==> Outranks(a, c)
    ensures Outranks(a, c) ==> Outranks(a, b) || Outranks(b, c)
  {
  }

  /** `reduce` with `outranks`, from the left. */
  function Best(facts: seq<Facts>): Facts
    requires facts != []
  {
    if |facts| == 1 then
      facts[0]
    else
      var best := Best(facts[..|facts| - 1]);
      var next := facts[|facts| - 1];
      if Outranks(next, best) then next else best
  }

  /** The fold returns the first of the most significant segments. */
  lemma {:induction false} BestIsFirstMostSignificant(facts: seq<Facts>) returns (k: nat)
    requires facts != []
    ensures k < |facts| && Best(facts) == facts[k]
    ensures forall i :: 0 <= i < |facts| ==> !Outranks(facts[i], facts[k])
    ensures forall i :: 0 <= i < k ==> Outranks(facts[k], facts[i])
  {
    if |facts| == 1 {
      k := 0;
    } else {
      var n := |facts| - 1;
      k := BestIsFirstMostSignificant(facts[..n]);
      assert forall i :: 0 <= i < n ==> facts[..n][i] == facts[i];
      if Outranks(facts[n], facts[k]) {
        k := n;
      }
    }
  }

  /** Folding a list is folding its halves and comparing the two winners. */
  lemma {:induction false} BestOfConcat(a: seq<Facts>, b: seq<Facts>)
    requires a != [] && b != []
    ensures Best(a + b) == if Outranks(Best(b), Best(a)) then Best(b) else Best(a)
    decreases |b|
  {
    var n := |b| - 1;
    assert (a + b)[..|a + b| - 1] == a + b[..n];
    if n == 0 {
      assert a + b[..n] == a;
    } else {
      BestOfConcat(a, b[..n]);
    }
  }

  function ChainSubcategory(facts: seq<Facts>): string {
    if facts == [] then "unknown"
    else if |facts| == 1 then facts[0].subcategory
    else
      var r := LeastChainRank(facts);
      if r < |CHAIN_PRIORITY| then CHAIN_PRIORITY[r] else facts[0].subcategory
  }

  function LeastChainRank(facts: seq<Facts>): (r: nat)
    ensures r <= |CHAIN_PRIORITY|
    ensures forall i :: 0 <= i < |facts| ==> r <= Position(CHAIN_PRIORITY, facts[i].subcategory)
    ensures r < |CHAIN_PRIORITY| ==>
      exists i :: 0 <= i < |facts| && facts[i].subcategory == CHAIN_PRIORITY[r]
  {
    if facts == [] then
      |CHAIN_PRIORITY|
    else
      var head, tail := Position(CHAIN_PRIORITY, facts[0].subcategory), LeastChainRank(facts[1..]);
      if head <= tail then head else tail
  }

  // ---------------------------------------------------------------------------
  // The splitter
  // ---------------------------------------------------------------------------

  /** The length of the separator the text starts with (0: none). */
  function Cut(s: string): (n: nat)
    requires s != []
    ensures n <= |s| && n <= 2
  {
    if (s[0] == '&' || s[0] == '|') && |s| > 1 && s[1] == s[0] then 2
    else if s[0] == '&' || s[0] == '|' || s[0] == ';' || s[0] == '\n' then 1
    else 0
  }

  /** `text` in front of the first of `pieces`. */
  function Prepend(text: string, pieces: seq<string>): seq<string>
    requires pieces != []
  {
    [text + pieces[0]] + pieces[1..]
  }

  lemma PrependToConcat(text: string, p: seq<string>, q: seq<string>)
    requires p != []
    ensures Prepend(text, p + q) == Prepend(text, p) + q
  {
    assert (p + q)[1..] == p[1..] + q;
  }

  predicate Short(texts: seq<string>, limit: nat) {
    forall i :: 0 <= i < |texts| ==> |texts[i]| <= limit
  }

  /** What lies between the separators, nothing trimmed. */
  function Pieces(s: string): (ps: seq<string>)
    ensures ps != []
    ensures Short(ps, |s|)
    decreases |s|
  {
    if s == [] then
      [[]]
    else if Cut(s) == 0 then
      var r := Pieces(s[1..]);
      Prepend([s[0]], r)
    else
      [[]] + Pieces(s[Cut(s)..])
  }

  function Trimmed(piece: string): seq<string> {
    if Trim(piece) == [] then [] else [Trim(piece)]
  }

  function TrimmedNonEmpty(pieces: seq<string>): seq<string> {
    if pieces == [] then []
    else Trimmed(pieces[0]) + TrimmedNonEmpty(pieces[1..])
  }

  function Segments(command: string): seq<string> {
    TrimmedNonEmpty(Pieces(command))
  }

  /** The pieces the loop still produces: `start` begins the current piece and `i` is the next character. */
  ghost function Remaining(command: string, start: nat, i: nat): seq<string>
    requires start <= i <= |command|
  {
    Prepend(command[start..i], Pieces(command[i..]))
  }

  lemma RemainingAtStart(command: string)
    ensures Remaining(command, 0, 0) == Pieces(command)
  {
    var pieces := Pieces(command);
    assert command[0..0] == [] && command[0..] == command;
    PrependNothing(pieces);
  }

  lemma RemainingAtEnd(command: string, start: nat)
    requires start <= |command|
    ensures Remaining(command, start, |command|) == [command[start..]]
  {
    assert command[|command|..] == [];
    assert command[start..|command|] == command[start..];
    assert command[start..] + [] == command[start..];
  }

  function CutAt(command: string, i: nat): (n: nat)
    requires i < |command|
    ensures i + n <= |command|
  {
    if (command[i] == '&' || command[i] == '|') && i + 1 < |command| && command[i + 1] == command[i] then 2
    else if command[i] == '&' || command[i] == '|' || command[i] == ';' || command[i] == '\n' then 1
    else 0
  }

  lemma PrependTwice(a: string, b: string, pieces: seq<string>)
    requires pieces != []
    ensures Prepend(a, Prepend(b, pieces)) == Prepend(a + b, pieces)
  {
    assert a + (b + pieces[0]) == a + b + pieces[0];
  }

  lemma PrependNothing(pieces: seq<string>)
    requires pieces != []
    ensures Prepend([], pieces) == pieces
  {
    assert [] + pieces[0] == pieces[0];
  }

  /** One turn of the loop: the scanned text grows by a character, */
  lemma RemainingGrows(command: string, start: nat, i: nat)
    requires start <= i < |command| && CutAt(command, i) == 0
    ensures Remaining(command, start, i) == Remaining(command, start, i + 1)
  {
    var s, r := command[i..], Pieces(command[i + 1..]);
    assert s[1..] == command[i + 1..] && Cut(s) == 0;
    assert Pieces(s) == Prepend([command[i]], r);
    PrependTwice(command[start..i], [command[i]], r);
    assert command[start..i] + [command[i]] == command[start..i + 1];
  }

  /** or a piece is complete. */
  lemma RemainingCuts(command: string, start: nat, i: nat)
    requires start <= i < |command| && CutAt(command, i) > 0
    ensures var next := i + CutAt(command, i);
      Remaining(command, start, i) == [command[start..i]] + Remaining(command, next, next)
  {
    var s, next := command[i..], i + CutAt(command, i);
    var r := Pieces(command[next..]);
    assert s[Cut(s)..] == command[next..] && Cut(s) == CutAt(command, i);
    assert Pieces(s) == [[]] + r;
    assert command[start..i] + [] == command[start..i];
    assert command[next..next] == [];
    PrependNothing(r);
  }

  /** One turn of the index loop: the pieces cut off so far, the start of the next and the position. */
  method SplitStep(command: string, pieces: seq<string>, start: nat, i: nat)
    returns (more: seq<string>, start': nat, i': nat)
    requires start <= i < |command|
    ensures start' <= i' <= |command| && i < i'
    ensures pieces + Remaining(command, start, i) == more + Remaining(command, start', i')
  {
    var cut := CutAt(command, i);
    if cut == 0 {
      RemainingGrows(command, start, i);
      return pieces, start, i + 1;
    }
    RemainingCuts(command, start, i);
    Regroup(pieces, [command[start..i]], Remaining(command, i + cut, i + cut));
    return pieces + [command[start..i]], i + cut, i + cut;
  }

  /** The index loop of `split_segments`. Every separator is one byte, so characters do for bytes. */
  method SplitPieces(command: string) returns (pieces: seq<string>)
    ensures pieces == Pieces(command)
  {
    pieces := [];
    var start, i := 0, 0;
    ghost var rest := Remaining(command, 0, 0);
    RemainingAtStart(command);
    ghost var all := rest;
    while i < |command|
      invariant 0 <= start <= i <= |command|
      invariant rest == Remaining(command, start, i)
      invariant all == pieces + rest
    {
      pieces, start, i := SplitStep(command, pieces, start, i);
      rest := Remaining(command, start, i);
    }
    RemainingAtEnd(command, start);
    pieces := pieces + [command[start..]];
  }

  /** `split_segments`. */
  method SplitSegments(command: string) returns (segments: seq<string>)
    ensures segments == Segments(command)
  {
    var pieces := SplitPieces(command);
    segments := [];
    var k := 0;
    while k < |pieces|
      invariant 0 <= k <= |pieces|
      invariant TrimmedNonEmpty(pieces) == segments + TrimmedNonEmpty(pieces[k..])
    {
      var t := Trim(pieces[k]);
      TrimmedFrom(pieces, k);
      if t != [] {
        Regroup(segments, [t], TrimmedNonEmpty(pieces[k + 1..]));
        segments := segments + [t];
      }
      k := k + 1;
    }
    assert pieces[k..] == [];
  }

  lemma TrimmedFrom(pieces: seq<string>, k: nat)
    requires k < |pieces|
    ensures TrimmedNonEmpty(pieces[k..]) == Trimmed(pieces[k]) + TrimmedNonEmpty(pieces[k + 1..])
  {
    var rest := pieces[k..];
    assert rest[0] == pieces[k] && rest[1..] == pieces[k + 1..];
  }

  predicate IsSeparator(sep: string) {
    sep == "&&" || sep == "||" || sep == "&" || sep == "|" || sep == ";" || sep == "\n"
  }

  /** The separator stands by itself: it does not run together with an `&` or `|` beside it. */
  predicate Apart(a: string, sep: string, b: string) {
    && IsSeparator(sep)
    && (sep[0] == '&' || sep[0] == '|' ==>
          && (a == [] || a[|a| - 1] != sep[0])
          && (|sep| == 1 ==> b == [] || b[0] != sep[0]))
  }

  lemma CutBefore(a: string, sep: string, b: string)
    requires a != [] && Apart(a, sep, b)
    ensures Cut(a + sep + b) == Cut(a)
  {
    var s := a + sep + b;
    assert |a| == 1 ==> s[1] == sep[0];
    assert |a| > 1 ==> s[1] == a[1];
  }

  lemma CutOff(sep: string, b: string)
    requires Apart([], sep, b)
    ensures Cut(sep + b) == |sep|
  {
    var s := sep + b;
    assert |sep| == 1 && b != [] ==> s[1] == b[0];
  }

  /** Each separator separates: the pieces of the two sides, those of the left first. */
  lemma {:induction false} PiecesAround(a: string, sep: string, b: string)
    requires Apart(a, sep, b)
    ensures Pieces(a + sep + b) == Pieces(a) + Pieces(b)
    decreases |a|
  {
    var s := a + sep + b;
    if a == [] {
      assert s == sep + b && s[|sep|..] == b;
      CutOff(sep, b);
    } else {
      CutBefore(a, sep, b);
      var n := if Cut(a) == 0 then 1 else Cut(a);
      assert s[n..] == a[n..] + sep + b;
      assert |a| > n ==> a[n..][|a| - n - 1] == a[|a| - 1];
      PiecesAround(a[n..], sep, b);
      PiecesGrow(a, s, b, n);
    }
  }

  /** One character or one cut more in front of both. */
  lemma PiecesGrow(a: string, s: string, b: string, n: nat)
    requires a != [] && s != [] && s[0] == a[0] && Cut(s) == Cut(a) && n == (if Cut(a) == 0 then 1 else Cut(a)) && n <= |s|
    requires Pieces(s[n..]) == Pieces(a[n..]) + Pieces(b)
    ensures Pieces(s) == Pieces(a) + Pieces(b)
  {
    var r := Pieces(a[n..]);
    if Cut(a) == 0 {
      PrependToConcat([a[0]], r, Pieces(b));
    } else {
      Regroup([[]], r, Pieces(b));
    }
  }

  /** And nothing else is left of them: no piece holds a separator. */
  lemma {:induction false} PiecesHoldNoSeparator(s: string)
    ensures forall i :: 0 <= i < |Pieces(s)| ==> HasNoSeparator(Pieces(s)[i])
    decreases |s|
  {
    if s != [] {
      if Cut(s) == 0 {
        PiecesHoldNoSeparator(s[1..]);
        var r := Pieces(s[1..]);
        assert Pieces(s)[0] == [s[0]] + r[0];
        assert forall i :: 1 <= i < |r| ==> Pieces(s)[i] == r[i];
      } else {
        PiecesHoldNoSeparator(s[Cut(s)..]);
      }
    }
  }

  lemma {:induction false} TrimmedNonEmptyOfConcat(a: seq<string>, b: seq<string>)
    ensures TrimmedNonEmpty(a + b) == TrimmedNonEmpty(a) + TrimmedNonEmpty(b)
    decreases |a|
  {
    if a == [] {
      assert a + b == b;
    } else {
      assert (a + b)[1..] == a[1..] + b && (a + b)[0] == a[0];
      TrimmedNonEmptyOfConcat(a[1..], b);
      Regroup(Trimmed(a[0]), TrimmedNonEmpty(a[1..]), TrimmedNonEmpty(b));
    }
  }

  lemma SegmentsAround(a: string, sep: string, b: string)
    requires Apart(a, sep, b)
    ensures Segments(a + sep + b) == Segments(a) + Segments(b)
  {
    PiecesAround(a, sep, b);
    TrimmedNonEmptyOfConcat(Pieces(a), Pieces(b));
  }

  lemma {:induction false} TrimmedAreShort(pieces: seq<string>, limit: nat)
    requires Short(pieces, limit)
    ensures Short(TrimmedNonEmpty(pieces), limit)
    decreases |pieces|
  {
    if pieces != [] {
      TrimmedAreShort(pieces[1..], limit);
    }
  }

  /** No segment is longer than the command it came from. */
  lemma SegmentsAreShort(command: string)
    ensures Short(Segments(command), |command|)
  {
    TrimmedAreShort(Pieces(command), |command|);
  }

  // ---------------------------------------------------------------------------
  // One segment
  // ---------------------------------------------------------------------------

  predicate IsAsciiAlphanumeric(c: char) {
    'a' <= c <= 'z' || 'A' <= c <= 'Z' || '0' <= c <= '9'
  }

  function IndexOf(s: string, c: char): (i: nat)
    ensures i <= |s|
    ensures i < |s| ==> s[i] == c
  {
    if s == [] || s[0] == c then 0 else 1 + IndexOf(s[1..], c)
  }

  predicate IsEnvAssignment(token: string) {
    var i := IndexOf(token, '=');
    && 0 < i < |token|
    && (forall k :: 0 <= k < i ==> IsAsciiAlphanumeric(token[k]) || token[k] == '_')
    && !('0' <= token[0] <= '9')
  }

  /** How many leading tokens are environment assignments or command wrappers. */
  function Skipped(tokens: seq<string>): (n: nat)
    ensures n <= |tokens|
  {
    if tokens != [] && (IsEnvAssignment(tokens[0]) || tokens[0] in COMMAND_WRAPPERS) then 1 + Skipped(tokens[1..]) else 0
  }

  predicate IsFlag(token: string) {
    token != [] && token[0] == '-'
  }

  function LeadingFlags(tokens: seq<string>): (n: nat)
    ensures n <= |tokens|
  {
    if tokens != [] && IsFlag(tokens[0]) then 1 + LeadingFlags(tokens[1..]) else 0
  }

  function AfterLastSlash(s: string): string {
    if s == [] then []
    else if '/' in s[1..] then AfterLastSlash(s[1..])
    else if s[0] == '/' then s[1..]
    else s
  }

  function TrimQuotes(s: string): string
    decreases |s|
  {
    if s != [] && (s[0] == '\'' || s[0] == '"') then TrimQuotes(s[1..])
    else if s != [] && (s[|s| - 1] == '\'' || s[|s| - 1] == '"') then TrimQuotes(s[..|s| - 1])
    else s
  }

  function ProgramName(token: string): string {
    TrimQuotes(AfterLastSlash(token))
  }

  function Lowercase(s: string): string {
    seq(|s|, i requires 0 <= i < |s| => if 'A' <= s[i] <= 'Z' then (s[i] as int + 32) as char else s[i])
  }

  function GitSubcommand(rest: seq<string>): Option<string>
    decreases |rest|
  {
    if rest == [] then None
    else if rest[0] in ["-C", "-c", "--git-dir", "--work-tree"] then
      if |rest| == 1 then None else GitSubcommand(rest[2..])
    else if IsFlag(rest[0]) then GitSubcommand(rest[1..])
    else Some(Lowercase(rest[0]))
  }

  /** A suffix of a segment's tokens that leaves out at least one, joined, is shorter than the segment. */
  lemma RejoinedSuffixIsShorter(segment: string, k: nat)
    requires 0 < k <= |Words(segment)|
    ensures |Join(Words(segment)[k..])| < |segment|
  {
    JoinedLengthSuffix(Words(segment), k);
    JoinedLengthOfWords(segment);
  }

  /** A segment is classified by its words alone. */
  function ClassifySegment(t: Tables, segment: string): (f: Facts)
    ensures f.gitSubcommand.Some? ==> f.category.Git?
    decreases |segment|, 2
  {
    JoinedLengthOfWords(segment);
    ClassifyWords(t, Words(segment))
  }

  function ClassifyWords(t: Tables, words: seq<string>): (f: Facts)
    requires AllWords(words)
    ensures f.gitSubcommand.Some? ==> f.category.Git?
    decreases JoinedLength(words), 1
  {
    var skip := Skipped(words);
    if skip == |words| then
      UNCLASSIFIED
    else
      ClassifyProgram(t, words, skip)
  }

  function ClassifyProgram(t: Tables, words: seq<string>, skip: nat): (f: Facts)
    requires AllWords(words) && skip < |words|
    ensures f.gitSubcommand.Some? ==> f.category.Git?
    decreases JoinedLength(words), 0
  {
    var first, rest := words[skip], words[skip + 1..];
    var program := ProgramName(first);
    if program == "git" then
      var sub := GitSubcommand(rest);
      Facts(Git, sub, t.subcategory("git", sub, rest))
    else if program in SHELLS then
      var n := LeadingFlags(rest);
      if n == |rest| then
        Facts(Run, None, "unknown")
      else
        assert rest[n..] == words[skip + 1 + n..];
        JoinedLengthSuffix(words, skip + 1 + n);
        ClassifyCommand(t, Join(rest[n..]))
    else if program in RUNNERS then
      JoinedLengthSuffix(words, skip + 1);
      ClassifySegment(t, Join(rest))
    else
      Facts(t.category(program, first, rest), None, t.subcategory(program, None, rest))
  }

  function ClassifyAll(t: Tables, segments: seq<string>, limit: nat): (fs: seq<Facts>)
    requires Short(segments, limit)
    ensures |fs| == |segments|
    ensures forall i :: 0 <= i < |fs| ==> (fs[i].gitSubcommand.Some? ==> fs[i].category.Git?)
    decreases limit, 3, |segments|
  {
    if segments == [] then
      []
    else
      [ClassifySegment(t, segments[0])] + ClassifyAll(t, segments[1..], limit)
  }

  /** `classify_command`. That it terminates on every text is what the `decreases` clauses prove. */
  function ClassifyCommand(t: Tables, command: string): (f: Facts)
    ensures f.gitSubcommand.Some? ==> f.category.Git?
    decreases |command|, 4
  {
    SegmentsAreShort(command);
    var facts := ClassifyAll(t, Segments(command), |command|);
    if facts == [] then
      UNCLASSIFIED
    else
      BestIsOneOf(facts);
      Best(facts).(subcategory := ChainSubcategory(facts))
  }

  lemma {:induction false} BestIsOneOf(facts: seq<Facts>)
    requires facts != []
    ensures Best(facts) in facts
  {
    var k := BestIsFirstMostSignificant(facts);
  }

  // ---------------------------------------------------------------------------
  // Chains
  // ---------------------------------------------------------------------------

  lemma {:induction false} ClassifyAllIgnoresLimit(t: Tables, segments: seq<string>, limit: nat, other: nat)
    requires Short(segments, limit) && Short(segments, other)
    ensures ClassifyAll(t, segments, limit) == ClassifyAll(t, segments, other)
    decreases |segments|
  {
    if segments != [] {
      ClassifyAllIgnoresLimit(t, segments[1..], limit, other);
    }
  }

  lemma {:induction false} ClassifyAllOfConcat(t: Tables, a: seq<string>, b: seq<string>, limit: nat)
    requires Short(a, limit) && Short(b, limit)
    ensures ClassifyAll(t, a + b, limit) == ClassifyAll(t, a, limit) + ClassifyAll(t, b, limit)
    decreases |a|
  {
    if a == [] {
      assert a + b == b;
    } else {
      assert (a + b)[1..] == a[1..] + b;
      ClassifyAllOfConcat(t, a[1..], b, limit);
    }
  }

  /** The part of the facts the fold compares. */
  function Core(f: Facts): (Category, Option<string>) {
    (f.category, f.gitSubcommand)
  }

  /** The facts of each segment of a command. */
  function SegmentFacts(t: Tables, command: string): seq<Facts> {
    SegmentsAreShort(command);
    ClassifyAll(t, Segments(command), |command|)
  }

  lemma ChainFacts(t: Tables, a: string, sep: string, b: string)
    requires Apart(a, sep, b)
    ensures SegmentFacts(t, a + sep + b) == SegmentFacts(t, a) + SegmentFacts(t, b)
  {
    var c := a + sep + b;
    SegmentsAround(a, sep, b);
    SegmentsAreShort(a);
    SegmentsAreShort(b);
    SegmentsAreShort(c);
    ClassifyAllOfConcat(t, Segments(a), Segments(b), |c|);
    ClassifyAllIgnoresLimit(t, Segments(a), |c|, |a|);
    ClassifyAllIgnoresLimit(t, Segments(b), |c|, |b|);
  }

  /** The winner of the fold, `other` when there is nothing to fold. */
  function Winner(facts: seq<Facts>): Facts {
    if facts == [] then UNCLASSIFIED else Best(facts)
  }

  predicate GitOnly(f: Facts) {
    f.gitSubcommand.Some? ==> f.category.Git?
  }

  /** Comparing the winners of two lists, empty ones included, finds the winner of both together. */
  lemma WinnerOfConcat(xs: seq<Facts>, ys: seq<Facts>)
    requires forall i :: 0 <= i < |xs| ==> GitOnly(xs[i])
    requires forall i :: 0 <= i < |ys| ==> GitOnly(ys[i])
    ensures var x, y := Winner(xs), Winner(ys);
      Core(Winner(xs + ys)) == if Outranks(y, x) then Core(y) else Core(x)
  {
    if xs == [] {
      assert xs + ys == ys;
      if ys != [] {
        BestIsOneOf(ys);
      }
    } else if ys == [] {
      assert xs + ys == xs;
      BestIsOneOf(xs);
    } else {
      BestOfConcat(xs, ys);
    }
  }

  /**
   A chain is classified by its halves, whichever separator joins them: the category and git subcommand
   are those of the half that outranks the other, the first half on a tie; so the rank of the category is
   the smaller of the two.
   */
  lemma ClassifyChain(t: Tables, a: string, sep: string, b: string)
    requires Apart(a, sep, b)
    ensures var fa, fb := ClassifyCommand(t, a), ClassifyCommand(t, b);
      Core(ClassifyCommand(t, a + sep + b)) == (if Outranks(fb, fa) then Core(fb) else Core(fa))
    ensures var ra, rb := Rank(ClassifyCommand(t, a).category), Rank(ClassifyCommand(t, b).category);
      Rank(ClassifyCommand(t, a + sep + b).category) == if ra <= rb then ra else rb
  {
    ChainFacts(t, a, sep, b);
    WinnerOfConcat(SegmentFacts(t, a), SegmentFacts(t, b));
  }

  /** The categories, most significant first. */
  lemma SignificanceOrder()
    ensures Rank(Git) < Rank(Test) < Rank(Build) < Rank(Install) < Rank(Network) < Rank(Run) < Rank(Fs) < Rank(Other)
  {
  }

  /** No segment has one of the first names of the priority list. */
  predicate NoneBefore(facts: seq<Facts>, r: nat)
    requires r <= |CHAIN_PRIORITY|
  {
    forall q, j :: 0 <= q < r && 0 <= j < |facts| ==> facts[j].subcategory != CHAIN_PRIORITY[q]
  }

  /** Some segment has that name of the priority list. */
  predicate SomeHas(facts: seq<Facts>, name: string) {
    exists i :: 0 <= i < |facts| && facts[i].subcategory == name
  }

  lemma LeastChainRankIs(facts: seq<Facts>)
    ensures var r := LeastChainRank(facts);
      NoneBefore(facts, r) && (r < |CHAIN_PRIORITY| ==> SomeHas(facts, CHAIN_PRIORITY[r]))
  {
    var r := LeastChainRank(facts);
    forall q, j | 0 <= q < r && 0 <= j < |facts|
      ensures facts[j].subcategory != CHAIN_PRIORITY[q]
    {
      assert q < Position(CHAIN_PRIORITY, facts[j].subcategory);
    }
  }

  /** The fine-grained name of a chain: the first of the priority list that a segment has, otherwise the first segment's. */
  lemma ChainSubcategoryIs(facts: seq<Facts>)
    requires facts != []
    ensures var name := ChainSubcategory(facts);
      if |facts| > 1 && exists i :: 0 <= i < |facts| && facts[i].subcategory in CHAIN_PRIORITY then
        SomeHas(facts, name) && exists r :: 0 <= r < |CHAIN_PRIORITY| && name == CHAIN_PRIORITY[r] && NoneBefore(facts, r)
      else name == facts[0].subcategory
  {
    LeastChainRankIs(facts);
    if i :| 0 <= i < |facts| && facts[i].subcategory in CHAIN_PRIORITY {
      PositionOfMember(CHAIN_PRIORITY, facts[i].subcategory);
    }
  }

  lemma {:induction false} PositionOfMember(xs: seq<string>, x: string)
    requires x in xs
    ensures Position(xs, x) < |xs|
    decreases |xs|
  {
    if xs[0] != x {
      PositionOfMember(xs[1..], x);
    }
  }

  lemma CommandSubcategory(t: Tables, command: string)
    ensures ClassifyCommand(t, command).subcategory == ChainSubcategory(SegmentFacts(t, command))
  {
  }

  // ---------------------------------------------------------------------------
  // Shells and runners around a command
  // ---------------------------------------------------------------------------

  predicate HasNoSeparator(s: string) {
    '&' !in s && '|' !in s && ';' !in s && '\n' !in s
  }

  lemma {:induction false} OnePiece(s: string)
    requires HasNoSeparator(s)
    ensures Pieces(s) == [s]
    decreases |s|
  {
    if s != [] {
      OnePiece(s[1..]);
      assert [s[0]] + s[1..] == s;
    }
  }

  lemma {:induction false} WordsOfTrimStart(s: string)
    ensures Words(TrimStart(s)) == Words(s)
    decreases |s|
  {
    if s != [] && IsWhitespace(s[0]) {
      WordsOfTrimStart(s[1..]);
    }
  }

  lemma {:induction false} WordsOfTrimEnd(s: string)
    ensures Words(TrimEnd(s)) == Words(s)
    decreases |s|
  {
    if s != [] && IsWhitespace(s[|s| - 1]) {
      var n := |s| - 1;
      assert s == s[..n] + [s[n]] + [];
      WordsAroundSpace(s[..n], s[n], []);
      WordsOfTrimEnd(s[..n]);
    }
  }

  /** A command without separators is its one segment. */
  lemma SingleSegment(t: Tables, command: string)
    requires HasNoSeparator(command)
    ensures ClassifyCommand(t, command) == ClassifySegment(t, command)
  {
    OnePiece(command);
    var trimmed := Trim(command);
    WordsOfTrimStart(command);
    WordsOfTrimEnd(TrimStart(command));
    assert ClassifySegment(t, command) == ClassifySegment(t, trimmed);
    assert TrimmedNonEmpty([command][1..]) == [];
    SegmentsAreShort(command);
    if trimmed == [] {
      assert Segments(command) == [];
    } else {
      assert Segments(command) == [trimmed];
    }
  }

  /** The words that start a nested command: a shell with its flags, or a package runner. */
  predicate Nests(prefix: seq<string>) {
    && prefix != []
    && !IsFlag(prefix[0]) && !IsEnvAssignment(prefix[0]) && prefix[0] !in COMMAND_WRAPPERS
    && var program := ProgramName(prefix[0]);
      && program != "git"
      && ((program in SHELLS && LeadingFlags(prefix[1..]) == |prefix| - 1)
          || (program !in SHELLS && program in RUNNERS && |prefix| == 1))
  }

  predicate PlainWords(words: seq<string>) {
    AllWords(words) && forall i :: 0 <= i < |words| ==> HasNoSeparator(words[i])
  }

  lemma {:induction false} JoinHasNoSeparator(words: seq<string>)
    requires PlainWords(words)
    ensures HasNoSeparator(Join(words))
    decreases |words|
  {
    if |words| == 1 {
      assert Join(words) == words[0];
    } else if |words| > 1 {
      assert forall i :: 0 <= i < |words[1..]| ==> words[1..][i] == words[i + 1];
      JoinHasNoSeparator(words[1..]);
    }
  }

  lemma {:induction false} LeadingFlagsOfConcat(flags: seq<string>, rest: seq<string>)
    requires LeadingFlags(flags) == |flags|
    requires rest != [] && !IsFlag(rest[0])
    ensures LeadingFlags(flags + rest) == |flags|
    decreases |flags|
  {
    if flags == [] {
      assert flags + rest == rest;
    } else {
      assert (flags + rest)[1..] == flags[1..] + rest;
      LeadingFlagsOfConcat(flags[1..], rest);
    }
  }

  lemma NestedInShell(t: Tables, words: seq<string>, flags: seq<string>, inner: seq<string>)
    requires AllWords(words) && words != [] && words[1..] == flags + inner
    requires ProgramName(words[0]) in SHELLS && ProgramName(words[0]) != "git"
    requires LeadingFlags(flags) == |flags| && PlainWords(inner) && inner != [] && !IsFlag(inner[0])
    ensures ClassifyProgram(t, words, 0) == ClassifySegment(t, Join(inner))
  {
    LeadingFlagsOfConcat(flags, inner);
    assert (flags + inner)[|flags|..] == inner;
    assert ClassifyProgram(t, words, 0) == ClassifyCommand(t, Join(inner));
    JoinHasNoSeparator(inner);
    SingleSegment(t, Join(inner));
  }

  lemma ProgramOfNest(t: Tables, words: seq<string>, prefix: seq<string>, inner: seq<string>)
    requires Nests(prefix) && PlainWords(inner) && inner != [] && !IsFlag(inner[0])
    requires AllWords(words) && words != [] && words[0] == prefix[0] && words[1..] == prefix[1..] + inner
    ensures ClassifyProgram(t, words, 0) == ClassifySegment(t, Join(inner))
  {
    if ProgramName(words[0]) in SHELLS {
      NestedInShell(t, words, prefix[1..], inner);
    } else {
      assert words[1..] == inner;
    }
  }

  lemma NestStartsWithProgram(t: Tables, words: seq<string>)
    requires AllWords(words) && words != []
    requires !IsEnvAssignment(words[0]) && words[0] !in COMMAND_WRAPPERS
    ensures ClassifySegment(t, Join(words)) == ClassifyProgram(t, words, 0)
  {
    WordsOfJoin(words);
    assert Skipped(words) == 0;
  }

  /** One layer of nesting is seen through. */
  lemma NestedOnce(t: Tables, prefix: seq<string>, inner: seq<string>)
    requires Nests(prefix) && PlainWords(prefix) && PlainWords(inner)
    requires inner != [] && !IsFlag(inner[0])
    ensures ClassifySegment(t, Join(prefix + inner)) == ClassifySegment(t, Join(inner))
  {
    assert (prefix + inner)[0] == prefix[0] && (prefix + inner)[1..] == prefix[1..] + inner;
    NestStartsWithProgram(t, prefix + inner);
    ProgramOfNest(t, prefix + inner, prefix, inner);
  }

  predicate PlainNest(prefix: seq<string>) {
    Nests(prefix) && PlainWords(prefix)
  }

  function Concat(prefixes: seq<seq<string>>): seq<string> {
    if prefixes == [] then [] else prefixes[0] + Concat(prefixes[1..])
  }

  /** However deeply shells and runners are nested around a command, it is classified as the command. */
  lemma {:induction false} NestingIsTransparent(t: Tables, prefixes: seq<seq<string>>, inner: seq<string>)
    requires forall i :: 0 <= i < |prefixes| ==> PlainNest(prefixes[i])
    requires PlainWords(inner) && inner != [] && !IsFlag(inner[0])
    ensures ClassifySegment(t, Join(Concat(prefixes) + inner)) == ClassifySegment(t, Join(inner))
    ensures PlainWords(Concat(prefixes) + inner) && !IsFlag((Concat(prefixes) + inner)[0])
    decreases |prefixes|
  {
    if prefixes == [] {
      assert Concat(prefixes) + inner == inner;
    } else {
      assert PlainNest(prefixes[0]);
      NestingIsTransparent(t, prefixes[1..], inner);
      var rest := Concat(prefixes[1..]) + inner;
      assert Concat(prefixes) + inner == prefixes[0] + rest;
      NestedOnce(t, prefixes[0], rest);
    }
  }

  // ---------------------------------------------------------------------------
  // Git behind wrappers and options
  // ---------------------------------------------------------------------------

  /** A program is named by the last part of its path. */
  lemma ProgramOfPath(dir: string, name: string)
    requires '/' !in name && name != [] && !IsQuote(name[0]) && !IsQuote(name[|name| - 1])
    ensures ProgramName(name) == name && ProgramName(dir + "/" + name) == name
  {
    LastPart(dir, name);
    NoSlash(name);
  }

  predicate IsQuote(c: char) {
    c == '\'' || c == '"'
  }

  lemma {:induction false} NoSlash(name: string)
    requires '/' !in name
    ensures AfterLastSlash(name) == name
  {
  }

  lemma {:induction false} LastPart(dir: string, name: string)
    requires '/' !in name
    ensures AfterLastSlash(dir + "/" + name) == name
    decreases |dir|
  {
    var s := dir + "/" + name;
    if dir == [] {
      assert s[1..] == name;
    } else {
      assert s[1..] == dir[1..] + "/" + name;
      assert s[1..][|dir| - 1] == '/';
      LastPart(dir[1..], name);
    }
  }

  /** `NAME=value` is an assignment exactly when the name is one a shell takes. */
  lemma AssignmentExactlyWhen(name: string, value: string)
    requires '=' !in name
    ensures IsEnvAssignment(name + "=" + value) <==>
      && name != [] && !('0' <= name[0] <= '9')
      && forall k :: 0 <= k < |name| ==> IsAsciiAlphanumeric(name[k]) || name[k] == '_'
  {
    IndexOfFirst(name, "=" + value);
    var token := name + "=" + value;
    assert token == name + ("=" + value);
    assert forall k :: 0 <= k < |name| ==> token[k] == name[k];
  }

  lemma {:induction false} IndexOfFirst(name: string, rest: string)
    requires '=' !in name && rest != [] && rest[0] == '='
    ensures IndexOf(name + rest, '=') == |name|
    decreases |name|
  {
    if name == [] {
      assert name + rest == rest;
    } else {
      assert (name + rest)[1..] == name[1..] + rest;
      IndexOfFirst(name[1..], rest);
    }
  }

  /** An option of git before its subcommand. */
  datatype GitOption = WithValue(flag: string, value: string) | Alone(flag: string)

  predicate IsGitOption(o: GitOption) {
    match o
    case WithValue(flag, _) => flag == "-C" || flag == "-c" || flag == "--git-dir" || flag == "--work-tree"
    case Alone(flag) => IsFlag(flag) && flag != "-C" && flag != "-c" && flag != "--git-dir" && flag != "--work-tree"
  }

  function OptionWords(options: seq<GitOption>): seq<string> {
    if options == [] then []
    else (if options[0].WithValue? then [options[0].flag, options[0].value] else [options[0].flag]) + OptionWords(options[1..])
  }

  /** The subcommand is the first word that is neither an option nor the value of one. */
  lemma {:induction false} SubcommandBehindOptions(options: seq<GitOption>, sub: string, rest: seq<string>)
    requires forall i :: 0 <= i < |options| ==> IsGitOption(options[i])
    requires sub != [] && !IsFlag(sub)
    ensures GitSubcommand(OptionWords(options) + [sub] + rest) == Some(Lowercase(sub))
    decreases |options|
  {
    var words := OptionWords(options) + [sub] + rest;
    if options == [] {
      assert words == [sub] + rest;
      assert sub[0] != '-';
    } else {
      SubcommandBehindOptions(options[1..], sub, rest);
      var o, tail := options[0], OptionWords(options[1..]) + [sub] + rest;
      assert IsGitOption(o);
      if o.WithValue? {
        assert words == [o.flag, o.value] + tail;
        assert words[2..] == tail;
      } else {
        assert words == [o.flag] + tail;
        assert words[1..] == tail;
      }
    }
  }

  predicate IsSkipped(token: string) {
    IsEnvAssignment(token) || token in COMMAND_WRAPPERS
  }

  lemma {:induction false} SkipsInFront(front: seq<string>, words: seq<string>)
    requires forall i :: 0 <= i < |front| ==> IsSkipped(front[i])
    requires words != [] && !IsSkipped(words[0])
    ensures Skipped(front + words) == |front|
    decreases |front|
  {
    if front == [] {
      assert front + words == words;
    } else {
      assert (front + words)[1..] == front[1..] + words;
      SkipsInFront(front[1..], words);
    }
  }

  /** `sudo`, assignments and git's own options do not hide a git command: `sudo git -C dir commit` is a commit. */
  lemma GitIsRecognised(t: Tables, front: seq<string>, git: string, options: seq<GitOption>, sub: string, rest: seq<string>)
    requires forall i :: 0 <= i < |front| ==> IsSkipped(front[i])
    requires ProgramName(git) == "git" && !IsSkipped(git)
    requires forall i :: 0 <= i < |options| ==> IsGitOption(options[i])
    requires sub != [] && !IsFlag(sub)
    requires AllWords(front + ([git] + (OptionWords(options) + [sub] + rest)))
    ensures var f := ClassifySegment(t, Join(front + ([git] + (OptionWords(options) + [sub] + rest))));
      f.category == Git && f.gitSubcommand == Some(Lowercase(sub))
  {
    var args := OptionWords(options) + [sub] + rest;
    var words := front + ([git] + args);
    SkipsInFront(front, [git] + args);
    WordsOfJoin(words);
    GitBehind(front, git, args);
    SubcommandBehindOptions(options, sub, rest);
    GitWords(t, words, |front|);
  }

  lemma GitBehind(front: seq<string>, git: string, args: seq<string>)
    ensures var words := front + ([git] + args);
      |words| > |front| && words[|front|] == git && words[|front| + 1..] == args
  {
  }

  lemma GitWords(t: Tables, words: seq<string>, k: nat)
    requires AllWords(words) && k < |words| && Skipped(words) == k && ProgramName(words[k]) == "git"
    ensures ClassifyWords(t, words).category == Git
    ensures ClassifyWords(t, words).gitSubcommand == GitSubcommand(words[k + 1..])
  {
  }

  /** Assignments and wrappers in front change nothing. */
  lemma WrappersAreTransparent(t: Tables, front: seq<string>, words: seq<string>)
    requires forall i :: 0 <= i < |front| ==> IsSkipped(front[i])
    requires words != [] && !IsSkipped(words[0]) && AllWords(front + words)
    ensures ClassifySegment(t, Join(front + words)) == ClassifySegment(t, Join(words))
  {
    assert AllWords(words) by {
      assert forall i :: 0 <= i < |words| ==> words[i] == (front + words)[|front| + i];
    }
    WordsOfJoin(front + words);
    WordsOfJoin(words);
    SkipsInFront(front, words);
    SkipsInFront([], words);
    assert [] + words == words;
    assert (front + words)[|front|] == words[0] && (front + words)[|front| + 1..] == words[1..];
    SameProgram(t, front + words, |front|, words, 0);
  }

  lemma SameProgram(t: Tables, a: seq<string>, i: nat, b: seq<string>, j: nat)
    requires AllWords(a) && i < |a| && AllWords(b) && j < |b| && a[i] == b[j] && a[i + 1..] == b[j + 1..]
    ensures ClassifyProgram(t, a, i) == ClassifyProgram(t, b, j)
  {
  }

  /** The wrappers, shells and runners there are. */
  lemma ProgramNames(name: string)
    ensures name in ["sudo", "env", "time", "nohup", "exec", "command", "nice"] ==> IsSkipped(name)
    ensures name in ["bash", "sh", "zsh", "dash", "fish"] <==> name in SHELLS
    ensures name in ["npx", "bunx", "pnpx"] <==> name in RUNNERS
  {
  }

  lemma ProgramFirst(t: Tables, words: seq<string>)
    requires AllWords(words) && words != [] && !IsSkipped(words[0])
    ensures ClassifySegment(t, Join(words)) == ClassifyProgram(t, words, 0)
  {
    WordsOfJoin(words);
    SkipsInFront([], words);
    assert [] + words == words;
  }

  /** A shell with nothing but flags is a run. */
  lemma BareShell(t: Tables, words: seq<string>)
    requires AllWords(words) && words != [] && !IsSkipped(words[0])
    requires ProgramName(words[0]) in SHELLS && forall i :: 1 <= i < |words| ==> IsFlag(words[i])
    ensures ClassifySegment(t, Join(words)) == Facts(Run, None, "unknown")
  {
    ProgramFirst(t, words);
    var rest := words[1..];
    assert forall i :: 0 <= i < |rest| ==> rest[i] == words[i + 1];
    AllAreFlags(rest);
    NoShellIsGit();
  }

  lemma NoShellIsGit()
    ensures "git" !in SHELLS
  {
  }

  /** Any other program is for the tables, by its name and the words behind it. */
  lemma OrdinaryProgram(t: Tables, words: seq<string>)
    requires AllWords(words) && words != [] && !IsSkipped(words[0])
    requires var program := ProgramName(words[0]); program != "git" && program !in SHELLS && program !in RUNNERS
    ensures var f, program := ClassifySegment(t, Join(words)), ProgramName(words[0]);
      f.category == t.category(program, words[0], words[1..]) && f.gitSubcommand == None
      && f.subcategory == t.subcategory(program, None, words[1..])
  {
    ProgramFirst(t, words);
  }

  lemma {:induction false} AllAreFlags(tokens: seq<string>)
    requires forall i :: 0 <= i < |tokens| ==> IsFlag(tokens[i])
    ensures LeadingFlags(tokens) == |tokens|
    decreases |tokens|
  {
    if tokens != [] {
      AllAreFlags(tokens[1..]);
    }
  }

  lemma LowercaseIs(s: string)
    ensures |Lowercase(s)| == |s| && Lowercase(Lowercase(s)) == Lowercase(s)
    ensures forall i :: 0 <= i < |s| ==>
      if 'A' <= s[i] <= 'Z' then Lowercase(s)[i] as int - 'a' as int == s[i] as int - 'A' as int else Lowercase(s)[i] == s[i]
  {
  }

  // ---------------------------------------------------------------------------
  // The story a chain tells
  // ---------------------------------------------------------------------------

  /** A commit comes before every other git command and a push before the rest; listed ones before the others, and none at all last. */
  lemma GitSignificance(sub: Option<string>)
    ensures sub != Some("commit") ==> GitRank(Some("commit")) < GitRank(sub)
    ensures sub != Some("commit") && sub != Some("push") ==> GitRank(Some("push")) < GitRank(sub)
    ensures sub.Some? && sub.value in GIT_PRIORITY ==> GitRank(sub) < |GIT_PRIORITY|
    ensures sub.Some? && sub.value !in GIT_PRIORITY ==> GitRank(sub) == |GIT_PRIORITY|
  {
    assert GIT_PRIORITY[0] == "commit" && GIT_PRIORITY[1] == "push";
    if sub.Some? && sub.value in GIT_PRIORITY {
      PositionOfMember(GIT_PRIORITY, sub.value);
    }
  }

  /** Whatever else is in a chain, one commit makes it a commit. */
  lemma CommitWins(t: Tables, command: string, i: nat)
    requires i < |SegmentFacts(t, command)|
    requires Core(SegmentFacts(t, command)[i]) == (Git, Some("commit"))
    ensures Core(ClassifyCommand(t, command)) == (Git, Some("commit"))
  {
    var facts := SegmentFacts(t, command);
    var k := BestIsFirstMostSignificant(facts);
    assert !Outranks(facts[i], facts[k]);
    GitSignificance(facts[k].gitSubcommand);
    SignificanceOrder();
  }

  /** And so does its fine-grained name. */
  lemma CommitNamesTheChain(facts: seq<Facts>, i: nat)
    requires i < |facts| && facts[i].subcategory == "git.commit"
    ensures ChainSubcategory(facts) == "git.commit"
  {
    assert CHAIN_PRIORITY[0] == "git.commit";
    assert Position(CHAIN_PRIORITY, "git.commit") == 0;
  }
}
