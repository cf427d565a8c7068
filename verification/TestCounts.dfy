/**
 Test counts read from a runner's output (crates/attemptdb-adapters/src/signals.rs): the line loop, the
 colour stripper and the reader of cargo's summary line, against a printer of that line. The readers
 of the other runners are a parameter; they are only asked when cargo's declines.
 */
module TestCounts {
  import opened Wrappers
  import opened Text

  datatype Counts = Counts(passed: nat, failed: nat, skipped: nat)

  const ZERO := Counts(0, 0, 0)
  const U64: nat := 0x1_0000_0000_0000_0000
  const ESCAPE: char := 0x1b as char

  function Add(a: Counts, b: Counts): Counts {
    Counts((a.passed + b.passed) % U64, (a.failed + b.failed) % U64, (a.skipped + b.skipped) % U64)
  }

  predicate IsDigit(c: char) {
    '0' <= c <= '9'
  }

  predicate IsLetter(c: char) {
    'a' <= c <= 'z' || 'A' <= c <= 'Z'
  }

  /** `char::is_alphanumeric` is a parameter; what matters is what it says of the line's punctuation. */
  predicate Separates(alphanumeric: char -> bool) {
    !alphanumeric(' ') && !alphanumeric(';')
  }

  // ---------------------------------------------------------------------------
  // Colour sequences
  // ---------------------------------------------------------------------------

  /** What follows a sequence's letter; nothing, when it never ends. */
  function AfterCode(s: string): (rest: string)
    ensures |rest| <= |s|
  {
    if s == [] then [] else if IsLetter(s[0]) then s[1..] else AfterCode(s[1..])
  }

  /** `strip_ansi`. */
  function Strip(s: string): string
    decreases |s|
  {
    if s == [] then []
    else if s[0] != ESCAPE then [s[0]] + Strip(s[1..])
    else if |s| > 1 && s[1] == '[' then Strip(AfterCode(s[2..]))
    else Strip(s[1..])
  }

  method StripAnsi(s: string) returns (out: string)
    ensures out == Strip(s)
  {
    out := [];
    var rest := s;
    while rest != []
      invariant out + Strip(rest) == Strip(s)
      decreases |rest|
    {
      var c := rest[0];
      rest := rest[1..];
      if c == ESCAPE {
        if rest != [] && rest[0] == '[' {
          rest := rest[1..];
          ghost var code := rest;
          while rest != [] && !IsLetter(rest[0])
            invariant AfterCode(rest) == AfterCode(code) && |rest| <= |code|
            decreases |rest|
          {
            rest := rest[1..];
          }
          rest := if rest != [] then rest[1..] else [];
        }
      } else {
        assert out + ([c] + Strip(rest)) == out + [c] + Strip(rest);
        out := out + [c];
      }
    }
    assert out + [] == out;
  }

  lemma {:induction false} StripLeavesNoEscape(s: string)
    ensures ESCAPE !in Strip(s)
    decreases |s|
  {
    if s != [] {
      if s[0] != ESCAPE {
        StripLeavesNoEscape(s[1..]);
      } else if |s| > 1 && s[1] == '[' {
        StripLeavesNoEscape(AfterCode(s[2..]));
      } else {
        StripLeavesNoEscape(s[1..]);
      }
    }
  }

  lemma {:induction false} StripKeepsPlain(s: string)
    requires ESCAPE !in s
    ensures Strip(s) == s
    decreases |s|
  {
    if s != [] {
      StripKeepsPlain(s[1..]);
      assert s == [s[0]] + s[1..];
    }
  }

  /** Stripping twice is stripping once. */
  lemma StripIsIdempotent(s: string)
    ensures Strip(Strip(s)) == Strip(s)
  {
    StripLeavesNoEscape(s);
    StripKeepsPlain(Strip(s));
  }

  /** One colour sequence. */
  datatype Code = Code(parameters: string, letter: char)

  predicate GoodCode(c: Code) {
    && IsLetter(c.letter)
    && forall i :: 0 <= i < |c.parameters| ==> !IsLetter(c.parameters[i]) && !IsLineEnd(c.parameters[i])
  }

  predicate GoodCodes(codes: seq<Code>) {
    forall i :: 0 <= i < |codes| ==> GoodCode(codes[i])
  }

  predicate GoodPaint(paint: seq<seq<Code>>) {
    forall i :: 0 <= i < |paint| ==> GoodCodes(paint[i])
  }

  function Printed(codes: seq<Code>): string {
    if codes == [] then []
    else [ESCAPE, '['] + codes[0].parameters + [codes[0].letter] + Printed(codes[1..])
  }

  /** The line with `paint[k]` before its character `k`, and the last of `paint` after it. */
  function Painted(line: string, paint: seq<seq<Code>>): string
    requires |paint| == |line| + 1
  {
    Printed(paint[0]) + if line == [] then [] else [line[0]] + Painted(line[1..], paint[1..])
  }

  lemma {:induction false} AfterCodeOf(parameters: string, letter: char, rest: string)
    requires GoodCode(Code(parameters, letter))
    ensures AfterCode(parameters + [letter] + rest) == rest
    decreases |parameters|
  {
    var s := parameters + [letter] + rest;
    if parameters == [] {
      assert s[1..] == rest;
    } else {
      var tail := parameters[1..];
      assert forall i :: 0 <= i < |tail| ==> tail[i] == parameters[i + 1];
      AfterCodeOf(tail, letter, rest);
      assert s[1..] == tail + [letter] + rest;
    }
  }

  lemma {:induction false} StripPrinted(codes: seq<Code>, rest: string)
    requires GoodCodes(codes)
    ensures Strip(Printed(codes) + rest) == Strip(rest)
    decreases |codes|
  {
    if codes == [] {
      assert Printed(codes) + rest == rest;
    } else {
      var c, more := codes[0], Printed(codes[1..]) + rest;
      var s := Printed(codes) + rest;
      assert s == [ESCAPE, '['] + (c.parameters + [c.letter] + more);
      assert s[2..] == c.parameters + [c.letter] + more;
      AfterCodeOf(c.parameters, c.letter, more);
      StripPrinted(codes[1..], rest);
    }
  }

  /** Whatever colours a line is painted with, stripping gives the line back. */
  lemma {:induction false} StripPainted(line: string, paint: seq<seq<Code>>)
    requires |paint| == |line| + 1 && GoodPaint(paint) && ESCAPE !in line
    ensures Strip(Painted(line, paint)) == line
    decreases |line|
  {
    if line == [] {
      StripPrinted(paint[0], []);
    } else {
      var rest := [line[0]] + Painted(line[1..], paint[1..]);
      StripPrinted(paint[0], rest);
      assert rest[1..] == Painted(line[1..], paint[1..]);
      StripPainted(line[1..], paint[1..]);
    }
  }

  lemma {:induction false} PrintedIsOneLine(codes: seq<Code>)
    requires GoodCodes(codes)
    ensures OneLine(Printed(codes))
    decreases |codes|
  {
    if codes != [] {
      PrintedIsOneLine(codes[1..]);
    }
  }

  lemma {:induction false} PaintedIsOneLine(line: string, paint: seq<seq<Code>>)
    requires |paint| == |line| + 1 && GoodPaint(paint) && OneLine(line)
    ensures OneLine(Painted(line, paint))
    decreases |line|
  {
    PrintedIsOneLine(paint[0]);
    if line != [] {
      PaintedIsOneLine(line[1..], paint[1..]);
    }
  }

  // ---------------------------------------------------------------------------
  // Numbers
  // ---------------------------------------------------------------------------

  function Digit(d: nat): char
    requires d < 10
  {
    ('0' as int + d) as char
  }

  function Decimal(n: nat): (s: string)
    ensures s != [] && forall i :: 0 <= i < |s| ==> IsDigit(s[i])
  {
    if n < 10 then [Digit(n)] else Decimal(n / 10) + [Digit(n % 10)]
  }

  function DigitValue(c: char): nat
    requires IsDigit(c)
  {
    c as int - '0' as int
  }

  function Parse(s: string): nat
    requires forall i :: 0 <= i < |s| ==> IsDigit(s[i])
  {
    if s == [] then 0 else Parse(s[..|s| - 1]) * 10 + DigitValue(s[|s| - 1])
  }

  lemma {:induction false} ParseDecimal(n: nat)
    ensures Parse(Decimal(n)) == n
    decreases n
  {
    if n >= 10 {
      ParseDecimal(n / 10);
      var s := Decimal(n);
      assert s[..|s| - 1] == Decimal(n / 10);
    } else {
      assert Decimal(n)[..0] == [];
    }
  }

  // ---------------------------------------------------------------------------
  // Reading a count
  // ---------------------------------------------------------------------------

  predicate At(line: string, word: string, at: nat) {
    at + |word| <= |line| && line[at..at + |word|] == word
  }

  function Find(line: string, word: string, from: nat): (at: Option<nat>)
    ensures at.Some? ==> from <= at.value && At(line, word, at.value)
    decreases |line| - from
  {
    if from + |word| > |line| then None
    else if At(line, word, from) then Some(from)
    else if from == |line| then None
    else Find(line, word, from + 1)
  }

  function TrailingDigits(s: string): (n: nat)
    ensures n <= |s| && forall i :: |s| - n <= i < |s| ==> IsDigit(s[i])
  {
    if s == [] || !IsDigit(s[|s| - 1]) then 0 else TrailingDigits(s[..|s| - 1]) + 1
  }

  /** The number a text ends with, if it stands by itself. */
  function LastNumber(s: string, alphanumeric: char -> bool): Option<nat> {
    var n := TrailingDigits(s);
    if n > 0 && (n == |s| || !alphanumeric(s[|s| - n - 1])) then Some(Parse(s[|s| - n..])) else None
  }

  /** The number just before position `at`. */
  function NumberBefore(line: string, at: nat, alphanumeric: char -> bool): Option<nat>
    requires at <= |line|
  {
    LastNumber(TrimEnd(line[..at]), alphanumeric)
  }

  /** The number an occurrence of `word` at `at` counts. */
  function CountAt(line: string, word: string, at: nat, alphanumeric: char -> bool): Option<nat>
    requires At(line, word, at)
  {
    var after := at + |word|;
    if after < |line| && alphanumeric(line[after]) then None else NumberBefore(line, at, alphanumeric)
  }

  function Fitting(n: nat): Option<nat> {
    if n < U64 then Some(n) else None
  }

  /** `count_before`, from a position on. */
  function CountBefore(line: string, word: string, from: nat, alphanumeric: char -> bool): Option<nat>
    requires word != []
    decreases |line| - from
  {
    var at := Find(line, word, from);
    if at.None? then None
    else
      var count := CountAt(line, word, at.value, alphanumeric);
      if count.Some? then Fitting(count.value)
      else CountBefore(line, word, at.value + |word|, alphanumeric)
  }

  method ReadCount(line: string, word: string, alphanumeric: char -> bool) returns (count: Option<nat>)
    requires word != []
    ensures count == CountBefore(line, word, 0, alphanumeric)
  {
    var search := 0;
    var pos := Find(line, word, search);
    while pos.Some?
      invariant pos == Find(line, word, search)
      invariant CountBefore(line, word, search, alphanumeric) == CountBefore(line, word, 0, alphanumeric)
      decreases |line| - search
    {
      var number := CountAt(line, word, pos.value, alphanumeric);
      if number.Some? {
        return Fitting(number.value);
      }
      search := pos.value + |word|;
      pos := Find(line, word, search);
    }
    return None;
  }

  lemma {:induction false} FindFirst(line: string, word: string, from: nat, at: nat)
    requires from <= at && At(line, word, at) && forall j :: from <= j < at ==> !At(line, word, j)
    ensures Find(line, word, from) == Some(at)
    decreases at - from
  {
    if from < at {
      FindFirst(line, word, from + 1, at);
    }
  }

  /** A character of the word that the text before it lacks rules out an earlier occurrence. */
  lemma NoEarlier(before: string, word: string, rest: string, k: nat)
    requires k < |word| && k <= 1 && word[k] !in before
    requires k == 1 && before != [] ==> before[|before| - 1] != word[0]
    ensures forall j :: 0 <= j < |before| ==> !At(before + word + rest, word, j)
  {
    forall j | 0 <= j < |before|
      ensures !At(before + word + rest, word, j)
    {
      if j + k < |before| {
        NotAt(before + word + rest, word, j, k);
      } else {
        NotAt(before + word + rest, word, j, 0);
      }
    }
  }

  lemma NotAt(line: string, word: string, j: nat, k: nat)
    requires k < |word| && (j + k < |line| ==> line[j + k] != word[k])
    ensures !At(line, word, j)
  {
    assert j + |word| <= |line| ==> line[j..j + |word|][k] == line[j + k];
  }

  lemma {:induction false} TrailingDigitsOf(a: string, digits: string)
    requires a == [] || !IsDigit(a[|a| - 1])
    requires forall i :: 0 <= i < |digits| ==> IsDigit(digits[i])
    ensures TrailingDigits(a + digits) == |digits|
    decreases |digits|
  {
    if digits == [] {
      assert a + digits == a;
    } else {
      var n := |digits| - 1;
      TrailingDigitsOf(a, digits[..n]);
      assert (a + digits)[..|a| + n] == a + digits[..n];
    }
  }

  lemma LastNumberOf(a: string, digits: string, alphanumeric: char -> bool)
    requires a != [] && a[|a| - 1] == ' ' && !alphanumeric(' ')
    requires digits != [] && forall i :: 0 <= i < |digits| ==> IsDigit(digits[i])
    ensures LastNumber(a + digits, alphanumeric) == Some(Parse(digits))
  {
    TrailingDigitsOf(a, digits);
    assert (a + digits)[|a|..] == digits;
  }

  lemma NumberStands(a: string, n: nat, before: string, line: string, alphanumeric: char -> bool)
    requires a != [] && a[|a| - 1] == ' ' && !alphanumeric(' ')
    requires before == a + Decimal(n) + " " && before <= line
    ensures NumberBefore(line, |before|, alphanumeric) == Some(n) && before[|before| - 1] == ' '
  {
    var digits := Decimal(n);
    assert line[..|before|] == (a + digits) + " ";
    TrimOneSpace(a + digits);
    LastNumberOf(a, digits, alphanumeric);
    ParseDecimal(n);
  }

  lemma TrimOneSpace(s: string)
    requires s != [] && IsDigit(s[|s| - 1])
    ensures TrimEnd(s + " ") == s
  {
    assert (s + " ")[..|s|] == s;
  }

  // ---------------------------------------------------------------------------
  // Cargo's summary line
  // ---------------------------------------------------------------------------

  function Item(n: nat, word: string, rest: string): string {
    Decimal(n) + " " + word + rest
  }

  /** A count before a word that is not met before. */
  lemma CountStands(before: string, word: string, rest: string, k: nat, n: nat, alphanumeric: char -> bool)
    requires rest == [] || !alphanumeric(rest[0])
    requires k < |word| && k <= 1 && word[k] !in before
    requires k == 1 && before != [] ==> before[|before| - 1] != word[0]
    requires NumberBefore(before + word + rest, |before|, alphanumeric) == Some(n)
    ensures CountBefore(before + word + rest, word, 0, alphanumeric) == Fitting(n)
  {
    var line := before + word + rest;
    NoEarlier(before, word, rest, k);
    assert At(line, word, |before|);
    FindFirst(line, word, 0, |before|);
    var after := |before| + |word|;
    assert after < |line| ==> line[after] == rest[0];
  }

  /** A count is read back from where it is printed, if the word is not met before. */
  lemma ItemIsRead(a: string, n: nat, word: string, rest: string, k: nat, alphanumeric: char -> bool)
    requires a != [] && a[|a| - 1] == ' ' && Separates(alphanumeric)
    requires rest == [] || !alphanumeric(rest[0])
    requires k < |word| && k <= 1 && word[k] !in a && !IsDigit(word[k]) && word[k] != ' ' && word[0] != ' '
    ensures CountBefore(a + Item(n, word, rest), word, 0, alphanumeric) == Fitting(n)
  {
    ItemInLine(a, Decimal(n), word, rest);
    CountIsRead(a, n, a + Decimal(n) + " ", word, rest, k, alphanumeric);
  }

  lemma CountIsRead(a: string, n: nat, before: string, word: string, rest: string, k: nat, alphanumeric: char -> bool)
    requires a != [] && a[|a| - 1] == ' ' && Separates(alphanumeric)
    requires rest == [] || !alphanumeric(rest[0])
    requires k < |word| && k <= 1 && word[k] !in a && !IsDigit(word[k]) && word[k] != ' ' && word[0] != ' '
    requires before == a + Decimal(n) + " "
    ensures CountBefore(before + word + rest, word, 0, alphanumeric) == Fitting(n)
  {
    assert before <= before + word + rest;
    NumberStands(a, n, before, before + word + rest, alphanumeric);
    CountStands(before, word, rest, k, n, alphanumeric);
  }

  lemma ItemInLine(a: string, digits: string, word: string, rest: string)
    ensures a + (digits + " " + word + rest) == (a + digits + " ") + word + rest
    ensures a + digits + " " <= (a + digits + " ") + word + rest
    ensures (a + digits + " ")[|a + digits + " "| - 1] == ' '
  {
  }

  function Head(ok: bool): string {
    if ok then "test result: ok. " else "test result: FAILED. "
  }

  function IgnoredPart(c: Counts, rest: string): string {
    Item(c.skipped, "ignored", rest)
  }

  function FailedPart(c: Counts, rest: string): string {
    Item(c.failed, "failed", "; " + IgnoredPart(c, rest))
  }

  /** The line cargo prints for one test binary; `rest` is what follows the ignored tests. */
  function SummaryLine(ok: bool, c: Counts, rest: string): string {
    Head(ok) + Item(c.passed, "passed", "; " + FailedPart(c, rest))
  }

  function OrZero(n: Option<nat>): nat {
    if n.Some? then n.value else 0
  }

  /** `cargo_line`. */
  function CargoLine(line: string, alphanumeric: char -> bool): Option<Counts> {
    if !("test result:" <= line) then None
    else Some(Counts(OrZero(CountBefore(line, "passed", 0, alphanumeric)),
                     OrZero(CountBefore(line, "failed", 0, alphanumeric)),
                     OrZero(CountBefore(line, "ignored", 0, alphanumeric))))
  }

  method ReadCargoLine(line: string, alphanumeric: char -> bool) returns (c: Option<Counts>)
    ensures c == CargoLine(line, alphanumeric)
  {
    if !("test result:" <= line) {
      return None;
    }
    var passed := ReadCount(line, "passed", alphanumeric);
    var failed := ReadCount(line, "failed", alphanumeric);
    var ignored := ReadCount(line, "ignored", alphanumeric);
    return Some(Counts(OrZero(passed), OrZero(failed), OrZero(ignored)));
  }

  predicate Fits(c: Counts) {
    c.passed < U64 && c.failed < U64 && c.skipped < U64
  }

  lemma HeadLacks(ok: bool)
    ensures 'p' !in Head(ok) && 'f' !in Head(ok) && 'g' !in Head(ok)
    ensures Head(ok)[|Head(ok)| - 1] == ' '
  {
  }

  lemma HeadStarts(ok: bool)
    ensures "test result:" <= Head(ok) && Head(ok)[0] == 't'
  {
    assert Head(ok)[..12] == "test result:";
  }

  lemma PassedIsRead(ok: bool, c: Counts, rest: string, alphanumeric: char -> bool)
    requires Separates(alphanumeric)
    ensures CountBefore(SummaryLine(ok, c, rest), "passed", 0, alphanumeric) == Fitting(c.passed)
  {
    HeadLacks(ok);
    ItemIsRead(Head(ok), c.passed, "passed", "; " + FailedPart(c, rest), 0, alphanumeric);
  }

  lemma FailedIsRead(ok: bool, c: Counts, rest: string, alphanumeric: char -> bool)
    requires Separates(alphanumeric)
    ensures CountBefore(SummaryLine(ok, c, rest), "failed", 0, alphanumeric) == Fitting(c.failed)
  {
    HeadLacks(ok);
    var a := Head(ok) + Decimal(c.passed) + " passed; ";
    assert SummaryLine(ok, c, rest) == a + FailedPart(c, rest);
    assert 'f' !in " passed; ";
    ItemIsRead(a, c.failed, "failed", "; " + IgnoredPart(c, rest), 0, alphanumeric);
  }

  lemma IgnoredIsRead(ok: bool, c: Counts, rest: string, alphanumeric: char -> bool)
    requires Separates(alphanumeric) && (rest == [] || !alphanumeric(rest[0]))
    ensures CountBefore(SummaryLine(ok, c, rest), "ignored", 0, alphanumeric) == Fitting(c.skipped)
  {
    HeadLacks(ok);
    var a := Head(ok) + Decimal(c.passed) + " passed; " + Decimal(c.failed) + " failed; ";
    IgnoredComesLast(ok, c, rest);
    ItemIsRead(a, c.skipped, "ignored", rest, 1, alphanumeric);
  }

  lemma Flatten(head: string, a: string, b: string, c: string, d: string, e: string)
    ensures head + (a + b + (c + d + e)) == head + a + b + c + d + e
  {
  }

  lemma IgnoredComesLast(ok: bool, c: Counts, rest: string)
    ensures SummaryLine(ok, c, rest)
      == Head(ok) + Decimal(c.passed) + " passed; " + Decimal(c.failed) + " failed; " + IgnoredPart(c, rest)
  {
    Flatten(Head(ok), Decimal(c.passed), " passed; ", Decimal(c.failed), " failed; ", IgnoredPart(c, rest));
  }

  function UnlessTooLarge(n: nat): nat {
    if n < 0x1_0000_0000_0000_0000 then n else 0
  }

  /** Reading a summary line gives the counts it was printed from, with nothing for one of more than 64 bits. */
  lemma CargoReads(ok: bool, c: Counts, rest: string, alphanumeric: char -> bool)
    requires Separates(alphanumeric) && (rest == [] || !alphanumeric(rest[0]))
    ensures CargoLine(SummaryLine(ok, c, rest), alphanumeric)
      == Some(Counts(UnlessTooLarge(c.passed), UnlessTooLarge(c.failed), UnlessTooLarge(c.skipped)))
  {
    HeadStarts(ok);
    PassedIsRead(ok, c, rest, alphanumeric);
    FailedIsRead(ok, c, rest, alphanumeric);
    IgnoredIsRead(ok, c, rest, alphanumeric);
    assert Head(ok) <= SummaryLine(ok, c, rest);
  }

  /** So counts that fit come back. */
  lemma CargoRoundTrip(ok: bool, c: Counts, rest: string, alphanumeric: char -> bool)
    requires Separates(alphanumeric) && (rest == [] || !alphanumeric(rest[0])) && Fits(c)
    ensures CargoLine(SummaryLine(ok, c, rest), alphanumeric) == Some(c)
  {
    CargoReads(ok, c, rest, alphanumeric);
  }

  // ---------------------------------------------------------------------------
  // test_counts
  // ---------------------------------------------------------------------------

  /** The readers a line is shown to after cargo's, and the characters they take for words. */
  datatype Readers = Readers(others: string -> Option<Counts>, alphanumeric: char -> bool)

  function Shown(raw: string): string {
    Trim(Strip(raw))
  }

  /** What the summary readers make of a line. */
  function Recognised(raw: string, r: Readers): Option<Counts> {
    var line := Shown(raw);
    if line == [] then None
    else
      var c := CargoLine(line, r.alphanumeric);
      if c.Some? then c else r.others(line)
  }

  /** One result line of `go test -v`. */
  function GoLine(line: string): Option<Counts> {
    if "--- PASS:" <= line then Some(Counts(1, 0, 0))
    else if "--- FAIL:" <= line then Some(Counts(0, 1, 0))
    else if "--- SKIP:" <= line then Some(Counts(0, 0, 1))
    else None
  }

  datatype Totals = Totals(total: Counts, go: Counts)

  function AfterLine(t: Totals, raw: string, r: Readers): Totals {
    var c, go := Recognised(raw, r), GoLine(Shown(raw));
    if c.Some? then t.(total := Add(t.total, c.value))
    else if go.Some? then t.(go := Add(t.go, go.value))
    else t
  }

  function TotalsOf(lines: seq<string>, r: Readers): Totals {
    if lines == [] then Totals(ZERO, ZERO) else AfterLine(TotalsOf(lines[..|lines| - 1], r), lines[|lines| - 1], r)
  }

  function Answer(t: Totals): Option<Counts> {
    var total := if t.total == ZERO then t.go else t.total;
    if total == ZERO then None else Some(total)
  }

  /** One turn of the loop over the lines. */
  method ReadLine(raw: string, total: Counts, go: Counts, r: Readers) returns (total': Counts, go': Counts)
    ensures Totals(total', go') == AfterLine(Totals(total, go), raw, r)
  {
    total', go' := total, go;
    var line := StripAnsi(raw);
    line := Trim(line);
    if line == [] {
      return;
    }
    var c := ReadCargoLine(line, r.alphanumeric);
    if c.None? {
      c := r.others(line);
    }
    if c.Some? {
      total' := Add(total, c.value);
    } else if "--- PASS:" <= line {
      go' := Add(go, Counts(1, 0, 0));
    } else if "--- FAIL:" <= line {
      go' := Add(go, Counts(0, 1, 0));
    } else if "--- SKIP:" <= line {
      go' := Add(go, Counts(0, 0, 1));
    }
  }

  /** `test_counts`, on the tail it reads. */
  method ReadTestCounts(tail: string, r: Readers) returns (counts: Option<Counts>)
    ensures counts == Answer(TotalsOf(Lines(tail), r))
  {
    var lines, total, go, i := Lines(tail), ZERO, ZERO, 0;
    while i < |lines|
      invariant 0 <= i <= |lines|
      invariant Totals(total, go) == TotalsOf(lines[..i], r)
    {
      assert lines[..i + 1][..i] == lines[..i];
      total, go := ReadLine(lines[i], total, go, r);
      i := i + 1;
    }
    assert lines[..i] == lines;
    if total == ZERO {
      total := go;
    }
    counts := if total == ZERO then None else Some(total);
  }

  // ---------------------------------------------------------------------------
  // A run of cargo
  // ---------------------------------------------------------------------------

  /** A line of output: a summary, in any colours, or one that no reader recognises. */
  datatype Output =
    | Summary(ok: bool, counts: Counts, rest: string, paint: seq<seq<Code>>)
    | Other(raw: string)

  predicate GoodRest(rest: string, alphanumeric: char -> bool) {
    rest == [] || (!alphanumeric(rest[0]) && !IsWhitespace(rest[|rest| - 1]) && Plain(rest))
  }

  predicate Good(o: Output, r: Readers) {
    match o
    case Summary(ok, counts, rest, paint) =>
      |paint| == |SummaryLine(ok, counts, rest)| + 1 && GoodPaint(paint) && Fits(counts) && GoodRest(rest, r.alphanumeric)
    case Other(raw) => OneLine(raw) && Recognised(raw, r).None?
  }

  function Printout(o: Output, r: Readers): string
    requires Good(o, r)
  {
    if o.Summary? then Painted(SummaryLine(o.ok, o.counts, o.rest), o.paint) else o.raw
  }

  function CountsOf(o: Output): Counts {
    if o.Summary? then o.counts else ZERO
  }

  function Plus(a: Counts, b: Counts): Counts {
    Counts(a.passed + b.passed, a.failed + b.failed, a.skipped + b.skipped)
  }

  function SumBy<T>(xs: seq<T>, weight: T -> Counts): Counts {
    if xs == [] then ZERO else Plus(SumBy(xs[..|xs| - 1], weight), weight(xs[|xs| - 1]))
  }

  function Weight(): Output -> Counts {
    (o: Output) => CountsOf(o)
  }

  /** The sums, without a limit. */
  function Sum(os: seq<Output>): Counts {
    SumBy(os, Weight())
  }

  predicate AllGood(os: seq<Output>, r: Readers) {
    forall i :: 0 <= i < |os| ==> Good(os[i], r)
  }

  function Printouts(os: seq<Output>, r: Readers): (lines: seq<string>)
    requires AllGood(os, r)
    ensures |lines| == |os|
    ensures forall i :: 0 <= i < |os| ==> lines[i] == Printout(os[i], r)
  {
    seq(|os|, i requires 0 <= i < |os| => Printout(os[i], r))
  }

  /** Neither a line end nor an escape. */
  predicate Plain(s: string) {
    forall i :: 0 <= i < |s| ==> s[i] != ESCAPE && !IsLineEnd(s[i])
  }

  lemma PlainTogether(a: string, b: string, c: string)
    requires Plain(a) && Plain(b) && Plain(c)
    ensures Plain(a + b + c)
  {
  }

  lemma WordsArePlain(ok: bool)
    ensures Plain(Head(ok)) && Plain("; ") && Plain("passed") && Plain("failed") && Plain("ignored")
  {
  }

  lemma SummaryIsPlain(ok: bool, c: Counts, rest: string, r: Readers)
    requires GoodRest(rest, r.alphanumeric)
    ensures var line := SummaryLine(ok, c, rest);
      Plain(line) && line != [] && line[0] == 't' && !IsWhitespace(line[|line| - 1])
  {
    HeadStarts(ok);
    WordsArePlain(ok);
    var ignored := "; " + IgnoredPart(c, rest);
    PlainTogether("; ", IgnoredPart(c, rest), []);
    assert ignored == "; " + IgnoredPart(c, rest) + [];
    var failed := "; " + FailedPart(c, rest);
    PlainTogether("; ", FailedPart(c, rest), []);
    assert failed == "; " + FailedPart(c, rest) + [];
    PlainTogether(Head(ok), Item(c.passed, "passed", failed), []);
    assert SummaryLine(ok, c, rest) == Head(ok) + Item(c.passed, "passed", failed) + [];
  }

  lemma TrimKeeps(s: string)
    requires s == [] || (!IsWhitespace(s[0]) && !IsWhitespace(s[|s| - 1]))
    ensures Trim(s) == s
  {
  }

  /** A summary line, however it is coloured, is read as the counts it was printed from. */
  lemma SummaryIsRead(o: Output, r: Readers)
    requires Good(o, r) && o.Summary? && Separates(r.alphanumeric)
    ensures Recognised(Printout(o, r), r) == Some(o.counts) && OneLine(Printout(o, r))
  {
    var line := SummaryLine(o.ok, o.counts, o.rest);
    SummaryIsPlain(o.ok, o.counts, o.rest, r);
    StripPainted(line, o.paint);
    PaintedIsOneLine(line, o.paint);
    TrimKeeps(line);
    CargoRoundTrip(o.ok, o.counts, o.rest, r.alphanumeric);
  }

  lemma AddThatFits(a: Counts, b: Counts)
    requires Fits(Plus(a, b))
    ensures Add(a, b) == Plus(a, b) && Fits(a)
  {
  }

  lemma {:induction false} TotalIsSum(os: seq<Output>, r: Readers)
    requires AllGood(os, r) && Separates(r.alphanumeric) && Fits(Sum(os))
    ensures TotalsOf(Printouts(os, r), r).total == Sum(os)
    decreases |os|
  {
    if os != [] {
      var before, last := os[..|os| - 1], os[|os| - 1];
      var lines, line := Printouts(os, r), Printout(last, r);
      assert lines == Printouts(before, r) + [line];
      assert lines[..|lines| - 1] == Printouts(before, r);
      AddThatFits(Sum(before), CountsOf(last));
      TotalIsSum(before, r);
      LineAdds(TotalsOf(Printouts(before, r), r), last, r);
    }
  }

  lemma LineAdds(t: Totals, o: Output, r: Readers)
    requires Good(o, r) && Separates(r.alphanumeric) && Fits(t.total)
    ensures AfterLine(t, Printout(o, r), r).total == Add(t.total, CountsOf(o))
  {
    if o.Summary? {
      SummaryIsRead(o, r);
    }
  }

  /**
   Any output made of coloured summary lines and lines no reader recognises: the three sums are read,
   if they fit and are not all zero.
   */
  lemma TestCountsAreTheSums(os: seq<Output>, r: Readers)
    requires AllGood(os, r) && Separates(r.alphanumeric) && Fits(Sum(os)) && Sum(os) != ZERO
    ensures Answer(TotalsOf(Lines(Unlines(Printouts(os, r))), r)) == Some(Sum(os))
  {
    LinesArePrintouts(os, r);
    TotalIsSum(os, r);
  }

  lemma LinesArePrintouts(os: seq<Output>, r: Readers)
    requires AllGood(os, r) && Separates(r.alphanumeric)
    ensures Lines(Unlines(Printouts(os, r))) == Printouts(os, r)
  {
    var lines := Printouts(os, r);
    forall i | 0 <= i < |lines|
      ensures OneLine(lines[i])
    {
      if os[i].Summary? {
        SummaryIsRead(os[i], r);
      }
    }
    LinesOfUnlines(lines);
  }

  // ---------------------------------------------------------------------------
  // Order
  // ---------------------------------------------------------------------------

  lemma {:induction false} SumWithout<T>(xs: seq<T>, weight: T -> Counts, j: nat)
    requires j < |xs|
    ensures SumBy(xs, weight) == Plus(SumBy(xs[..j] + xs[j + 1..], weight), weight(xs[j]))
    decreases |xs|
  {
    var n := |xs| - 1;
    if j == n {
      assert xs[..j] + xs[j + 1..] == xs[..n];
    } else {
      var before, without := xs[..n], xs[..j] + xs[j + 1..];
      SumWithout(before, weight, j);
      assert without[..n - 1] == before[..j] + before[j + 1..] && without[n - 1] == xs[n];
    }
  }

  lemma Without<T>(xs: seq<T>, j: nat)
    requires j < |xs|
    ensures multiset(xs[..j] + xs[j + 1..]) == multiset(xs) - multiset{xs[j]}
  {
    var a, b := xs[..j], xs[j + 1..];
    assert xs == a + ([xs[j]] + b);
    assert multiset(xs) == multiset(a) + (multiset{xs[j]} + multiset(b));
    assert multiset(a + b) == multiset(a) + multiset(b);
  }

  lemma RemoveLast<T>(xs: seq<T>, ys: seq<T>, j: nat)
    requires xs != [] && multiset(xs) == multiset(ys) && j < |ys| && ys[j] == xs[|xs| - 1]
    ensures multiset(xs[..|xs| - 1]) == multiset(ys[..j] + ys[j + 1..])
  {
    var n := |xs| - 1;
    Without(xs, n);
    assert xs[..n] + xs[n + 1..] == xs[..n];
    Without(ys, j);
  }

  lemma FindIn<T>(ys: seq<T>, x: T) returns (j: nat)
    requires x in multiset(ys)
    ensures j < |ys| && ys[j] == x
  {
    j :| 0 <= j < |ys| && ys[j] == x;
  }

  /** The sums do not depend on the order of the lines. */
  lemma {:induction false} SumOfPermutation<T>(xs: seq<T>, ys: seq<T>, weight: T -> Counts)
    requires multiset(xs) == multiset(ys)
    ensures SumBy(xs, weight) == SumBy(ys, weight)
    decreases |xs|
  {
    if xs == [] {
      assert |multiset(ys)| == 0;
    } else {
      var last := xs[|xs| - 1];
      assert last in multiset(xs);
      var j := FindIn(ys, last);
      RemoveLast(xs, ys, j);
      SumWithout(ys, weight, j);
      SumOfPermutation(xs[..|xs| - 1], ys[..j] + ys[j + 1..], weight);
    }
  }

  /** In any order, the answer is the same. */
  lemma OrderOfLinesDoesNotMatter(os: seq<Output>, permuted: seq<Output>, r: Readers)
    requires AllGood(os, r) && AllGood(permuted, r) && multiset(os) == multiset(permuted)
    requires Separates(r.alphanumeric) && Fits(Sum(os)) && Sum(os) != ZERO
    ensures Answer(TotalsOf(Lines(Unlines(Printouts(permuted, r))), r)) == Answer(TotalsOf(Lines(Unlines(Printouts(os, r))), r))
  {
    SumOfPermutation(os, permuted, Weight());
    TestCountsAreTheSums(os, r);
    TestCountsAreTheSums(permuted, r);
  }

  // ---------------------------------------------------------------------------
  // What is not counted
  // ---------------------------------------------------------------------------

  /** Part of a longer word counts nothing: a line that has the word in no other way has no count. */
  lemma {:induction false} PartOfAWordIsNotCounted(line: string, word: string, from: nat, alphanumeric: char -> bool)
    requires word != []
    requires forall at :: from <= at && At(line, word, at) ==> at + |word| < |line| && alphanumeric(line[at + |word|])
    ensures CountBefore(line, word, from, alphanumeric).None?
    decreases |line| - from
  {
    var at := Find(line, word, from);
    if at.Some? {
      assert At(line, word, at.value);
      PartOfAWordIsNotCounted(line, word, at.value + |word|, alphanumeric);
    }
  }

  lemma EndOfConcat(a: string, b: string)
    ensures (a + b)[|a + b| - |b|..] == b
    ensures a != [] ==> (a + b)[|a + b| - |b| - 1] == a[|a| - 1]
  {
  }

  /** Digits at the end of a word are not a number; anywhere else they are. */
  lemma GluedNumberIsNotRead(before: string, digits: string, alphanumeric: char -> bool)
    requires before == [] || !IsDigit(before[|before| - 1])
    requires digits != [] && forall i :: 0 <= i < |digits| ==> IsDigit(digits[i])
    ensures LastNumber(before + digits, alphanumeric)
      == if before != [] && alphanumeric(before[|before| - 1]) then None else Some(Parse(digits))
  {
    TrailingDigitsOf(before, digits);
    EndOfConcat(before, digits);
  }

  // ---------------------------------------------------------------------------
  // A run of go test -v
  // ---------------------------------------------------------------------------

  datatype Verdict = Pass | Fail | Skip

  /** A line of output: the result of a test, subtests indented, or one that says nothing of results. */
  datatype GoOutput =
    | Test(indent: nat, verdict: Verdict, rest: string)
    | Log(raw: string)

  function Spaces(n: nat): string {
    if n == 0 then [] else " " + Spaces(n - 1)
  }

  function Mark(v: Verdict): (s: string)
    ensures |s| == 9 && s[0] == '-' && s[8] == ':'
  {
    match v
    case Pass => "--- PASS:"
    case Fail => "--- FAIL:"
    case Skip => "--- SKIP:"
  }

  function GoText(o: GoOutput): string {
    match o
    case Test(indent, verdict, rest) => Spaces(indent) + (Mark(verdict) + rest)
    case Log(raw) => raw
  }

  /** No summary reader takes the line for its own, and a log line does not open with a mark. */
  predicate GoodGo(o: GoOutput, r: Readers) {
    match o
    case Test(_, verdict, rest) =>
      Plain(rest) && (rest == [] || !IsWhitespace(rest[|rest| - 1])) && r.others(Mark(verdict) + rest).None?
    case Log(raw) => OneLine(raw) && Recognised(raw, r).None? && !("--- " <= Shown(raw))
  }

  predicate AllGoodGo(os: seq<GoOutput>, r: Readers) {
    forall i :: 0 <= i < |os| ==> GoodGo(os[i], r)
  }

  function GoTexts(os: seq<GoOutput>): (lines: seq<string>)
    ensures |lines| == |os| && forall i :: 0 <= i < |os| ==> lines[i] == GoText(os[i])
  {
    seq(|os|, i requires 0 <= i < |os| => GoText(os[i]))
  }

  /** How many tests ended that way. */
  function Tests(os: seq<GoOutput>, v: Verdict): (n: nat)
    ensures n <= |os|
  {
    if os == [] then 0
    else
      var last := os[|os| - 1];
      Tests(os[..|os| - 1], v) + if last.Test? && last.verdict == v then 1 else 0
  }

  lemma {:induction false} SpacesAreTrimmed(n: nat, s: string)
    requires s != [] && !IsWhitespace(s[0])
    ensures TrimStart(Spaces(n) + s) == s && (Plain(s) ==> Plain(Spaces(n) + s))
  {
    if n == 0 {
      assert Spaces(n) + s == s;
    } else {
      SpacesAreTrimmed(n - 1, s);
      var t := Spaces(n) + s;
      assert t == " " + (Spaces(n - 1) + s);
      assert t[1..] == Spaces(n - 1) + s;
    }
  }

  lemma MarksArePlain(v: Verdict)
    ensures Plain(Mark(v)) && !IsWhitespace('-') && !IsWhitespace(':')
  {
  }

  lemma GoTextIsShown(o: GoOutput, r: Readers)
    requires GoodGo(o, r) && o.Test?
    ensures Shown(GoText(o)) == Mark(o.verdict) + o.rest && OneLine(GoText(o))
  {
    var s := Mark(o.verdict) + o.rest;
    MarksArePlain(o.verdict);
    assert s[0] == '-' && (o.rest == [] ==> s[|s| - 1] == ':');
    SpacesAreTrimmed(o.indent, s);
    StripKeepsPlain(GoText(o));
    TrimKeeps(s);
  }

  lemma NotPrefix(p: string, s: string, k: nat)
    requires k < |p| && k < |s| && p[k] != s[k]
    ensures !(p <= s)
  {
  }

  lemma MarksDiffer(v: Verdict, rest: string)
    ensures Mark(v) <= Mark(v) + rest
    ensures !("test result:" <= Mark(v) + rest)
    ensures forall u | u != v :: !(Mark(u) <= Mark(v) + rest)
  {
    var s := Mark(v) + rest;
    assert s[..9] == Mark(v);
    NotPrefix("test result:", s, 0);
    forall u | u != v
      ensures !(Mark(u) <= s)
    {
      assert Mark(u)[4] != Mark(v)[4];
      NotPrefix(Mark(u), s, 4);
    }
  }

  function One(v: Verdict): Counts {
    match v
    case Pass => Counts(1, 0, 0)
    case Fail => Counts(0, 1, 0)
    case Skip => Counts(0, 0, 1)
  }

  lemma GoLineOf(v: Verdict, line: string)
    requires Mark(v) <= line && forall u | u != v :: !(Mark(u) <= line)
    ensures GoLine(line) == Some(One(v))
  {
    assert Mark(Pass) == "--- PASS:" && Mark(Fail) == "--- FAIL:" && Mark(Skip) == "--- SKIP:";
  }

  lemma PrefixOfPrefix(p: string, q: string, s: string)
    requires p <= q
    ensures q <= s ==> p <= s
  {
  }

  lemma LogHasNoMark(line: string)
    requires !("--- " <= line)
    ensures GoLine(line).None?
  {
    assert Mark(Pass) == "--- PASS:" && Mark(Fail) == "--- FAIL:" && Mark(Skip) == "--- SKIP:";
    forall v: Verdict
      ensures !(Mark(v) <= line)
    {
      assert Mark(v)[..4] == "--- ";
      PrefixOfPrefix("--- ", Mark(v), line);
    }
  }

  lemma GoLineAdds(t: Totals, o: GoOutput, r: Readers)
    requires GoodGo(o, r)
    ensures AfterLine(t, GoText(o), r) == t.(go := if o.Log? then t.go else Add(t.go, One(o.verdict)))
  {
    match o
    case Test(_, v, rest) =>
      GoTextIsShown(o, r);
      MarksDiffer(v, rest);
      GoLineOf(v, Mark(v) + rest);
    case Log(raw) =>
      LogHasNoMark(Shown(raw));
  }

  /** The tests that ended, by how they ended. */
  function Ended(os: seq<GoOutput>): Counts {
    Counts(Tests(os, Pass), Tests(os, Fail), Tests(os, Skip))
  }

  lemma OneMore(os: seq<GoOutput>)
    requires os != [] && |os| < U64
    ensures var before, last := os[..|os| - 1], os[|os| - 1];
      Ended(os) == if last.Log? then Ended(before) else Add(Ended(before), One(last.verdict))
  {
    var before, last := os[..|os| - 1], os[|os| - 1];
    if last.Test? {
      AddThatFits(Ended(before), One(last.verdict));
    }
  }

  lemma TotalsSnoc(lines: seq<string>, line: string, r: Readers)
    ensures TotalsOf(lines + [line], r) == AfterLine(TotalsOf(lines, r), line, r)
  {
    assert (lines + [line])[..|lines|] == lines;
  }

  lemma GoStep(lines: seq<string>, o: GoOutput, ended: Counts, r: Readers)
    requires GoodGo(o, r) && TotalsOf(lines, r) == Totals(ZERO, ended)
    ensures TotalsOf(lines + [GoText(o)], r) == Totals(ZERO, if o.Log? then ended else Add(ended, One(o.verdict)))
  {
    TotalsSnoc(lines, GoText(o), r);
    GoLineAdds(Totals(ZERO, ended), o, r);
  }

  lemma GoTextsSnoc(os: seq<GoOutput>)
    requires os != []
    ensures GoTexts(os) == GoTexts(os[..|os| - 1]) + [GoText(os[|os| - 1])]
  {
  }

  lemma {:induction false} GoTotals(os: seq<GoOutput>, r: Readers)
    requires AllGoodGo(os, r) && |os| < U64
    ensures TotalsOf(GoTexts(os), r) == Totals(ZERO, Ended(os))
    decreases |os|
  {
    if os != [] {
      var before := os[..|os| - 1];
      GoTotals(before, r);
      GoStep(GoTexts(before), os[|os| - 1], Ended(before), r);
      GoTextsSnoc(os);
      OneMore(os);
    }
  }

  lemma {:induction false} SomeTest(os: seq<GoOutput>, i: nat)
    requires i < |os| && os[i].Test?
    ensures Tests(os, os[i].verdict) > 0
    decreases |os|
  {
    if i < |os| - 1 {
      SomeTest(os[..|os| - 1], i);
    }
  }

  lemma LinesAreGoTexts(os: seq<GoOutput>, r: Readers)
    requires AllGoodGo(os, r)
    ensures Lines(Unlines(GoTexts(os))) == GoTexts(os)
  {
    var lines := GoTexts(os);
    forall i | 0 <= i < |lines|
      ensures OneLine(lines[i])
    {
      if os[i].Test? {
        GoTextIsShown(os[i], r);
      }
    }
    LinesOfUnlines(lines);
  }

  /**
   An output of `go test -v`, among lines no reader recognises: its passes, failures and skips are
   counted one by one, and there is no answer exactly when no test ended.
   */
  lemma GoTestsAreCounted(os: seq<GoOutput>, r: Readers)
    requires AllGoodGo(os, r) && |os| < U64
    ensures Answer(TotalsOf(Lines(Unlines(GoTexts(os))), r))
      == if exists i :: 0 <= i < |os| && os[i].Test?
         then Some(Counts(Tests(os, Pass), Tests(os, Fail), Tests(os, Skip)))
         else None
  {
    LinesAreGoTexts(os, r);
    GoTotals(os, r);
    if i :| 0 <= i < |os| && os[i].Test? {
      SomeTest(os, i);
      assert Ended(os) != ZERO by {
        match os[i].verdict { case Pass => case Fail => case Skip => }
      }
    } else {
      NoTest(os);
    }
  }

  lemma {:induction false} NoTest(os: seq<GoOutput>)
    requires forall i :: 0 <= i < |os| ==> !os[i].Test?
    ensures forall v :: Tests(os, v) == 0
    decreases |os|
  {
    if os != [] {
      NoTest(os[..|os| - 1]);
    }
  }
}
