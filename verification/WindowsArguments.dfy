/**
 Windows command-line quoting (crates/attemptdb-capture/src/process_windows.rs) against the
 argument parser of the Microsoft C runtime.

 `Quoted` is the printer; `ParseCommandLine` is the reference parser, written from the rules of
 Microsoft's "Parsing C command-line arguments": a run of backslashes matters only before a double
 quote, a doubled quote inside quotes is one quote, and the program name follows a simpler rule.
 */
module WindowsArguments {
  import opened Wrappers

  /** One UTF-16 code unit. */
  type Unit = u: int | 0 <= u < 0x1_0000

  const TAB: Unit := 9
  const SPACE: Unit := 32
  const QUOTE: Unit := 34
  const BACKSLASH: Unit := 92

  /** CreateProcessW takes at most this many units, the terminator included. */
  const MAX_COMMAND: nat := 32767

  datatype Result<+T> = Ok(value: T) | InvalidInput
  predicate Blank(u: Unit) {
    u == SPACE || u == TAB
  }

  function Slashes(n: nat): (s: seq<Unit>)
    ensures |s| == n
    ensures forall i :: 0 <= i < n ==> s[i] == BACKSLASH
  {
    seq(n, i => BACKSLASH)
  }

  // ---------------------------------------------------------------------------
  // The printer
  // ---------------------------------------------------------------------------

  /** The text that still has to be written for `value` when `pending` backslashes were read but not written. */
  function Escape(value: seq<Unit>, pending: nat): seq<Unit>
    decreases |value|
  {
    if value == [] then
      Slashes(2 * pending)
    else if value[0] == BACKSLASH then
      Escape(value[1..], pending + 1)
    else if value[0] == QUOTE then
      Slashes(2 * pending + 1) + [QUOTE] + Escape(value[1..], 0)
    else
      Slashes(pending) + [value[0]] + Escape(value[1..], 0)
  }

  function QuotedText(value: seq<Unit>): seq<Unit> {
    [QUOTE] + Escape(value, 0) + [QUOTE]
  }

  /** `quoted`: one pass over the units with a counter of the backslashes not yet written. */
  method Quoted(value: seq<Unit>) returns (out: seq<Unit>)
    ensures out == QuotedText(value)
  {
    out := [QUOTE];
    var slashes := 0;
    var i := 0;
    while i < |value|
      invariant 0 <= i <= |value|
      invariant [QUOTE] + Escape(value, 0) == out + Escape(value[i..], slashes)
    {
      ghost var rest := value[i..];
      assert rest[1..] == value[i + 1..];
      if value[i] == BACKSLASH {
        slashes := slashes + 1;
      } else {
        var run := Slashes(if value[i] == QUOTE then 2 * slashes + 1 else slashes);
        assert Escape(rest, slashes) == run + [value[i]] + Escape(rest[1..], 0);
        out := out + run + [value[i]];
        slashes := 0;
      }
      i := i + 1;
    }
    assert value[i..] == [];
    out := out + Slashes(2 * slashes);
    out := out + [QUOTE];
  }

  // ---------------------------------------------------------------------------
  // The reference parser
  // ---------------------------------------------------------------------------

  function LeadingSlashes(s: seq<Unit>): (n: nat)
    ensures n <= |s|
    ensures forall i :: 0 <= i < n ==> s[i] == BACKSLASH
    ensures n < |s| ==> s[n] != BACKSLASH
  {
    if s == [] || s[0] != BACKSLASH then 0 else 1 + LeadingSlashes(s[1..])
  }

  /** One argument and what is left after it. */
  datatype Scanned = Scanned(arg: seq<Unit>, rest: seq<Unit>)

  /** The runtime's loop over one argument, `inQuotes` being its quoting state. */
  function ScanArg(s: seq<Unit>, inQuotes: bool): (r: Scanned)
    ensures |r.rest| <= |s|
    ensures s != [] && !Blank(s[0]) ==> |r.rest| < |s|
    decreases |s|
  {
    var n := LeadingSlashes(s);
    var t := s[n..];
    if t == [] then
      Scanned(Slashes(n), [])
    else if t[0] == QUOTE then
      if n % 2 == 1 then
        var r := ScanArg(t[1..], inQuotes);
        Scanned(Slashes(n / 2) + [QUOTE] + r.arg, r.rest)
      else if inQuotes && |t| > 1 && t[1] == QUOTE then
        var r := ScanArg(t[2..], inQuotes);
        Scanned(Slashes(n / 2) + [QUOTE] + r.arg, r.rest)
      else
        var r := ScanArg(t[1..], !inQuotes);
        Scanned(Slashes(n / 2) + r.arg, r.rest)
    else if !inQuotes && Blank(t[0]) then
      Scanned(Slashes(n), t)
    else
      var r := ScanArg(t[1..], inQuotes);
      Scanned(Slashes(n) + [t[0]] + r.arg, r.rest)
  }

  function ParseArguments(s: seq<Unit>): seq<seq<Unit>>
    decreases |s|
  {
    if s == [] then
      []
    else if Blank(s[0]) then
      ParseArguments(s[1..])
    else
      var r := ScanArg(s, false);
      [r.arg] + ParseArguments(r.rest)
  }

  /** The program name: quotes toggle, backslashes are ordinary, a blank outside quotes ends it. */
  function ScanProgram(s: seq<Unit>, inQuotes: bool): Scanned
    decreases |s|
  {
    if s == [] then
      Scanned([], [])
    else if s[0] == QUOTE then
      ScanProgram(s[1..], !inQuotes)
    else if !inQuotes && Blank(s[0]) then
      Scanned([], s[1..])
    else
      var r := ScanProgram(s[1..], inQuotes);
      Scanned([s[0]] + r.arg, r.rest)
  }

  function ParseCommandLine(s: seq<Unit>): seq<seq<Unit>> {
    var p := ScanProgram(s, false);
    [p.arg] + ParseArguments(p.rest)
  }

  // ---------------------------------------------------------------------------
  // Round trip of the arguments
  // ---------------------------------------------------------------------------

  lemma LeadingSlashesOfRun(n: nat, s: seq<Unit>)
    requires s == [] || s[0] != BACKSLASH
    ensures LeadingSlashes(Slashes(n) + s) == n
    ensures (Slashes(n) + s)[n..] == s
  {
    if n > 0 {
      assert (Slashes(n) + s)[1..] == Slashes(n - 1) + s;
      LeadingSlashesOfRun(n - 1, s);
    } else {
      assert Slashes(n) + s == s;
    }
  }

  /** A closing quote followed by the end of the line or a blank ends the argument. */
  lemma ScanCloses(pending: nat, tail: seq<Unit>)
    requires tail == [] || Blank(tail[0])
    ensures ScanArg(Slashes(2 * pending) + ([QUOTE] + tail), true) == Scanned(Slashes(pending), tail)
  {
    var n, quoted := 2 * pending, [QUOTE] + tail;
    LeadingSlashesOfRun(n, quoted);
    assert (Slashes(n) + quoted)[n..] == quoted && quoted[1..] == tail;
    assert |quoted| > 1 ==> quoted[1] == tail[0];
    ScanStops(tail);
    assert n % 2 == 0 && n / 2 == pending && Slashes(pending) + [] == Slashes(pending);
  }

  /** Outside quotes a blank ends the argument. */
  lemma ScanStops(tail: seq<Unit>)
    requires tail == [] || Blank(tail[0])
    ensures ScanArg(tail, false) == Scanned([], tail)
  {
    assert tail[0..] == tail && Slashes(0) == [];
  }

  /** An odd run of backslashes keeps the quote after it: half of them are text. */
  lemma ScanEscapedQuote(pending: nat, after: seq<Unit>)
    ensures var r := ScanArg(after, true);
      ScanArg(Slashes(2 * pending + 1) + ([QUOTE] + after), true)
        == Scanned(Slashes(pending) + [QUOTE] + r.arg, r.rest)
  {
    var n := 2 * pending + 1;
    var s := Slashes(n) + ([QUOTE] + after);
    LeadingSlashesOfRun(n, [QUOTE] + after);
    assert s[n..][1..] == after;
    assert n % 2 == 1 && n / 2 == pending;
  }

  /** Before anything but a quote, backslashes are text. */
  lemma ScanPlain(pending: nat, unit: Unit, after: seq<Unit>)
    requires unit != QUOTE && unit != BACKSLASH
    ensures var r := ScanArg(after, true);
      ScanArg(Slashes(pending) + ([unit] + after), true)
        == Scanned(Slashes(pending) + [unit] + r.arg, r.rest)
  {
    LeadingSlashesOfRun(pending, [unit] + after);
    assert ([unit] + after)[1..] == after;
  }

  lemma SlashesThenValue(pending: nat, value: seq<Unit>)
    requires value != []
    ensures value[0] == BACKSLASH ==> Slashes(pending + 1) + value[1..] == Slashes(pending) + value
    ensures Slashes(pending) + [value[0]] + (Slashes(0) + value[1..]) == Slashes(pending) + value
  {
  }

  /** What `Escape` writes for a unit that is not a backslash, with the text that follows split off. */
  lemma EscapeStep(value: seq<Unit>, pending: nat, tail: seq<Unit>)
    requires value != [] && value[0] != BACKSLASH
    ensures Escape(value, pending) + tail
      == Slashes(if value[0] == QUOTE then 2 * pending + 1 else pending) + ([value[0]] + (Escape(value[1..], 0) + tail))
  {
    var run := Slashes(if value[0] == QUOTE then 2 * pending + 1 else pending);
    var rest := Escape(value[1..], 0);
    assert run + [value[0]] + rest + tail == run + ([value[0]] + (rest + tail));
  }

  /** Inside quotes the parser reads back the pending backslashes and the value, and stops at `tail`. */
  lemma {:induction false} ScanEscaped(value: seq<Unit>, pending: nat, tail: seq<Unit>)
    requires tail == [] || Blank(tail[0])
    ensures ScanArg(Escape(value, pending) + ([QUOTE] + tail), true) == Scanned(Slashes(pending) + value, tail)
    decreases |value|
  {
    if value == [] {
      ScanCloses(pending, tail);
      assert Slashes(pending) + value == Slashes(pending);
    } else {
      SlashesThenValue(pending, value);
      if value[0] == BACKSLASH {
        ScanEscaped(value[1..], pending + 1, tail);
      } else {
        ScanEscaped(value[1..], 0, tail);
        EscapeStep(value, pending, [QUOTE] + tail);
        var after := Escape(value[1..], 0) + ([QUOTE] + tail);
        if value[0] == QUOTE {
          ScanEscapedQuote(pending, after);
        } else {
          ScanPlain(pending, value[0], after);
        }
      }
    }
  }

  lemma ScanQuoted(value: seq<Unit>, tail: seq<Unit>)
    requires tail == [] || Blank(tail[0])
    ensures ScanArg(QuotedText(value) + tail, false) == Scanned(value, tail)
  {
    var text := QuotedText(value) + tail;
    var inner := Escape(value, 0) + ([QUOTE] + tail);
    assert text == [QUOTE] + inner;
    assert text[0..] == text && text[1..] == inner;
    ScanEscaped(value, 0, tail);
    assert Slashes(0) + (Slashes(0) + value) == value;
  }

  /** Every argument, each with the space before it: what `spawn_daemon` appends to the program. */
  function Appended(arguments: seq<seq<Unit>>): seq<Unit> {
    if arguments == [] then [] else [SPACE] + QuotedText(arguments[0]) + Appended(arguments[1..])
  }

  function CommandText(program: seq<Unit>, arguments: seq<seq<Unit>>): seq<Unit> {
    QuotedText(program) + Appended(arguments)
  }

  lemma {:induction false} ArgumentsSurvive(arguments: seq<seq<Unit>>)
    ensures ParseArguments(Appended(arguments)) == arguments
    decreases |arguments|
  {
    if arguments != [] {
      var tail := Appended(arguments[1..]);
      var body := QuotedText(arguments[0]) + tail;
      assert Appended(arguments) == [SPACE] + body;
      assert Appended(arguments)[1..] == body;
      ScanQuoted(arguments[0], tail);
      ArgumentsSurvive(arguments[1..]);
      assert [arguments[0]] + arguments[1..] == arguments;
    }
  }

  // ---------------------------------------------------------------------------
  // The program name
  // ---------------------------------------------------------------------------

  /** The counter's value when the pass over `value` ends. */
  function Unwritten(value: seq<Unit>, pending: nat): nat
    decreases |value|
  {
    if value == [] then
      pending
    else
      Unwritten(value[1..], if value[0] == BACKSLASH then pending + 1 else 0)
  }

  /** The text ends with a run of exactly `n` backslashes. */
  predicate EndsWithRun(text: seq<Unit>, n: nat) {
    && n <= |text|
    && (forall i :: |text| - n <= i < |text| ==> text[i] == BACKSLASH)
    && (n < |text| ==> text[|text| - n - 1] != BACKSLASH)
  }

  /** It is the length of the run of backslashes that ends what was read. */
  lemma {:induction false} UnwrittenIsTrailing(value: seq<Unit>, pending: nat)
    ensures EndsWithRun(Slashes(pending) + value, Unwritten(value, pending))
    decreases |value|
  {
    if value != [] {
      var rest := value[1..];
      SlashesThenValue(pending, value);
      if value[0] == BACKSLASH {
        UnwrittenIsTrailing(rest, pending + 1);
      } else {
        UnwrittenIsTrailing(rest, 0);
        RunBehindUnit(Slashes(pending), value[0], Slashes(0) + rest, Unwritten(rest, 0));
      }
    }
  }

  lemma NothingUnwritten(value: seq<Unit>)
    ensures Unwritten(value, 0) == 0 <==> value == [] || value[|value| - 1] != BACKSLASH
  {
    UnwrittenIsTrailing(value, 0);
    assert Slashes(0) + value == value;
  }

  lemma RunBehindUnit(before: seq<Unit>, unit: Unit, rest: seq<Unit>, n: nat)
    requires unit != BACKSLASH && EndsWithRun(rest, n)
    ensures EndsWithRun(before + [unit] + rest, n)
  {
    var text := before + [unit] + rest;
    forall i | |text| - n <= i < |text|
      ensures text[i] == BACKSLASH
    {
      assert text[i] == rest[i - |before| - 1];
    }
  }

  /** Without a quote in it, a value is written as itself and its trailing backslashes twice. */
  lemma {:induction false} EscapeWithoutQuote(value: seq<Unit>, pending: nat)
    requires QUOTE !in value
    ensures Escape(value, pending) == Slashes(pending) + value + Slashes(Unwritten(value, pending))
    decreases |value|
  {
    if value == [] {
      assert Slashes(2 * pending) == Slashes(pending) + value + Slashes(pending);
    } else {
      SlashesThenValue(pending, value);
      EscapeWithoutQuote(value[1..], if value[0] == BACKSLASH then pending + 1 else 0);
      if value[0] != BACKSLASH {
        var end := Slashes(Unwritten(value[1..], 0));
        assert Slashes(pending) + [value[0]] + (Slashes(0) + value[1..] + end)
            == Slashes(pending) + [value[0]] + (Slashes(0) + value[1..]) + end;
      }
    }
  }

  lemma {:induction false} ScanProgramInQuotes(name: seq<Unit>, tail: seq<Unit>)
    requires QUOTE !in name
    requires tail == [] || Blank(tail[0])
    ensures ScanProgram(name + [QUOTE] + tail, true) == Scanned(name, if tail == [] then [] else tail[1..])
    decreases |name|
  {
    var text := name + [QUOTE] + tail;
    if name == [] {
      assert text[1..] == tail;
    } else {
      assert text[1..] == name[1..] + [QUOTE] + tail;
      ScanProgramInQuotes(name[1..], tail);
    }
  }

  lemma {:induction false} ScannedProgramHasNoQuote(s: seq<Unit>, inQuotes: bool)
    ensures QUOTE !in ScanProgram(s, inQuotes).arg
    decreases |s|
  {
    if s != [] {
      ScannedProgramHasNoQuote(s[1..], inQuotes);
      ScannedProgramHasNoQuote(s[1..], !inQuotes);
    }
  }

  lemma {:induction false} ArgumentsIgnoreLeadingBlank(arguments: seq<seq<Unit>>)
    ensures ParseArguments(if Appended(arguments) == [] then [] else Appended(arguments)[1..]) == arguments
  {
    ArgumentsSurvive(arguments);
  }

  /** A program name comes back exactly when it holds no quote and does not end in a backslash. */
  predicate SurvivesAsProgram(program: seq<Unit>) {
    QUOTE !in program && (program == [] || program[|program| - 1] != BACKSLASH)
  }

  /**
   The round trip: for every program name and every argument list, the C runtime reads back exactly
   what was quoted if and only if the program name survives the first-argument rule. The arguments
   come back whatever they hold, as long as the program name has no quote in it.
   */
  lemma CommandLineRoundTrip(program: seq<Unit>, arguments: seq<seq<Unit>>)
    ensures ParseCommandLine(CommandText(program, arguments)) == [program] + arguments
       <==> SurvivesAsProgram(program)
    ensures QUOTE !in program ==> ParseCommandLine(CommandText(program, arguments))[1..] == arguments
  {
    var tail := Appended(arguments);
    var parsed := ParseCommandLine(CommandText(program, arguments));
    if QUOTE in program {
      ScannedProgramHasNoQuote(CommandText(program, arguments), false);
      assert parsed[0] != program && ([program] + arguments)[0] == program;
    } else {
      var doubled := Unwritten(program, 0);
      var name := program + Slashes(doubled);
      EscapeWithoutQuote(program, 0);
      NothingUnwritten(program);
      assert Slashes(0) + program == program;
      var text := CommandText(program, arguments);
      assert text == [QUOTE] + (name + [QUOTE] + tail);
      assert text[1..] == name + [QUOTE] + tail;
      ScanProgramInQuotes(name, tail);
      ArgumentsIgnoreLeadingBlank(arguments);
      assert parsed == [name] + arguments;
      assert doubled == 0 <==> SurvivesAsProgram(program);
      assert doubled == 0 ==> name == program;
      assert doubled > 0 ==> |name| != |program|;
      assert parsed == [program] + arguments ==> parsed[0] == program;
    }
  }

  // ---------------------------------------------------------------------------
  // spawn_daemon
  // ---------------------------------------------------------------------------

  /** The units of an ASCII word. */
  function Word(s: string): seq<Unit>
    requires forall i :: 0 <= i < |s| ==> s[i] < 128 as char
  {
    seq(|s|, i requires 0 <= i < |s| => s[i] as int)
  }

  datatype Spawn = Spawn(application: seq<Unit>, command: seq<Unit>)

  /** The arguments the daemon is started with. */
  function DaemonArguments(dataDir: Option<seq<Unit>>, dbDir: Option<seq<Unit>>): seq<seq<Unit>> {
    (if dataDir.Some? then [Word("--data-dir"), dataDir.value] else [])
    + (if dbDir.Some? then [Word("--db"), dbDir.value] else [])
    + [Word("daemon"), Word("run")]
  }

  /** Each directory follows its own flag, and the command comes last. */
  lemma DaemonArgumentsAre(dataDir: Option<seq<Unit>>, dbDir: Option<seq<Unit>>)
    ensures var args := DaemonArguments(dataDir, dbDir);
      var db := if dataDir.Some? then 2 else 0;
      && |args| == (if dbDir.Some? then db + 2 else db) + 2
      && args[|args| - 2..] == [Word("daemon"), Word("run")]
      && (dataDir.Some? ==> args[0] == Word("--data-dir") && args[1] == dataDir.value)
      && (dbDir.Some? ==> args[db] == Word("--db") && args[db + 1] == dbDir.value)
  {
  }

  /** The loop of `spawn_daemon`: the quoted program, then a space and the quoted argument for each. */
  method Assemble(binary: seq<Unit>, arguments: seq<seq<Unit>>) returns (command: seq<Unit>)
    ensures command == CommandText(binary, arguments)
  {
    command := Quoted(binary);
    var i := 0;
    while i < |arguments|
      invariant 0 <= i <= |arguments|
      invariant CommandText(binary, arguments) == command + Appended(arguments[i..])
    {
      assert arguments[i..][1..] == arguments[i + 1..];
      var q := Quoted(arguments[i]);
      assert Appended(arguments[i..]) == [SPACE] + q + Appended(arguments[i + 1..]);
      command := command + [SPACE];
      command := command + q;
      i := i + 1;
    }
    assert arguments[i..] == [];
  }

  /**
   `spawn_daemon` up to the call into the system. `dataDir` is given for a portable installation,
   `dbDir` when the database is not the default one.
   */
  method SpawnDaemon(binary: seq<Unit>, dataDir: Option<seq<Unit>>, dbDir: Option<seq<Unit>>)
    returns (r: Result<Spawn>)
    ensures r.InvalidInput? <==>
      0 in binary || 0 in CommandText(binary, DaemonArguments(dataDir, dbDir))
      || |CommandText(binary, DaemonArguments(dataDir, dbDir))| >= MAX_COMMAND
    ensures r.Ok? ==> r.value.application == binary + [0]
    ensures r.Ok? ==> r.value.command != [] && r.value.command[|r.value.command| - 1] == 0
    ensures r.Ok? ==> 0 !in r.value.command[..|r.value.command| - 1]
    ensures r.Ok? && SurvivesAsProgram(binary) ==>
      ParseCommandLine(r.value.command[..|r.value.command| - 1])
        == [binary] + DaemonArguments(dataDir, dbDir)
  {
    var arguments := [];
    if dataDir.Some? {
      arguments := arguments + [Word("--data-dir"), dataDir.value];
    }
    if dbDir.Some? {
      arguments := arguments + [Word("--db"), dbDir.value];
    }
    arguments := arguments + [Word("daemon"), Word("run")];
    assert arguments == DaemonArguments(dataDir, dbDir);
    var command := Assemble(binary, arguments);
    CommandLineRoundTrip(binary, arguments);
    if 0 in binary || 0 in command || |command| >= MAX_COMMAND {
      return InvalidInput;
    }
    assert (command + [0])[..|command + [0]| - 1] == command;
    return Ok(Spawn(binary + [0], command + [0]));
  }
}
