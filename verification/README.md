# A model of AttemptDB's hard parts

AttemptDB records what coding agents do, answers queries about it from a resident daemon and, when
asked, uploads events to a server. This project models the parts of it whose correctness is not
visible from one function, and proves what they promise over all inputs and all runs. Where a promise
does not hold, it proves exactly when it does and exhibits a run or an input where it does not.

| module | subject |
|---|---|
| `WindowsArguments` | quoting for `CreateProcessW`, against a parser of the Microsoft C runtime's rules |
| `Database`, `Projection`, `ReadService`, `Scopes`, `Interleaving` | the daemon's read engine: fingerprints, facts, the incremental projector, the view cache, first with atomic steps, then with `handle` interleaved with the writer thread; what a scope selects |
| `Sorting`, `Timeline`, `TimelineReading` | the trimmed projection the daemon ships, against rendering the whole one; which sessions, turns and attempts the lines show, and in what order |
| `SyncPolicy`, `Sync`, `SyncHistory`, `SyncConsent`, `SyncDelivery`, `SyncCommands` | sync consent: the peer map, the policy, the history watermark and the upload cursor, under commands and concurrent upload runs |
| `Text`, `Wrap`, `Classifier` | words and lines, greedy wrapping and its optimality, the shell command classifier |
| `Rng` | xoshiro256** seeded by SplitMix64 |
| `EventIds` | ids derived from provider call ids, and the store that drops known ids |
| `Otlp`, `OtlpRecords` | the OTLP batch decoder; which records share an id, and what an event says of its record |
| `Utf8`, `TestCounts`, `TestOutput` | cutting UTF-8 (section 3 of RFC 3629), reading test counts, and the two together on a whole output |
| `Ico` | the icon file layout |
| `Wrappers`, `Sequences` | what the others share |

## What does not hold

Each is stated as an if-and-only-if or comes with a lemma that builds the run.

- The daemon's view cache is documented as "all built from the fingerprint in `latest`"
  (crates/attempt/src/read_service.rs:71-73). A `handle` that inserts after its snapshot was replaced
  breaks this: `Interleaving.StaleAnswer` gives a request that begins after the refresh that copied an
  event and is answered without it, for every database, scope and matching event. Without such an
  insert the documented invariant holds (`NoStraddleAllUpToDate`), and every stale view comes from one
  (`StaleViewStraddled`).
- A view may hold more rows than `view_limit`, "the most rows (events) a view the daemon builds may hold"
  (crates/attempt/src/read_service.rs:66-68): `scope_rows` is capped by facts that leave telemetry out, and
  views do not. `ReadService.ViewWithinLimitExactlyWhen` says for which databases and scopes every view
  keeps within every limit, and at which limit the others exceed it; `ScopeRowsCoverExactlyWhen` says the
  same of the estimate.
- The projection of an unfiltered view comes from a projector that cannot forget. A handle overtaken by one
  with a newer copy gets older rows with a newer projection (`Interleaving.OlderRowsNewerProjection`);
  `BuildAgreesExactlyWhen` says exactly when the two agree.
- `timeline -n 0` prints something else from the trimmed projection than from the whole one when there
  is anything to list (`Timeline.TrimmedTimelineIsTheSame`).
- A `sync forget` the server refuses restores the consent but not the cursor: with an upload in between,
  what was waiting to be sent is never sent (`SyncDelivery.RefusedForgetAccountedExactlyWhen`).
- `--include-history` rewinds the cursor only for a peer it replaces: a peer that was left and is
  connected again keeps its history behind the cursor, and `history include` then finds nothing to do
  (`LeftHistoryIsNotIncluded`, `IncludeHistoryAccountedExactlyWhen`).
- No lock covers the cursor file: an upload under way undoes `history include`
  (`IncludeUndoneByUpload`), and may send what a forget has just deleted
  (`SyncHistory.UploadOutrunsForget`). Stopped between its two writes, `history include` leaves the history
  behind the cursor for good (`StoppedIncludeAccountedExactlyWhen`).
- Event ids join their fields with U+001F without escaping: `EventIds.SharesIdExactlyWhen` says exactly
  which two calls share an id, `TwoCallsOneId` gives two. A call without a session id is stored once for
  each channel (`UnknownSessionIsStoredTwice`).
- The program name survives the first-argument rule exactly when it has no quote and does not end with a
  backslash (`WindowsArguments.CommandLineRoundTrip`); an icon's width octet exactly from 1 to 256
  (`Ico.WidthSurvivesExactlyWhen`).

## Model

| member | source | states |
|---|---|---|
| `WindowsArguments.Quoted` | crates/attemptdb-capture/src/process_windows.rs:14-32 | the loop with its backslash counter writes the quoted text that `ScanQuoted` shows the runtime reads back |
| `WindowsArguments.ScanEscaped` | crates/attemptdb-capture/src/process_windows.rs:17-30 | scanning what the loop has written gives back the value, with any pending run of backslashes, whatever comes after |
| `WindowsArguments.ScanQuoted` | crates/attemptdb-capture/src/process_windows.rs:14-32 | one quoted argument before a blank or the end is scanned as exactly that argument |
| `WindowsArguments.ArgumentsSurvive` | crates/attemptdb-capture/src/process_windows.rs:38-49 | every list of arguments, quoted and joined by spaces, is parsed back as that list |
| `WindowsArguments.UnwrittenIsTrailing` | crates/attemptdb-capture/src/process_windows.rs:17-30 | the counter at the end is the length of the run of backslashes that ends what was read |
| `WindowsArguments.EscapeWithoutQuote` | crates/attemptdb-capture/src/process_windows.rs:17-30 | without a quote the value is written as it is, up to its trailing backslashes |
| `WindowsArguments.ScannedProgramHasNoQuote` | crates/attemptdb-capture/src/process_windows.rs:34-49 | the first-argument rule never yields a quote, so a program name with one cannot survive |
| `WindowsArguments.CommandLineRoundTrip` | crates/attemptdb-capture/src/process_windows.rs:34-49 | program and arguments come back from the assembled line if and only if the program has no quote and no trailing backslash |
| `WindowsArguments.Assemble` | crates/attemptdb-capture/src/process_windows.rs:38-47 | the vector grown in the loop is the command text of the round trip |
| `WindowsArguments.DaemonArgumentsAre` | crates/attemptdb-capture/src/process_windows.rs:34-44 | the argument after `--data-dir` is the data directory, the one after `--db` the database, each present exactly when given, and `daemon run` comes last |
| `WindowsArguments.SpawnDaemon` | crates/attemptdb-capture/src/process_windows.rs:34-54 | refused exactly for a NUL or a line too long; otherwise terminated, and parsed as the program and its arguments when the program survives |
| `Rng.UnmixMix` | crates/attemptdb-bench/src/rng.rs:13-18 | the SplitMix64 finaliser has an inverse on every word |
| `Rng.Splitmix` | crates/attemptdb-bench/src/rng.rs:13-18 | the returned word is the mix of the advanced counter |
| `Rng.SeedWordsDiffer` | crates/attemptdb-bench/src/rng.rs:22-32 | the four words seeded from any seed are pairwise different |
| `Rng.UnstepStep` | crates/attemptdb-bench/src/rng.rs:39-50 | the xoshiro step can be undone |
| `Rng.StepUnstep` | crates/attemptdb-bench/src/rng.rs:39-50 | and every state has a predecessor: the step is a bijection |
| `Rng.OutputIsTheSecondWord` | crates/attemptdb-bench/src/rng.rs:39-41 | the output can be undone to the second word: two states give the same output if and only if that word is the same |
| `Rng.ReferenceOutputs` | crates/attemptdb-bench/src/rng.rs:13-50 | the published first outputs of SplitMix64 from seed 0 and of xoshiro256** from the state 1, 2, 3, 4 |
| `Rng.NeverZero` | crates/attemptdb-bench/src/rng.rs:39-50 | a nonzero state stays nonzero for any number of steps |
| `Rng.SeededRunIsNeverZero` | crates/attemptdb-bench/src/rng.rs:22-50 | for every seed no state of the run is all zero |
| `Rng.RepeatMeansReturn` | crates/attemptdb-bench/src/rng.rs:39-50 | a run that repeats a state has come back to its start |
| `Rng.RunIsPeriodic` | crates/attemptdb-bench/src/rng.rs:39-50 | every run is periodic from its first state, with a period of at most 2 to the 256 |
| `Rng.Generator.New` | crates/attemptdb-bench/src/rng.rs:22-32 | the object's state is the seeded state of the lemmas |
| `Rng.Generator.NextU64` | crates/attemptdb-bench/src/rng.rs:39-50 | the output and the next state, updated in place, are those of the pure step |
| `Rng.Generator.Fork` | crates/attemptdb-bench/src/rng.rs:35-37 | the fork is seeded from the next output and the parent has advanced once |
| `Text.WordsOfJoin` | crates/attemptdb-adapters/src/common.rs:619-631 | joining words by spaces and splitting at whitespace gives the words back |
| `Text.WordsAroundSpace` | crates/attempt/src/cmd_schema.rs:30-45 | whitespace divides: the words of two texts around it are the words of each |
| `Text.JoinedLengthOfWords` | crates/attemptdb-adapters/src/common.rs:592-631 | the rejoined words are never longer than the text they came from |
| `Text.JoinedLengthSuffix` | crates/attemptdb-adapters/src/common.rs:619-631 | leaving out words at the front strictly shortens the join |
| `Wrap.GreedyIsLegal` | crates/attempt/src/cmd_schema.rs:23-51 | the greedy lines hold the words in order, each within the width or one over-long word |
| `Wrap.GreedyIsOptimal` | crates/attempt/src/cmd_schema.rs:23-51 | no other legal division into lines has fewer |
| `Wrap.FillIsMaximal` | crates/attempt/src/cmd_schema.rs:30-45 | no legal first line takes more words than the greedy one |
| `Wrap.ResumeIsGreedy` | crates/attempt/src/cmd_schema.rs:30-45 | the loop's state, a line under way and words to come, continues to the greedy lines |
| `Wrap.WordsOfPrinted` | crates/attempt/src/cmd_schema.rs:23-51 | indentation and line feeds neither join nor split words |
| `Wrap.LinesOfPrinted` | crates/attempt/src/cmd_schema.rs:23-51 | the lines of the printed text are the padded lines of the layout, one for one |
| `Wrap.RowsAreWithinWidth` | crates/attempt/src/cmd_schema.rs:17-51 | each starts with the indentation and is within the width, unless it is one word that is too long for it |
| `Wrap.PrintFullLines` | crates/attempt/src/cmd_schema.rs:30-45 | the loop prints the lines that are full and keeps the rest |
| `Wrap.WrapFrom` | crates/attempt/src/cmd_schema.rs:23-51 | the text is the printing of the greedy lines behind the padded lead |
| `Wrap.WrapText` | crates/attempt/src/cmd_schema.rs:17-19 | same words, legal, as few lines as any legal layout, and the lines of the output keep within the width |
| `Classifier.OutranksIsStrictWeakOrder` | crates/attemptdb-adapters/src/common.rs:532-553 | irreflexive, transitive, and incomparability is transitive |
| `Classifier.BestIsFirstMostSignificant` | crates/attemptdb-adapters/src/common.rs:406-417 | the fold picks the first segment that nothing outranks |
| `Classifier.BestOfConcat` | crates/attemptdb-adapters/src/common.rs:406-417 | the fold over two lists is the fold of their winners |
| `Classifier.SplitPieces` | crates/attemptdb-adapters/src/common.rs:555-579 | the index loop cuts exactly the pieces between separators |
| `Classifier.SplitSegments` | crates/attemptdb-adapters/src/common.rs:555-579 | trimmed, and without the empty ones |
| `Classifier.PiecesAround` | crates/attemptdb-adapters/src/common.rs:555-579 | for each separator (an ampersand or a bar, single or double, a semicolon, a line feed) the pieces of `a` and `b` around it are those of `a` and those of `b`, if no ampersand or bar next to it makes it another separator |
| `Classifier.PiecesHoldNoSeparator` | crates/attemptdb-adapters/src/common.rs:555-579 | no piece holds an ampersand, a bar, a semicolon or a line feed |
| `Classifier.SegmentsAround` | crates/attemptdb-adapters/src/common.rs:555-579 | and so are the segments |
| `Classifier.SegmentsAreShort` | crates/attemptdb-adapters/src/common.rs:555-579 | no segment is longer than the command |
| `Classifier.RejoinedSuffixIsShorter` | crates/attemptdb-adapters/src/common.rs:619-631 | the rejoined tokens after a shell or a runner are shorter than the segment |
| `Classifier.ClassifySegment` | crates/attemptdb-adapters/src/common.rs:592-631 | terminates on every segment, by that measure; only git commands carry a git subcommand |
| `Classifier.ClassifyCommand` | crates/attemptdb-adapters/src/common.rs:406-417 | terminates on every command, however deeply shells and runners nest |
| `Classifier.ClassifyAllOfConcat` | crates/attemptdb-adapters/src/common.rs:406-417 | segments are classified one by one |
| `Classifier.ClassifyChain` | crates/attemptdb-adapters/src/common.rs:406-417 | `a` and `b` around any of the separators are classified from `a` and `b` alone, and the rank is the smaller of the two |
| `Classifier.SignificanceOrder` | crates/attemptdb-adapters/src/common.rs:360-363 | git outranks tests, these builds, then installs, the network, runs, files and the rest |
| `Classifier.GitSignificance` | crates/attemptdb-adapters/src/common.rs:364-388 | a commit comes before every other git command, a push before the rest, listed ones before others, and none at all last |
| `Classifier.CommitWins` | crates/attemptdb-adapters/src/common.rs:404-417 | whatever else is in a chain, a segment that is a commit makes it a commit |
| `Classifier.CommitNamesTheChain` | crates/attemptdb-adapters/src/common.rs:419-461 | and its fine category too |
| `Classifier.CommandSubcategory` | crates/attemptdb-adapters/src/common.rs:406-417 | the fine category of a command is that of its chain |
| `Classifier.ChainSubcategoryIs` | crates/attemptdb-adapters/src/common.rs:443-461 | the first of the priority list that some segment has, else that of the first segment |
| `Classifier.ProgramOfPath` | crates/attemptdb-adapters/src/common.rs:600-604 | the program of a path is its last part |
| `Classifier.AssignmentExactlyWhen` | crates/attemptdb-adapters/src/common.rs:581-590 | `name=value` is an assignment if and only if the name is a shell identifier |
| `Classifier.SkipsInFront` | crates/attemptdb-adapters/src/common.rs:592-596 | assignments and wrappers in front are skipped, and nothing else |
| `Classifier.WrappersAreTransparent` | crates/attemptdb-adapters/src/common.rs:592-599 | a segment behind assignments and wrappers is classified as the segment alone |
| `Classifier.ProgramNames` | crates/attemptdb-adapters/src/common.rs:592-631 | which programs are wrappers, shells and runners |
| `Classifier.BareShell` | crates/attemptdb-adapters/src/common.rs:619-630 | a shell with nothing but flags is a run |
| `Classifier.OrdinaryProgram` | crates/attemptdb-adapters/src/common.rs:600-683 | any other program is classified by its name and the words behind it |
| `Classifier.SubcommandBehindOptions` | crates/attemptdb-adapters/src/common.rs:708-720 | behind any options, with their values, the first other word in lower case |
| `Classifier.LowercaseIs` | crates/attemptdb-adapters/src/common.rs:708-720 | lower case changes exactly the capital letters, each to its own |
| `Classifier.GitIsRecognised` | crates/attemptdb-adapters/src/common.rs:592-618 | so `sudo git -C dir commit` is git, with that subcommand: any assignments and wrappers in front, any options between |
| `Classifier.SingleSegment` | crates/attemptdb-adapters/src/common.rs:406-417 | a command without separators is classified as its one segment |
| `Classifier.NestedOnce` | crates/attemptdb-adapters/src/common.rs:600-631 | a shell with its flags, or a runner, is seen through |
| `Classifier.NestingIsTransparent` | crates/attemptdb-adapters/src/common.rs:600-631 | to any depth of nesting |
| `Sorting.SortBySorts` | crates/attempt/src/cmd_query.rs:404-405 | sorted by key and a permutation |
| `Sorting.SortByIsStable` | crates/attempt/src/cmd_query.rs:404-405 | elements of one key keep their order |
| `Sorting.StableSortIsUnique` | crates/attempt/src/cmd_query.rs:404-405 | a sorted list with the same elements of each key in order is the result: any stable sort agrees |
| `Sorting.SortCommutesWithFilter` | crates/attempt/src/read_service.rs:328-345 | filtering before or after a stable sort is the same |
| `Timeline.RenderTimeline` | crates/attempt/src/cmd_query.rs:377-568 | the nested printing loops emit the specified lines |
| `Timeline.TrimProjection` | crates/attempt/src/read_service.rs:328-358 | the shipped projection is the restriction to the newest sessions, with the number listed |
| `Timeline.SameSessionsShown` | crates/attempt/src/read_service.rs:328-345 | the sessions shown, and their order, survive trimming |
| `Timeline.EligibleLeft` | crates/attempt/src/read_service.rs:328-345 | after trimming nothing is left to list exactly when there was nothing or the limit is 0 |
| `Timeline.SessionLinesOfKept` | crates/attempt/src/cmd_query.rs:412-540 | the lines of the sessions kept need nothing that trimming removed |
| `Timeline.TrimmedTimelineIsTheSame` | crates/attempt/src/read_service.rs:328-358 | trimmed with shipped totals prints the same lines as the whole projection if and only if the limit is at least 1 or nothing is listed |
| `Timeline.TimelineViaDaemon` | crates/attempt/src/read_service.rs:464-486 | trimming on one side and rendering on the other prints what one process prints |
| `TimelineReading.NewestAreTaken` | crates/attempt/src/cmd_query.rs:385-405 | of the sessions to list, as many as the limit allows, newest start first; none left out is newer than one shown; equal starts keep the projection's order |
| `TimelineReading.TimelineReadsAs` | crates/attempt/src/cmd_query.rs:377-568 | the session lines are exactly those; the header has the projection's counts, the last line how many sessions more there are, and every handoff is listed |
| `TimelineReading.SessionReading` | crates/attempt/src/cmd_query.rs:415-436 | below a session line, the turns of that session by rising index, equal ones in the projection's order |
| `TimelineReading.TurnReading` | crates/attempt/src/cmd_query.rs:458-471 | below a turn line, the attempts of that turn by rising index |
| `TimelineReading.AttemptReading` | crates/attempt/src/cmd_query.rs:512-542 | below an attempt line, its commits if it has any, and with `--tools` the first call of each of its ids |
| `TimelineReading.ToolLinesOfConcat` | crates/attempt/src/cmd_query.rs:520-542 | the tool lines follow the order of the attempt's ids |
| `TimelineReading.TrimKeepsTheNewest` | crates/attempt/src/read_service.rs:328-356 | trimming keeps the newest sessions, with exactly the turns, attempts, calls, signals and commits of theirs, and all handoffs |
| `Database.DbStepKeepsValid` | crates/attemptdb-storage/src/db.rs:825-1150 | each writer step raises the generation or only appends to the memtable, and never changes a written file |
| `Database.RunIsSince` | crates/attemptdb-storage/src/db.rs:825-1150 | the same over whole runs of ingest, flush, compaction and purge |
| `Database.FingerprintIdentifiesContents` | crates/attempt/src/read_service.rs:34-52 | equal fingerprints in one run mean equal contents |
| `Database.MayMatchIsSound` | crates/attemptdb-storage/src/db.rs:338-358 | a segment the zone maps rule out holds no matching row |
| `Scopes.MayMatchExactlyWhen` | crates/attemptdb-storage/src/db.rs:338-358 | a segment may match if and only if some row is late enough, some early enough and some of the project |
| `Scopes.WritesAreRead` | crates/attemptdb-storage/src/db.rs:825-1150 | an ingest appends what it accepted to the rows a refresh covers; a flush changes none of them |
| `Database.FactsTally` | crates/attemptdb-query/src/facts.rs:526-667 | the facts of a list of rows are its counts of work per project and session |
| `Database.AbsorbTallies` | crates/attemptdb-query/src/facts.rs:670-754 | absorbing adds the counts of rows that follow |
| `Database.MergedFactsTally` | crates/attemptdb-query/src/cache.rs:384-394 | so the merged facts of all segments are the counts of all their rows |
| `Database.RefreshFactsTally` | crates/attemptdb-query/src/cache.rs:384-394 | and with the memtable, of everything a refresh covers |
| `ReadService.RowsToReadCover` | crates/attempt/src/read_service.rs:284-292 | the rows of the segments that may match are at least the rows that do |
| `ReadService.ScopeRowsCoverExactlyWhen` | crates/attempt/src/read_service.rs:284-304 | the estimate is an upper bound if and only if the selected telemetry is within what the capping counts have to spare; it always bounds the selected work |
| `ReadService.ScopeRowsCoverWork` | crates/attempt/src/read_service.rs:284-304 | a scope that selects no telemetry is never underestimated |
| `ReadService.WholeProjectCoverExactlyWhen` | crates/attempt/src/read_service.rs:284-304 | a flushed project with work is not underestimated if and only if it has no telemetry |
| `ReadService.TelemetryIsNotReckoned` | crates/attempt/src/read_service.rs:284-304 | one hook event and one telemetry record: two rows reckoned as one |
| `Projection.FeedEffect` | crates/attemptdb-query/src/cache.rs:273-308 | a feed adds the work of what it is given to what was seen, or to nothing when a fed segment is no longer listed |
| `Projection.ProjectionAgreesExactlyWhen` | crates/attemptdb-query/src/cache.rs:368-377 | the projection is of the engine's rows if and only if the feed restarts or all that was seen is among them |
| `Projection.WorkGrows` | crates/attemptdb-storage/src/db.rs:825-1150 | a writer step whose rewrite keeps its work loses none |
| `ReadService.EngineCache.Clear` | crates/attemptdb-query/src/cache.rs:564-576 | nothing is remembered, projected or fed |
| `ReadService.EngineCache.FeedProjector` | crates/attemptdb-query/src/cache.rs:273-308 | the loop over the segments not fed yet, then the memtable, is the feed of the lemmas |
| `ReadService.EngineCache.Engine` | crates/attemptdb-query/src/cache.rs:368-377 | every row, with the projection of everything fed so far |
| `ReadService.EngineCache.Touch` | crates/attemptdb-query/src/cache.rs:435-510 | the scope moves to the front; of the scopes asked for the last four are kept, with exactly their memos, unchanged |
| `ReadService.EngineCache.SegmentRows` | crates/attemptdb-query/src/cache.rs:435-510 | from the memo or read: what the scope selects from the segment |
| `ReadService.EngineCache.ScopedRows` | crates/attemptdb-query/src/cache.rs:435-510 | skipping what the zone maps rule out loses no row |
| `ReadService.EngineCache.EngineScoped` | crates/attemptdb-query/src/cache.rs:429-479 | whatever the memo holds, the rows of a fresh scan; the projection of those rows for a filtered scope, of everything fed for an unfiltered one |
| `ReadService.EngineService.Tick` | crates/attempt/src/read_service.rs:131-141 | idle with a refresh held: everything is dropped; otherwise nothing changes |
| `ReadService.EngineService.Refresh` | crates/attempt/src/read_service.rs:143-167 | kept when the fingerprint is the same, otherwise replaced with the views cleared |
| `ReadService.EngineService.Handle` | crates/attempt/src/read_service.rs:169-215 | the reply and the new views, through the memo, are those of the pure step |
| `Scopes.ScanOfEverything` | crates/attemptdb-storage/src/db.rs:179-210 | no filter selects every row |
| `Scopes.NarrowToProject` | crates/attemptdb-storage/src/db.rs:179-210 | a project narrows a scan to the rows of the project |
| `Scopes.NarrowToSession` | crates/attemptdb-storage/src/db.rs:179-210 | a session to the rows of the session |
| `Scopes.NarrowToSince` | crates/attemptdb-storage/src/db.rs:179-210 | `since` to the rows observed then or later |
| `Scopes.NarrowToUntil` | crates/attemptdb-storage/src/db.rs:179-210 | `until` to the rows observed then or earlier |
| `Scopes.NarrowToCaptured` | crates/attemptdb-storage/src/db.rs:179-210 | captured-only to the rows that are not reconstructed |
| `Scopes.ScanNarrows` | crates/attemptdb-storage/src/db.rs:179-210 | so a scan is all rows narrowed by each of the five in turn |
| `Scopes.AnswerSelects` | crates/attempt/src/read_service.rs:169-215 | in every run the rows of an answer are all rows of `latest` narrowed by the request |
| `Scopes.CapturedOnlyAnswer` | crates/attempt/src/read_service.rs:307-323 | a captured-only answer is exactly the hook-captured rows of the wider one |
| `Scopes.CancelledBuildsNothing` | crates/attempt/src/read_service.rs:169-215 | a cancelled request changes nothing and is answered only from a view that is there |
| `Scopes.DeclinedIsReckoned` | crates/attempt/src/read_service.rs:200-208 | a declined request is told a number above the limit, at least the work it asks for, and at least its rows where the estimate is a bound |
| `Scopes.TickForgets` | crates/attempt/src/read_service.rs:131-141 | after an idle tick a request finds no refresh; a tick that is not idle changes nothing |
| `ReadService.StepKeepsInvariant` | crates/attempt/src/read_service.rs:131-215 | every step keeps the rows of each view equal to a fresh scan of `latest` |
| `ReadService.RunKeepsInvariant` | crates/attempt/src/read_service.rs:131-215 | so does every run |
| `ReadService.CopyIsCurrent` | crates/attempt/src/read_service.rs:143-152 | a copy with the present fingerprint is a copy of the present contents |
| `ReadService.HandleAfterRefreshHasFreshRows` | crates/attempt/src/read_service.rs:143-215 | after any run, a request handled after a refresh gets the rows a service just built would give, or is declined for the same reason |
| `ReadService.RunKeepsProjected` | crates/attempt/src/read_service.rs:131-215 | in a run whose writes lose no work, every projection is of its view's rows |
| `ReadService.BuiltReplyIsFreshExactlyWhen` | crates/attempt/src/read_service.rs:206-210 | a view built now answers, projection included, as a service just built if and only if its scope is filtered or declined, the feed restarts, or nothing seen has left the database |
| `ReadService.HandleAfterRefreshIsFresh` | crates/attempt/src/read_service.rs:143-215 | in a run whose writes lose no work, the whole answer is that of a service just built |
| `ReadService.ViewsStayWithinLimit` | crates/attempt/src/read_service.rs:197-213 | in every run no cached view holds more work than the limit, nor more rows where `scope_rows` is an upper bound |
| `ReadService.ViewWithinLimitExactlyWhen` | crates/attempt/src/read_service.rs:66-68 | views keep within every limit if and only if `scope_rows` is an upper bound; otherwise the limit it reckons is exceeded |
| `Interleaving.StepKeepsInvariant` | crates/attempt/src/read_service.rs:131-215 | every interleaved step keeps the rows of each view and each answer those of one past state |
| `Interleaving.RunKeepsInvariant` | crates/attempt/src/read_service.rs:131-215 | so does every interleaving of any number of handlers |
| `Interleaving.EveryAnswerIsASnapshot` | crates/attempt/src/read_service.rs:169-215 | the rows of every cached view and every answer are the complete rows of one past state, with no more work than the limit, and no more rows where `scope_rows` is an upper bound |
| `Interleaving.UpToDateMeansEqual` | crates/attempt/src/read_service.rs:71-73 | a view with the fingerprint of `latest` is what a fresh engine over `latest` holds |
| `Interleaving.InsertKeepsUpToDateExactlyWhen` | crates/attempt/src/read_service.rs:206-215 | one insert keeps the documented invariant if and only if its snapshot is still `latest` |
| `Interleaving.NoStraddleAllUpToDate` | crates/attempt/src/read_service.rs:71-73 | a run without a straddling insert keeps every view built from `latest` whenever no clear is due |
| `Interleaving.StaleViewStraddled` | crates/attempt/src/read_service.rs:175-215 | a stale view was inserted by a handle whose snapshot had been replaced, with the steps where it began and inserted |
| `Interleaving.StaleAnswer` | crates/attempt/src/read_service.rs:175-215 | for every database, fitting scope and matching event, a run in which a later request misses the event |
| `Interleaving.BuildAgreesExactlyWhen` | crates/attempt/src/read_service.rs:206-210 | what a handle builds projects its rows if and only if the scope is filtered, the feed restarts, or nothing newer than its copy was fed |
| `Interleaving.OlderRowsNewerProjection` | crates/attempt/src/read_service.rs:206-210 | for every database that fits and every new work event, a run in which a view has the event in its projection and not in its rows |
| `Interleaving.IdleTickForgets` | crates/attempt/src/read_service.rs:131-141 | after an idle tick no view is left, and what a handle builds then projects its own rows, overtaken or not |
| `SyncPolicy.CloseHistoryHoldsBack` | crates/attempt/src/cmd_sync.rs:815-828 | closing holds back everything recorded; of what comes later, what was held back stays so unless it is live and only a time held it |
| `SyncPolicy.DueIsDelivered` | crates/attemptdb-capture/src/sync.rs:1758-1805 | the server ends up holding every due event of a range |
| `SyncPolicy.DeliveredIsDue` | crates/attemptdb-capture/src/sync.rs:1758-1805 | and nothing else new |
| `SyncPolicy.DeliverKeepsUnique` | crates/attemptdb-capture/src/sync.rs:2299-2320 | with a server that drops known ids, no id is held twice |
| `SyncConsent.SendableExactlyWhen` | crates/attemptdb-capture/src/sync.rs:454-468 | an event may leave if and only if it is not discarded, no key of it is excluded, one is included if any are, and it is attributed if there is a policy at all |
| `SyncConsent.NoPolicySendsAll` | crates/attemptdb-capture/src/sync.rs:454-468 | an empty policy sends every event that is neither discarded nor withheld |
| `SyncConsent.PolicyChanges` | crates/attempt/src/cmd_sync.rs:510-565 | which keys each change of a policy adds and takes, and that it leaves the others |
| `SyncConsent.NewConnectionWithholds` | crates/attempt/src/cmd_sync.rs:1097-1116 | a new connection withholds what is recorded and the imports from before it |
| `SyncConsent.ReconnectionWithholds` | crates/attempt/src/cmd_sync.rs:1106-1116 | connecting again withholds what was withheld, or nothing with `--include-history` |
| `SyncConsent.TimeAloneWithholds` | crates/attemptdb-capture/src/sync.rs:351-360 | a consent with a time alone withholds what was observed before it |
| `Sync.CommandKeepsValid` | crates/attempt/src/cmd_sync.rs:260-277 | each command step keeps cursors and watermarks within what is recorded |
| `Sync.BackgroundKeepsValid` | crates/attemptdb-capture/src/sync.rs:1730-1810 | and so does each step of an upload run |
| `Sync.RunKeepsValid` | crates/attempt/src/cmd_sync.rs:592-720 | and every run of commands and uploads |
| `SyncHistory.StepKeeps` | crates/attempt/src/cmd_sync.rs:800-828 | no step short of an opt-in lowers what a peer holds back, even if undone or left and connected again |
| `SyncHistory.WatermarkNeverDrops` | crates/attempt/src/cmd_sync.rs:1097-1119 | between commands a watermark never drops or clears in a run without an opt-in |
| `SyncHistory.UploadBegan` | crates/attemptdb-capture/src/sync.rs:1541-1581 | an upload run goes by the configuration of the step where it started |
| `SyncHistory.HeldBackNeverLeaves` | crates/attemptdb-capture/src/sync.rs:350-362 | no run started later sends an event at or below the watermark |
| `SyncHistory.FailedCommandRestoresPeers` | crates/attempt/src/cmd_sync.rs:1156-1181 | a failed handshake or a refused forget leaves the peer map exactly as it was, whatever ran in between |
| `SyncHistory.ForgottenIsKept` | crates/attempt/src/cmd_sync.rs:628-663 | after a forget that succeeds the peer holds back everything recorded before it |
| `SyncHistory.ForgottenNeverLeaves` | crates/attempt/src/cmd_sync.rs:628-663 | no run that starts after the peer was closed sends anything recorded before, without an opt-in |
| `SyncHistory.UploadOutrunsForget` | crates/attempt/src/cmd_sync.rs:628-663 | a run already under way sends it after the deletion, on any device with something due |
| `SyncConsent.SendsExactlyWhen` | crates/attemptdb-capture/src/sync.rs:1758-1805 | in every run, a batch sends an event of its range if and only if the policy the run began with lets it leave and it is not withheld |
| `SyncConsent.ExcludedNeverLeaves` | crates/attemptdb-capture/src/sync.rs:262-264 | after an exclusion, and until it is taken back or the peer connected again, no run started later sends an event with that key |
| `SyncConsent.ConnectionIsWhatWasAsked` | crates/attempt/src/cmd_sync.rs:1117-1182 | a connection that succeeds has the address, key, profile and policy asked for, and leaves the other peers |
| `SyncConsent.ProfileAndPolicyKeepWithheld` | crates/attempt/src/cmd_sync.rs:260-277 | changing a profile or a policy withholds the same events as before, and changes no other peer |
| `SyncConsent.IncludeFreesAll` | crates/attempt/src/cmd_sync.rs:677-706 | including the history withholds nothing from that peer, keeps its policy and changes no other |
| `SyncConsent.RunKeepsAgreed` | crates/attempt/src/cmd_sync.rs:797-828 | in every run, undone commands included, the consent on record is to the profile and the policy in force |
| `SyncConsent.ChangeIsDated` | crates/attempt/src/cmd_sync.rs:797-812 | a change of profile or policy, or including the history, dates the consent |
| `SyncConsent.ForgetEmpties` | crates/attempt/src/cmd_sync.rs:611-663 | a forget that succeeds empties the peer's server and no other; the cursor file is bound to that server where it was |
| `SyncConsent.RefusedForgetChanges` | crates/attempt/src/cmd_sync.rs:628-654 | one that is refused changes nothing, unless the server deleted before it failed |
| `SyncConsent.LeavingEmpties` | crates/attempt/src/cmd_sync.rs:1278-1345 | leaving with a deletion empties the server and removes the peer; its cursor file stays, bound to that server |
| `SyncConsent.LeavingKeeps` | crates/attempt/src/cmd_sync.rs:1278-1345 | leaving without one removes the peer alone; if the deletion is refused the peer stays |
| `SyncConsent.NothingToChange` | crates/attempt/src/cmd_sync.rs:260-277 | asking for the profile in force, or for a peer there is not, changes nothing |
| `SyncDelivery.SendKeepsCatchingUp` | crates/attemptdb-capture/src/sync.rs:1758-1805 | a batch keeps everything behind the cursor delivered |
| `SyncDelivery.RunKeepsCatchingUp` | crates/attempt/src/cmd_sync.rs:677-720 | so does any run that neither reconfigures the peer nor deletes from the server |
| `SyncDelivery.RunKeepsOnlyAllowed` | crates/attemptdb-capture/src/sync.rs:454-468 | under one policy the server never holds what the policy keeps out |
| `SyncDelivery.HistoryIncludeDelivers` | crates/attempt/src/cmd_sync.rs:677-720 | include, then uploads to the newest event: the server holds exactly the allowed events, each once, if no run was under way at the reset |
| `SyncDelivery.RefusedForgetAccountedExactlyWhen` | crates/attempt/src/cmd_sync.rs:628-654 | with an upload during a refused forget, nothing is lost if and only if nothing was waiting |
| `SyncDelivery.IncludeHistoryAccountedExactlyWhen` | crates/attempt/src/cmd_sync.rs:1241-1255 | after `--include-history` nothing is lost if and only if the peer was replaced with a cursor bound to its server, the cursor was bound elsewhere, or everything behind it was delivered |
| `SyncDelivery.LeftHistoryIsNotIncluded` | crates/attempt/src/cmd_sync.rs:1241-1255 | connect, upload, leave, connect with history: nothing is sent, and including again does nothing |
| `SyncDelivery.IncludeUndoneByUpload` | crates/attempt/src/cmd_sync.rs:696-706 | an upload that finishes after the include puts the cursor back; nothing is lost if and only if all allowed events were delivered before |
| `SyncDelivery.StoppedIncludeAccountedExactlyWhen` | crates/attempt/src/cmd_sync.rs:692-706 | an include stopped before the cursor is reset: nothing is lost if and only if all allowed events behind the cursor were delivered, and including again does nothing |
| `SyncCommands.BatchingDoesNotMatter` | crates/attemptdb-capture/src/sync.rs:1775-1795 | two batches leave the device and the server as one batch does |
| `SyncCommands.EmptyUpload` | crates/attemptdb-capture/src/sync.rs:1730-1810 | an upload with nothing due is, in the machine, a run that starts and finishes, with what `StreamUpload` leaves |
| `SyncCommands.SentUpload` | crates/attemptdb-capture/src/sync.rs:1730-1810 | an upload with something due is a run that starts, sends one batch and finishes, with what `StreamUpload` leaves |
| `SyncCommands.StoppedUpload` | crates/attemptdb-capture/src/sync.rs:1730-1810 | one the server stops after any batch is a run that is aborted there, with what `StreamUpload` leaves: the cursor at the last batch taken |
| `SyncCommands.RefusedUpload` | crates/attemptdb-capture/src/sync.rs:1730-1810 | one it refuses at once leaves the server as it was and saves the cursor it started from |
| `SyncCommands.SyncClient.AddPeer` | crates/attempt/src/cmd_sync.rs:1096-1255 | saved, then undone if the handshake fails, in place; the steps of the machine |
| `SyncCommands.SyncClient.Forget` | crates/attempt/src/cmd_sync.rs:611-663 | closed, then undone if refused; the steps of the machine |
| `SyncCommands.SyncClient.SetProfile` | crates/attempt/src/cmd_sync.rs:260-277 | consent is refreshed only when the profile changes, the watermark kept |
| `SyncCommands.SyncClient.ChangePolicy` | crates/attempt/src/cmd_sync.rs:510-565 | the lists change and the consent follows, the watermark kept |
| `SyncCommands.SyncClient.IncludeHistory` | crates/attempt/src/cmd_sync.rs:677-706 | the watermark goes and the cursor goes to 0, bound to the peer's server |
| `SyncCommands.SyncClient.LeavePeer` | crates/attempt/src/cmd_sync.rs:1278-1345 | deletion if asked, then removal unless it is refused, the cursor file kept; the steps of the machine, between which uploads may run |
| `SyncCommands.SyncClient.ScanEvents` | crates/attemptdb-capture/src/sync.rs:1758-1795 | at every exit the server has exactly what was due up to the cursor |
| `SyncCommands.SyncClient.StreamUpload` | crates/attemptdb-capture/src/sync.rs:1730-1810 | however batches fall and whenever the server fails, the server was given exactly what was due up to the saved cursor; a good end covers every event |
| `EventIds.SharesIdExactlyWhen` | crates/attemptdb-adapters/src/common.rs:158-171 | two events share an id if and only if they are the same call in the same slot, or one session id spells out the other's fields |
| `EventIds.TwoCallsOneId` | crates/attemptdb-core/src/ids.rs:44-51 | two different calls with one id |
| `EventIds.SameSlot` | crates/attemptdb-adapters/src/common.rs:137-142 | kinds share a slot exactly when equal or both ends of a call |
| `EventIds.Normaliser.ToolFinished` | crates/attemptdb-adapters/src/claude_code.rs:284-306 | interrupted, or another exit code than 0, turns a finished call into a failed one |
| `EventIds.Normaliser.AssignNaturalId` | crates/attemptdb-adapters/src/claude_code.rs:183-204 | only a tool event with a known session and a call id gets the derived id |
| `EventIds.NormaliseHook` | crates/attemptdb-adapters/src/claude_code.rs:143-162 | the hook's event, built in place, is the one the importers' rule agrees with |
| `EventIds.Ingest` | crates/attemptdb-storage/src/db.rs:825-849 | unique ids, exactly the ids that arrived, and only delivered events |
| `EventIds.OrderDoesNotMatter` | crates/attemptdb-adapters/src/common.rs:144-157 | the same deliveries in any order and repetition leave the same ids, and as many events |
| `EventIds.SameIdIsSameMoment` | crates/attemptdb-adapters/src/claude_code.rs:164-182 | with plain session ids, two deliveries share an id if and only if they are the same moment of the same call |
| `EventIds.OneEventPerMoment` | crates/attemptdb-adapters/src/claude_code.rs:164-182 | one stored event for a named delivery, about the same moment and never another call's; in a known session no other stored event is about it, though channels disagree on the outcome |
| `EventIds.UnknownSessionIsStoredTwice` | crates/attemptdb-adapters/src/transcript/claude_code.rs:684-693 | a hook without a session id and an import that found none are two events for one moment |
| `EventIds.UnknownSessionIsNotMerged` | crates/attemptdb-adapters/src/claude_code.rs:192-194 | without a session id a repeated hook stays two events |
| `Utf8.EncodeIsInjective` | crates/attemptdb-adapters/src/common.rs:1072-1078 | the encoding of section 3 of RFC 3629 has one reading |
| `Utf8.TextPrefixExactlyWhen` | crates/attemptdb-adapters/src/common.rs:1072-1078 | a prefix of a text is text if and only if it ends at a boundary; the rest then is text too |
| `Utf8.BoundaryNear` | crates/attemptdb-adapters/src/common.rs:1072-1078 | a boundary lies at most three octets before any position |
| `Utf8.TruncateUtf8` | crates/attemptdb-adapters/src/common.rs:1072-1078 | the longest prefix within the limit that is text, at most three octets short of what the limit allows |
| `Utf8.BoundedOutput` | crates/attemptdb-adapters/src/common.rs:1028-1043 | never above 64 KiB, changed and flagged exactly when it was |
| `Utf8.TailStart` | crates/attemptdb-adapters/src/signals.rs:49-54 | the first boundary of the last 8 KiB, at most three octets in |
| `Utf8.Tail` | crates/attemptdb-adapters/src/signals.rs:49-55 | text, all of a short output, at most three octets less than 8 KiB of a long one |
| `Otlp.Normalise` | crates/attemptdb-adapters/src/otel.rs:150-254 | succeeds if and only if the payload is well shaped with at most 4096 leaf records; keeps the retained events of the flat list in order; kept, dropped and rejected add up |
| `Otlp.TallyIsComplete` | crates/attemptdb-adapters/src/otel.rs:256-268 | every leaf record is counted once |
| `Otlp.TallyKeeps` | crates/attemptdb-adapters/src/otel.rs:256-268 | what is kept is the retained events of the list, in its order |
| `Otlp.Batch.Append` | crates/attemptdb-adapters/src/otel.rs:256-268 | one leaf more, or a refusal exactly when 4096 are counted |
| `Otlp.Batch.AppendMetric` | crates/attemptdb-adapters/src/otel.rs:177-211 | the data points of every kind in order, or one rejection when no kind is recognised |
| `Otlp.Batch.AppendChildren` | crates/attemptdb-adapters/src/otel.rs:218-250 | the span events of a span, with its attributes |
| `Otlp.Batch.AppendRow` | crates/attemptdb-adapters/src/otel.rs:176-250 | the leaves of one row |
| `Otlp.Batch.AppendScopes` | crates/attemptdb-adapters/src/otel.rs:171-252 | all scopes of a resource, or the error of the first that is not an array |
| `Otlp.Batch.AppendResources` | crates/attemptdb-adapters/src/otel.rs:166-253 | all resources, or the first error |
| `Otlp.ReplayKeepsIds` | crates/attemptdb-adapters/src/otel.rs:418-430 | the same payload under any capture time gives the same events and ids |
| `OtlpRecords.SameIdExactlyWhen` | crates/attemptdb-adapters/src/otel.rs:418-430 | two events share an id if and only if device, provider and signal agree and they come from the same kind of record with the same JSON: resource, scope and record; for a data point the metric's name, unit, kind and temporality, and the point; for a span event the trace, span and its attributes, and the event |
| `OtlpRecords.BatchIdsTellRecordsApart` | crates/attemptdb-adapters/src/otel.rs:150-254 | every two events of a batch come from records of its payload, and share an id only for the same record |
| `OtlpRecords.RowReadsAs` | crates/attemptdb-adapters/src/otel.rs:176-250 | the leaves of a row: a log or a span, then the span's events in order; of a metric the points, kind by kind, or one rejection |
| `OtlpRecords.RowsInOrder` | crates/attemptdb-adapters/src/otel.rs:171-252 | the leaves of rows follow the order of the rows |
| `OtlpRecords.ScopesInOrder` | crates/attemptdb-adapters/src/otel.rs:171-252 | and the order of the scopes |
| `OtlpRecords.ResourcesInOrder` | crates/attemptdb-adapters/src/otel.rs:166-253 | and the order of the resources |
| `OtlpRecords.TimeIsTheFirstStated` | crates/attemptdb-adapters/src/otel.rs:308-334 | the time is the record's own, else that of its attribute, else when it was observed; without any there is no event |
| `OtlpRecords.FirstNamed` | crates/attemptdb-adapters/src/otel.rs:336-349 | looking attributes up under names in order gives the first usable value |
| `OtlpRecords.SessionIsAttributed` | crates/attemptdb-adapters/src/otel.rs:384-400 | the session is the first usable of five attributes, else the provider's placeholder, and the flag tells which |
| `OtlpRecords.SpanEventIsInItsSpansSession` | crates/attemptdb-adapters/src/otel.rs:218-250 | an event of a span is in the session of the span unless it names another |
| `OtlpRecords.NameIsTheFirstGiven` | crates/attemptdb-adapters/src/otel.rs:401-407 | the first usable of the metric's name, the record's event name, three attributes, the record's name and its body, else a fixed name |
| `OtlpRecords.DroppedFamilies` | crates/attemptdb-adapters/src/otel.rs:82-146 | an event is kept if and only if its name is not in the discarded families and it is not a bare span without a session |
| `Ico.LittleRoundTrip` | assets/icon/render.py:154-156 | a number that fits a little-endian field is read back from it |
| `Ico.Dib` | assets/icon/render.py:138-157 | the frame's bytes, or a refusal exactly when a header field cannot hold its number |
| `Ico.PixelIsRecovered` | assets/icon/render.py:148-151 | the four octets at the bottom-up position of pixel (x, y) are its blue, green, red and alpha |
| `Ico.DibFormat` | assets/icon/render.py:154-156 | one plane of 32 bits without compression, and no resolution or palette |
| `Ico.DibLayout` | assets/icon/render.py:152-157 | the size field is the length of the body, mask rows are padded to 4 octets and cover the width, the mask is zero |
| `Ico.WriteEntries` | assets/icon/render.py:175-181 | the entries with the running offset, or a refusal exactly when a size or offset does not fit |
| `Ico.WriteIco` | assets/icon/render.py:160-184 | the file, exactly when every field fits |
| `Ico.ReadBack` | assets/icon/render.py:174-184 | reading by the directory returns every blob; the blobs tile the file after the directory |
| `Ico.IconType` | assets/icon/render.py:174-174 | the file says that it is an icon |
| `Ico.IconEntries` | assets/icon/render.py:176-181 | every entry says one plane of 32 bits and no palette |
| `Ico.FrameKinds` | assets/icon/render.py:166-173 | frames below 256 wide are bitmaps, the others PNG |
| `Ico.WidthSurvivesExactlyWhen` | assets/icon/render.py:176-179 | width and height are read back if and only if they are from 1 to 256 |
| `TestCounts.StripAnsi` | crates/attemptdb-adapters/src/signals.rs:95-117 | the character loop drops exactly the colour sequences |
| `TestCounts.StripLeavesNoEscape` | crates/attemptdb-adapters/src/signals.rs:95-117 | no escape character is left |
| `TestCounts.StripIsIdempotent` | crates/attemptdb-adapters/src/signals.rs:95-117 | stripping twice is stripping once |
| `TestCounts.StripPainted` | crates/attemptdb-adapters/src/signals.rs:95-117 | a line painted with any colour sequences anywhere is given back |
| `TestCounts.ReadCount` | crates/attemptdb-adapters/src/signals.rs:121-150 | the search loop finds what the recursive reading finds |
| `TestCounts.PartOfAWordIsNotCounted` | crates/attemptdb-adapters/src/signals.rs:121-150 | a line that has the word only as the start of longer words has no count of it |
| `TestCounts.GluedNumberIsNotRead` | crates/attemptdb-adapters/src/signals.rs:121-150 | digits that end a text are its number if and only if no letter is glued before them |
| `TestCounts.ReadCargoLine` | crates/attemptdb-adapters/src/signals.rs:160-169 | the three searches read what the round trip is about |
| `TestCounts.CargoReads` | crates/attemptdb-adapters/src/signals.rs:160-169 | any printed summary line is read as its counts, with nothing for one of more than 64 bits |
| `TestCounts.CargoRoundTrip` | crates/attemptdb-adapters/src/signals.rs:160-169 | so counts that fit are read back |
| `TestCounts.ReadTestCounts` | crates/attemptdb-adapters/src/signals.rs:56-92 | the line loop over a tail answers with the totals of its lines |
| `TestCounts.TestCountsAreTheSums` | crates/attemptdb-adapters/src/signals.rs:56-92 | a tail of coloured summary lines among lines no reader knows: the three sums, if they fit 64 bits and are not all zero |
| `TestCounts.OrderOfLinesDoesNotMatter` | crates/attemptdb-adapters/src/signals.rs:56-84 | in any order of the lines |
| `TestCounts.GoTestsAreCounted` | crates/attemptdb-adapters/src/signals.rs:56-92 | an output of `go test -v`, subtests and log lines included: its passes, failures and skips, and no answer if and only if no test ended |
| `TestOutput.CutTail` | crates/attemptdb-adapters/src/signals.rs:49-55 | cutting the octets at the first boundary of the last 8 KiB leaves the longest end of whole characters that fits |
| `TestOutput.ReadOutput` | crates/attemptdb-adapters/src/signals.rs:49-92 | the answer for a whole output is that of the lines of its tail |
| `TestOutput.OutputCountsAreTheSums` | crates/attemptdb-adapters/src/signals.rs:49-92 | an output of any length that ends in summaries that fit the tail: the three sums, if no reader knows the lines before them that are read |

## Assumptions

- `Database`: segment files never change once written and their ids are fresh; segments are not empty.
  The telemetry flag, the zone maps and the facts are modelled from the source, not assumed.
- `ReadService`: a run that "loses no work" has no rewrite that drops a work event. The daemon's writer only
  compacts; the purges that drop events run in the server (crates/attemptdb-server/src/forget.rs:151).
- `Sync`: one command runs at a time; the files are written atomically; the server keeps events by id
  and deletes everything of this device when asked. A batch that is sent is taken whole or not at all.
- `EventIds`: UUIDv5 is injective on the names it hashes. Providers are named without U+001F, as the two
  that derive ids are.
- `WindowsArguments`: arguments hold no NUL; the parser is written from Microsoft's "Parsing C command-line
  arguments".
- Classifier tables, the other runners' line readers, `char::is_alphanumeric`, the timestamp parser, the
  PNG encoder, clocks and server replies are parameters.

## Left out

- Interleaving: the memo of scoped rows, since what a build gives does not depend on it (`ReadService.EngineCache.EngineScoped`).
- Database: provider, kind and exclusion filters and row limits, which a read scope does not set; file I/O, recovery and write-ahead logging.
- ReadService: what a projection computes from its events and when it is judged, `filter_for`, and running the SQL statement on a view; a view is the rows it holds, its key the filter itself.
- Timeline: the text inside a line (names, durations, colours) is the line's own data.
- Sync: inference documents, batch splitting and quarantine, pairing and revocation, the audit event of a consent, name and URL validation.
- SyncHistory.WatermarkNeverDrops: about the sequence watermark; the time beside it may move back with the clock, and decides only for imports.
- SyncPolicy.DueIsDelivered: what an upload sends of an event (content, redaction) by profile.
- EventIds: events that are not about a tool call: hooks give them random ids, Claude transcripts ids made from the entry, Codex rollouts ids derived from the item or the line; and the importers' reconciliation of them.
- Otlp.Normalise: for an ill-shaped payload, which of the errors is reported; the numeric and text attributes copied into an event.
- Rng: floating-point sampling and the bounded ranges built on it.
- TestCounts: the readers of the other runners, beyond the order in which they are asked.
- Ico: drawing the icon and encoding PNG.
- Storage repair, key handling, setup, hooks for other agents, the MCP server and the user interface: orchestration and formatting around what is modelled.
