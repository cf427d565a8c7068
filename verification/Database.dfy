/**
 The event database as its readers see it: the manifest's segments, the memtable, and the steps of
 the single writer (crates/attemptdb-storage/src/db.rs); what a refresh copies out of it; the scan
 filter; and the per-project and per-session counts of crates/attemptdb-query/src/facts.rs.
 */
module Database {
  import opened Wrappers
  import opened Sorting

  datatype Event = Event(id: nat, project: nat, session: nat, observedAt: int, reconstructed: bool, telemetry: bool)

  /** A segment file never changes once it is written. */
  datatype Segment = Segment(id: nat, rows: seq<Event>)

  /** `files` is every segment file ever written, listed in the manifest or not. */
  datatype Db = Db(generation: nat, segments: seq<Segment>, memtable: seq<Event>, files: map<nat, seq<Event>>)

  datatype Fingerprint = Fingerprint(generation: nat, segments: nat, memtableRows: nat)

  function FingerprintOf(db: Db): Fingerprint {
    Fingerprint(db.generation, |db.segments|, |db.memtable|)
  }

  predicate Listed(segments: seq<Segment>, files: map<nat, seq<Event>>) {
    forall i :: 0 <= i < |segments| ==>
      segments[i].rows != [] && segments[i].id in files && files[segments[i].id] == segments[i].rows
  }

  predicate ValidDb(db: Db) {
    Listed(db.segments, db.files)
  }

  // ---------------------------------------------------------------------------
  // The writer
  // ---------------------------------------------------------------------------

  /**
   `Ingest` appends the accepted events to the memtable. `Flush` moves the memtable into a segment.
   `Publish` is a compaction or one rewrite of a purge: `count` listed segments from `first` are
   replaced by new ones. `id` is the first of the fresh segment ids.
   */
  datatype DbStep =
    | Ingest(accepted: seq<Event>)
    | Flush(id: nat)
    | Publish(first: nat, count: nat, outputs: seq<seq<Event>>, id: nat)

  predicate FreshIds(db: Db, id: nat, count: nat) {
    forall k :: id <= k < id + count ==> k !in db.files
  }

  predicate DbEnabled(db: Db, step: DbStep) {
    match step
    case Ingest(_) => true
    case Flush(id) => FreshIds(db, id, 1)
    case Publish(first, count, outputs, id) =>
      && first + count <= |db.segments| && count > 0
      && (forall i :: 0 <= i < |outputs| ==> outputs[i] != [])
      && FreshIds(db, id, |outputs|)
  }

  function Written(outputs: seq<seq<Event>>, id: nat): (segments: seq<Segment>)
    ensures |segments| == |outputs|
    ensures forall i :: 0 <= i < |segments| ==> segments[i] == Segment(id + i, outputs[i])
  {
    seq(|outputs|, i requires 0 <= i < |outputs| => Segment(id + i, outputs[i]))
  }

  predicate Among(k: nat, id: nat, count: nat) {
    id <= k < id + count
  }

  function FilesOf(outputs: seq<seq<Event>>, id: nat): map<nat, seq<Event>> {
    map k | id <= k < id + |outputs| && Among(k, id, |outputs|) :: outputs[k - id]
  }

  function DbNext(db: Db, step: DbStep): Db
    requires DbEnabled(db, step)
  {
    match step
    case Ingest(accepted) => db.(memtable := db.memtable + accepted)
    case Flush(id) =>
      if db.memtable == [] then db
      else db.(generation := db.generation + 1,
               segments := db.segments + [Segment(id, db.memtable)],
               memtable := [],
               files := db.files[id := db.memtable])
    case Publish(first, count, outputs, id) =>
      db.(generation := db.generation + 1,
          segments := db.segments[..first] + Written(outputs, id) + db.segments[first + count..],
          files := db.files + FilesOf(outputs, id))
  }

  /** `now` is `past` after some steps of the writer, as far as a reader can tell. */
  predicate Since(past: Db, now: Db) {
    && past.generation <= now.generation
    && (past.generation == now.generation ==> past.segments == now.segments && past.memtable <= now.memtable)
    && (forall id :: id in past.files ==> id in now.files && now.files[id] == past.files[id])
  }

  lemma DbStepKeepsValid(db: Db, step: DbStep)
    requires ValidDb(db) && DbEnabled(db, step)
    ensures ValidDb(DbNext(db, step))
    ensures Since(db, DbNext(db, step))
  {
    var now := DbNext(db, step);
    if step.Publish? {
      forall i | 0 <= i < |now.segments|
        ensures now.segments[i].rows != [] && now.segments[i].id in now.files
             && now.files[now.segments[i].id] == now.segments[i].rows
      {
        var s := now.segments[i];
        var k := i - step.first;
        if i < step.first {
          assert s == db.segments[i];
        } else if k < |step.outputs| {
          assert s == Segment(step.id + k, step.outputs[k]);
        } else {
          assert s == db.segments[k - |step.outputs| + step.first + step.count];
        }
      }
    }
  }

  predicate DbRun(states: seq<Db>, steps: seq<DbStep>) {
    && |states| == |steps| + 1
    && forall i :: 0 <= i < |steps| ==> DbEnabled(states[i], steps[i]) && states[i + 1] == DbNext(states[i], steps[i])
  }

  lemma {:induction false} RunIsSince(states: seq<Db>, steps: seq<DbStep>, i: nat, j: nat)
    requires DbRun(states, steps) && ValidDb(states[0]) && i <= j < |states|
    ensures ValidDb(states[j]) && Since(states[i], states[j])
    decreases j
  {
    if i < j {
      RunIsSince(states, steps, i, j - 1);
      DbStepKeepsValid(states[j - 1], steps[j - 1]);
    } else if j > 0 {
      RunIsSince(states, steps, i - 1, j - 1);
      DbStepKeepsValid(states[j - 1], steps[j - 1]);
    }
  }

  /** Within one run of the writer, equal fingerprints mean equal contents. */
  lemma FingerprintIdentifiesContents(states: seq<Db>, steps: seq<DbStep>, i: nat, j: nat)
    requires DbRun(states, steps) && ValidDb(states[0]) && i <= j < |states|
    requires FingerprintOf(states[i]) == FingerprintOf(states[j])
    ensures states[i].segments == states[j].segments && states[i].memtable == states[j].memtable
  {
    RunIsSince(states, steps, i, j);
  }

  // ---------------------------------------------------------------------------
  // Scanning
  // ---------------------------------------------------------------------------

  /** The parts of a scan filter a read request can set. */
  datatype ScanFilter = ScanFilter(
    project: Option<nat>, session: Option<nat>, since: Option<int>, until: Option<int>, capturedOnly: bool)

  const EVERYTHING := ScanFilter(None, None, None, None, false)

  predicate Unfiltered(f: ScanFilter) {
    f.project.None? && f.session.None? && f.since.None? && f.until.None? && !f.capturedOnly
  }

  predicate Matches(f: ScanFilter, e: Event) {
    && (f.project.Some? ==> e.project == f.project.value)
    && (f.session.Some? ==> e.session == f.session.value)
    && (f.since.Some? ==> e.observedAt >= f.since.value)
    && (f.until.Some? ==> e.observedAt <= f.until.value)
    && (f.capturedOnly ==> !e.reconstructed)
  }

  function Matching(f: ScanFilter): Event -> bool {
    (e: Event) => Matches(f, e)
  }

  function MaxObserved(rows: seq<Event>): (t: int)
    requires rows != []
    ensures forall e :: e in rows ==> e.observedAt <= t
  {
    if |rows| == 1 then rows[0].observedAt
    else
      var t := MaxObserved(rows[1..]);
      if rows[0].observedAt > t then rows[0].observedAt else t
  }

  function MinObserved(rows: seq<Event>): (t: int)
    requires rows != []
    ensures forall e :: e in rows ==> e.observedAt >= t
  {
    if |rows| == 1 then rows[0].observedAt
    else
      var t := MinObserved(rows[1..]);
      if rows[0].observedAt < t then rows[0].observedAt else t
  }

  /** `segment_may_match`, judged by the zone maps the writer derives from the rows. */
  predicate MayMatch(f: ScanFilter, rows: seq<Event>)
    requires rows != []
  {
    && (f.since.Some? ==> MaxObserved(rows) >= f.since.value)
    && (f.until.Some? ==> MinObserved(rows) <= f.until.value)
    && (f.project.Some? ==> f.project.value in set e | e in rows :: e.project)
  }

  /** The zone maps never rule out a segment that holds a matching row. */
  lemma MayMatchIsSound(f: ScanFilter, rows: seq<Event>)
    requires rows != []
    ensures !MayMatch(f, rows) ==> Filter(rows, Matching(f)) == []
  {
    var kept := Filter(rows, Matching(f));
    if kept != [] {
      assert kept[0] in rows && Matches(f, kept[0]);
    }
  }

  /** What a refresh hands out: the segments listed and a copy of the memtable. */
  datatype Refreshed = Refreshed(fingerprint: Fingerprint, segments: seq<Segment>, memtable: seq<Event>)

  function RefreshedOf(db: Db): Refreshed {
    Refreshed(FingerprintOf(db), db.segments, db.memtable)
  }

  function RowsOf(segments: seq<Segment>): seq<Event> {
    if segments == [] then [] else segments[0].rows + RowsOf(segments[1..])
  }

  /** Every row a refresh covers, in stream order. */
  function AllRows(r: Refreshed): seq<Event> {
    RowsOf(r.segments) + r.memtable
  }

  /** What a freshly built engine over the scope holds. */
  function Scan(r: Refreshed, f: ScanFilter): seq<Event> {
    Filter(AllRows(r), Matching(f))
  }

  predicate NonEmptySegments(segments: seq<Segment>) {
    forall i :: 0 <= i < |segments| ==> segments[i].rows != []
  }

  // ---------------------------------------------------------------------------
  // Facts
  // ---------------------------------------------------------------------------

  /** Events per project and per session; telemetry is in neither (`push` returns before them). */
  datatype StreamFacts = StreamFacts(projects: map<nat, nat>, sessions: map<nat, nat>)

  const NO_FACTS := StreamFacts(map[], map[])

  function Bump(m: map<nat, nat>, k: nat, n: nat): map<nat, nat> {
    m[k := (if k in m then m[k] else 0) + n]
  }

  function Push(facts: StreamFacts, e: Event): StreamFacts {
    if e.telemetry then facts
    else StreamFacts(Bump(facts.projects, e.project, 1), Bump(facts.sessions, e.session, 1))
  }

  /** `push` for each row in turn. */
  function FactsOf(rows: seq<Event>): StreamFacts {
    if rows == [] then NO_FACTS else Push(FactsOf(rows[..|rows| - 1]), rows[|rows| - 1])
  }

  function AddCounts(a: map<nat, nat>, b: map<nat, nat>): map<nat, nat> {
    map k | k in a.Keys + b.Keys :: (if k in a then a[k] else 0) + (if k in b then b[k] else 0)
  }

  /** `absorb`. */
  function Absorb(a: StreamFacts, b: StreamFacts): StreamFacts {
    StreamFacts(AddCounts(a.projects, b.projects), AddCounts(a.sessions, b.sessions))
  }

  /** The facts of a refresh: each segment's, merged in order, then the memtable's. */
  function MergedFacts(segments: seq<Segment>): StreamFacts {
    if segments == [] then NO_FACTS
    else Absorb(MergedFacts(segments[..|segments| - 1]), FactsOf(segments[|segments| - 1].rows))
  }

  function FactsOfRefresh(r: Refreshed): StreamFacts {
    var merged := MergedFacts(r.segments);
    if r.memtable == [] then merged else Absorb(merged, FactsOf(r.memtable))
  }

  function Work(project: nat): Event -> bool {
    (e: Event) => !e.telemetry && e.project == project
  }

  function SessionWork(session: nat): Event -> bool {
    (e: Event) => !e.telemetry && e.session == session
  }

  function Count(rows: seq<Event>, q: Event -> bool): nat {
    |Filter(rows, q)|
  }

  function At(m: map<nat, nat>, k: nat): nat {
    if k in m then m[k] else 0
  }

  /** `m` counts, for every key, the rows `of` that key; a key with none is absent. */
  ghost predicate Counts(m: map<nat, nat>, rows: seq<Event>, of: nat -> Event -> bool) {
    && (forall k: nat :: At(m, k) == Count(rows, of(k)))
    && (forall k :: k in m ==> m[k] > 0)
  }

  /** What the facts say, in terms of the rows: the count of the ones that are not telemetry. */
  ghost predicate Tallies(facts: StreamFacts, rows: seq<Event>) {
    Counts(facts.projects, rows, Work) && Counts(facts.sessions, rows, SessionWork)
  }

  lemma CountOfConcat(a: seq<Event>, b: seq<Event>, q: Event -> bool)
    ensures Count(a + b, q) == Count(a, q) + Count(b, q)
  {
    FilterOfConcat(a, b, q);
  }

  lemma CountOfSnoc(a: seq<Event>, e: Event, q: Event -> bool)
    ensures Count(a + [e], q) == Count(a, q) + if q(e) then 1 else 0
  {
    CountOfConcat(a, [e], q);
    assert [e][1..] == [];
  }

  lemma BumpCounts(m: map<nat, nat>, rows: seq<Event>, e: Event, of: nat -> Event -> bool, key: nat)
    requires Counts(m, rows, of)
    requires forall k: nat :: of(k)(e) <==> k == key
    ensures Counts(Bump(m, key, 1), rows + [e], of)
  {
    forall k: nat
      ensures At(Bump(m, key, 1), k) == Count(rows + [e], of(k))
    {
      assert At(m, k) == Count(rows, of(k));
      CountOfSnoc(rows, e, of(k));
    }
  }

  lemma SkipCounts(m: map<nat, nat>, rows: seq<Event>, e: Event, of: nat -> Event -> bool)
    requires Counts(m, rows, of)
    requires forall k: nat :: !of(k)(e)
    ensures Counts(m, rows + [e], of)
  {
    forall k: nat
      ensures At(m, k) == Count(rows + [e], of(k))
    {
      assert At(m, k) == Count(rows, of(k));
      CountOfSnoc(rows, e, of(k));
    }
  }

  lemma {:induction false} FactsTally(rows: seq<Event>)
    ensures Tallies(FactsOf(rows), rows)
    decreases |rows|
  {
    if rows != [] {
      var n := |rows| - 1;
      var facts, e := FactsOf(rows[..n]), rows[n];
      FactsTally(rows[..n]);
      assert rows == rows[..n] + [e];
      if e.telemetry {
        SkipCounts(facts.projects, rows[..n], e, Work);
        SkipCounts(facts.sessions, rows[..n], e, SessionWork);
      } else {
        BumpCounts(facts.projects, rows[..n], e, Work, e.project);
        BumpCounts(facts.sessions, rows[..n], e, SessionWork, e.session);
      }
    }
  }

  lemma AddCountsCounts(m: map<nat, nat>, a: seq<Event>, n: map<nat, nat>, b: seq<Event>, of: nat -> Event -> bool)
    requires Counts(m, a, of) && Counts(n, b, of)
    ensures Counts(AddCounts(m, n), a + b, of)
  {
    forall k: nat
      ensures At(AddCounts(m, n), k) == Count(a + b, of(k))
    {
      assert At(m, k) == Count(a, of(k)) && At(n, k) == Count(b, of(k));
      CountOfConcat(a, b, of(k));
    }
  }

  lemma AbsorbTallies(f: StreamFacts, a: seq<Event>, g: StreamFacts, b: seq<Event>)
    requires Tallies(f, a) && Tallies(g, b)
    ensures Tallies(Absorb(f, g), a + b)
  {
    AddCountsCounts(f.projects, a, g.projects, b, Work);
    AddCountsCounts(f.sessions, a, g.sessions, b, SessionWork);
  }

  lemma {:induction false} RowsOfSnoc(segments: seq<Segment>, s: Segment)
    ensures RowsOf(segments + [s]) == RowsOf(segments) + s.rows
    decreases |segments|
  {
    if segments == [] {
      assert [s][1..] == [];
    } else {
      assert (segments + [s])[1..] == segments[1..] + [s];
      RowsOfSnoc(segments[1..], s);
    }
  }

  lemma {:induction false} MergedFactsTally(segments: seq<Segment>)
    ensures Tallies(MergedFacts(segments), RowsOf(segments))
    decreases |segments|
  {
    if segments != [] {
      var n := |segments| - 1;
      MergedFactsTally(segments[..n]);
      FactsTally(segments[n].rows);
      AbsorbTallies(MergedFacts(segments[..n]), RowsOf(segments[..n]), FactsOf(segments[n].rows), segments[n].rows);
      assert segments == segments[..n] + [segments[n]];
      RowsOfSnoc(segments[..n], segments[n]);
    }
  }

  /** Merging per segment counts the same as counting the whole stream. */
  lemma RefreshFactsTally(r: Refreshed)
    ensures Tallies(FactsOfRefresh(r), AllRows(r))
  {
    MergedFactsTally(r.segments);
    if r.memtable == [] {
      assert AllRows(r) == RowsOf(r.segments);
    } else {
      FactsTally(r.memtable);
      AbsorbTallies(MergedFacts(r.segments), RowsOf(r.segments), FactsOf(r.memtable), r.memtable);
    }
  }
}
