/**
 The incremental projector behind an unfiltered engine (crates/attemptdb-query/src/cache.rs): it is fed
 the segments it has not seen and the memtable, ignores what it has, and cannot forget. A projection is
 the set of events it was made from; telemetry is in none.
 */
module Projection {
  import opened Database

  /** `fed` holds the segments whose rows were pushed. */
  datatype Projector = Projector(fed: set<nat>, seen: set<Event>)

  const NEW_PROJECTOR := Projector({}, {})

  function WorkOf(rows: seq<Event>): set<Event> {
    set e | e in rows && !e.telemetry
  }

  function ListedIds(segments: seq<Segment>): set<nat> {
    set s | s in segments :: s.id
  }

  /** A segment that was fed is listed no longer. */
  predicate Restarts(p: Projector, r: Refreshed) {
    exists id :: id in p.fed && id !in ListedIds(r.segments)
  }

  function FedSegment(p: Projector, s: Segment): Projector {
    if s.id in p.fed then p else Projector(p.fed + {s.id}, p.seen + WorkOf(s.rows))
  }

  function FedSegments(p: Projector, segments: seq<Segment>): Projector {
    if segments == [] then p else FedSegment(FedSegments(p, segments[..|segments| - 1]), segments[|segments| - 1])
  }

  /** `feed`. */
  function Feed(p: Projector, r: Refreshed): Projector {
    var q := FedSegments(if Restarts(p, r) then NEW_PROJECTOR else p, r.segments);
    q.(seen := q.seen + WorkOf(r.memtable))
  }

  /** What was fed of the files has been seen. */
  predicate Remembers(p: Projector, files: map<nat, seq<Event>>) {
    forall id :: id in p.fed ==> id in files && WorkOf(files[id]) <= p.seen
  }

  lemma WorkOfConcat(a: seq<Event>, b: seq<Event>)
    ensures WorkOf(a + b) == WorkOf(a) + WorkOf(b)
  {
  }

  lemma {:induction false} FedSegmentsEffect(p: Projector, segments: seq<Segment>, files: map<nat, seq<Event>>)
    requires Remembers(p, files) && Listed(segments, files)
    ensures var q := FedSegments(p, segments);
      Remembers(q, files) && q.seen == p.seen + WorkOf(RowsOf(segments))
    decreases |segments|
  {
    if segments != [] {
      var before, last := segments[..|segments| - 1], segments[|segments| - 1];
      FedSegmentsEffect(p, before, files);
      assert segments == before + [last];
      RowsOfSnoc(before, last);
      WorkOfConcat(RowsOf(before), last.rows);
    }
  }

  /** A feed adds the work of what it is given, to what was seen unless it restarts. */
  lemma FeedEffect(p: Projector, r: Refreshed, files: map<nat, seq<Event>>)
    requires Remembers(p, files) && Listed(r.segments, files)
    ensures Remembers(Feed(p, r), files)
    ensures Feed(p, r).seen == (if Restarts(p, r) then {} else p.seen) + WorkOf(AllRows(r))
  {
    FedSegmentsEffect(if Restarts(p, r) then NEW_PROJECTOR else p, r.segments, files);
    WorkOfConcat(RowsOf(r.segments), r.memtable);
  }

  /**
   The projection of an unfiltered engine is of exactly its rows if and only if the feed restarts the
   projector, or everything it had seen is among the rows.
   */
  lemma ProjectionAgreesExactlyWhen(p: Projector, r: Refreshed, files: map<nat, seq<Event>>)
    requires Remembers(p, files) && Listed(r.segments, files)
    ensures Feed(p, r).seen == WorkOf(AllRows(r)) <==> Restarts(p, r) || p.seen <= WorkOf(AllRows(r))
  {
    FeedEffect(p, r, files);
  }

  // ---------------------------------------------------------------------------
  // Writer steps that lose no work
  // ---------------------------------------------------------------------------

  /** What a rewrite replaces is in its outputs: a compaction, or a purge of telemetry. */
  predicate KeepsWork(db: Db, step: DbStep)
    requires DbEnabled(db, step)
  {
    step.Publish? ==>
      WorkOf(RowsOf(db.segments[step.first..step.first + step.count])) <= WorkOf(RowsOf(Written(step.outputs, step.id)))
  }

  function WorkIn(db: Db): set<Event> {
    WorkOf(AllRows(RefreshedOf(db)))
  }

  lemma {:induction false} RowsOfConcat(a: seq<Segment>, b: seq<Segment>)
    ensures RowsOf(a + b) == RowsOf(a) + RowsOf(b)
    decreases |a|
  {
    if a == [] {
      assert a + b == b;
    } else {
      assert (a + b)[1..] == a[1..] + b;
      RowsOfConcat(a[1..], b);
    }
  }

  lemma WorkGrows(db: Db, step: DbStep)
    requires DbEnabled(db, step) && KeepsWork(db, step)
    ensures WorkIn(db) <= WorkIn(DbNext(db, step))
  {
    var now := DbNext(db, step);
    WorkOfConcat(RowsOf(db.segments), db.memtable);
    WorkOfConcat(RowsOf(now.segments), now.memtable);
    match step
    case Ingest(accepted) => WorkOfConcat(db.memtable, accepted);
    case Flush(id) =>
      if db.memtable != [] {
        RowsOfSnoc(db.segments, Segment(id, db.memtable));
        WorkOfConcat(RowsOf(db.segments), db.memtable);
      }
    case Publish(first, count, outputs, id) => RewriteKeepsWork(db.segments, first, count, Written(outputs, id));
  }

  lemma RewriteKeepsWork(segments: seq<Segment>, first: nat, count: nat, written: seq<Segment>)
    requires first + count <= |segments|
    requires WorkOf(RowsOf(segments[first..first + count])) <= WorkOf(RowsOf(written))
    ensures WorkOf(RowsOf(segments)) <= WorkOf(RowsOf(segments[..first] + written + segments[first + count..]))
  {
    var a, b, c := segments[..first], segments[first..first + count], segments[first + count..];
    assert segments == a + b + c;
    ThreeParts(a, b, c);
    ThreeParts(a, written, c);
  }

  lemma ThreeParts(a: seq<Segment>, b: seq<Segment>, c: seq<Segment>)
    ensures WorkOf(RowsOf(a + b + c)) == WorkOf(RowsOf(a)) + WorkOf(RowsOf(b)) + WorkOf(RowsOf(c))
  {
    RowsOfConcat(a + b, c);
    RowsOfConcat(a, b);
    WorkOfConcat(RowsOf(a) + RowsOf(b), RowsOf(c));
    WorkOfConcat(RowsOf(a), RowsOf(b));
  }
}
