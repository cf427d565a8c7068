/**
 What a scope selects, said of the events themselves: each part of a filter narrows the rows by what it
 names, and the answers of the service are the rows so narrowed.
 */
module Scopes {
  import opened Wrappers
  import opened Sorting
  import opened Database
  import opened ReadService

  function InProject(p: nat): Event -> bool {
    (e: Event) => e.project == p
  }

  function InSession(s: nat): Event -> bool {
    (e: Event) => e.session == s
  }

  function From(t: int): Event -> bool {
    (e: Event) => e.observedAt >= t
  }

  function UpTo(t: int): Event -> bool {
    (e: Event) => e.observedAt <= t
  }

  function Captured(): Event -> bool {
    (e: Event) => !e.reconstructed
  }

  lemma {:induction false} FilterTwice<T>(xs: seq<T>, p: T -> bool, q: T -> bool, both: T -> bool)
    requires forall x :: x in xs ==> both(x) == (p(x) && q(x))
    ensures Filter(xs, both) == Filter(Filter(xs, p), q)
    decreases |xs|
  {
    if xs != [] {
      FilterTwice(xs[1..], p, q, both);
      var head := if p(xs[0]) then [xs[0]] else [];
      FilterOfConcat(head, Filter(xs[1..], p), q);
    }
  }

  /** No filter at all selects everything. */
  lemma ScanOfEverything(r: Refreshed)
    ensures Scan(r, EVERYTHING) == AllRows(r)
  {
    FilterKeepsAll(AllRows(r), Matching(EVERYTHING));
  }

  lemma NarrowToProject(r: Refreshed, f: ScanFilter, p: nat)
    ensures Scan(r, f.(project := Some(p))) == Filter(Scan(r, f.(project := None)), InProject(p))
  {
    FilterTwice(AllRows(r), Matching(f.(project := None)), InProject(p), Matching(f.(project := Some(p))));
  }

  lemma NarrowToSession(r: Refreshed, f: ScanFilter, s: nat)
    ensures Scan(r, f.(session := Some(s))) == Filter(Scan(r, f.(session := None)), InSession(s))
  {
    FilterTwice(AllRows(r), Matching(f.(session := None)), InSession(s), Matching(f.(session := Some(s))));
  }

  lemma NarrowToSince(r: Refreshed, f: ScanFilter, t: int)
    ensures Scan(r, f.(since := Some(t))) == Filter(Scan(r, f.(since := None)), From(t))
  {
    FilterTwice(AllRows(r), Matching(f.(since := None)), From(t), Matching(f.(since := Some(t))));
  }

  lemma NarrowToUntil(r: Refreshed, f: ScanFilter, t: int)
    ensures Scan(r, f.(until := Some(t))) == Filter(Scan(r, f.(until := None)), UpTo(t))
  {
    FilterTwice(AllRows(r), Matching(f.(until := None)), UpTo(t), Matching(f.(until := Some(t))));
  }

  lemma NarrowToCaptured(r: Refreshed, f: ScanFilter)
    ensures Scan(r, f.(capturedOnly := true)) == Filter(Scan(r, f.(capturedOnly := false)), Captured())
  {
    FilterTwice(AllRows(r), Matching(f.(capturedOnly := false)), Captured(), Matching(f.(capturedOnly := true)));
  }

  /** The rows narrowed by each part of the filter that is set. */
  function Narrowed(rows: seq<Event>, f: ScanFilter): seq<Event> {
    var a := if f.project.Some? then Filter(rows, InProject(f.project.value)) else rows;
    var b := if f.session.Some? then Filter(a, InSession(f.session.value)) else a;
    var c := if f.since.Some? then Filter(b, From(f.since.value)) else b;
    var d := if f.until.Some? then Filter(c, UpTo(f.until.value)) else c;
    if f.capturedOnly then Filter(d, Captured()) else d
  }

  /** A scan is every row, narrowed. */
  lemma ScanNarrows(r: Refreshed, f: ScanFilter)
    ensures Scan(r, f) == Narrowed(AllRows(r), f)
  {
    var a := EVERYTHING.(project := f.project);
    var b := a.(session := f.session);
    var c := b.(since := f.since);
    var d := c.(until := f.until);
    ScanOfEverything(r);
    if f.project.Some? {
      NarrowToProject(r, a, f.project.value);
    }
    if f.session.Some? {
      NarrowToSession(r, b, f.session.value);
    }
    if f.since.Some? {
      NarrowToSince(r, c, f.since.value);
    }
    if f.until.Some? {
      NarrowToUntil(r, d, f.until.value);
    }
    NarrowToCaptured(r, f);
    StepByStep(f, a, b, c, d);
  }

  lemma StepByStep(f: ScanFilter, a: ScanFilter, b: ScanFilter, c: ScanFilter, d: ScanFilter)
    requires a == EVERYTHING.(project := f.project) && b == a.(session := f.session)
    requires c == b.(since := f.since) && d == c.(until := f.until)
    ensures a.(project := None) == EVERYTHING && b.(session := None) == a && c.(since := None) == b
    ensures d.(until := None) == c && f.(capturedOnly := false) == d
    ensures f.project.None? ==> a == EVERYTHING
    ensures f.session.None? ==> b == a
    ensures f.since.None? ==> c == b
    ensures f.until.None? ==> d == c
    ensures f == if f.capturedOnly then f.(capturedOnly := true) else d
  {
  }

  /** In every run, whatever is answered has the rows of the last refresh that the scope names. */
  lemma AnswerSelects(states: seq<System>, actions: seq<Action>, limit: nat, i: nat, f: ScanFilter, cancelled: bool)
    requires Run(states, actions, limit) && Starts(states[0]) && i < |states|
    ensures Readable(states[i].service)
    ensures var s := states[i].service;
      ReplyTo(s, f, cancelled, limit).Answered? ==>
        && s.latest.Some?
        && ReplyTo(s, f, cancelled, limit).view.rows == Narrowed(AllRows(s.latest.value.refreshed), f)
  {
    RunKeepsInvariant(states, actions, limit, i);
    var s := states[i].service;
    if s.latest.Some? {
      ScanNarrows(s.latest.value.refreshed, f);
    }
  }

  /** A captured-only answer is what hooks captured of the wider one. */
  lemma CapturedOnlyAnswer(states: seq<System>, actions: seq<Action>, limit: nat, i: nat, f: ScanFilter)
    requires Run(states, actions, limit) && Starts(states[0]) && i < |states|
    ensures Readable(states[i].service)
    ensures var s, only, wide := states[i].service, f.(capturedOnly := true), f.(capturedOnly := false);
      ReplyTo(s, only, false, limit).Answered? && ReplyTo(s, wide, false, limit).Answered? ==>
        ReplyTo(s, only, false, limit).view.rows == Filter(ReplyTo(s, wide, false, limit).view.rows, Captured())
  {
    AnswerSelects(states, actions, limit, i, f.(capturedOnly := true), false);
    AnswerSelects(states, actions, limit, i, f.(capturedOnly := false), false);
  }

  /** A request cancelled before its view is built builds none; one whose view is there is answered. */
  lemma CancelledBuildsNothing(s: Service, f: ScanFilter, limit: nat)
    requires Readable(s) && s.latest.Some?
    ensures AfterHandle(s, f, true, limit) == s
    ensures ReplyTo(s, f, true, limit) == if f in s.views then Answered(s.views[f]) else Cancelled
  {
  }

  /**
   A request that is declined is told a number of rows above the limit: no less than the work it asks
   for, and no less than its rows where the estimate covers them.
   */
  lemma DeclinedIsReckoned(s: Service, f: ScanFilter, cancelled: bool, limit: nat)
    requires Readable(s) && s.latest.Some? && s.latest.value.facts == FactsOfRefresh(s.latest.value.refreshed)
    ensures var r := s.latest.value.refreshed;
      ReplyTo(s, f, cancelled, limit).ReadLocally? ==>
        var rows := ReplyTo(s, f, cancelled, limit).about;
        && limit < rows <= |AllRows(r)|
        && Count(AllRows(r), SelectedWork(f)) <= rows
        && (Covered(r, f) ==> |Scan(r, f)| <= rows)
  {
    var r := s.latest.value.refreshed;
    ScopeRowsCoverExactlyWhen(r, f);
    EstimateIsWithinAll(r.segments, f);
  }

  lemma {:induction false} EstimateIsWithinAll(segments: seq<Segment>, f: ScanFilter)
    requires NonEmptySegments(segments)
    ensures RowsToRead(segments, f) <= |RowsOf(segments)|
    decreases |segments|
  {
    if segments != [] {
      EstimateIsWithinAll(segments[1..], f);
    }
  }

  /** An idle tick leaves nothing to answer from, any other everything. */
  lemma TickForgets(s: Service, f: ScanFilter, limit: nat)
    requires Readable(s)
    ensures Ticked(s, false) == s
    ensures Readable(Ticked(s, true)) && ReplyTo(Ticked(s, true), f, false, limit) == NoRefresh
    ensures s.latest.Some? ==> Ticked(s, true).views == map[] && Ticked(s, true).projector.seen == {}
  {
  }

  // ---------------------------------------------------------------------------
  // The database
  // ---------------------------------------------------------------------------

  /** The zone maps let a segment through exactly when it has a row from `since` on, one up to `until`, and one of the project. */
  lemma MayMatchExactlyWhen(f: ScanFilter, rows: seq<Event>)
    requires rows != []
    ensures MayMatch(f, rows) <==>
      && (f.since.Some? ==> exists e :: e in rows && e.observedAt >= f.since.value)
      && (f.until.Some? ==> exists e :: e in rows && e.observedAt <= f.until.value)
      && (f.project.Some? ==> exists e :: e in rows && e.project == f.project.value)
  {
    var last := MaxObservedIsOne(rows);
    var first := MinObservedIsOne(rows);
  }

  lemma {:induction false} MaxObservedIsOne(rows: seq<Event>) returns (e: Event)
    requires rows != []
    ensures e in rows && e.observedAt == MaxObserved(rows)
    decreases |rows|
  {
    e := rows[0];
    if |rows| > 1 && rows[0].observedAt <= MaxObserved(rows[1..]) {
      e := MaxObservedIsOne(rows[1..]);
    }
  }

  lemma {:induction false} MinObservedIsOne(rows: seq<Event>) returns (e: Event)
    requires rows != []
    ensures e in rows && e.observedAt == MinObserved(rows)
    decreases |rows|
  {
    e := rows[0];
    if |rows| > 1 && rows[0].observedAt >= MinObserved(rows[1..]) {
      e := MinObservedIsOne(rows[1..]);
    }
  }

  /** What is written is read: an ingest adds its events behind all others, a flush changes no row. */
  lemma WritesAreRead(db: Db, accepted: seq<Event>, id: nat)
    requires FreshIds(db, id, 1)
    ensures AllRows(RefreshedOf(DbNext(db, Ingest(accepted)))) == AllRows(RefreshedOf(db)) + accepted
    ensures AllRows(RefreshedOf(DbNext(db, Flush(id)))) == AllRows(RefreshedOf(db))
  {
    RowsOfSnoc(db.segments, Segment(id, db.memtable));
  }
}
