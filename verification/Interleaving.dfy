/**
 The read service with its locks taken into account. `handle` runs beside the writer thread in four
 steps, each under one lock: it copies the last refresh, looks its scope up, builds a view without
 holding `latest`, and inserts it. `refresh` and `tick` each change `latest` and then clear the views;
 `refresh` holds the `latest` and `cache` locks over both, `tick` does not, and clears the cache last.
 */
module Interleaving {
  import opened Wrappers
  import opened Sorting
  import opened Database
  import opened Projection
  import opened ReadService

  /** A view, with the refresh it was built from. */
  datatype Built = Built(source: Refreshed, rows: seq<Event>, projected: set<Event>)

  function BuiltFrom(p: Projector, r: Refreshed, f: ScanFilter): Built {
    var view := ViewOf(p, r, f);
    Built(r, view.rows, view.projected)
  }

  /** Where one `handle` call is. */
  datatype Handler =
    | Copied(source: Refreshed, filter: ScanFilter)
    | Missed(source: Refreshed, filter: ScanFilter)
    | Holding(filter: ScanFilter, view: Built)
    | Finished(filter: ScanFilter, view: Built)
    | Failed

  /** Where the writer thread is: between calls, about to clear the views, or about to clear the cache. */
  datatype Writer = AtRest | Clearing(holdsLocks: bool) | ClearingCache

  /**
   The last two fields are history. `straddled` holds the scopes whose view was last put there by a
   handle whose copy was no longer the last refresh; `seen` holds every refresh of the run.
   */
  datatype State = State(
    db: Db,
    latest: Option<Refreshed>,
    views: map<ScanFilter, Built>,
    projector: Projector,
    writer: Writer,
    handlers: map<nat, Handler>,
    straddled: set<ScanFilter>,
    seen: map<Fingerprint, Refreshed>)

  datatype Action =
    | Write(step: DbStep)
    | RefreshLatest
    | TickLatest(idle: bool)
    | ClearViews
    | ClearCache
    | Begin(h: nat, filter: ScanFilter)
    | LookUp(h: nat)
    | Build(h: nat, cancelled: bool)
    | Insert(h: nat)

  predicate Enabled(s: State, a: Action) {
    match a
    case Write(step) => s.writer.AtRest? && DbEnabled(s.db, step)
    case RefreshLatest => s.writer.AtRest?
    case TickLatest(_) => s.writer.AtRest?
    case ClearViews => s.writer.Clearing?
    case ClearCache => s.writer.ClearingCache?
    case Begin(h, _) => h !in s.handlers && !(s.writer.Clearing? && s.writer.holdsLocks)
    case LookUp(h) => h in s.handlers && s.handlers[h].Copied?
    case Build(h, _) =>
      && h in s.handlers && s.handlers[h].Missed? && NonEmptySegments(s.handlers[h].source.segments)
      && !(s.writer.Clearing? && s.writer.holdsLocks)
    case Insert(h) => h in s.handlers && s.handlers[h].Holding?
  }

  /** The last refresh is the one the copy was taken from, as far as its fingerprint says. */
  predicate UpToDate(s: State, source: Refreshed) {
    s.latest.Some? && s.latest.value.fingerprint == source.fingerprint
  }

  function Next(s: State, a: Action, limit: nat): State
    requires Enabled(s, a)
  {
    match a
    case Write(step) => s.(db := DbNext(s.db, step))
    case RefreshLatest =>
      if s.latest.Some? && s.latest.value.fingerprint == FingerprintOf(s.db) then s
      else s.(latest := Some(RefreshedOf(s.db)), writer := Clearing(true),
              seen := s.seen[FingerprintOf(s.db) := RefreshedOf(s.db)])
    case TickLatest(idle) =>
      if idle && s.latest.Some? then s.(latest := None, writer := Clearing(false)) else s
    case ClearViews =>
      s.(views := map[], straddled := {}, writer := if s.writer.holdsLocks then AtRest else ClearingCache)
    case ClearCache => s.(projector := NEW_PROJECTOR, writer := AtRest)
    case Begin(h, f) =>
      s.(handlers := s.handlers[h := if s.latest.Some? then Copied(s.latest.value, f) else Failed])
    case LookUp(h) =>
      var c := s.handlers[h];
      s.(handlers := s.handlers[h :=
           if c.filter in s.views then Finished(c.filter, s.views[c.filter]) else Missed(c.source, c.filter)])
    case Build(h, cancelled) =>
      var c := s.handlers[h];
      if cancelled || ScopeRows(c.source, FactsOfRefresh(c.source), c.filter) > limit then
        s.(handlers := s.handlers[h := Failed])
      else
        s.(handlers := s.handlers[h := Holding(c.filter, BuiltFrom(s.projector, c.source, c.filter))],
           projector := ProjectorAfter(s.projector, c.source, c.filter))
    case Insert(h) =>
      var c := s.handlers[h];
      s.(views := s.views[c.filter := c.view],
         handlers := s.handlers[h := Finished(c.filter, c.view)],
         straddled := if UpToDate(s, c.view.source) then s.straddled - {c.filter} else s.straddled + {c.filter})
  }

  predicate Run(states: seq<State>, actions: seq<Action>, limit: nat) {
    && |states| == |actions| + 1
    && forall i :: 0 <= i < |actions| ==>
         Enabled(states[i], actions[i]) && states[i + 1] == Next(states[i], actions[i], limit)
  }

  predicate Starts(s: State) {
    && ValidDb(s.db) && s.latest.None? && s.views == map[] && s.projector == NEW_PROJECTOR
    && s.writer.AtRest? && s.handlers == map[]
    && s.straddled == {} && s.seen == map[]
  }

  // ---------------------------------------------------------------------------
  // What every interleaving keeps
  // ---------------------------------------------------------------------------

  predicate Known(r: Refreshed, seen: map<Fingerprint, Refreshed>) {
    r.fingerprint in seen && seen[r.fingerprint] == r && NonEmptySegments(r.segments)
  }

  /** The rows of one past state of the database, complete for the scope and within the limit. */
  predicate Sound(b: Built, f: ScanFilter, seen: map<Fingerprint, Refreshed>, limit: nat) {
    && Known(b.source, seen)
    && b.rows == Scan(b.source, f)
    && ScopeRows(b.source, FactsOfRefresh(b.source), f) <= limit
  }

  predicate HandlerSound(h: Handler, seen: map<Fingerprint, Refreshed>, limit: nat) {
    match h
    case Copied(source, _) => Known(source, seen)
    case Missed(source, _) => Known(source, seen)
    case Holding(f, b) => Sound(b, f, seen, limit)
    case Finished(f, b) => Sound(b, f, seen, limit)
    case Failed => true
  }

  /** Every refresh of the run is a copy of some past database, found under its fingerprint. */
  predicate SeenSound(seen: map<Fingerprint, Refreshed>, db: Db) {
    forall fp :: fp in seen ==> seen[fp].fingerprint == fp && CopiedFrom(seen[fp], db)
  }

  /** Unless a clear is due, a view is up to date exactly when the handle that put it there did not straddle. */
  predicate Settled(s: State) {
    && s.straddled <= s.views.Keys
    && (!s.writer.Clearing? ==>
          forall f :: f in s.views ==> (f in s.straddled <==> !UpToDate(s, s.views[f].source)))
  }

  ghost predicate Invariant(s: State, limit: nat) {
    && ValidDb(s.db)
    && SeenSound(s.seen, s.db)
    && (s.latest.Some? ==> Known(s.latest.value, s.seen))
    && (forall f :: f in s.views ==> Sound(s.views[f], f, s.seen, limit))
    && (forall h :: h in s.handlers ==> HandlerSound(s.handlers[h], s.seen, limit))
    && Remembers(s.projector, s.db.files)
    && Settled(s)
  }

  lemma WriteKeepsInvariant(s: State, step: DbStep, limit: nat)
    requires Invariant(s, limit) && Enabled(s, Action.Write(step))
    ensures Invariant(Next(s, Action.Write(step), limit), limit)
  {
    DbStepKeepsValid(s.db, step);
    forall fp | fp in s.seen
      ensures CopiedFrom(s.seen[fp], DbNext(s.db, step))
    {
      CopySurvivesWrite(s.seen[fp], s.db, step);
    }
  }

  /** Refreshing again under a known fingerprint copies what was copied then. */
  lemma RefreshKeepsSeen(s: State, limit: nat)
    requires Invariant(s, limit)
    ensures var fp := FingerprintOf(s.db);
      && (fp in s.seen ==> s.seen[fp] == RefreshedOf(s.db))
      && SeenSound(s.seen[fp := RefreshedOf(s.db)], s.db)
      && Known(RefreshedOf(s.db), s.seen[fp := RefreshedOf(s.db)])
  {
    var fp := FingerprintOf(s.db);
    if fp in s.seen {
      CopyIsCurrent(s.seen[fp], s.db);
    }
  }

  lemma HandlerSurvivesRefresh(h: Handler, seen: map<Fingerprint, Refreshed>, r: Refreshed, limit: nat)
    requires HandlerSound(h, seen, limit)
    requires r.fingerprint in seen ==> seen[r.fingerprint] == r
    ensures HandlerSound(h, seen[r.fingerprint := r], limit)
  {
  }

  lemma RefreshKeepsInvariant(s: State, limit: nat)
    requires Invariant(s, limit) && Enabled(s, RefreshLatest)
    ensures Invariant(Next(s, RefreshLatest, limit), limit)
  {
    RefreshKeepsSeen(s, limit);
    var n, r := Next(s, RefreshLatest, limit), RefreshedOf(s.db);
    if n != s {
      forall h | h in n.handlers
        ensures HandlerSound(n.handlers[h], n.seen, limit)
      {
        HandlerSurvivesRefresh(s.handlers[h], s.seen, r, limit);
      }
      forall f | f in n.views
        ensures Sound(n.views[f], f, n.seen, limit)
      {
        HandlerSurvivesRefresh(Finished(f, s.views[f]), s.seen, r, limit);
      }
    }
  }

  lemma WriterKeepsInvariant(s: State, a: Action, limit: nat)
    requires Invariant(s, limit) && Enabled(s, a) && (a.TickLatest? || a.ClearViews? || a.ClearCache?)
    ensures Invariant(Next(s, a, limit), limit)
  {
  }

  /** A step that only moves one handle on. */
  lemma HandlerMoves(s: State, h: nat, c: Handler, limit: nat)
    requires Invariant(s, limit) && HandlerSound(c, s.seen, limit)
    ensures Invariant(s.(handlers := s.handlers[h := c]), limit)
  {
    var n := s.(handlers := s.handlers[h := c]);
    assert Settled(n) by {
      assert forall source :: UpToDate(n, source) <==> UpToDate(s, source);
    }
  }

  lemma HandlerKeepsInvariant(s: State, a: Action, limit: nat)
    requires Invariant(s, limit) && Enabled(s, a) && (a.Begin? || a.LookUp?)
    ensures Invariant(Next(s, a, limit), limit)
  {
    var n := Next(s, a, limit);
    assert HandlerSound(n.handlers[a.h], s.seen, limit) by {
      if !a.Begin? {
        assert HandlerSound(s.handlers[a.h], s.seen, limit);
      }
    }
    HandlerMoves(s, a.h, n.handlers[a.h], limit);
  }

  lemma BuildKeepsInvariant(s: State, a: Action, limit: nat)
    requires Invariant(s, limit) && Enabled(s, a) && a.Build?
    ensures Invariant(Next(s, a, limit), limit)
  {
    var c, n := s.handlers[a.h], Next(s, a, limit);
    assert HandlerSound(c, s.seen, limit);
    assert HandlerSound(n.handlers[a.h], s.seen, limit);
    HandlerMoves(s, a.h, n.handlers[a.h], limit);
    FeedEffect(s.projector, c.source, s.db.files);
    ProjectorMoves(s.(handlers := n.handlers), n.projector, limit);
  }

  lemma ProjectorMoves(s: State, p: Projector, limit: nat)
    requires Invariant(s, limit) && Remembers(p, s.db.files)
    ensures Invariant(s.(projector := p), limit)
  {
    var n := s.(projector := p);
    assert Settled(n) by {
      assert forall source :: UpToDate(n, source) <==> UpToDate(s, source);
    }
  }

  lemma InsertKeepsSettled(s: State, h: nat, limit: nat)
    requires Settled(s) && Enabled(s, Insert(h))
    ensures Settled(Next(s, Insert(h), limit))
  {
    var c, n := s.handlers[h], Next(s, Insert(h), limit);
    forall f | f in n.views && !n.writer.Clearing?
      ensures f in n.straddled <==> !UpToDate(n, n.views[f].source)
    {
      if f != c.filter {
        assert f in s.views;
      }
    }
  }

  lemma InsertKeepsInvariant(s: State, h: nat, limit: nat)
    requires Invariant(s, limit) && Enabled(s, Insert(h))
    ensures Invariant(Next(s, Insert(h), limit), limit)
  {
    InsertKeepsSettled(s, h, limit);
    var c, n := s.handlers[h], Next(s, Insert(h), limit);
    assert Sound(c.view, c.filter, s.seen, limit) by {
      assert HandlerSound(c, s.seen, limit);
    }
    forall f | f in n.views
      ensures Sound(n.views[f], f, n.seen, limit)
    {
    }
    forall k | k in n.handlers
      ensures HandlerSound(n.handlers[k], n.seen, limit)
    {
    }
  }

  lemma StepKeepsInvariant(s: State, a: Action, limit: nat)
    requires Invariant(s, limit) && Enabled(s, a)
    ensures Invariant(Next(s, a, limit), limit)
  {
    match a
    case Write(step) => WriteKeepsInvariant(s, step, limit);
    case RefreshLatest => RefreshKeepsInvariant(s, limit);
    case TickLatest(_) => WriterKeepsInvariant(s, a, limit);
    case ClearViews => WriterKeepsInvariant(s, a, limit);
    case ClearCache => WriterKeepsInvariant(s, a, limit);
    case Begin(_, _) => HandlerKeepsInvariant(s, a, limit);
    case LookUp(_) => HandlerKeepsInvariant(s, a, limit);
    case Build(_, _) => BuildKeepsInvariant(s, a, limit);
    case Insert(h) => InsertKeepsInvariant(s, h, limit);
  }

  lemma {:induction false} RunKeepsInvariant(states: seq<State>, actions: seq<Action>, limit: nat, i: nat)
    requires Run(states, actions, limit) && Starts(states[0]) && i < |states|
    ensures Invariant(states[i], limit)
    decreases i
  {
    if i > 0 {
      RunKeepsInvariant(states, actions, limit, i - 1);
      StepKeepsInvariant(states[i - 1], actions[i - 1], limit);
    }
  }

  /**
   In every interleaving, the rows of every view in the cache or in a client's hands are the complete
   answer of one past state of the database, with no more work than the limit; and no more rows, where
   `scope_rows` is an upper bound.
   */
  lemma EveryAnswerIsASnapshot(states: seq<State>, actions: seq<Action>, limit: nat, i: nat)
    requires Run(states, actions, limit) && Starts(states[0]) && i < |states|
    ensures forall f :: f in states[i].views ==> WithinLimit(states[i].views[f], f, states[i].db, limit)
    ensures forall h :: h in states[i].handlers && states[i].handlers[h].Finished? ==>
      WithinLimit(states[i].handlers[h].view, states[i].handlers[h].filter, states[i].db, limit)
  {
    var s := states[i];
    RunKeepsInvariant(states, actions, limit, i);
    forall f | f in s.views
      ensures WithinLimit(s.views[f], f, s.db, limit)
    {
      WorkWithinScopeRows(s.views[f].source, f);
    }
    forall h | h in s.handlers && s.handlers[h].Finished?
      ensures WithinLimit(s.handlers[h].view, s.handlers[h].filter, s.db, limit)
    {
      assert HandlerSound(s.handlers[h], s.seen, limit);
      WorkWithinScopeRows(s.handlers[h].view.source, s.handlers[h].filter);
    }
  }

  predicate WithinLimit(b: Built, f: ScanFilter, db: Db, limit: nat) {
    && CopiedFrom(b.source, db)
    && b.rows == Scan(b.source, f)
    && Count(b.rows, SelectedWork(f)) <= limit
    && (Covered(b.source, f) ==> |b.rows| <= limit)
  }

  // ---------------------------------------------------------------------------
  // When the cache agrees with the last refresh
  // ---------------------------------------------------------------------------

  /** The insert of a view whose refresh has been replaced since the handle copied it. */
  predicate Straddles(s: State, a: Action)
    requires Enabled(s, a)
  {
    a.Insert? && !UpToDate(s, s.handlers[a.h].view.source)
  }

  /** The documented invariant: every view was built from the fingerprint in `latest`. */
  predicate AllUpToDate(s: State) {
    forall f :: f in s.views ==> UpToDate(s, s.views[f].source)
  }

  /** An up-to-date view is the one a fresh engine over the last refresh would be. */
  lemma UpToDateMeansEqual(s: State, f: ScanFilter, limit: nat)
    requires Invariant(s, limit) && f in s.views && UpToDate(s, s.views[f].source)
    ensures s.views[f].source == s.latest.value && s.views[f].rows == Scan(s.latest.value, f)
  {
  }

  /** One insert keeps the documented invariant exactly when it passes the check the code does not make. */
  lemma InsertKeepsUpToDateExactlyWhen(s: State, h: nat, limit: nat)
    requires Enabled(s, Insert(h)) && AllUpToDate(s)
    ensures AllUpToDate(Next(s, Insert(h), limit)) <==> UpToDate(s, s.handlers[h].view.source)
  {
    var c := s.handlers[h];
    var n := Next(s, Insert(h), limit);
    assert c.filter in n.views && n.views[c.filter] == c.view;
  }

  lemma {:induction false} NoStraddleNothingStraddled(states: seq<State>, actions: seq<Action>, limit: nat, i: nat)
    requires Run(states, actions, limit) && Starts(states[0]) && i < |states|
    requires forall j :: 0 <= j < |actions| ==> !Straddles(states[j], actions[j])
    ensures states[i].straddled == {}
    decreases i
  {
    if i > 0 {
      NoStraddleNothingStraddled(states, actions, limit, i - 1);
      assert !Straddles(states[i - 1], actions[i - 1]);
    }
  }

  /** A run without a straddling insert keeps the documented invariant whenever no clear is due. */
  lemma NoStraddleAllUpToDate(states: seq<State>, actions: seq<Action>, limit: nat, i: nat)
    requires Run(states, actions, limit) && Starts(states[0]) && i < |states|
    requires forall j :: 0 <= j < |actions| ==> !Straddles(states[j], actions[j])
    requires !states[i].writer.Clearing?
    ensures AllUpToDate(states[i])
    ensures forall f :: f in states[i].views ==>
      states[i].latest.Some? && states[i].views[f].rows == Scan(states[i].latest.value, f)
  {
    RunKeepsInvariant(states, actions, limit, i);
    NoStraddleNothingStraddled(states, actions, limit, i);
    forall f | f in states[i].views
      ensures UpToDate(states[i], states[i].views[f].source)
      ensures states[i].views[f].rows == Scan(states[i].latest.value, f)
    {
      UpToDateMeansEqual(states[i], f, limit);
    }
  }

  predicate Working(h: Handler) {
    h.Copied? || h.Missed? || h.Holding?
  }

  function SourceOf(h: Handler): Refreshed
    requires Working(h)
  {
    if h.Holding? then h.view.source else h.source
  }

  /** A handle that works now began with this step, or was working on the same copy before it. */
  lemma WorkingBefore(s: State, a: Action, limit: nat, h: nat)
    requires Enabled(s, a) && h in Next(s, a, limit).handlers && Working(Next(s, a, limit).handlers[h])
    requires !(a.Begin? && a.h == h)
    ensures h in s.handlers && Working(s.handlers[h])
    ensures s.handlers[h].filter == Next(s, a, limit).handlers[h].filter
    ensures SourceOf(s.handlers[h]) == SourceOf(Next(s, a, limit).handlers[h])
  {
  }

  /** A handle that has not finished copied what was then the last refresh. */
  lemma {:induction false} CopyBegan(states: seq<State>, actions: seq<Action>, limit: nat, i: nat, h: nat)
    returns (k: nat)
    requires Run(states, actions, limit) && Starts(states[0]) && i < |states|
    requires h in states[i].handlers && Working(states[i].handlers[h])
    ensures k < i && actions[k] == Begin(h, states[i].handlers[h].filter)
    ensures states[k].latest == Some(SourceOf(states[i].handlers[h]))
    decreases i
  {
    var a, before := actions[i - 1], states[i - 1];
    if a.Begin? && a.h == h {
      k := i - 1;
    } else {
      WorkingBefore(before, a, limit, h);
      k := CopyBegan(states, actions, limit, i - 1, h);
    }
  }

  /**
   Conversely, a view that is not up to date with no clear due was put there by a handle that straddles: it
   copied what was the last refresh at step `k`, and inserted at step `j`, when it no longer was.
   */
  lemma {:induction false} StaleViewStraddled(states: seq<State>, actions: seq<Action>, limit: nat, i: nat, f: ScanFilter)
    returns (k: nat, j: nat)
    requires Run(states, actions, limit) && Starts(states[0]) && i < |states|
    requires !states[i].writer.Clearing? && f in states[i].views && !UpToDate(states[i], states[i].views[f].source)
    ensures k < j < i && actions[j].Insert? && Straddles(states[j], actions[j])
    ensures actions[k] == Begin(actions[j].h, f)
    ensures states[k].latest == Some(states[i].views[f].source)
    ensures f in states[j + 1].views && states[j + 1].views[f] == states[i].views[f]
  {
    RunKeepsInvariant(states, actions, limit, i);
    j := LastStraddle(states, actions, limit, i, f);
    k := CopyBegan(states, actions, limit, j, actions[j].h);
  }

  /** A straddled view was put there by this very step, or was there before it. */
  lemma StraddledBefore(s: State, a: Action, limit: nat, f: ScanFilter)
    requires Settled(s) && Enabled(s, a) && f in Next(s, a, limit).straddled
    requires !(a.Insert? && s.handlers[a.h].filter == f)
    ensures f in s.straddled && f in s.views
    ensures f in Next(s, a, limit).views && Next(s, a, limit).views[f] == s.views[f]
  {
  }

  lemma {:induction false} LastStraddle(states: seq<State>, actions: seq<Action>, limit: nat, i: nat, f: ScanFilter)
    returns (j: nat)
    requires Run(states, actions, limit) && Starts(states[0]) && i < |states|
    requires f in states[i].straddled && f in states[i].views
    ensures j < i && actions[j].Insert? && Straddles(states[j], actions[j])
    ensures states[j].handlers[actions[j].h].filter == f
    ensures states[j].handlers[actions[j].h].view == states[i].views[f]
    ensures f in states[j + 1].views && states[j + 1].views[f] == states[i].views[f]
    decreases i
  {
    var a, before := actions[i - 1], states[i - 1];
    if a.Insert? && before.handlers[a.h].filter == f {
      j := i - 1;
    } else {
      RunKeepsInvariant(states, actions, limit, i - 1);
      StraddledBefore(before, a, limit, f);
      j := LastStraddle(states, actions, limit, i - 1, f);
    }
  }

  // ---------------------------------------------------------------------------
  // The straddle is reachable
  // ---------------------------------------------------------------------------

  function Opened(db: Db): State {
    State(db, None, map[], NEW_PROJECTOR, AtRest, map[], {}, map[])
  }

  predicate Fits(db: Db, f: ScanFilter, limit: nat) {
    ValidDb(db) && ScopeRows(RefreshedOf(db), FactsOfRefresh(RefreshedOf(db)), f) <= limit
  }

  lemma Step(states: seq<State>, actions: seq<Action>, a: Action, limit: nat)
    returns (more: seq<State>, taken: seq<Action>)
    requires Run(states, actions, limit) && Enabled(states[|actions|], a)
    ensures Run(more, taken, limit) && states <= more && taken == actions + [a] && |more| == |states| + 1
    ensures more[|taken|] == Next(states[|actions|], a, limit)
  {
    more, taken := states + [Next(states[|actions|], a, limit)], actions + [a];
  }

  lemma CopyTaken(db: Db, f: ScanFilter, limit: nat) returns (states: seq<State>, actions: seq<Action>)
    ensures Run(states, actions, limit) && states[0] == Opened(db) && |actions| == 3
    ensures var s := states[3];
      && s.db == db && s.latest == Some(RefreshedOf(db)) && s.writer.AtRest? && s.views == map[]
      && s.projector == NEW_PROJECTOR && s.handlers == map[0 := Copied(RefreshedOf(db), f)]
  {
    states, actions := [Opened(db)], [];
    states, actions := Step(states, actions, RefreshLatest, limit);
    states, actions := Step(states, actions, ClearViews, limit);
    states, actions := Step(states, actions, Begin(0, f), limit);
  }

  /** A handle builds its view of a scope that fits, and is held up before it inserts it. */
  lemma HeldUp(db: Db, f: ScanFilter, limit: nat) returns (states: seq<State>, actions: seq<Action>)
    requires Fits(db, f, limit)
    ensures Run(states, actions, limit) && states[0] == Opened(db) && |actions| == 5
    ensures var s := states[5];
      && s.db == db && s.latest == Some(RefreshedOf(db)) && s.writer.AtRest? && s.views == map[]
      && s.handlers == map[0 := Holding(f, BuiltFrom(NEW_PROJECTOR, RefreshedOf(db), f))]
  {
    states, actions := CopyTaken(db, f, limit);
    states, actions := Step(states, actions, LookUp(0), limit);
    states, actions := Step(states, actions, Build(0, false), limit);
  }

  /** Meanwhile an event is written and the service refreshed; then the old view goes in. */
  lemma InsertedLate(db: Db, f: ScanFilter, e: Event, limit: nat) returns (states: seq<State>, actions: seq<Action>)
    requires Fits(db, f, limit)
    ensures Run(states, actions, limit) && states[0] == Opened(db) && |actions| == 9
    ensures var s := states[9];
      && s.db == DbNext(db, Ingest([e])) && s.latest == Some(RefreshedOf(s.db)) && s.writer.AtRest?
      && s.views == map[f := BuiltFrom(NEW_PROJECTOR, RefreshedOf(db), f)] && 1 !in s.handlers
  {
    states, actions := HeldUp(db, f, limit);
    states, actions := Step(states, actions, Action.Write(Ingest([e])), limit);
    states, actions := Step(states, actions, RefreshLatest, limit);
    states, actions := Step(states, actions, ClearViews, limit);
    states, actions := Step(states, actions, Insert(0), limit);
  }

  /**
   The documented invariant does fail, for every database, every scope that fits and every event it
   selects: a request that begins after the refresh that copied the event is answered without it.
   */
  lemma StaleAnswer(db: Db, f: ScanFilter, e: Event, limit: nat) returns (states: seq<State>, actions: seq<Action>)
    requires Fits(db, f, limit) && Matches(f, e)
    ensures Run(states, actions, limit) && Starts(states[0]) && |actions| == 11 && actions[9] == Begin(1, f)
    ensures states[9].latest == Some(RefreshedOf(DbNext(db, Ingest([e])))) && states[9].writer.AtRest?
    ensures 1 in states[11].handlers && states[11].handlers[1].Finished?
    ensures Scan(states[9].latest.value, f) == states[11].handlers[1].view.rows + [e]
  {
    states, actions := InsertedLate(db, f, e, limit);
    states, actions := Step(states, actions, Begin(1, f), limit);
    states, actions := Step(states, actions, LookUp(1), limit);
    ScanAfterIngest(db, f, e);
  }

  lemma ScanAfterIngest(db: Db, f: ScanFilter, e: Event)
    requires Matches(f, e)
    ensures Scan(RefreshedOf(DbNext(db, Ingest([e]))), f) == Scan(RefreshedOf(db), f) + [e]
  {
    var was, now := RefreshedOf(db), RefreshedOf(DbNext(db, Ingest([e])));
    assert AllRows(now) == AllRows(was) + [e];
    FilterOfConcat(AllRows(was), [e], Matching(f));
  }

  // ---------------------------------------------------------------------------
  // Projections
  // ---------------------------------------------------------------------------

  /**
   What a handle builds projects exactly its rows if and only if its scope is filtered, the feed restarts
   the projector, or nothing newer than its copy has been fed before.
   */
  lemma BuildAgreesExactlyWhen(s: State, h: nat, limit: nat)
    requires Invariant(s, limit) && Enabled(s, Build(h, false)) && Next(s, Build(h, false), limit).handlers[h].Holding?
    ensures var c, view := s.handlers[h], Next(s, Build(h, false), limit).handlers[h].view;
      view.projected == WorkOf(view.rows) <==>
        !Unfiltered(c.filter) || Restarts(s.projector, c.source) || s.projector.seen <= WorkOf(AllRows(c.source))
  {
    var c := s.handlers[h];
    assert HandlerSound(c, s.seen, limit);
    ProjectionAgreesExactlyWhen(s.projector, c.source, s.db.files);
    if Unfiltered(c.filter) {
      FilterKeepsAll(AllRows(c.source), Matching(c.filter));
    }
  }

  /** The three steps of an idle tick. */
  function AfterIdleTick(s: State, limit: nat): State
    requires s.writer.AtRest? && s.latest.Some?
  {
    var dropped := Next(s, TickLatest(true), limit);
    Next(Next(dropped, ClearViews, limit), ClearCache, limit)
  }

  /**
   After an idle tick nothing is held but what handlers hold themselves, and what they build then projects
   its own rows, even for one that was overtaken before.
   */
  lemma IdleTickForgets(s: State, h: nat, limit: nat)
    requires Invariant(s, limit) && s.writer.AtRest? && s.latest.Some?
    ensures var after := AfterIdleTick(s, limit);
      && after.latest.None? && after.views == map[] && after.writer.AtRest? && after.handlers == s.handlers && after.db == s.db
      && (Enabled(after, Build(h, false)) && Next(after, Build(h, false), limit).handlers[h].Holding? ==>
            var view := Next(after, Build(h, false), limit).handlers[h].view;
            view.projected == WorkOf(view.rows))
  {
    var dropped := Next(s, TickLatest(true), limit);
    var cleared, after := Next(dropped, ClearViews, limit), AfterIdleTick(s, limit);
    StepKeepsInvariant(s, TickLatest(true), limit);
    StepKeepsInvariant(dropped, ClearViews, limit);
    StepKeepsInvariant(cleared, ClearCache, limit);
    if Enabled(after, Build(h, false)) && Next(after, Build(h, false), limit).handlers[h].Holding? {
      BuildAgreesExactlyWhen(after, h, limit);
    }
  }

  /** A handle has copied the database; then an event is written, refreshed, and a second handle copies that. */
  lemma TwoCopies(db: Db, e: Event, limit: nat) returns (states: seq<State>, actions: seq<Action>)
    requires ValidDb(db)
    ensures Run(states, actions, limit) && states[0] == Opened(db) && |actions| == 7
    ensures var s, now := states[7], DbNext(db, Ingest([e]));
      && s.db == now && s.writer.AtRest? && s.views == map[] && s.projector == NEW_PROJECTOR
      && s.handlers == map[0 := Copied(RefreshedOf(db), EVERYTHING), 1 := Copied(RefreshedOf(now), EVERYTHING)]
  {
    states, actions := CopyTaken(db, EVERYTHING, limit);
    states, actions := Step(states, actions, Action.Write(Ingest([e])), limit);
    states, actions := Step(states, actions, RefreshLatest, limit);
    states, actions := Step(states, actions, ClearViews, limit);
    states, actions := Step(states, actions, Begin(1, EVERYTHING), limit);
  }

  /** The second builds first. */
  lemma NewerFedFirst(db: Db, e: Event, limit: nat) returns (states: seq<State>, actions: seq<Action>)
    requires ValidDb(db) && Fits(DbNext(db, Ingest([e])), EVERYTHING, limit)
    ensures Run(states, actions, limit) && states[0] == Opened(db) && |actions| == 10
    ensures var s, now := states[10], DbNext(db, Ingest([e]));
      && s.db == now && s.writer.AtRest? && s.projector == Feed(NEW_PROJECTOR, RefreshedOf(now))
      && 0 in s.handlers && s.handlers[0] == Missed(RefreshedOf(db), EVERYTHING)
  {
    states, actions := TwoCopies(db, e, limit);
    states, actions := Step(states, actions, LookUp(1), limit);
    states, actions := Step(states, actions, Build(1, false), limit);
    states, actions := Step(states, actions, LookUp(0), limit);
  }

  /**
   The failing case is reachable, for every database that fits and every work event new to it: a handle
   overtaken by a newer one gets rows without the event and a projection with it.
   */
  lemma OlderRowsNewerProjection(db: Db, e: Event, limit: nat) returns (states: seq<State>, actions: seq<Action>)
    requires Fits(db, EVERYTHING, limit) && Fits(DbNext(db, Ingest([e])), EVERYTHING, limit)
    requires !e.telemetry && e !in AllRows(RefreshedOf(db))
    ensures Run(states, actions, limit) && Starts(states[0]) && |actions| == 11
    ensures 0 in states[11].handlers && states[11].handlers[0].Holding?
    ensures var view := states[11].handlers[0].view;
      e !in view.rows && e in view.projected
  {
    states, actions := NewerFedFirst(db, e, limit);
    states, actions := Step(states, actions, Build(0, false), limit);
    OvertakenView(db, e);
  }

  /** What the projector has once it was fed the newer copy stays in the older view. */
  lemma OvertakenView(db: Db, e: Event)
    requires ValidDb(db) && !e.telemetry && e !in AllRows(RefreshedOf(db))
    ensures var view := ViewOf(Feed(NEW_PROJECTOR, RefreshedOf(DbNext(db, Ingest([e])))), RefreshedOf(db), EVERYTHING);
      e !in view.rows && e in view.projected
  {
    var now := DbNext(db, Ingest([e]));
    FeedEffect(NEW_PROJECTOR, RefreshedOf(now), now.files);
    assert e in AllRows(RefreshedOf(now));
    FedSegmentsAreListed(db.segments);
    FeedEffect(Feed(NEW_PROJECTOR, RefreshedOf(now)), RefreshedOf(db), now.files);
  }

  lemma {:induction false} FedSegmentsAreListed(segments: seq<Segment>)
    ensures FedSegments(NEW_PROJECTOR, segments).fed <= ListedIds(segments)
    decreases |segments|
  {
    if segments != [] {
      var before, last := segments[..|segments| - 1], segments[|segments| - 1];
      FedSegmentsAreListed(before);
      assert last in segments && forall s :: s in before ==> s in segments;
    }
  }
}
