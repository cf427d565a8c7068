/**
 The daemon's resident read engine (crates/attempt/src/read_service.rs): a cache of views by scope,
 guarded by a fingerprint of the database, over a memo of what each segment gives a scope
 (crates/attemptdb-query/src/cache.rs). Here `refresh`, `handle` and `tick` are atomic; the module
 `Interleaving` takes `handle` apart.
 */
module ReadService {
  import opened Wrappers
  import opened Sequences
  import opened Sorting
  import opened Database
  import opened Projection

  // ---------------------------------------------------------------------------
  // scope_rows
  // ---------------------------------------------------------------------------

  function RowsToRead(segments: seq<Segment>, f: ScanFilter): nat
    requires NonEmptySegments(segments)
  {
    if segments == [] then 0
    else (if MayMatch(f, segments[0].rows) then |segments[0].rows| else 0) + RowsToRead(segments[1..], f)
  }

  function Least(a: nat, b: nat): nat {
    if a <= b then a else b
  }

  /** `scope_rows`: the rows of the segments the scope can touch, held down by what the facts say. */
  function ScopeRows(r: Refreshed, facts: StreamFacts, f: ScanFilter): nat
    requires NonEmptySegments(r.segments)
  {
    var rows := |r.memtable| + RowsToRead(r.segments, f);
    var capped := if f.project.Some? && f.project.value in facts.projects
                  then Least(rows, facts.projects[f.project.value] + |r.memtable|) else rows;
    if f.session.Some? && f.session.value in facts.sessions
    then Least(capped, facts.sessions[f.session.value] + |r.memtable|) else capped
  }

  function SelectedTelemetry(f: ScanFilter): Event -> bool {
    (e: Event) => Matches(f, e) && e.telemetry
  }

  function SelectedWork(f: ScanFilter): Event -> bool {
    (e: Event) => Matches(f, e) && !e.telemetry
  }

  /** The project's rows the facts count but the filter leaves out. */
  function WorkLeftOut(project: nat, f: ScanFilter): Event -> bool {
    (e: Event) => !e.telemetry && e.project == project && !Matches(f, e)
  }

  function SessionWorkLeftOut(session: nat, f: ScanFilter): Event -> bool {
    (e: Event) => !e.telemetry && e.session == session && !Matches(f, e)
  }

  lemma {:induction false} CountSplits(rows: seq<Event>, whole: Event -> bool, a: Event -> bool, b: Event -> bool)
    requires forall e :: e in rows ==> whole(e) == (a(e) || b(e)) && !(a(e) && b(e))
    ensures Count(rows, whole) == Count(rows, a) + Count(rows, b)
    decreases |rows|
  {
    if rows != [] {
      CountSplits(rows[1..], whole, a, b);
    }
  }

  lemma {:induction false} RowsToReadCover(segments: seq<Segment>, f: ScanFilter)
    requires NonEmptySegments(segments)
    ensures RowsToRead(segments, f) >= Count(RowsOf(segments), Matching(f))
    decreases |segments|
  {
    if segments != [] {
      assert segments[0].rows != [];
      RowsToReadCover(segments[1..], f);
      CountOfConcat(segments[0].rows, RowsOf(segments[1..]), Matching(f));
      MayMatchIsSound(f, segments[0].rows);
    }
  }

  /**
   The selected telemetry is no more than what the capping counts have to spare: the work they count
   that the filter leaves out, and the memtable, which `scope_rows` adds a second time.
   */
  predicate Covered(r: Refreshed, f: ScanFilter) {
    var rows, facts := AllRows(r), FactsOfRefresh(r);
    var telemetry := Count(rows, SelectedTelemetry(f));
    && (f.project.Some? && f.project.value in facts.projects ==>
          telemetry <= Count(rows, WorkLeftOut(f.project.value, f)) + |r.memtable|)
    && (f.session.Some? && f.session.value in facts.sessions ==>
          telemetry <= Count(rows, SessionWorkLeftOut(f.session.value, f)) + |r.memtable|)
  }

  /**
   When `scope_rows` is an upper bound: telemetry is among the rows a view holds but not in the facts
   that hold the bound down.
   */
  lemma ScopeRowsCoverExactlyWhen(r: Refreshed, f: ScanFilter)
    requires NonEmptySegments(r.segments)
    ensures ScopeRows(r, FactsOfRefresh(r), f) >= |Scan(r, f)| <==> Covered(r, f)
    ensures ScopeRows(r, FactsOfRefresh(r), f) >= Count(AllRows(r), SelectedWork(f))
  {
    CountSplits(AllRows(r), Matching(f), SelectedTelemetry(f), SelectedWork(f));
    RowsToReadCover(r.segments, f);
    CountOfConcat(RowsOf(r.segments), r.memtable, Matching(f));
    if f.project.Some? {
      ProjectCount(r, f, f.project.value);
    }
    if f.session.Some? {
      SessionCount(r, f, f.session.value);
    }
  }

  lemma ProjectCount(r: Refreshed, f: ScanFilter, p: nat)
    requires f.project == Some(p)
    ensures var facts := FactsOfRefresh(r);
      p in facts.projects ==>
        facts.projects[p] == Count(AllRows(r), SelectedWork(f)) + Count(AllRows(r), WorkLeftOut(p, f))
  {
    RefreshFactsTally(r);
    CountSplits(AllRows(r), Work(p), SelectedWork(f), WorkLeftOut(p, f));
    assert At(FactsOfRefresh(r).projects, p) == Count(AllRows(r), Work(p));
  }

  lemma SessionCount(r: Refreshed, f: ScanFilter, s: nat)
    requires f.session == Some(s)
    ensures var facts := FactsOfRefresh(r);
      s in facts.sessions ==>
        facts.sessions[s] == Count(AllRows(r), SelectedWork(f)) + Count(AllRows(r), SessionWorkLeftOut(s, f))
  {
    RefreshFactsTally(r);
    CountSplits(AllRows(r), SessionWork(s), SelectedWork(f), SessionWorkLeftOut(s, f));
    assert At(FactsOfRefresh(r).sessions, s) == Count(AllRows(r), SessionWork(s));
  }

  /** A scope that selects no telemetry is never underestimated. */
  lemma ScopeRowsCoverWork(r: Refreshed, f: ScanFilter)
    requires NonEmptySegments(r.segments)
    requires forall e :: e in AllRows(r) && Matches(f, e) ==> !e.telemetry
    ensures ScopeRows(r, FactsOfRefresh(r), f) >= |Scan(r, f)|
  {
    ScopeRowsCoverExactlyWhen(r, f);
    FilterKeepsNone(AllRows(r), SelectedTelemetry(f));
  }

  function WholeProject(p: nat): ScanFilter {
    ScanFilter(Some(p), None, None, None, false)
  }

  /** For a whole project that has work, with everything flushed: right exactly when it has no telemetry. */
  lemma WholeProjectCoverExactlyWhen(r: Refreshed, p: nat)
    requires NonEmptySegments(r.segments) && r.memtable == []
    requires p in FactsOfRefresh(r).projects
    ensures ScopeRows(r, FactsOfRefresh(r), WholeProject(p)) >= |Scan(r, WholeProject(p))|
      <==> forall e :: e in AllRows(r) && e.project == p ==> !e.telemetry
  {
    var f, rows := WholeProject(p), AllRows(r);
    ScopeRowsCoverExactlyWhen(r, f);
    FilterKeepsNone(rows, WorkLeftOut(p, f));
    var telemetry := Filter(rows, SelectedTelemetry(f));
    if forall e :: e in rows && e.project == p ==> !e.telemetry {
      FilterKeepsNone(rows, SelectedTelemetry(f));
    } else {
      var e :| e in rows && e.project == p && e.telemetry;
      assert SelectedTelemetry(f)(e);
      assert e in telemetry;
    }
  }

  /** One hook event and one telemetry record of the same project, flushed: two rows reckoned as fewer. */
  lemma TelemetryIsNotReckoned()
    ensures var rows := [Event(0, 0, 0, 0, false, false), Event(1, 0, 0, 0, false, true)];
      var r := Refreshed(Fingerprint(1, 1, 0), [Segment(0, rows)], []);
      ScopeRows(r, FactsOfRefresh(r), WholeProject(0)) < |Scan(r, WholeProject(0))|
  {
    var rows := [Event(0, 0, 0, 0, false, false), Event(1, 0, 0, 0, false, true)];
    var r := Refreshed(Fingerprint(1, 1, 0), [Segment(0, rows)], []);
    assert r.segments[1..] == [];
    assert RowsOf(r.segments) == rows + [];
    assert rows + [] + [] == rows;
    RefreshFactsTally(r);
    assert rows[0] in Filter(rows, Work(0));
    assert At(FactsOfRefresh(r).projects, 0) == Count(rows, Work(0));
    WholeProjectCoverExactlyWhen(r, 0);
    assert rows[1] in AllRows(r);
  }

  // ---------------------------------------------------------------------------
  // The engine cache
  // ---------------------------------------------------------------------------

  const SCOPES_KEPT: nat := 4

  function NotEqual(f: ScanFilter): ScanFilter -> bool {
    (g: ScanFilter) => g != f
  }

  predicate Distinct(scopes: seq<ScanFilter>) {
    forall i, j :: 0 <= i < j < |scopes| ==> scopes[i] != scopes[j]
  }

  function LastFew(scopes: seq<ScanFilter>): seq<ScanFilter> {
    if |scopes| > SCOPES_KEPT then scopes[..SCOPES_KEPT] else scopes
  }

  /** The memos are those there were of the scopes. */
  predicate MemosOf(now: map<(nat, ScanFilter), seq<Event>>, was: map<(nat, ScanFilter), seq<Event>>, scopes: seq<ScanFilter>) {
    && (forall k :: k in now ==> k in was && now[k] == was[k] && k.1 in scopes)
    && (forall k :: k in was && k.1 in scopes ==> k in now)
  }

  lemma {:induction false} FilteredAreDistinct(scopes: seq<ScanFilter>, keep: ScanFilter -> bool)
    requires Distinct(scopes)
    ensures Distinct(Filter(scopes, keep))
    decreases |scopes|
  {
    if scopes != [] {
      FilteredAreDistinct(scopes[1..], keep);
      var rest := Filter(scopes[1..], keep);
      forall i | 0 <= i < |rest|
        ensures rest[i] != scopes[0]
      {
        assert rest[i] in scopes[1..];
      }
    }
  }

  lemma DropOldest(now: map<(nat, ScanFilter), seq<Event>>, was: map<(nat, ScanFilter), seq<Event>>, scopes: seq<ScanFilter>)
    requires MemosOf(now, was, scopes) && scopes != [] && Distinct(scopes)
    ensures var oldest := scopes[|scopes| - 1];
      MemosOf(map k | k in now && k.1 != oldest :: now[k], was, scopes[..|scopes| - 1])
  {
    var oldest, rest := scopes[|scopes| - 1], scopes[..|scopes| - 1];
    assert forall g :: g in scopes <==> g in rest || g == oldest;
    assert oldest !in rest;
  }

  /** A built engine: its rows, and the events its projection is made from. */
  datatype View = View(rows: seq<Event>, projected: set<Event>)

  /** What building a view makes of it, and of the projector. */
  function ViewOf(p: Projector, r: Refreshed, f: ScanFilter): View {
    View(Scan(r, f), if Unfiltered(f) then Feed(p, r).seen else WorkOf(Scan(r, f)))
  }

  function ProjectorAfter(p: Projector, r: Refreshed, f: ScanFilter): Projector {
    if Unfiltered(f) then Feed(p, r) else p
  }

  /**
   `EngineCache`, as far as views go through it: the rows of a segment that a recent scope selects, and
   the incremental projector with the segments it was fed.
   */
  class EngineCache {
    var scoped: map<(nat, ScanFilter), seq<Event>>
    var scopeOrder: seq<ScanFilter>
    var fed: set<nat>
    var projected: set<Event>

    ghost function Held(): Projector
      reads this
    {
      Projector(fed, projected)
    }

    /** Every memo is what the scope selects from the file it names; what was fed has been projected. */
    ghost predicate Coherent(files: map<nat, seq<Event>>)
      reads this
    {
      && (forall k :: k in scoped ==> k.0 in files && scoped[k] == Filter(files[k.0], Matching(k.1)))
      && Remembers(Held(), files)
    }

    /** Only the last few scopes are remembered, each once. */
    ghost predicate Bounded()
      reads this
    {
      |scopeOrder| <= SCOPES_KEPT && Distinct(scopeOrder) && forall k :: k in scoped ==> k.1 in scopeOrder
    }

    constructor ()
      ensures scoped == map[] && scopeOrder == [] && Held() == NEW_PROJECTOR
    {
      scoped, scopeOrder, fed, projected := map[], [], {}, {};
    }

    method Clear()
      modifies this
      ensures scoped == map[] && scopeOrder == [] && Held() == NEW_PROJECTOR
    {
      scoped, scopeOrder, fed, projected := map[], [], {}, {};
    }

    /** The part of a refresh that forgets segments no longer listed; the projector waits for its next feed. */
    method Retain(listed: set<nat>)
      modifies this`scoped
      ensures scoped == map k | k in old(scoped) && k.0 in listed :: old(scoped)[k]
    {
      scoped := map k | k in scoped && k.0 in listed :: scoped[k];
    }

    /** The scope moves to the front; scopes beyond the last few lose their memos, and no other does. */
    method Touch(f: ScanFilter)
      requires Bounded()
      modifies this`scoped, this`scopeOrder
      ensures Bounded() && f in scopeOrder
      ensures scopeOrder == LastFew([f] + Filter(old(scopeOrder), NotEqual(f)))
      ensures MemosOf(scoped, old(scoped), scopeOrder)
    {
      var others := Filter(scopeOrder, NotEqual(f));
      FilteredAreDistinct(scopeOrder, NotEqual(f));
      assert forall i :: 0 <= i < |others| ==> others[i] in others;
      assert forall g :: g in scopeOrder ==> g == f || g in others;
      scopeOrder := [f] + others;
      Evict(f);
    }

    /** The oldest scopes beyond the last few go, with their memos. */
    method Evict(f: ScanFilter)
      requires scopeOrder != [] && scopeOrder[0] == f && Distinct(scopeOrder)
      requires forall k :: k in scoped ==> k.1 in scopeOrder
      modifies this`scoped, this`scopeOrder
      ensures Bounded() && f in scopeOrder
      ensures scopeOrder == LastFew(old(scopeOrder)) && MemosOf(scoped, old(scoped), scopeOrder)
    {
      ghost var all, was := scopeOrder, scoped;
      while |scopeOrder| > SCOPES_KEPT
        invariant 0 < |scopeOrder| <= |all| && scopeOrder == all[..|scopeOrder|]
        invariant |scopeOrder| >= SCOPES_KEPT || |scopeOrder| == |all|
        invariant Distinct(scopeOrder) && MemosOf(scoped, was, scopeOrder)
      {
        EvictOldest(all, was);
      }
    }

    method EvictOldest(ghost all: seq<ScanFilter>, ghost was: map<(nat, ScanFilter), seq<Event>>)
      requires 1 < |scopeOrder| <= |all| && scopeOrder == all[..|scopeOrder|]
      requires Distinct(scopeOrder) && MemosOf(scoped, was, scopeOrder)
      modifies this`scoped, this`scopeOrder
      ensures |scopeOrder| == |old(scopeOrder)| - 1 && scopeOrder == all[..|scopeOrder|]
      ensures Distinct(scopeOrder) && MemosOf(scoped, was, scopeOrder)
    {
      var oldest := scopeOrder[|scopeOrder| - 1];
      DropOldest(scoped, was, scopeOrder);
      scopeOrder := scopeOrder[..|scopeOrder| - 1];
      scoped := map k | k in scoped && k.1 != oldest :: scoped[k];
    }

    /** The rows of one segment the scope selects, from the memo or read and remembered. */
    method SegmentRows(seg: Segment, f: ScanFilter, ghost files: map<nat, seq<Event>>) returns (rows: seq<Event>)
      requires Coherent(files) && seg.id in files && files[seg.id] == seg.rows
      requires Bounded() && f in scopeOrder
      modifies this`scoped
      ensures Coherent(files) && Bounded()
      ensures rows == Filter(seg.rows, Matching(f))
    {
      var key := (seg.id, f);
      if key !in scoped {
        scoped := scoped[key := Filter(seg.rows, Matching(f))];
      }
      rows := scoped[key];
    }

    /** `scoped_batches`: a segment the zone maps rule out is not read. */
    method ScopedRows(segments: seq<Segment>, f: ScanFilter, ghost files: map<nat, seq<Event>>)
      returns (rows: seq<Event>)
      requires Coherent(files) && Listed(segments, files)
      requires Bounded() && f in scopeOrder
      modifies this`scoped
      ensures Coherent(files) && Bounded()
      ensures rows == Filter(RowsOf(segments), Matching(f))
    {
      rows := [];
      var i := 0;
      while i < |segments|
        invariant 0 <= i <= |segments|
        invariant Coherent(files) && Bounded()
        invariant Selected(segments, 0, f) == rows + Selected(segments, i, f)
      {
        SelectedStep(segments, i, f, rows);
        if MayMatch(f, segments[i].rows) {
          var more := SegmentRows(segments[i], f, files);
          rows := rows + more;
        } else {
          MayMatchIsSound(f, segments[i].rows);
        }
        i := i + 1;
      }
      assert segments[i..] == [] && segments[0..] == segments;
    }

    /** `feed`: the segments not fed yet and the memtable, from nothing if a fed segment is gone. */
    method FeedProjector(r: Refreshed)
      modifies this`fed, this`projected
      ensures Held() == Feed(old(Held()), r)
    {
      if Restarts(Projector(fed, projected), r) {
        fed, projected := {}, {};
      }
      ghost var from := Held();
      var i := 0;
      while i < |r.segments|
        invariant 0 <= i <= |r.segments|
        invariant Held() == FedSegments(from, r.segments[..i])
      {
        assert r.segments[..i + 1][..i] == r.segments[..i];
        if r.segments[i].id !in fed {
          projected := projected + WorkOf(r.segments[i].rows);
          fed := fed + {r.segments[i].id};
        }
        i := i + 1;
      }
      assert r.segments[..i] == r.segments;
      projected := projected + WorkOf(r.memtable);
    }

    /** `engine`: everything, with the projection of everything fed so far. */
    method Engine(r: Refreshed, ghost files: map<nat, seq<Event>>) returns (view: View)
      requires Coherent(files) && Listed(r.segments, files)
      modifies this`fed, this`projected
      ensures Coherent(files) && Held() == Feed(old(Held()), r)
      ensures view == View(AllRows(r), Held().seen)
    {
      FeedEffect(Held(), r, files);
      FeedProjector(r);
      view := View(AllRows(r), projected);
    }

    /** `engine_scoped`: whatever the memo holds, the rows are those of a scan, and the projection is theirs. */
    method EngineScoped(r: Refreshed, f: ScanFilter, ghost files: map<nat, seq<Event>>) returns (view: View)
      requires Coherent(files) && Bounded() && Listed(r.segments, files)
      modifies this
      ensures Coherent(files) && Bounded()
      ensures view == ViewOf(old(Held()), r, f) && Held() == ProjectorAfter(old(Held()), r, f)
    {
      if Unfiltered(f) {
        FilterKeepsAll(AllRows(r), Matching(f));
        view := Engine(r, files);
        return;
      }
      Touch(f);
      var rows := ScopedRows(r.segments, f, files);
      FilterOfConcat(RowsOf(r.segments), r.memtable, Matching(f));
      rows := rows + Filter(r.memtable, Matching(f));
      view := View(rows, WorkOf(rows));
    }
  }

  /** What the scope selects from the segments at and after `i`. */
  ghost function Selected(segments: seq<Segment>, i: nat, f: ScanFilter): seq<Event>
    requires i <= |segments|
  {
    Filter(RowsOf(segments[i..]), Matching(f))
  }

  lemma SelectedStep(segments: seq<Segment>, i: nat, f: ScanFilter, rows: seq<Event>)
    requires i < |segments| && segments[i].rows != []
    ensures rows + Selected(segments, i, f) ==
      if MayMatch(f, segments[i].rows) then rows + Filter(segments[i].rows, Matching(f)) + Selected(segments, i + 1, f)
      else rows + Selected(segments, i + 1, f)
  {
    var mine, rest := Filter(segments[i].rows, Matching(f)), Selected(segments, i + 1, f);
    assert segments[i..][1..] == segments[i + 1..];
    FilterOfConcat(segments[i].rows, RowsOf(segments[i + 1..]), Matching(f));
    assert Selected(segments, i, f) == mine + rest;
    MayMatchIsSound(f, segments[i].rows);
    Regroup(rows, mine, rest);
  }

  // ---------------------------------------------------------------------------
  // The service: what each operation does to the shared fields
  // ---------------------------------------------------------------------------

  /** What the last refresh produced. */
  datatype Latest = Latest(refreshed: Refreshed, facts: StreamFacts)

  /** The fields a request sees: the last refresh, the views by scope, and the projector of the cache. */
  datatype Service = Service(latest: Option<Latest>, views: map<ScanFilter, View>, projector: Projector)

  const IDLE_SERVICE := Service(None, map[], NEW_PROJECTOR)

  datatype Reply =
    | Answered(view: View)
    | ReadLocally(about: nat)
    | Cancelled
    | NoRefresh

  function LatestOf(db: Db): Latest {
    Latest(RefreshedOf(db), FactsOfRefresh(RefreshedOf(db)))
  }

  function Ticked(s: Service, idle: bool): Service {
    if idle && s.latest.Some? then IDLE_SERVICE else s
  }

  function AfterRefresh(s: Service, db: Db): Service {
    if s.latest.Some? && s.latest.value.refreshed.fingerprint == FingerprintOf(db) then s
    else s.(latest := Some(LatestOf(db)), views := map[])
  }

  predicate Readable(s: Service) {
    s.latest.Some? ==> NonEmptySegments(s.latest.value.refreshed.segments)
  }

  function ReplyTo(s: Service, f: ScanFilter, cancelled: bool, limit: nat): Reply
    requires Readable(s)
  {
    if s.latest.None? then NoRefresh
    else if f in s.views then Answered(s.views[f])
    else if cancelled then Cancelled
    else
      var l := s.latest.value;
      var rows := ScopeRows(l.refreshed, l.facts, f);
      if rows > limit then ReadLocally(rows) else Answered(ViewOf(s.projector, l.refreshed, f))
  }

  function AfterHandle(s: Service, f: ScanFilter, cancelled: bool, limit: nat): Service
    requires Readable(s)
  {
    var reply := ReplyTo(s, f, cancelled, limit);
    if f in s.views || !reply.Answered? then s
    else s.(views := s.views[f := reply.view], projector := ProjectorAfter(s.projector, s.latest.value.refreshed, f))
  }

  class EngineService {
    const viewLimit: nat
    const cache: EngineCache
    var latest: Option<Latest>
    var views: map<ScanFilter, View>

    ghost function Contents(): Service
      reads this, cache
    {
      Service(latest, views, cache.Held())
    }

    /** The memo is coherent with the segment files, and the last refresh lists files of the database. */
    ghost predicate Valid(files: map<nat, seq<Event>>)
      reads this, cache
    {
      cache.Coherent(files) && cache.Bounded() && (latest.Some? ==> Listed(latest.value.refreshed.segments, files))
    }

    constructor (limit: nat)
      ensures Contents() == IDLE_SERVICE && viewLimit == limit && fresh(cache)
      ensures forall files :: Valid(files)
    {
      viewLimit := limit;
      cache := new EngineCache();
      latest := None;
      views := map[];
    }

    /** `tick`, `idle` saying whether no query came for the idle time. */
    method Tick(idle: bool, ghost files: map<nat, seq<Event>>)
      requires Valid(files)
      modifies this, cache
      ensures Valid(files) && Contents() == Ticked(old(Contents()), idle)
    {
      if !idle {
        return;
      }
      var had := latest.Some?;
      latest := None;
      if had {
        views := map[];
        cache.Clear();
      }
      assert !had ==> Contents() == old(Contents());
    }

    /** `refresh`, on the writer thread with the database. */
    method Refresh(db: Db)
      requires ValidDb(db) && Valid(db.files)
      modifies this, cache
      ensures Valid(db.files) && Contents() == AfterRefresh(old(Contents()), db)
    {
      var fingerprint := FingerprintOf(db);
      if latest.Some? && latest.value.refreshed.fingerprint == fingerprint {
        return;
      }
      cache.Retain(set s | s in db.segments :: s.id);
      var refreshed := RefreshedOf(db);
      latest := Some(Latest(refreshed, FactsOfRefresh(refreshed)));
      views := map[];
    }

    /** `handle`, up to the view it answers from. */
    method Handle(f: ScanFilter, cancelled: bool, ghost files: map<nat, seq<Event>>) returns (reply: Reply)
      requires Valid(files)
      modifies this, cache
      ensures Valid(files) && Readable(old(Contents()))
      ensures reply == ReplyTo(old(Contents()), f, cancelled, viewLimit)
      ensures Contents() == AfterHandle(old(Contents()), f, cancelled, viewLimit)
    {
      if latest.None? {
        return NoRefresh;
      }
      var l := latest.value;
      assert NonEmptySegments(l.refreshed.segments);
      if f in views {
        return Answered(views[f]);
      }
      if cancelled {
        return Cancelled;
      }
      var rows := ScopeRows(l.refreshed, l.facts, f);
      if rows > viewLimit {
        return ReadLocally(rows);
      }
      var engine := cache.EngineScoped(l.refreshed, f, files);
      views := views[f := engine];
      return Answered(engine);
    }
  }

  // ---------------------------------------------------------------------------
  // Every run of atomic steps
  // ---------------------------------------------------------------------------

  datatype Action =
    | Write(step: DbStep)
    | Refresh
    | Handle(filter: ScanFilter, cancelled: bool)
    | Tick(idle: bool)

  datatype System = System(db: Db, service: Service)

  predicate Enabled(s: System, a: Action) {
    a.Write? ==> DbEnabled(s.db, a.step)
  }

  function Next(s: System, a: Action, limit: nat): System
    requires Enabled(s, a) && Readable(s.service)
  {
    match a
    case Write(step) => s.(db := DbNext(s.db, step))
    case Refresh => s.(service := AfterRefresh(s.service, s.db))
    case Handle(f, cancelled) => s.(service := AfterHandle(s.service, f, cancelled, limit))
    case Tick(idle) => s.(service := Ticked(s.service, idle))
  }

  /** `r` was copied out of an earlier state of `db`. */
  predicate CopiedFrom(r: Refreshed, db: Db) {
    && r.fingerprint == Fingerprint(r.fingerprint.generation, |r.segments|, |r.memtable|)
    && Listed(r.segments, db.files)
    && r.fingerprint.generation <= db.generation
    && (r.fingerprint.generation == db.generation ==> r.segments == db.segments && r.memtable <= db.memtable)
  }

  /** A copy with the database's present fingerprint is a copy of its present contents. */
  lemma CopyIsCurrent(r: Refreshed, db: Db)
    requires CopiedFrom(r, db) && r.fingerprint == FingerprintOf(db)
    ensures r == RefreshedOf(db)
  {
  }

  lemma CopySurvivesWrite(r: Refreshed, db: Db, step: DbStep)
    requires ValidDb(db) && DbEnabled(db, step) && CopiedFrom(r, db)
    ensures CopiedFrom(r, DbNext(db, step))
  {
    DbStepKeepsValid(db, step);
  }

  /**
   The invariant: the last refresh is a copy of some earlier database state, and every cached view has
   the rows an engine freshly built from it would have, within the limit the service checks.
   */
  ghost predicate Invariant(s: System, limit: nat) {
    && ValidDb(s.db)
    && Readable(s.service)
    && (s.service.latest.None? ==> s.service.views == map[])
    && (s.service.latest.Some? ==>
          var l := s.service.latest.value;
          && CopiedFrom(l.refreshed, s.db)
          && l.facts == FactsOfRefresh(l.refreshed)
          && forall f :: f in s.service.views ==>
               s.service.views[f].rows == Scan(l.refreshed, f) && ScopeRows(l.refreshed, l.facts, f) <= limit)
  }

  lemma StepKeepsInvariant(s: System, a: Action, limit: nat)
    requires Invariant(s, limit) && Enabled(s, a)
    ensures Invariant(Next(s, a, limit), limit)
  {
    if a.Write? {
      DbStepKeepsValid(s.db, a.step);
      if s.service.latest.Some? {
        CopySurvivesWrite(s.service.latest.value.refreshed, s.db, a.step);
      }
    }
  }

  predicate Run(states: seq<System>, actions: seq<Action>, limit: nat) {
    && |states| == |actions| + 1
    && forall i :: 0 <= i < |actions| ==>
         Enabled(states[i], actions[i]) && Readable(states[i].service)
         && states[i + 1] == Next(states[i], actions[i], limit)
  }

  /** A daemon starts with nothing cached over a database it has just opened. */
  predicate Starts(s: System) {
    ValidDb(s.db) && s.service == IDLE_SERVICE
  }

  lemma {:induction false} RunKeepsInvariant(states: seq<System>, actions: seq<Action>, limit: nat, i: nat)
    requires Run(states, actions, limit) && Starts(states[0]) && i < |states|
    ensures Invariant(states[i], limit)
    decreases i
  {
    if i > 0 {
      RunKeepsInvariant(states, actions, limit, i - 1);
      StepKeepsInvariant(states[i - 1], actions[i - 1], limit);
    }
  }

  /** What a service started now would answer. */
  function FreshReply(db: Db, f: ScanFilter, limit: nat): Reply
    requires NonEmptySegments(db.segments)
  {
    ReplyTo(AfterRefresh(IDLE_SERVICE, db), f, false, limit)
  }

  /** The two answers have the same rows, or are no answers for the same reason. */
  predicate SameRows(a: Reply, b: Reply) {
    if a.Answered? && b.Answered? then a.view.rows == b.view.rows else a == b
  }

  /**
   Whatever happened before, a request handled after a refresh is answered with the rows of a freshly
   built engine, however the view came to be there.
   */
  lemma HandleAfterRefreshHasFreshRows(states: seq<System>, actions: seq<Action>, limit: nat, i: nat, f: ScanFilter)
    requires Run(states, actions, limit) && Starts(states[0])
    requires i < |actions| && actions[i].Refresh?
    ensures NonEmptySegments(states[i + 1].db.segments) && Readable(states[i + 1].service)
    ensures SameRows(ReplyTo(states[i + 1].service, f, false, limit), FreshReply(states[i + 1].db, f, limit))
  {
    RunKeepsInvariant(states, actions, limit, i);
    RunKeepsInvariant(states, actions, limit, i + 1);
    var s := states[i + 1];
    CopyIsCurrent(s.service.latest.value.refreshed, s.db);
  }

  // ---------------------------------------------------------------------------
  // Projections
  // ---------------------------------------------------------------------------

  /**
   While no write loses work, the projector has seen only work of the last refresh, whose work is still
   in the database, and every projection is of its view's rows.
   */
  predicate Projected(s: System) {
    && Remembers(s.service.projector, s.db.files)
    && (s.service.latest.None? ==> s.service.projector.seen == {})
    && (s.service.latest.Some? ==>
          var work := WorkOf(AllRows(s.service.latest.value.refreshed));
          s.service.projector.seen <= work <= WorkIn(s.db))
    && (forall f :: f in s.service.views ==> s.service.views[f].projected == WorkOf(s.service.views[f].rows))
  }

  lemma WriteKeepsProjected(s: System, step: DbStep, limit: nat)
    requires Invariant(s, limit) && Projected(s) && Enabled(s, Write(step)) && KeepsWork(s.db, step)
    ensures Projected(Next(s, Write(step), limit))
  {
    DbStepKeepsValid(s.db, step);
    WorkGrows(s.db, step);
  }

  /** A projector that has seen only work of the copy gives a view its own projection, and stays so. */
  lemma BuiltViewIsOfItsRows(p: Projector, r: Refreshed, f: ScanFilter, files: map<nat, seq<Event>>)
    requires Remembers(p, files) && Listed(r.segments, files) && p.seen <= WorkOf(AllRows(r))
    ensures ViewOf(p, r, f) == View(Scan(r, f), WorkOf(Scan(r, f)))
    ensures Remembers(ProjectorAfter(p, r, f), files) && ProjectorAfter(p, r, f).seen <= WorkOf(AllRows(r))
  {
    FeedEffect(p, r, files);
    if Unfiltered(f) {
      FilterKeepsAll(AllRows(r), Matching(f));
    }
  }

  lemma HandleKeepsProjected(s: System, f: ScanFilter, cancelled: bool, limit: nat)
    requires Invariant(s, limit) && Projected(s)
    ensures Projected(Next(s, Handle(f, cancelled), limit))
  {
    if s.service.latest.Some? {
      BuiltViewIsOfItsRows(s.service.projector, s.service.latest.value.refreshed, f, s.db.files);
    }
  }

  lemma StepKeepsProjected(s: System, a: Action, limit: nat)
    requires Invariant(s, limit) && Projected(s) && Enabled(s, a)
    requires a.Write? ==> KeepsWork(s.db, a.step)
    ensures Projected(Next(s, a, limit))
  {
    match a
    case Write(step) => WriteKeepsProjected(s, step, limit);
    case Handle(f, cancelled) => HandleKeepsProjected(s, f, cancelled, limit);
    case _ =>
  }

  /** No write of the run loses work. */
  predicate LosesNoWork(states: seq<System>, actions: seq<Action>, limit: nat)
    requires Run(states, actions, limit)
  {
    forall i :: 0 <= i < |actions| && actions[i].Write? ==> KeepsWork(states[i].db, actions[i].step)
  }

  lemma {:induction false} RunKeepsProjected(states: seq<System>, actions: seq<Action>, limit: nat, i: nat)
    requires Run(states, actions, limit) && Starts(states[0]) && i < |states| && LosesNoWork(states, actions, limit)
    ensures Projected(states[i])
    decreases i
  {
    if i > 0 {
      RunKeepsProjected(states, actions, limit, i - 1);
      RunKeepsInvariant(states, actions, limit, i - 1);
      StepKeepsProjected(states[i - 1], actions[i - 1], limit);
    }
  }

  /**
   A view that has to be built answers as a freshly built engine if and only if its scope is filtered or
   too large, the feed restarts the projector, or the projector has seen only work still in the database.
   */
  lemma BuiltReplyIsFreshExactlyWhen(s: System, f: ScanFilter, limit: nat)
    requires Invariant(s, limit) && Remembers(s.service.projector, s.db.files)
    requires s.service.latest == Some(LatestOf(s.db)) && f !in s.service.views
    ensures ReplyTo(s.service, f, false, limit) == FreshReply(s.db, f, limit) <==>
      || !Unfiltered(f)
      || ScopeRows(RefreshedOf(s.db), FactsOfRefresh(RefreshedOf(s.db)), f) > limit
      || Restarts(s.service.projector, RefreshedOf(s.db))
      || s.service.projector.seen <= WorkIn(s.db)
  {
    var r := RefreshedOf(s.db);
    BuiltViewIsOfItsRows(NEW_PROJECTOR, RefreshedOf(s.db), f, s.db.files);
    if Unfiltered(f) {
      FilterKeepsAll(AllRows(r), Matching(f));
      ProjectionAgreesExactlyWhen(s.service.projector, r, s.db.files);
    }
  }

  lemma CachedReplyIsFresh(s: System, f: ScanFilter, limit: nat)
    requires Invariant(s, limit) && Projected(s)
    requires s.service.latest == Some(LatestOf(s.db)) && f in s.service.views
    ensures ReplyTo(s.service, f, false, limit) == FreshReply(s.db, f, limit)
  {
    BuiltViewIsOfItsRows(NEW_PROJECTOR, RefreshedOf(s.db), f, s.db.files);
  }

  /** In every run that loses no work, rows and projection are those of a freshly built engine. */
  lemma HandleAfterRefreshIsFresh(states: seq<System>, actions: seq<Action>, limit: nat, i: nat, f: ScanFilter)
    requires Run(states, actions, limit) && Starts(states[0]) && LosesNoWork(states, actions, limit)
    requires i < |actions| && actions[i].Refresh?
    ensures NonEmptySegments(states[i + 1].db.segments) && Readable(states[i + 1].service)
    ensures ReplyTo(states[i + 1].service, f, false, limit) == FreshReply(states[i + 1].db, f, limit)
  {
    RunKeepsInvariant(states, actions, limit, i);
    RunKeepsInvariant(states, actions, limit, i + 1);
    RunKeepsProjected(states, actions, limit, i + 1);
    var s := states[i + 1];
    CopyIsCurrent(s.service.latest.value.refreshed, s.db);
    if f in s.service.views {
      CachedReplyIsFresh(s, f, limit);
    } else {
      BuiltReplyIsFreshExactlyWhen(s, f, limit);
    }
  }

  // ---------------------------------------------------------------------------
  // The limit on views
  // ---------------------------------------------------------------------------

  lemma WorkWithinScopeRows(r: Refreshed, f: ScanFilter)
    requires NonEmptySegments(r.segments)
    ensures var limit := ScopeRows(r, FactsOfRefresh(r), f);
      && Count(Scan(r, f), SelectedWork(f)) <= limit
      && (Covered(r, f) ==> |Scan(r, f)| <= limit)
  {
    ScopeRowsCoverExactlyWhen(r, f);
    FilterAbsorbs(AllRows(r), Matching(f), SelectedWork(f));
  }

  /** No cached view ever holds more work than the limit; nor more rows, where `scope_rows` is an upper bound. */
  lemma ViewsStayWithinLimit(states: seq<System>, actions: seq<Action>, limit: nat, i: nat, f: ScanFilter)
    requires Run(states, actions, limit) && Starts(states[0]) && i < |states|
    requires f in states[i].service.views
    ensures states[i].service.latest.Some?
    ensures var rows := states[i].service.views[f].rows;
      && Count(rows, SelectedWork(f)) <= limit
      && (Covered(states[i].service.latest.value.refreshed, f) ==> |rows| <= limit)
  {
    RunKeepsInvariant(states, actions, limit, i);
    WorkWithinScopeRows(states[i].service.latest.value.refreshed, f);
  }

  /** A service just started, after one refresh and one request. */
  function AfterFirstRequest(db: Db, f: ScanFilter, limit: nat): Service
    requires ValidDb(db)
  {
    AfterHandle(AfterRefresh(IDLE_SERVICE, db), f, false, limit)
  }

  /**
   Views keep within the limit, whatever it is set to, if and only if `scope_rows` is an upper bound;
   where it is not, setting the limit to what it reckons gives a view above it.
   */
  lemma ViewWithinLimitExactlyWhen(db: Db, f: ScanFilter)
    requires ValidDb(db)
    ensures (forall limit: nat :: f in AfterFirstRequest(db, f, limit).views ==>
               |AfterFirstRequest(db, f, limit).views[f].rows| <= limit)
      <==> Covered(RefreshedOf(db), f)
    ensures var limit := ScopeRows(RefreshedOf(db), FactsOfRefresh(RefreshedOf(db)), f);
      !Covered(RefreshedOf(db), f) ==>
        && f in AfterFirstRequest(db, f, limit).views
        && |AfterFirstRequest(db, f, limit).views[f].rows| > limit
  {
    var r := RefreshedOf(db);
    ScopeRowsCoverExactlyWhen(r, f);
    var reckoned := ScopeRows(r, FactsOfRefresh(r), f);
    assert f in AfterFirstRequest(db, f, reckoned).views;
    assert AfterFirstRequest(db, f, reckoned).views[f].rows == Scan(r, f);
  }
}
