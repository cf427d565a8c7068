/**
 The timeline: `render_timeline` (crates/attempt/src/cmd_query.rs) over a projection, and
 `trim_projection` (crates/attempt/src/read_service.rs), which ships only the newest sessions of it.
 A printed line is a value that holds everything its text is made from, so equal values print the
 same text.
 */
module Timeline {
  import opened Wrappers
  import opened Sequences
  import opened Sorting

  type Id = nat

  /** `text` stands for the fields that are only printed. */
  datatype Session = Session(id: Id, startedAt: int, promptCount: nat, toolCallCount: nat, text: string)
  datatype Turn = Turn(id: Id, sessionId: Id, index: nat, text: string)
  datatype Attempt = Attempt(id: Id, turnId: Id, sessionId: Id, index: nat, toolCallIds: seq<Id>,
                             commitShas: seq<string>, text: string)
  datatype ToolCall = ToolCall(id: Id, sessionId: Id, text: string)
  datatype Handoff = Handoff(text: string)
  /** An entity the timeline does not print but the projection carries. */
  datatype Entity = Entity(sessionId: Id, text: string)

  datatype Projection = Projection(
    version: string,
    sessions: seq<Session>,
    turns: seq<Turn>,
    toolCalls: seq<ToolCall>,
    attempts: seq<Attempt>,
    signals: seq<Entity>,
    commits: seq<Entity>,
    handoffs: seq<Handoff>,
    edges: seq<Entity>,
    workUnits: seq<Entity>,
    decisions: seq<Entity>,
    conflicts: seq<Entity>)

  datatype Totals = Totals(sessions: nat, turns: nat, attempts: nat, handoffs: nat, listed: Option<nat>, events: nat)

  datatype Line =
    | NoSessions(events: nat)
    | NothingToList(sessions: nat)
    | CheckWiring
    | Header(sessions: nat, turns: nat, attempts: nat, handoffs: nat, events: nat, version: string)
    | Empty
    | SessionLine(session: Session)
    | TurnLine(turn: Turn)
    | AttemptLine(attempt: Attempt)
    | CommitLine(shas: seq<string>)
    | ToolLine(call: ToolCall)
    | More(count: nat)
    | HandoffLine(handoff: Handoff)

  // ---------------------------------------------------------------------------
  // What the two functions select by
  // ---------------------------------------------------------------------------

  function Eligible(all: bool): Session -> bool {
    (s: Session) => all || s.promptCount > 0 || s.toolCallCount > 0
  }

  /** `Reverse(started_at)`. */
  function NewestFirst(): Session -> int {
    (s: Session) => -s.startedAt
  }

  function TurnIndex(): Turn -> int {
    (t: Turn) => t.index
  }

  function AttemptIndex(): Attempt -> int {
    (a: Attempt) => a.index
  }

  function OfSession(id: Id): Turn -> bool {
    (t: Turn) => t.sessionId == id
  }

  function OfTurn(id: Id): Attempt -> bool {
    (a: Attempt) => a.turnId == id
  }

  function Take<T>(xs: seq<T>, n: nat): seq<T> {
    if n < |xs| then xs[..n] else xs
  }

  // ---------------------------------------------------------------------------
  // Rendering, as a function to lines
  // ---------------------------------------------------------------------------

  function FindCall(calls: seq<ToolCall>, id: Id): Option<ToolCall> {
    if calls == [] then None else if calls[0].id == id then Some(calls[0]) else FindCall(calls[1..], id)
  }

  function ToolLines(calls: seq<ToolCall>, ids: seq<Id>): seq<Line> {
    if ids == [] then []
    else
      var c := FindCall(calls, ids[0]);
      (if c.Some? then [ToolLine(c.value)] else []) + ToolLines(calls, ids[1..])
  }

  function OneAttempt(p: Projection, a: Attempt, tools: bool): seq<Line> {
    [AttemptLine(a)]
    + (if a.commitShas == [] then [] else [CommitLine(a.commitShas)])
    + (if tools then ToolLines(p.toolCalls, a.toolCallIds) else [])
  }

  function AttemptLines(p: Projection, attempts: seq<Attempt>, tools: bool): seq<Line> {
    if attempts == [] then [] else OneAttempt(p, attempts[0], tools) + AttemptLines(p, attempts[1..], tools)
  }

  function OneTurn(p: Projection, t: Turn, tools: bool): seq<Line> {
    [TurnLine(t)] + AttemptLines(p, SortBy(Filter(p.attempts, OfTurn(t.id)), AttemptIndex()), tools)
  }

  function TurnLines(p: Projection, turns: seq<Turn>, tools: bool): seq<Line> {
    if turns == [] then [] else OneTurn(p, turns[0], tools) + TurnLines(p, turns[1..], tools)
  }

  function OneSession(p: Projection, s: Session, tools: bool): seq<Line> {
    [Empty] + [SessionLine(s)] + TurnLines(p, SortBy(Filter(p.turns, OfSession(s.id)), TurnIndex()), tools)
  }

  function SessionLines(p: Projection, sessions: seq<Session>, tools: bool): seq<Line> {
    if sessions == [] then [] else OneSession(p, sessions[0], tools) + SessionLines(p, sessions[1..], tools)
  }

  function HandoffLines(handoffs: seq<Handoff>): seq<Line> {
    if handoffs == [] then [] else [HandoffLine(handoffs[0])] + HandoffLines(handoffs[1..])
  }

  function Footer(p: Projection, listed: nat, limit: nat): seq<Line> {
    (if listed > limit then [Empty, More(listed - limit)] else [])
    + (if p.handoffs == [] then [] else [Empty] + HandoffLines(p.handoffs))
  }

  function TimelineLines(p: Projection, totals: Totals, limit: nat, tools: bool, all: bool): seq<Line> {
    var sessions := Filter(p.sessions, Eligible(all));
    if sessions == [] then
      [if totals.sessions == 0 then NoSessions(totals.events) else NothingToList(totals.sessions), CheckWiring]
    else
      Listing(HeaderOf(totals, p.version), SessionLines(p, Take(SortBy(sessions, NewestFirst()), limit), tools),
              Footer(p, if totals.listed.Some? then totals.listed.value else |sessions|, limit))
  }

  function HeaderOf(totals: Totals, version: string): Line {
    Header(totals.sessions, totals.turns, totals.attempts, totals.handoffs, totals.events, version)
  }

  function Listing(header: Line, sessions: seq<Line>, footer: seq<Line>): seq<Line> {
    [header] + sessions + footer
  }

  // ---------------------------------------------------------------------------
  // Rendering, as the source does it
  // ---------------------------------------------------------------------------

  method PrintTools(calls: seq<ToolCall>, ids: seq<Id>) returns (out: seq<Line>)
    ensures out == ToolLines(calls, ids)
  {
    out := [];
    for i := 0 to |ids|
      invariant ToolLines(calls, ids) == out + ToolLines(calls, ids[i..])
    {
      assert ids[i..][1..] == ids[i + 1..];
      var found := FindCall(calls, ids[i]);
      if found.Some? {
        out := out + [ToolLine(found.value)];
      }
    }
  }

  method PrintAttempt(p: Projection, a: Attempt, tools: bool) returns (out: seq<Line>)
    ensures out == OneAttempt(p, a, tools)
  {
    out := [AttemptLine(a)];
    if a.commitShas != [] {
      out := out + [CommitLine(a.commitShas)];
    }
    if tools {
      var lines := PrintTools(p.toolCalls, a.toolCallIds);
      out := out + lines;
    }
  }

  method PrintTurn(p: Projection, t: Turn, tools: bool) returns (out: seq<Line>)
    ensures out == OneTurn(p, t, tools)
  {
    out := [TurnLine(t)];
    var attempts := SortBy(Filter(p.attempts, OfTurn(t.id)), AttemptIndex());
    for i := 0 to |attempts|
      invariant OneTurn(p, t, tools) == out + AttemptLines(p, attempts[i..], tools)
    {
      assert attempts[i..][1..] == attempts[i + 1..];
      var lines := PrintAttempt(p, attempts[i], tools);
      Regroup(out, lines, AttemptLines(p, attempts[i + 1..], tools));
      out := out + lines;
    }
  }

  method PrintSession(p: Projection, s: Session, tools: bool) returns (out: seq<Line>)
    ensures out == OneSession(p, s, tools)
  {
    out := [Empty];
    out := out + [SessionLine(s)];
    var turns := SortBy(Filter(p.turns, OfSession(s.id)), TurnIndex());
    for i := 0 to |turns|
      invariant OneSession(p, s, tools) == out + TurnLines(p, turns[i..], tools)
    {
      assert turns[i..][1..] == turns[i + 1..];
      var lines := PrintTurn(p, turns[i], tools);
      Regroup(out, lines, TurnLines(p, turns[i + 1..], tools));
      out := out + lines;
    }
  }

  method PrintSessions(p: Projection, shown: seq<Session>, tools: bool) returns (out: seq<Line>)
    ensures out == SessionLines(p, shown, tools)
  {
    out := [];
    for i := 0 to |shown|
      invariant SessionLines(p, shown, tools) == out + SessionLines(p, shown[i..], tools)
    {
      assert shown[i..][1..] == shown[i + 1..];
      var lines := PrintSession(p, shown[i], tools);
      Regroup(out, lines, SessionLines(p, shown[i + 1..], tools));
      out := out + lines;
    }
  }

  method PrintFooter(p: Projection, listed: nat, limit: nat) returns (out: seq<Line>)
    ensures out == Footer(p, listed, limit)
  {
    out := [];
    if listed > limit {
      out := [Empty, More(listed - limit)];
    }
    if p.handoffs != [] {
      ghost var before := out;
      out := out + [Empty];
      for i := 0 to |p.handoffs|
        invariant before + ([Empty] + HandoffLines(p.handoffs)) == out + HandoffLines(p.handoffs[i..])
      {
        assert p.handoffs[i..][1..] == p.handoffs[i + 1..];
        out := out + [HandoffLine(p.handoffs[i])];
      }
      assert p.handoffs[|p.handoffs|..] == [];
    }
    assert out + [] == out;
  }

  /** `render_timeline`. */
  method RenderTimeline(p: Projection, totals: Totals, limit: nat, tools: bool, all: bool) returns (out: seq<Line>)
    ensures out == TimelineLines(p, totals, limit, tools, all)
  {
    var sessions := Filter(p.sessions, Eligible(all));
    if sessions == [] {
      out := [if totals.sessions == 0 then NoSessions(totals.events) else NothingToList(totals.sessions)];
      out := out + [CheckWiring];
      return;
    }
    SortBySorts(sessions, NewestFirst());
    sessions := SortBy(sessions, NewestFirst());
    var shown := Take(sessions, limit);
    out := [Header(totals.sessions, totals.turns, totals.attempts, totals.handoffs, totals.events, p.version)];
    var lines := PrintSessions(p, shown, tools);
    out := out + lines;
    var footer := PrintFooter(p, if totals.listed.Some? then totals.listed.value else |sessions|, limit);
    out := out + footer;
  }

  // ---------------------------------------------------------------------------
  // Trimming
  // ---------------------------------------------------------------------------

  function Ids(sessions: seq<Session>): (ids: set<Id>)
    ensures forall s :: s in sessions ==> s.id in ids
  {
    set s | s in sessions :: s.id
  }

  function SessionIn(keep: set<Id>): Session -> bool {
    (s: Session) => s.id in keep
  }

  function TurnIn(keep: set<Id>): Turn -> bool {
    (t: Turn) => t.sessionId in keep
  }

  function CallIn(keep: set<Id>): ToolCall -> bool {
    (c: ToolCall) => c.sessionId in keep
  }

  function AttemptIn(keep: set<Id>): Attempt -> bool {
    (a: Attempt) => a.sessionId in keep
  }

  function EntityIn(keep: set<Id>): Entity -> bool {
    (e: Entity) => e.sessionId in keep
  }

  /** The sessions of the newest `limit` that the timeline would show. */
  function Kept(p: Projection, limit: nat, all: bool): set<Id> {
    Ids(Take(SortBy(Filter(p.sessions, Eligible(all)), NewestFirst()), limit))
  }

  function Restricted(p: Projection, keep: set<Id>): Projection {
    p.(sessions := Filter(p.sessions, SessionIn(keep)),
       turns := Filter(p.turns, TurnIn(keep)),
       toolCalls := Filter(p.toolCalls, CallIn(keep)),
       attempts := Filter(p.attempts, AttemptIn(keep)),
       signals := Filter(p.signals, EntityIn(keep)),
       commits := Filter(p.commits, EntityIn(keep)),
       edges := [], workUnits := [], decisions := [], conflicts := [])
  }

  /** `trim_projection`. */
  method TrimProjection(p: Projection, limit: Option<nat>, all: bool) returns (out: Projection, listed: nat)
    ensures listed == |Filter(p.sessions, Eligible(all))|
    ensures out == if limit.None? then p else Restricted(p, Kept(p, limit.value, all))
  {
    var sessions := Filter(p.sessions, Eligible(all));
    listed := |sessions|;
    if limit.None? {
      return p, listed;
    }
    sessions := SortBy(sessions, NewestFirst());
    var keep := Ids(Take(sessions, limit.value));
    out := p;
    out := out.(sessions := Filter(out.sessions, SessionIn(keep)));
    out := out.(turns := Filter(out.turns, TurnIn(keep)));
    out := out.(toolCalls := Filter(out.toolCalls, CallIn(keep)));
    out := out.(attempts := Filter(out.attempts, AttemptIn(keep)));
    out := out.(signals := Filter(out.signals, EntityIn(keep)));
    out := out.(commits := Filter(out.commits, EntityIn(keep)));
    out := out.(edges := []);
    out := out.(workUnits := []);
    out := out.(decisions := []);
    out := out.(conflicts := []);
  }

  function TotalsOf(p: Projection, events: nat): Totals {
    Totals(|p.sessions|, |p.turns|, |p.attempts|, |p.handoffs|, None, events)
  }

  /** The counts of the whole projection, which travel with the trimmed one. */
  function ShippedTotals(p: Projection, listed: nat, events: nat): Totals {
    TotalsOf(p, events).(listed := Some(listed))
  }

  // ---------------------------------------------------------------------------
  // Trimming does not change the lines
  // ---------------------------------------------------------------------------

  /** An attempt is in its turn's session, and a tool call in the session of the attempts that name it. */
  predicate WellFormed(p: Projection) {
    && (forall t, a :: t in p.turns && a in p.attempts && a.turnId == t.id ==> a.sessionId == t.sessionId)
    && (forall a, c :: a in p.attempts && c in p.toolCalls && c.id in a.toolCallIds ==> c.sessionId == a.sessionId)
  }

  lemma {:induction false} FindAmongKept(calls: seq<ToolCall>, id: Id, keep: set<Id>)
    requires forall c :: c in calls && c.id == id ==> c.sessionId in keep
    ensures FindCall(Filter(calls, CallIn(keep)), id) == FindCall(calls, id)
    decreases |calls|
  {
    if calls != [] {
      FindAmongKept(calls[1..], id, keep);
      var rest := Filter(calls[1..], CallIn(keep));
      if calls[0].sessionId in keep {
        assert ([calls[0]] + rest)[1..] == rest;
      } else {
        assert [] + rest == rest;
      }
    }
  }

  lemma {:induction false} ToolLinesOfKept(calls: seq<ToolCall>, ids: seq<Id>, keep: set<Id>)
    requires forall c :: c in calls && c.id in ids ==> c.sessionId in keep
    ensures ToolLines(Filter(calls, CallIn(keep)), ids) == ToolLines(calls, ids)
    decreases |ids|
  {
    if ids != [] {
      FindAmongKept(calls, ids[0], keep);
      ToolLinesOfKept(calls, ids[1..], keep);
    }
  }

  lemma {:induction false} AttemptLinesOfKept(p: Projection, attempts: seq<Attempt>, tools: bool, keep: set<Id>)
    requires WellFormed(p)
    requires forall a :: a in attempts ==> a in p.attempts && a.sessionId in keep
    ensures AttemptLines(Restricted(p, keep), attempts, tools) == AttemptLines(p, attempts, tools)
    decreases |attempts|
  {
    if attempts != [] {
      assert attempts[0] in p.attempts;
      ToolLinesOfKept(p.toolCalls, attempts[0].toolCallIds, keep);
      AttemptLinesOfKept(p, attempts[1..], tools, keep);
    }
  }

  lemma AttemptsOfKeptTurn(p: Projection, t: Turn, keep: set<Id>)
    requires WellFormed(p) && t in p.turns && t.sessionId in keep
    ensures Filter(Restricted(p, keep).attempts, OfTurn(t.id)) == Filter(p.attempts, OfTurn(t.id))
    ensures forall a :: a in SortBy(Filter(p.attempts, OfTurn(t.id)), AttemptIndex()) ==>
      a in p.attempts && a.sessionId in keep
  {
    FilterAbsorbs(p.attempts, AttemptIn(keep), OfTurn(t.id));
    var mine := Filter(p.attempts, OfTurn(t.id));
    SortBySorts(mine, AttemptIndex());
    forall a | a in SortBy(mine, AttemptIndex())
      ensures a in p.attempts && a.sessionId in keep
    {
      assert a in multiset(mine);
    }
  }

  lemma {:induction false} TurnLinesOfKept(p: Projection, turns: seq<Turn>, tools: bool, keep: set<Id>)
    requires WellFormed(p)
    requires forall t :: t in turns ==> t in p.turns && t.sessionId in keep
    ensures TurnLines(Restricted(p, keep), turns, tools) == TurnLines(p, turns, tools)
    decreases |turns|
  {
    if turns != [] {
      assert turns[0] in p.turns;
      AttemptsOfKeptTurn(p, turns[0], keep);
      AttemptLinesOfKept(p, SortBy(Filter(p.attempts, OfTurn(turns[0].id)), AttemptIndex()), tools, keep);
      TurnLinesOfKept(p, turns[1..], tools, keep);
    }
  }

  lemma TurnsOfKeptSession(p: Projection, id: Id, keep: set<Id>)
    requires id in keep
    ensures Filter(Restricted(p, keep).turns, OfSession(id)) == Filter(p.turns, OfSession(id))
    ensures forall t :: t in SortBy(Filter(p.turns, OfSession(id)), TurnIndex()) ==>
      t in p.turns && t.sessionId in keep
  {
    FilterAbsorbs(p.turns, TurnIn(keep), OfSession(id));
    var mine := Filter(p.turns, OfSession(id));
    SortBySorts(mine, TurnIndex());
    forall t | t in SortBy(mine, TurnIndex())
      ensures t in p.turns && t.sessionId in keep
    {
      assert t in multiset(mine);
    }
  }

  lemma {:induction false} SessionLinesOfKept(p: Projection, sessions: seq<Session>, tools: bool, keep: set<Id>)
    requires WellFormed(p)
    requires forall s :: s in sessions ==> s.id in keep
    ensures SessionLines(Restricted(p, keep), sessions, tools) == SessionLines(p, sessions, tools)
    decreases |sessions|
  {
    if sessions != [] {
      assert sessions[0] in sessions;
      TurnsOfKeptSession(p, sessions[0].id, keep);
      TurnLinesOfKept(p, SortBy(Filter(p.turns, OfSession(sessions[0].id)), TurnIndex()), tools, keep);
      SessionLinesOfKept(p, sessions[1..], tools, keep);
    }
  }

  lemma TakeOfFilter<T>(xs: seq<T>, keep: T -> bool, n: nat)
    requires forall x :: x in Take(xs, n) ==> keep(x)
    ensures Take(Filter(xs, keep), n) == Take(xs, n)
  {
    if n < |xs| {
      assert xs == xs[..n] + xs[n..];
      FilterOfConcat(xs[..n], xs[n..], keep);
      FilterKeepsAll(xs[..n], keep);
    } else {
      FilterKeepsAll(xs, keep);
    }
  }

  /** The sessions shown are the same, in the same order, whether the list was trimmed first or not. */
  lemma SameSessionsShown(p: Projection, limit: nat, all: bool)
    ensures var keep := Kept(p, limit, all);
      Take(SortBy(Filter(Restricted(p, keep).sessions, Eligible(all)), NewestFirst()), limit)
        == Take(SortBy(Filter(p.sessions, Eligible(all)), NewestFirst()), limit)
  {
    var keep := Kept(p, limit, all);
    var listed := Filter(p.sessions, Eligible(all));
    FiltersCommute(p.sessions, SessionIn(keep), Eligible(all));
    SortCommutesWithFilter(listed, NewestFirst(), SessionIn(keep));
    TakeOfFilter(SortBy(listed, NewestFirst()), SessionIn(keep), limit);
  }

  /** With a limit of at least one, something eligible is left after trimming if there was anything. */
  lemma EligibleLeft(p: Projection, limit: nat, all: bool)
    ensures var keep := Kept(p, limit, all);
      Filter(Restricted(p, keep).sessions, Eligible(all)) == []
      <==> limit == 0 || Filter(p.sessions, Eligible(all)) == []
  {
    var keep := Kept(p, limit, all);
    var listed := Filter(p.sessions, Eligible(all));
    FiltersCommute(p.sessions, SessionIn(keep), Eligible(all));
    if limit > 0 && listed != [] {
      NewestIsKept(listed, limit);
    } else if limit == 0 {
      assert keep == {};
    }
  }

  lemma NewestIsKept(listed: seq<Session>, limit: nat)
    requires limit > 0 && listed != []
    ensures Filter(listed, SessionIn(Ids(Take(SortBy(listed, NewestFirst()), limit)))) != []
  {
    var sorted := SortBy(listed, NewestFirst());
    SortBySorts(listed, NewestFirst());
    var newest := sorted[0];
    assert newest in Take(sorted, limit);
    assert newest in multiset(sorted);
    assert newest in listed;
    assert newest in Filter(listed, SessionIn(Ids(Take(sorted, limit))));
  }

  /**
   Rendering the trimmed projection with the shipped totals prints the lines of the whole one if and
   only if the limit is at least one or there is nothing to list. Session ids need not be unique.
   */
  lemma TrimmedTimelineIsTheSame(p: Projection, limit: nat, tools: bool, all: bool, events: nat)
    requires WellFormed(p)
    ensures var listed := |Filter(p.sessions, Eligible(all))|;
      TimelineLines(Restricted(p, Kept(p, limit, all)), ShippedTotals(p, listed, events), limit, tools, all)
        == TimelineLines(p, TotalsOf(p, events), limit, tools, all)
      <==> limit >= 1 || listed == 0
  {
    if limit >= 1 && Filter(p.sessions, Eligible(all)) != [] {
      ListedTimelineIsTheSame(p, limit, tools, all, events);
    } else {
      EligibleLeft(p, limit, all);
    }
  }

  lemma ListedTimelineIsTheSame(p: Projection, limit: nat, tools: bool, all: bool, events: nat)
    requires WellFormed(p) && limit >= 1 && Filter(p.sessions, Eligible(all)) != []
    ensures TimelineLines(Restricted(p, Kept(p, limit, all)),
                          ShippedTotals(p, |Filter(p.sessions, Eligible(all))|, events), limit, tools, all)
      == TimelineLines(p, TotalsOf(p, events), limit, tools, all)
  {
    var trimmed, listed := Restricted(p, Kept(p, limit, all)), |Filter(p.sessions, Eligible(all))|;
    var shown := Take(SortBy(Filter(p.sessions, Eligible(all)), NewestFirst()), limit);
    EligibleLeft(p, limit, all);
    SameSessionsShown(p, limit, all);
    SessionLinesOfKept(p, shown, tools, Kept(p, limit, all));
    assert Footer(trimmed, listed, limit) == Footer(p, listed, limit);
  }

  /** The whole path: what the daemon ships, rendered by the client, against rendering in one process. */
  method TimelineViaDaemon(p: Projection, limit: nat, tools: bool, all: bool, events: nat) returns (out: seq<Line>)
    requires WellFormed(p)
    ensures limit >= 1 ==> out == TimelineLines(p, TotalsOf(p, events), limit, tools, all)
  {
    var trimmed, listed := TrimProjection(p, Some(limit), all);
    out := RenderTimeline(trimmed, ShippedTotals(p, listed, events), limit, tools, all);
    TrimmedTimelineIsTheSame(p, limit, tools, all, events);
  }
}
