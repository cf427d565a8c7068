/**
 What a reader finds in the lines of the timeline, said without the keys and filters that made them:
 which sessions, turns, attempts and tool calls are there, and in which order.
 */
module TimelineReading {
  import opened Wrappers
  import opened Sequences
  import opened Sorting
  import opened Timeline

  // ---------------------------------------------------------------------------
  // Reading the lines
  // ---------------------------------------------------------------------------

  /** What `read` finds on the lines, in order. */
  function Collect<T>(lines: seq<Line>, read: Line -> Option<T>): seq<T> {
    if lines == [] then [] else Found(read(lines[0])) + Collect(lines[1..], read)
  }

  function Found<T>(x: Option<T>): seq<T> {
    if x.Some? then [x.value] else []
  }

  function ReadSession(): Line -> Option<Session> {
    (line: Line) => if line.SessionLine? then Some(line.session) else None
  }

  function SessionsIn(lines: seq<Line>): seq<Session> {
    Collect(lines, ReadSession())
  }

  function ReadTurn(): Line -> Option<Turn> {
    (line: Line) => if line.TurnLine? then Some(line.turn) else None
  }

  function TurnsIn(lines: seq<Line>): seq<Turn> {
    Collect(lines, ReadTurn())
  }

  function ReadAttempt(): Line -> Option<Attempt> {
    (line: Line) => if line.AttemptLine? then Some(line.attempt) else None
  }

  function AttemptsIn(lines: seq<Line>): seq<Attempt> {
    Collect(lines, ReadAttempt())
  }

  function ReadCall(): Line -> Option<ToolCall> {
    (line: Line) => if line.ToolLine? then Some(line.call) else None
  }

  function CallsIn(lines: seq<Line>): seq<ToolCall> {
    Collect(lines, ReadCall())
  }

  lemma {:induction false} CollectOfConcat<T>(a: seq<Line>, b: seq<Line>, read: Line -> Option<T>)
    ensures Collect(a + b, read) == Collect(a, read) + Collect(b, read)
    decreases |a|
  {
    if a == [] {
      assert a + b == b;
    } else {
      assert (a + b)[1..] == a[1..] + b && (a + b)[0] == a[0];
      CollectOfConcat(a[1..], b, read);
      Regroup(Found(read(a[0])), Collect(a[1..], read), Collect(b, read));
    }
  }

  lemma ReadingOfConcat(a: seq<Line>, b: seq<Line>)
    ensures SessionsIn(a + b) == SessionsIn(a) + SessionsIn(b)
    ensures TurnsIn(a + b) == TurnsIn(a) + TurnsIn(b)
    ensures AttemptsIn(a + b) == AttemptsIn(a) + AttemptsIn(b)
    ensures CallsIn(a + b) == CallsIn(a) + CallsIn(b)
  {
    CollectOfConcat(a, b, ReadSession());
    CollectOfConcat(a, b, ReadTurn());
    CollectOfConcat(a, b, ReadAttempt());
    CollectOfConcat(a, b, ReadCall());
  }

  // ---------------------------------------------------------------------------
  // Attempts and tool calls
  // ---------------------------------------------------------------------------

  /** Lines that show neither a session, nor a turn, nor an attempt. */
  predicate Inner(lines: seq<Line>) {
    forall i :: 0 <= i < |lines| ==> !lines[i].SessionLine? && !lines[i].TurnLine? && !lines[i].AttemptLine?
  }

  lemma {:induction false} InnerReadsNothing(lines: seq<Line>)
    requires Inner(lines)
    ensures SessionsIn(lines) == [] && TurnsIn(lines) == [] && AttemptsIn(lines) == []
    decreases |lines|
  {
    if lines != [] {
      InnerReadsNothing(lines[1..]);
    }
  }

  /** The first call with the id. */
  predicate IsFirstCall(calls: seq<ToolCall>, id: Id, c: Option<ToolCall>) {
    match c
    case None => forall i :: 0 <= i < |calls| ==> calls[i].id != id
    case Some(call) =>
      exists i :: 0 <= i < |calls| && calls[i] == call && call.id == id && forall j :: 0 <= j < i ==> calls[j].id != id
  }

  lemma {:induction false} FindCallFinds(calls: seq<ToolCall>, id: Id)
    ensures IsFirstCall(calls, id, FindCall(calls, id))
    decreases |calls|
  {
    if calls != [] && calls[0].id != id {
      var rest := calls[1..];
      FindCallFinds(rest, id);
      if FindCall(rest, id).Some? {
        var i :| 0 <= i < |rest| && rest[i] == FindCall(rest, id).value && forall j :: 0 <= j < i ==> rest[j].id != id;
        assert calls[i + 1] == rest[i];
        assert forall j :: 0 < j < i + 1 ==> calls[j] == rest[j - 1];
      } else {
        assert forall j :: 0 < j < |calls| ==> calls[j] == rest[j - 1];
      }
    } else if calls != [] {
      assert calls[0] == FindCall(calls, id).value;
    }
  }

  lemma {:induction false} ToolLinesReading(calls: seq<ToolCall>, ids: seq<Id>)
    ensures Inner(ToolLines(calls, ids))
    ensures forall c :: c in CallsIn(ToolLines(calls, ids)) ==> c in calls && c.id in ids
    ensures forall i :: 0 <= i < |ids| && FindCall(calls, ids[i]).Some? ==>
      FindCall(calls, ids[i]).value in CallsIn(ToolLines(calls, ids))
    decreases |ids|
  {
    if ids != [] {
      ToolLinesReading(calls, ids[1..]);
      FindCallFinds(calls, ids[0]);
      var c := FindCall(calls, ids[0]);
      var head := if c.Some? then [ToolLine(c.value)] else [];
      ReadingOfConcat(head, ToolLines(calls, ids[1..]));
      assert c.Some? ==> head[1..] == [] && CallsIn(head) == [c.value];
    }
  }

  lemma ToolCallsRead(calls: seq<ToolCall>, ids: seq<Id>, id: Id, c: ToolCall)
    requires id in ids && IsFirstCall(calls, id, Some(c))
    ensures c in CallsIn(ToolLines(calls, ids))
  {
    FindCallFinds(calls, id);
    FirstCallIsUnique(calls, id, c);
    ToolLinesReading(calls, ids);
    var i :| 0 <= i < |ids| && ids[i] == id;
  }

  function CommitLines(a: Attempt): seq<Line> {
    if a.commitShas == [] then [] else [CommitLine(a.commitShas)]
  }

  lemma AttemptParts(p: Projection, a: Attempt, tools: bool)
    ensures var lines, calls := OneAttempt(p, a, tools), if tools then ToolLines(p.toolCalls, a.toolCallIds) else [];
      lines == [AttemptLine(a)] + CommitLines(a) + calls && CallsIn(lines) == CallsIn(calls)
  {
    var calls := if tools then ToolLines(p.toolCalls, a.toolCallIds) else [];
    ReadingOfConcat([AttemptLine(a)] + CommitLines(a), calls);
    ReadingOfConcat([AttemptLine(a)], CommitLines(a));
    ReadingOfOne(AttemptLine(a));
    ReadingOfOne(CommitLine(a.commitShas));
  }

  /**
   Under an attempt: its own line, its commits if it has any, and with `--tools` the first call of each of
   its ids that the projection has, and no other call.
   */
  lemma AttemptReading(p: Projection, a: Attempt, tools: bool)
    ensures var lines := OneAttempt(p, a, tools);
      && |lines| >= 1 && lines[0] == AttemptLine(a) && Inner(lines[1..])
      && (a.commitShas != [] <==> CommitLine(a.commitShas) in lines)
      && (!tools ==> CallsIn(lines) == [])
      && (tools ==> forall c :: c in CallsIn(lines) ==> c in p.toolCalls && c.id in a.toolCallIds)
      && (tools ==> forall id, c: ToolCall :: id in a.toolCallIds && IsFirstCall(p.toolCalls, id, Some(c)) ==> c in CallsIn(lines))
  {
    AttemptParts(p, a, tools);
    ToolLinesReading(p.toolCalls, a.toolCallIds);
    ToolLinesAreTools(p.toolCalls, a.toolCallIds);
    var lines := OneAttempt(p, a, tools);
    assert a.commitShas != [] ==> lines[1] == CommitLine(a.commitShas);
    if tools {
      forall id, c: ToolCall | id in a.toolCallIds && IsFirstCall(p.toolCalls, id, Some(c))
        ensures c in CallsIn(lines)
      {
        ToolCallsRead(p.toolCalls, a.toolCallIds, id, c);
      }
    }
  }

  lemma {:induction false} ToolLinesAreTools(calls: seq<ToolCall>, ids: seq<Id>)
    ensures forall i :: 0 <= i < |ToolLines(calls, ids)| ==> ToolLines(calls, ids)[i].ToolLine?
    decreases |ids|
  {
    if ids != [] {
      ToolLinesAreTools(calls, ids[1..]);
    }
  }

  lemma FirstCallIsUnique(calls: seq<ToolCall>, id: Id, c: ToolCall)
    requires IsFirstCall(calls, id, Some(c)) && IsFirstCall(calls, id, FindCall(calls, id))
    ensures FindCall(calls, id) == Some(c)
  {
    var i :| 0 <= i < |calls| && calls[i] == c && c.id == id && forall j :: 0 <= j < i ==> calls[j].id != id;
    var found := FindCall(calls, id);
    if found.Some? {
      var k :| 0 <= k < |calls| && calls[k] == found.value && found.value.id == id && forall j :: 0 <= j < k ==> calls[j].id != id;
    }
  }

  lemma {:induction false} ToolLinesOfConcat(calls: seq<ToolCall>, a: seq<Id>, b: seq<Id>)
    ensures ToolLines(calls, a + b) == ToolLines(calls, a) + ToolLines(calls, b)
    decreases |a|
  {
    if a == [] {
      assert a + b == b;
    } else {
      assert (a + b)[1..] == a[1..] + b && (a + b)[0] == a[0];
      ToolLinesOfConcat(calls, a[1..], b);
      var c := FindCall(calls, a[0]);
      Regroup(if c.Some? then [ToolLine(c.value)] else [], ToolLines(calls, a[1..]), ToolLines(calls, b));
    }
  }

  // ---------------------------------------------------------------------------
  // Order
  // ---------------------------------------------------------------------------

  lemma {:induction false} FilterSame<T>(xs: seq<T>, f: T -> bool, g: T -> bool)
    requires forall x :: x in xs ==> f(x) == g(x)
    ensures Filter(xs, f) == Filter(xs, g)
    decreases |xs|
  {
    if xs != [] {
      FilterSame(xs[1..], f, g);
    }
  }

  /** A stable sort leaves the elements of one key as they were, however the key is recognised. */
  lemma StableFor<T(!new)>(xs: seq<T>, key: T -> int, k: int, same: T -> bool)
    requires forall x :: same(x) <==> key(x) == k
    ensures Filter(SortBy(xs, key), same) == Filter(xs, same)
  {
    SortByIsStable(xs, key, k);
    FilterSame(SortBy(xs, key), HasKey(key, k), same);
    FilterSame(xs, HasKey(key, k), same);
  }

  function OfThatTurn(id: Id): Attempt -> bool {
    (a: Attempt) => a.turnId == id
  }

  function AtAttemptIndex(k: int): Attempt -> bool {
    (a: Attempt) => a.index == k
  }

  function OfThatSession(id: Id): Turn -> bool {
    (t: Turn) => t.sessionId == id
  }

  function AtTurnIndex(k: int): Turn -> bool {
    (t: Turn) => t.index == k
  }

  /** All attempts of the turn, by index, those of one index as the projection has them. */
  ghost predicate AttemptsByIndex(shown: seq<Attempt>, p: Projection, turn: Id) {
    && (forall i, j :: 0 <= i < j < |shown| ==> shown[i].index <= shown[j].index)
    && multiset(shown) == multiset(Filter(p.attempts, OfThatTurn(turn)))
    && (forall k: int :: Filter(shown, AtAttemptIndex(k)) == Filter(Filter(p.attempts, OfThatTurn(turn)), AtAttemptIndex(k)))
  }

  ghost predicate TurnsByIndex(shown: seq<Turn>, p: Projection, session: Id) {
    && (forall i, j :: 0 <= i < j < |shown| ==> shown[i].index <= shown[j].index)
    && multiset(shown) == multiset(Filter(p.turns, OfThatSession(session)))
    && (forall k: int :: Filter(shown, AtTurnIndex(k)) == Filter(Filter(p.turns, OfThatSession(session)), AtTurnIndex(k)))
  }

  lemma AttemptsAreByIndex(p: Projection, turn: Id)
    ensures AttemptsByIndex(SortBy(Filter(p.attempts, OfTurn(turn)), AttemptIndex()), p, turn)
  {
    var mine, key := Filter(p.attempts, OfTurn(turn)), AttemptIndex();
    var shown := SortBy(mine, key);
    FilterSame(p.attempts, OfTurn(turn), OfThatTurn(turn));
    SortBySorts(mine, key);
    assert forall i, j :: 0 <= i < j < |shown| ==> key(shown[i]) <= key(shown[j]);
    forall k: int
      ensures Filter(shown, AtAttemptIndex(k)) == Filter(mine, AtAttemptIndex(k))
    {
      StableFor(mine, key, k, AtAttemptIndex(k));
    }
  }

  lemma TurnsAreByIndex(p: Projection, session: Id)
    ensures TurnsByIndex(SortBy(Filter(p.turns, OfSession(session)), TurnIndex()), p, session)
  {
    var mine, key := Filter(p.turns, OfSession(session)), TurnIndex();
    var shown := SortBy(mine, key);
    FilterSame(p.turns, OfSession(session), OfThatSession(session));
    SortBySorts(mine, key);
    assert forall i, j :: 0 <= i < j < |shown| ==> key(shown[i]) <= key(shown[j]);
    forall k: int
      ensures Filter(shown, AtTurnIndex(k)) == Filter(mine, AtTurnIndex(k))
    {
      StableFor(mine, key, k, AtTurnIndex(k));
    }
  }

  lemma {:induction false} AttemptLinesReading(p: Projection, attempts: seq<Attempt>, tools: bool)
    ensures var lines := AttemptLines(p, attempts, tools);
      SessionsIn(lines) == [] && TurnsIn(lines) == [] && AttemptsIn(lines) == attempts
    decreases |attempts|
  {
    if attempts != [] {
      AttemptReading(p, attempts[0], tools);
      AttemptLinesReading(p, attempts[1..], tools);
      var first := OneAttempt(p, attempts[0], tools);
      InnerReadsNothing(first[1..]);
      ReadingOfConcat(first, AttemptLines(p, attempts[1..], tools));
    }
  }

  lemma TurnParts(p: Projection, t: Turn, tools: bool)
    ensures var lines := OneTurn(p, t, tools);
      && |lines| >= 1 && lines[0] == TurnLine(t)
      && SessionsIn(lines) == [] && TurnsIn(lines) == [t]
      && AttemptsIn(lines) == SortBy(Filter(p.attempts, OfTurn(t.id)), AttemptIndex())
  {
    var attempts := SortBy(Filter(p.attempts, OfTurn(t.id)), AttemptIndex());
    AttemptLinesReading(p, attempts, tools);
    ReadingOfConcat([TurnLine(t)], AttemptLines(p, attempts, tools));
    ReadingOfOne(TurnLine(t));
  }

  /** Under a turn: its own line, then its attempts by index, and no other turn or session. */
  lemma TurnReading(p: Projection, t: Turn, tools: bool)
    ensures var lines := OneTurn(p, t, tools);
      && |lines| >= 1 && lines[0] == TurnLine(t)
      && SessionsIn(lines) == [] && TurnsIn(lines) == [t]
      && AttemptsByIndex(AttemptsIn(lines), p, t.id)
  {
    TurnParts(p, t, tools);
    AttemptsAreByIndex(p, t.id);
  }

  lemma ReadingOfOne(line: Line)
    ensures SessionsIn([line]) == (if line.SessionLine? then [line.session] else [])
    ensures TurnsIn([line]) == (if line.TurnLine? then [line.turn] else [])
    ensures AttemptsIn([line]) == (if line.AttemptLine? then [line.attempt] else [])
    ensures CallsIn([line]) == (if line.ToolLine? then [line.call] else [])
  {
    CollectOfOne(line, ReadSession());
    CollectOfOne(line, ReadTurn());
    CollectOfOne(line, ReadAttempt());
    CollectOfOne(line, ReadCall());
  }

  lemma CollectOfOne<T>(line: Line, read: Line -> Option<T>)
    ensures Collect([line], read) == Found(read(line))
  {
    assert [line][1..] == [];
  }

  lemma {:induction false} TurnLinesReading(p: Projection, turns: seq<Turn>, tools: bool)
    ensures var lines := TurnLines(p, turns, tools);
      SessionsIn(lines) == [] && TurnsIn(lines) == turns
    decreases |turns|
  {
    if turns != [] {
      TurnParts(p, turns[0], tools);
      TurnLinesReading(p, turns[1..], tools);
      ReadingOfConcat(OneTurn(p, turns[0], tools), TurnLines(p, turns[1..], tools));
    }
  }

  lemma SessionParts(p: Projection, s: Session, tools: bool)
    ensures var lines := OneSession(p, s, tools);
      && |lines| >= 2 && lines[0] == Empty && lines[1] == SessionLine(s)
      && SessionsIn(lines) == [s] && TurnsIn(lines) == SortBy(Filter(p.turns, OfSession(s.id)), TurnIndex())
  {
    var turns := SortBy(Filter(p.turns, OfSession(s.id)), TurnIndex());
    TurnLinesReading(p, turns, tools);
    SessionHead(s);
    ReadingOfConcat([Empty] + [SessionLine(s)], TurnLines(p, turns, tools));
  }

  lemma SessionHead(s: Session)
    ensures SessionsIn([Empty] + [SessionLine(s)]) == [s] && TurnsIn([Empty] + [SessionLine(s)]) == []
  {
    ReadingOfConcat([Empty], [SessionLine(s)]);
    ReadingOfOne(Empty);
    ReadingOfOne(SessionLine(s));
  }

  /** Under a session: an empty line, its own, then its turns by index, and no other session. */
  lemma SessionReading(p: Projection, s: Session, tools: bool)
    ensures var lines := OneSession(p, s, tools);
      && |lines| >= 2 && lines[0] == Empty && lines[1] == SessionLine(s)
      && SessionsIn(lines) == [s] && TurnsByIndex(TurnsIn(lines), p, s.id)
  {
    SessionParts(p, s, tools);
    TurnsAreByIndex(p, s.id);
  }

  lemma {:induction false} SessionLinesReading(p: Projection, sessions: seq<Session>, tools: bool)
    ensures SessionsIn(SessionLines(p, sessions, tools)) == sessions
    decreases |sessions|
  {
    if sessions != [] {
      SessionParts(p, sessions[0], tools);
      SessionLinesReading(p, sessions[1..], tools);
      ReadingOfConcat(OneSession(p, sessions[0], tools), SessionLines(p, sessions[1..], tools));
    }
  }

  // ---------------------------------------------------------------------------
  // The sessions shown
  // ---------------------------------------------------------------------------

  /** A session worth a line: with `--all` every one, otherwise one with a prompt or a tool call. */
  function WorthALine(all: bool): Session -> bool {
    (s: Session) => all || s.promptCount > 0 || s.toolCallCount > 0
  }

  function StartedAt(t: int): Session -> bool {
    (s: Session) => s.startedAt == t
  }

  function Least(a: nat, b: nat): nat {
    if a <= b then a else b
  }

  /**
   The newest sessions worth a line, as many as the limit allows, newest first; those that started
   together in the projection's order.
   */
  ghost predicate AreTheNewest(shown: seq<Session>, p: Projection, limit: nat, all: bool) {
    var worth := Filter(p.sessions, WorthALine(all));
    && |shown| == Least(limit, |worth|)
    && (forall i, j :: 0 <= i < j < |shown| ==> shown[i].startedAt >= shown[j].startedAt)
    && multiset(shown) <= multiset(worth)
    && (forall s: Session, i :: s in multiset(worth) - multiset(shown) && 0 <= i < |shown| ==> s.startedAt <= shown[i].startedAt)
    && (forall t: int :: Filter(shown, StartedAt(t)) <= Filter(worth, StartedAt(t)))
  }

  lemma FilterOfTake<T>(xs: seq<T>, n: nat, keep: T -> bool)
    ensures Filter(Take(xs, n), keep) <= Filter(xs, keep)
  {
    if n < |xs| {
      assert xs == xs[..n] + xs[n..];
      FilterOfConcat(xs[..n], xs[n..], keep);
    }
  }

  lemma TakeSplits<T>(xs: seq<T>, n: nat) returns (rest: seq<T>)
    ensures xs == Take(xs, n) + rest && |Take(xs, n)| == Least(n, |xs|)
    ensures multiset(xs) - multiset(Take(xs, n)) == multiset(rest)
  {
    rest := if n < |xs| then xs[n..] else [];
    assert xs == Take(xs, n) + rest;
  }

  /** What is taken from a sorted arrangement comes before what is left. */
  lemma RestComesLater<T>(sorted: seq<T>, key: T -> int, n: nat)
    requires Sorted(sorted, key)
    ensures var shown := Take(sorted, n);
      forall x, i :: x in multiset(sorted) - multiset(shown) && 0 <= i < |shown| ==> key(shown[i]) <= key(x)
  {
    var shown := Take(sorted, n);
    var rest := TakeSplits(sorted, n);
    forall x, i | x in multiset(rest) && 0 <= i < |shown|
      ensures key(shown[i]) <= key(x)
    {
      var k :| 0 <= k < |rest| && rest[k] == x;
      assert sorted[|shown| + k] == x && sorted[i] == shown[i];
    }
  }

  lemma TakenFromSorted<T>(xs: seq<T>, key: T -> int, n: nat)
    ensures var shown := Take(SortBy(xs, key), n);
      && |shown| == Least(n, |xs|) && multiset(shown) <= multiset(xs)
      && (forall i, j :: 0 <= i < j < |shown| ==> key(shown[i]) <= key(shown[j]))
      && (forall x, i :: x in multiset(xs) - multiset(shown) && 0 <= i < |shown| ==> key(shown[i]) <= key(x))
  {
    var sorted := SortBy(xs, key);
    SortBySorts(xs, key);
    RestComesLater(sorted, key, n);
    var rest := TakeSplits(sorted, n);
    assert multiset(sorted) == multiset(Take(sorted, n)) + multiset(rest);
  }

  lemma TogetherInOrder(worth: seq<Session>, limit: nat, t: int)
    ensures Filter(Take(SortBy(worth, NewestFirst()), limit), StartedAt(t)) <= Filter(worth, StartedAt(t))
  {
    SortKeepsTogether(worth, t);
    FilterOfTake(SortBy(worth, NewestFirst()), limit, StartedAt(t));
  }

  lemma SortKeepsTogether(worth: seq<Session>, t: int)
    ensures Filter(SortBy(worth, NewestFirst()), StartedAt(t)) == Filter(worth, StartedAt(t))
  {
    assert forall s: Session :: StartedAt(t)(s) <==> NewestFirst()(s) == -t;
    StableFor(worth, NewestFirst(), -t, StartedAt(t));
  }

  lemma NewestAreTaken(p: Projection, limit: nat, all: bool)
    ensures AreTheNewest(Take(SortBy(Filter(p.sessions, Eligible(all)), NewestFirst()), limit), p, limit, all)
  {
    var worth, key := Filter(p.sessions, Eligible(all)), NewestFirst();
    FilterSame(p.sessions, Eligible(all), WorthALine(all));
    TakenFromSorted(worth, key, limit);
    assert forall s: Session :: key(s) == -s.startedAt;
    forall t: int
      ensures Filter(Take(SortBy(worth, key), limit), StartedAt(t)) <= Filter(worth, StartedAt(t))
    {
      TogetherInOrder(worth, limit, t);
    }
  }

  /**
   The lines of a timeline: the counts first; then the newest sessions, newest first; then how many more
   there are, if any, and the handoffs. Nothing worth a line: two lines that say so.
   */
  lemma TimelineReadsAs(p: Projection, events: nat, limit: nat, tools: bool, all: bool)
    ensures var lines, worth := TimelineLines(p, TotalsOf(p, events), limit, tools, all), |Filter(p.sessions, WorthALine(all))|;
      if worth == 0 then
        && |lines| == 2 && lines[1] == CheckWiring
        && lines[0] == (if p.sessions == [] then NoSessions(events) else NothingToList(|p.sessions|))
      else
        && |lines| >= 1
        && lines[0] == Header(|p.sessions|, |p.turns|, |p.attempts|, |p.handoffs|, events, p.version)
        && AreTheNewest(SessionsIn(lines), p, limit, all)
        && (forall n :: More(n) in lines <==> worth > limit && n == worth - limit)
        && (forall h :: HandoffLine(h) in lines <==> h in p.handoffs)
  {
    FilterSame(p.sessions, Eligible(all), WorthALine(all));
    if Filter(p.sessions, WorthALine(all)) != [] {
      ListedTimelineReadsAs(p, events, limit, tools, all);
    }
  }

  lemma ListedTimelineReadsAs(p: Projection, events: nat, limit: nat, tools: bool, all: bool)
    requires Filter(p.sessions, WorthALine(all)) != []
    ensures var lines, worth := TimelineLines(p, TotalsOf(p, events), limit, tools, all), |Filter(p.sessions, WorthALine(all))|;
      && |lines| >= 1
      && lines[0] == Header(|p.sessions|, |p.turns|, |p.attempts|, |p.handoffs|, events, p.version)
      && AreTheNewest(SessionsIn(lines), p, limit, all)
      && (forall n :: More(n) in lines <==> worth > limit && n == worth - limit)
      && (forall h :: HandoffLine(h) in lines <==> h in p.handoffs)
  {
    FilterSame(p.sessions, Eligible(all), WorthALine(all));
    var worth := Filter(p.sessions, Eligible(all));
    var shown := Take(SortBy(worth, NewestFirst()), limit);
    var header := Header(|p.sessions|, |p.turns|, |p.attempts|, |p.handoffs|, events, p.version);
    var lines := TimelineLines(p, TotalsOf(p, events), limit, tools, all);
    assert lines == [header] + SessionLines(p, shown, tools) + Footer(p, |worth|, limit);
    ListingSessions(p, header, shown, tools, |worth|, limit);
    ListingRest(p, header, shown, tools, |worth|, limit);
    NewestAreTaken(p, limit, all);
  }

  lemma ListingSessions(p: Projection, header: Line, shown: seq<Session>, tools: bool, worth: nat, limit: nat)
    requires header.Header?
    ensures SessionsIn([header] + SessionLines(p, shown, tools) + Footer(p, worth, limit)) == shown
  {
    var body, footer := SessionLines(p, shown, tools), Footer(p, worth, limit);
    FooterReading(p, worth, limit);
    ReadingOfConcat([header] + body, footer);
    ReadingOfConcat([header], body);
    ReadingOfOne(header);
    InnerReadsNothing(footer);
    SessionLinesReading(p, shown, tools);
  }

  lemma ListingRest(p: Projection, header: Line, shown: seq<Session>, tools: bool, worth: nat, limit: nat)
    requires header.Header?
    ensures var lines := [header] + SessionLines(p, shown, tools) + Footer(p, worth, limit);
      && (forall n :: More(n) in lines <==> worth > limit && n == worth - limit)
      && (forall h :: HandoffLine(h) in lines <==> h in p.handoffs)
  {
    var body, footer := SessionLines(p, shown, tools), Footer(p, worth, limit);
    FooterReading(p, worth, limit);
    BodyIsPlain(p, shown, tools);
    forall line: Line | line.More? || line.HandoffLine?
      ensures line in [header] + body + footer <==> line in footer
    {
    }
  }

  /** Neither a count of more nor a handoff. */
  predicate Plain(lines: seq<Line>) {
    forall i :: 0 <= i < |lines| ==> !lines[i].More? && !lines[i].HandoffLine?
  }

  lemma {:induction false} AttemptsArePlain(p: Projection, attempts: seq<Attempt>, tools: bool)
    ensures Plain(AttemptLines(p, attempts, tools))
    decreases |attempts|
  {
    if attempts != [] {
      ToolLinesAreTools(p.toolCalls, attempts[0].toolCallIds);
      AttemptsArePlain(p, attempts[1..], tools);
    }
  }

  lemma {:induction false} TurnsArePlain(p: Projection, turns: seq<Turn>, tools: bool)
    ensures Plain(TurnLines(p, turns, tools))
    decreases |turns|
  {
    if turns != [] {
      AttemptsArePlain(p, SortBy(Filter(p.attempts, OfTurn(turns[0].id)), AttemptIndex()), tools);
      TurnsArePlain(p, turns[1..], tools);
    }
  }

  lemma {:induction false} BodyIsPlain(p: Projection, sessions: seq<Session>, tools: bool)
    ensures Plain(SessionLines(p, sessions, tools))
    decreases |sessions|
  {
    if sessions != [] {
      TurnsArePlain(p, SortBy(Filter(p.turns, OfSession(sessions[0].id)), TurnIndex()), tools);
      BodyIsPlain(p, sessions[1..], tools);
    }
  }

  lemma {:induction false} HandoffLinesReading(handoffs: seq<Handoff>)
    ensures |HandoffLines(handoffs)| == |handoffs|
    ensures forall i :: 0 <= i < |handoffs| ==> HandoffLines(handoffs)[i] == HandoffLine(handoffs[i])
    decreases |handoffs|
  {
    if handoffs != [] {
      HandoffLinesReading(handoffs[1..]);
    }
  }

  lemma HandoffsAreListed(handoffs: seq<Handoff>)
    ensures Inner(HandoffLines(handoffs))
    ensures forall n :: More(n) !in HandoffLines(handoffs)
    ensures forall h :: HandoffLine(h) in HandoffLines(handoffs) <==> h in handoffs
  {
    var lines := HandoffLines(handoffs);
    HandoffLinesReading(handoffs);
    forall h | h in handoffs
      ensures HandoffLine(h) in lines
    {
      var i :| 0 <= i < |handoffs| && handoffs[i] == h;
      assert lines[i] == HandoffLine(h);
    }
  }

  lemma FooterReading(p: Projection, worth: nat, limit: nat)
    ensures var lines := Footer(p, worth, limit);
      && Inner(lines)
      && (forall n :: More(n) in lines <==> worth > limit && n == worth - limit)
      && (forall h :: HandoffLine(h) in lines <==> h in p.handoffs)
  {
    HandoffsAreListed(p.handoffs);
    var more := if worth > limit then [Empty, More(worth - limit)] else [];
    var rest := if p.handoffs == [] then [] else [Empty] + HandoffLines(p.handoffs);
    assert Footer(p, worth, limit) == more + rest;
    assert forall line :: line in more + rest <==> line in more || line in rest;
  }

  predicate HasId(sessions: seq<Session>, id: Id) {
    exists i :: 0 <= i < |sessions| && sessions[i].id == id
  }

  /** What is shipped: the sessions with the ids of the newest, and of everything else only what belongs to them. */
  lemma TrimKeepsTheNewest(p: Projection, limit: nat, all: bool) returns (newest: seq<Session>)
    ensures AreTheNewest(newest, p, limit, all)
    ensures var out := Restricted(p, Kept(p, limit, all));
      && (forall s :: s in out.sessions <==> s in p.sessions && HasId(newest, s.id))
      && (forall t :: t in out.turns <==> t in p.turns && HasId(newest, t.sessionId))
      && (forall a :: a in out.attempts <==> a in p.attempts && HasId(newest, a.sessionId))
      && (forall c :: c in out.toolCalls <==> c in p.toolCalls && HasId(newest, c.sessionId))
      && (forall e :: e in out.signals <==> e in p.signals && HasId(newest, e.sessionId))
      && (forall e :: e in out.commits <==> e in p.commits && HasId(newest, e.sessionId))
      && out.handoffs == p.handoffs && out.edges == [] && out.workUnits == [] && out.decisions == [] && out.conflicts == []
  {
    newest := Take(SortBy(Filter(p.sessions, Eligible(all)), NewestFirst()), limit);
    NewestAreTaken(p, limit, all);
    var keep := Kept(p, limit, all);
    IdsAreHad(newest);
    assert forall s :: SessionIn(keep)(s) <==> HasId(newest, s.id);
    assert forall t :: TurnIn(keep)(t) <==> HasId(newest, t.sessionId);
    assert forall a :: AttemptIn(keep)(a) <==> HasId(newest, a.sessionId);
    assert forall c :: CallIn(keep)(c) <==> HasId(newest, c.sessionId);
    assert forall e :: EntityIn(keep)(e) <==> HasId(newest, e.sessionId);
  }

  lemma IdsAreHad(sessions: seq<Session>)
    ensures forall id :: id in Ids(sessions) <==> HasId(sessions, id)
  {
    forall id | id in Ids(sessions)
      ensures HasId(sessions, id)
    {
      var s :| s in sessions && s.id == id;
      var i :| 0 <= i < |sessions| && sessions[i] == s;
    }
  }
}
