/**
 The OTLP batch decoder (crates/attemptdb-adapters/src/otel.rs): nested loops over resources, scopes,
 records, data points and span events, against the flat list of leaf records they visit.
 */
module Otlp {
  import opened Wrappers
  import opened Sequences

  datatype Signal = Logs | Metrics | Traces

  datatype MetricKind = Sum | Gauge | Histogram | ExponentialHistogram | Summary

  const KINDS := [Sum, Gauge, Histogram, ExponentialHistogram, Summary]

  /** A JSON value that is only carried into an identity. */
  type Json = nat

  type Attributes = map<string, string>

  /** What the decoder reads of a record, a data point or a span event; `events` and `series` only where a row has them. */
  datatype Record = Record(
    json: Json, time: Option<nat>, startTime: Option<nat>, observedTime: Option<nat>,
    eventName: Option<string>, name: Option<string>, body: Option<string>, attributes: Attributes,
    unit: Json, traceId: Json, spanId: Json, attributesJson: Json,
    series: map<MetricKind, Series>, events: Option<seq<Record>>)

  datatype Series = Series(temporality: Json, points: seq<Record>)

  datatype Scope = Scope(json: Json, records: Option<seq<Record>>)

  datatype Resource = Resource(json: Json, attributes: Attributes, scopes: Option<seq<Scope>>)

  datatype Payload = Payload(resources: Option<seq<Resource>>)

  /** `parseTime` is the timestamp parser, in microseconds. */
  datatype Context = Context(device: nat, capturedAt: int, provider: string, parseTime: string -> Option<int>)

  datatype Identity =
    | OfRecord(resource: Json, scope: Json, record: Json)
    | OfPoint(resource: Json, scope: Json, name: Option<string>, unit: Json, kind: MetricKind, temporality: Json, point: Json)
    | OfSpanEvent(resource: Json, scope: Json, traceId: Json, spanId: Json, parentAttributes: Json, spanEvent: Json)

  /** The hashed name of a derived id. */
  datatype EventId = EventId(device: nat, provider: string, signal: Signal, identity: Identity)

  datatype RecordType = LogRecord | MetricSample | Span | SpanEvent

  datatype Event = Event(
    id: EventId, name: string, session: string, observedAt: int, capturedAt: int,
    recordType: RecordType, sessionAttributed: bool)

  // ---------------------------------------------------------------------------
  // One leaf record
  // ---------------------------------------------------------------------------

  /** A record the loops reach: an unrecognised metric, or a record with the attributes it inherits. */
  datatype Leaf =
    | Unrecognised
    | Leaf(inherited: Attributes, record: Record, identity: Identity, metricName: Option<string>, spanEvent: bool)

  predicate IsIdentifier(s: string) {
    && s != "" && |s| <= 128
    && forall i :: 0 <= i < |s| ==>
         'a' <= s[i] <= 'z' || 'A' <= s[i] <= 'Z' || '0' <= s[i] <= '9' || s[i] in "._:/-[]"
  }

  function Identifier(s: Option<string>): Option<string> {
    if s.Some? && IsIdentifier(s.value) then s else None
  }

  function TextAttribute(attributes: Attributes, names: seq<string>): Option<string> {
    if names == [] then None
    else if names[0] in attributes && IsIdentifier(attributes[names[0]]) then Some(attributes[names[0]])
    else TextAttribute(attributes, names[1..])
  }

  function OrElse<T>(a: Option<T>, b: Option<T>): Option<T> {
    if a.Some? then a else b
  }

  function Micros(nanos: Option<nat>): Option<int> {
    if nanos.Some? && nanos.value > 0 then Some(nanos.value / 1000) else None
  }

  function Positive(t: Option<int>): Option<int> {
    if t.Some? && t.value > 0 then t else None
  }

  /** A span event's start is its own time. */
  function TimeOf(signal: Signal, leaf: Leaf): Option<nat>
    requires leaf.Leaf?
  {
    if signal.Traces? && !leaf.spanEvent then leaf.record.startTime else leaf.record.time
  }

  function Timestamp(ctx: Context, signal: Signal, leaf: Leaf, attributes: Attributes): Option<int>
    requires leaf.Leaf?
  {
    var stated := if "event.timestamp" in attributes then Positive(ctx.parseTime(attributes["event.timestamp"])) else None;
    OrElse(Micros(TimeOf(signal, leaf)), OrElse(stated, Micros(leaf.record.observedTime)))
  }

  const UNATTRIBUTED := "otel-unattributed-"

  function SessionOf(ctx: Context, attributes: Attributes): string {
    var named := TextAttribute(attributes, ["session.id", "conversation.id", "session_id", "conversation_id", "thread_id"]);
    if named.Some? then named.value else UNATTRIBUTED + ctx.provider
  }

  function EventNameOf(leaf: Leaf, attributes: Attributes): string
    requires leaf.Leaf?
  {
    var named := OrElse(Identifier(leaf.metricName),
                   OrElse(Identifier(leaf.record.eventName),
                     OrElse(TextAttribute(attributes, ["event.name", "event_name", "name"]),
                       OrElse(Identifier(leaf.record.name), Identifier(leaf.record.body)))));
    if named.Some? then named.value else "otel.observation"
  }

  /** `make_event`; a record without a timestamp makes none. */
  function MakeEvent(ctx: Context, signal: Signal, leaf: Leaf): Option<Event> {
    if leaf.Unrecognised? then None
    else
      var attributes := leaf.inherited + leaf.record.attributes;
      var observed := Timestamp(ctx, signal, leaf, attributes);
      if observed.None? then None
      else
        var session := SessionOf(ctx, attributes);
        var recordType :=
          if leaf.spanEvent then SpanEvent
          else match signal case Logs => LogRecord case Metrics => MetricSample case Traces => Span;
        Some(Event(EventId(ctx.device, ctx.provider, signal, leaf.identity), EventNameOf(leaf, attributes),
                   session, observed.value, ctx.capturedAt, recordType, !(UNATTRIBUTED <= session)))
  }

  predicate IsDiscarded(name: string) {
    || name == "codex.sse_event"
    || "codex.sse_event." <= name
    || "codex.sqlite." <= name
    || "hook_execution_" <= name
    || "claude_code.hook_execution_" <= name
  }

  predicate Retained(e: Event) {
    !IsDiscarded(e.name) && (e.recordType.Span? ==> e.sessionAttributed)
  }

  // ---------------------------------------------------------------------------
  // The flat list of leaf records, in document order
  // ---------------------------------------------------------------------------

  function PointLeaf(resource: Resource, scope: Scope, row: Record, kind: MetricKind, point: Record, temporality: Json): Leaf {
    Leaf(resource.attributes, point,
         OfPoint(resource.json, scope.json, row.name, row.unit, kind, temporality, point.json), row.name, false)
  }

  function ChildLeaf(resource: Resource, scope: Scope, row: Record, child: Record): Leaf {
    Leaf(resource.attributes + row.attributes, child,
         OfSpanEvent(resource.json, scope.json, row.traceId, row.spanId, row.attributesJson, child.json), None, true)
  }

  function RowLeaf(resource: Resource, scope: Scope, row: Record): Leaf {
    Leaf(resource.attributes, row, OfRecord(resource.json, scope.json, row.json), None, false)
  }

  function KindLeaves(resource: Resource, scope: Scope, row: Record, kind: MetricKind): seq<Leaf>
    requires kind in row.series
  {
    PointLeaves(resource, scope, row, kind, row.series[kind].points, row.series[kind].temporality)
  }

  function PointLeaves(resource: Resource, scope: Scope, row: Record, kind: MetricKind, points: seq<Record>, temporality: Json): seq<Leaf> {
    if points == [] then []
    else
      [PointLeaf(resource, scope, row, kind, points[0], temporality)]
      + PointLeaves(resource, scope, row, kind, points[1..], temporality)
  }

  function SeriesLeaves(resource: Resource, scope: Scope, row: Record, kinds: seq<MetricKind>): seq<Leaf> {
    if kinds == [] then []
    else
      (if kinds[0] in row.series then KindLeaves(resource, scope, row, kinds[0]) else [])
      + SeriesLeaves(resource, scope, row, kinds[1..])
  }

  function ChildLeaves(resource: Resource, scope: Scope, row: Record, children: seq<Record>): seq<Leaf> {
    if children == [] then []
    else
      [ChildLeaf(resource, scope, row, children[0])]
      + ChildLeaves(resource, scope, row, children[1..])
  }

  function RowLeaves(signal: Signal, resource: Resource, scope: Scope, row: Record): seq<Leaf> {
    if signal.Metrics? then
      if row.series == map[] then [Unrecognised] else SeriesLeaves(resource, scope, row, KINDS)
    else
      [RowLeaf(resource, scope, row)]
      + if signal.Traces? && row.events.Some? then ChildLeaves(resource, scope, row, row.events.value) else []
  }

  function RowsLeaves(signal: Signal, resource: Resource, scope: Scope, rows: seq<Record>): seq<Leaf> {
    if rows == [] then []
    else RowLeaves(signal, resource, scope, rows[0]) + RowsLeaves(signal, resource, scope, rows[1..])
  }

  lemma RowsLeavesFrom(signal: Signal, resource: Resource, scope: Scope, rows: seq<Record>, i: nat)
    requires i < |rows|
    ensures RowsLeaves(signal, resource, scope, rows[i..])
      == RowLeaves(signal, resource, scope, rows[i]) + RowsLeaves(signal, resource, scope, rows[i + 1..])
  {
    assert rows[i..][1..] == rows[i + 1..];
  }

  predicate GoodScopes(scopes: seq<Scope>) {
    forall i :: 0 <= i < |scopes| ==> scopes[i].records.Some?
  }

  function ScopesLeaves(signal: Signal, resource: Resource, scopes: seq<Scope>): seq<Leaf>
    requires GoodScopes(scopes)
  {
    if scopes == [] then []
    else RowsLeaves(signal, resource, scopes[0], scopes[0].records.value) + ScopesLeaves(signal, resource, scopes[1..])
  }

  predicate GoodResource(resource: Resource) {
    resource.scopes.Some? && GoodScopes(resource.scopes.value)
  }

  function ResourceLeaves(signal: Signal, resource: Resource): seq<Leaf>
    requires GoodResource(resource)
  {
    ScopesLeaves(signal, resource, resource.scopes.value)
  }

  predicate GoodResources(resources: seq<Resource>) {
    forall i :: 0 <= i < |resources| ==> GoodResource(resources[i])
  }

  function ResourcesLeaves(signal: Signal, resources: seq<Resource>): seq<Leaf>
    requires GoodResources(resources)
  {
    if resources == [] then []
    else ResourceLeaves(signal, resources[0]) + ResourcesLeaves(signal, resources[1..])
  }

  predicate WellShaped(payload: Payload) {
    payload.resources.Some? && GoodResources(payload.resources.value)
  }

  function Leaves(signal: Signal, payload: Payload): seq<Leaf>
    requires WellShaped(payload)
  {
    ResourcesLeaves(signal, payload.resources.value)
  }

  // ---------------------------------------------------------------------------
  // Counting a list of leaves
  // ---------------------------------------------------------------------------

  const MAX_RECORDS: nat := 4096

  datatype Tally = Tally(events: seq<Event>, rejected: nat, dropped: nat)

  const EMPTY := Tally([], 0, 0)

  function Size(t: Tally): nat {
    |t.events| + t.rejected + t.dropped
  }

  /** What the leaves come to, with no limit. */
  function TallyOf(ctx: Context, signal: Signal, leaves: seq<Leaf>): Tally {
    if leaves == [] then EMPTY
    else Counted(TallyOf(ctx, signal, leaves[..|leaves| - 1]), MakeEvent(ctx, signal, leaves[|leaves| - 1]))
  }

  function Counted(t: Tally, event: Option<Event>): Tally {
    if event.None? then t.(rejected := t.rejected + 1)
    else if Retained(event.value) then t.(events := t.events + [event.value])
    else t.(dropped := t.dropped + 1)
  }

  lemma {:induction false} TallyIsComplete(ctx: Context, signal: Signal, leaves: seq<Leaf>)
    ensures Size(TallyOf(ctx, signal, leaves)) == |leaves|
    decreases |leaves|
  {
    if leaves != [] {
      TallyIsComplete(ctx, signal, leaves[..|leaves| - 1]);
    }
  }

  /** The events kept, from the flat list alone. */
  function Kept(ctx: Context, signal: Signal, leaves: seq<Leaf>): seq<Event> {
    if leaves == [] then []
    else
      KeptOne(MakeEvent(ctx, signal, leaves[0])) + Kept(ctx, signal, leaves[1..])
  }

  lemma {:induction false} KeptOfConcat(ctx: Context, signal: Signal, a: seq<Leaf>, b: seq<Leaf>)
    ensures Kept(ctx, signal, a + b) == Kept(ctx, signal, a) + Kept(ctx, signal, b)
    decreases |a|
  {
    if a == [] {
      assert a + b == b;
    } else {
      assert (a + b)[1..] == a[1..] + b;
      KeptOfConcat(ctx, signal, a[1..], b);
    }
  }

  function KeptOne(event: Option<Event>): seq<Event> {
    if event.Some? && Retained(event.value) then [event.value] else []
  }

  lemma KeptOfOne(ctx: Context, signal: Signal, leaf: Leaf)
    ensures Kept(ctx, signal, [leaf]) == KeptOne(MakeEvent(ctx, signal, leaf))
  {
    var one := [leaf];
    assert one[1..] == [] && Kept(ctx, signal, []) == [];
    assert KeptOne(MakeEvent(ctx, signal, leaf)) + [] == KeptOne(MakeEvent(ctx, signal, leaf));
  }

  lemma CountedKeeps(t: Tally, event: Option<Event>)
    ensures Counted(t, event).events == t.events + KeptOne(event)
  {
  }

  /** The tally keeps exactly the retained events of the list, in its order. */
  lemma {:induction false} TallyKeeps(ctx: Context, signal: Signal, leaves: seq<Leaf>)
    ensures TallyOf(ctx, signal, leaves).events == Kept(ctx, signal, leaves)
    decreases |leaves|
  {
    if leaves != [] {
      var before, last := leaves[..|leaves| - 1], leaves[|leaves| - 1];
      TallyKeeps(ctx, signal, before);
      CountedKeeps(TallyOf(ctx, signal, before), MakeEvent(ctx, signal, last));
      KeptOfOne(ctx, signal, last);
      KeptOfConcat(ctx, signal, before, [last]);
      assert before + [last] == leaves;
    }
  }

  // ---------------------------------------------------------------------------
  // The decoder
  // ---------------------------------------------------------------------------

  datatype Error = InvalidResources | InvalidScopes | InvalidRecords | TooManyRecords

  datatype Result = Ok(batch: Tally) | Err(error: Error)

  class Batch {
    var events: seq<Event>
    var rejected: nat
    var dropped: nat

    ghost function Contents(): Tally
      reads this
    {
      Tally(events, rejected, dropped)
    }

    /** The batch holds what `seen` comes to, and that is not too much. */
    ghost predicate Holds(ctx: Context, signal: Signal, seen: seq<Leaf>)
      reads this
    {
      Contents() == TallyOf(ctx, signal, seen) && |seen| <= MAX_RECORDS
    }

    constructor ()
      ensures Contents() == EMPTY
    {
      events, rejected, dropped := [], 0, 0;
    }

    /** `append`: one more leaf, unless the batch is full. */
    method Append(ctx: Context, signal: Signal, leaf: Leaf, ghost seen: seq<Leaf>) returns (ok: bool)
      requires Holds(ctx, signal, seen)
      modifies this
      ensures ok <==> |seen| < MAX_RECORDS
      ensures ok ==> Holds(ctx, signal, seen + [leaf])
    {
      TallyIsComplete(ctx, signal, seen);
      if |events| + rejected + dropped >= MAX_RECORDS {
        return false;
      }
      var event := MakeEvent(ctx, signal, leaf);
      match event {
        case Some(e) =>
          if Retained(e) {
            events := events + [e];
          } else {
            dropped := dropped + 1;
          }
        case None => rejected := rejected + 1;
      }
      assert (seen + [leaf])[..|seen|] == seen;
      return true;
    }

    /** Either everything went in, or it would not fit. */
    ghost predicate Took(ok: bool, ctx: Context, signal: Signal, all: seq<Leaf>)
      reads this
    {
      (ok <==> |all| <= MAX_RECORDS) && (ok ==> Holds(ctx, signal, all))
    }

    method AppendPoints(ctx: Context, resource: Resource, scope: Scope, row: Record, kind: MetricKind,
                        ghost seen: seq<Leaf>) returns (ok: bool)
      requires kind in row.series && Holds(ctx, Metrics, seen)
      modifies this
      ensures Took(ok, ctx, Metrics, seen + KindLeaves(resource, scope, row, kind))
    {
      var points, temporality := row.series[kind].points, row.series[kind].temporality;
      ghost var done := seen;
      var i := 0;
      assert points[0..] == points;
      while i < |points|
        invariant 0 <= i <= |points|
        invariant done + PointLeaves(resource, scope, row, kind, points[i..], temporality)
               == seen + KindLeaves(resource, scope, row, kind)
        invariant Holds(ctx, Metrics, done)
      {
        var leaf := PointLeaf(resource, scope, row, kind, points[i], temporality);
        assert points[i..][1..] == points[i + 1..];
        Regroup(done, [leaf], PointLeaves(resource, scope, row, kind, points[i + 1..], temporality));
        ok := Append(ctx, Metrics, leaf, done);
        if !ok {
          return;
        }
        done := done + [leaf];
        i := i + 1;
      }
      Regroup(done, [], []);
      ok := true;
    }

    method AppendMetric(ctx: Context, resource: Resource, scope: Scope, row: Record, ghost seen: seq<Leaf>)
      returns (ok: bool)
      requires Holds(ctx, Metrics, seen)
      modifies this
      ensures Took(ok, ctx, Metrics, seen + RowLeaves(Metrics, resource, scope, row))
    {
      var recognised := false;
      ghost var done := seen;
      var i := 0;
      assert KINDS[0..] == KINDS;
      while i < |KINDS|
        invariant 0 <= i <= |KINDS|
        invariant recognised <==> exists k :: k in KINDS[..i] && k in row.series
        invariant done + SeriesLeaves(resource, scope, row, KINDS[i..]) == seen + SeriesLeaves(resource, scope, row, KINDS)
        invariant Holds(ctx, Metrics, done)
        invariant !recognised ==> done == seen
      {
        var kind := KINDS[i];
        assert KINDS[i..][1..] == KINDS[i + 1..] && KINDS[..i + 1] == KINDS[..i] + [kind];
        if kind in row.series {
          recognised := true;
          Regroup(done, KindLeaves(resource, scope, row, kind), SeriesLeaves(resource, scope, row, KINDS[i + 1..]));
          ok := AppendPoints(ctx, resource, scope, row, kind, done);
          if !ok {
            assert row.series != map[];
            return;
          }
          done := done + KindLeaves(resource, scope, row, kind);
        } else {
          Regroup(done, [], SeriesLeaves(resource, scope, row, KINDS[i + 1..]));
        }
        i := i + 1;
      }
      assert KINDS[..i] == KINDS;
      EveryKind(row);
      Regroup(done, [], []);
      ok := true;
      if !recognised {
        ok := Append(ctx, Metrics, Unrecognised, seen);
      }
    }

    method AppendChildren(ctx: Context, resource: Resource, scope: Scope, row: Record, children: seq<Record>,
                          ghost seen: seq<Leaf>) returns (ok: bool)
      requires Holds(ctx, Traces, seen)
      modifies this
      ensures Took(ok, ctx, Traces, seen + ChildLeaves(resource, scope, row, children))
    {
      ghost var done := seen;
      var i := 0;
      assert children[0..] == children;
      while i < |children|
        invariant 0 <= i <= |children|
        invariant done + ChildLeaves(resource, scope, row, children[i..]) == seen + ChildLeaves(resource, scope, row, children)
        invariant Holds(ctx, Traces, done)
      {
        var leaf := ChildLeaf(resource, scope, row, children[i]);
        assert children[i..][1..] == children[i + 1..];
        Regroup(done, [leaf], ChildLeaves(resource, scope, row, children[i + 1..]));
        ok := Append(ctx, Traces, leaf, done);
        if !ok {
          return;
        }
        done := done + [leaf];
        i := i + 1;
      }
      Regroup(done, [], []);
      ok := true;
    }

    method AppendRow(ctx: Context, signal: Signal, resource: Resource, scope: Scope, row: Record, ghost seen: seq<Leaf>)
      returns (ok: bool)
      requires Holds(ctx, signal, seen)
      modifies this
      ensures Took(ok, ctx, signal, seen + RowLeaves(signal, resource, scope, row))
    {
      if signal == Metrics {
        ok := AppendMetric(ctx, resource, scope, row, seen);
        return;
      }
      var leaf := RowLeaf(resource, scope, row);
      ok := Append(ctx, signal, leaf, seen);
      if ok && signal == Traces && row.events.Some? {
        Regroup(seen, [leaf], ChildLeaves(resource, scope, row, row.events.value));
        ok := AppendChildren(ctx, resource, scope, row, row.events.value, seen + [leaf]);
      } else {
        Regroup(seen, [leaf], []);
      }
    }

    method AppendRows(ctx: Context, signal: Signal, resource: Resource, scope: Scope, rows: seq<Record>,
                      ghost seen: seq<Leaf>) returns (ok: bool)
      requires Holds(ctx, signal, seen)
      modifies this
      ensures Took(ok, ctx, signal, seen + RowsLeaves(signal, resource, scope, rows))
    {
      ghost var done := seen;
      var i := 0;
      assert rows[0..] == rows;
      while i < |rows|
        invariant 0 <= i <= |rows|
        invariant done + RowsLeaves(signal, resource, scope, rows[i..]) == seen + RowsLeaves(signal, resource, scope, rows)
        invariant Holds(ctx, signal, done)
      {
        RowsLeavesFrom(signal, resource, scope, rows, i);
        ghost var mine, rest := RowLeaves(signal, resource, scope, rows[i]), RowsLeaves(signal, resource, scope, rows[i + 1..]);
        Regroup(done, mine, rest);
        ok := AppendRow(ctx, signal, resource, scope, rows[i], done);
        if !ok {
          return;
        }
        done := done + mine;
        i := i + 1;
      }
      Regroup(done, [], []);
      ok := true;
    }

    method AppendScopes(ctx: Context, signal: Signal, resource: Resource, scopes: seq<Scope>, ghost seen: seq<Leaf>)
      returns (error: Option<Error>)
      requires Holds(ctx, signal, seen)
      modifies this
      ensures error.None? ==> GoodScopes(scopes)
      ensures GoodScopes(scopes) ==>
        Took(error.None?, ctx, signal, seen + ScopesLeaves(signal, resource, scopes)) && error in {None, Some(TooManyRecords)}
    {
      ghost var done := seen;
      var i := 0;
      assert scopes[0..] == scopes;
      while i < |scopes|
        invariant 0 <= i <= |scopes|
        invariant forall j :: 0 <= j < i ==> scopes[j].records.Some?
        invariant GoodScopes(scopes) ==>
          done + ScopesLeaves(signal, resource, scopes[i..]) == seen + ScopesLeaves(signal, resource, scopes)
        invariant Holds(ctx, signal, done)
      {
        if scopes[i].records.None? {
          return Some(InvalidRecords);
        }
        var rows := scopes[i].records.value;
        if GoodScopes(scopes) {
          assert scopes[i..][1..] == scopes[i + 1..];
          Regroup(done, RowsLeaves(signal, resource, scopes[i], rows), ScopesLeaves(signal, resource, scopes[i + 1..]));
        }
        var ok := AppendRows(ctx, signal, resource, scopes[i], rows, done);
        if !ok {
          return Some(TooManyRecords);
        }
        done := done + RowsLeaves(signal, resource, scopes[i], rows);
        i := i + 1;
      }
      Regroup(done, [], []);
      return None;
    }

    method AppendResource(ctx: Context, signal: Signal, resource: Resource, ghost seen: seq<Leaf>)
      returns (error: Option<Error>)
      requires Holds(ctx, signal, seen)
      modifies this
      ensures error.None? ==> GoodResource(resource)
      ensures GoodResource(resource) ==>
        Took(error.None?, ctx, signal, seen + ResourceLeaves(signal, resource)) && error in {None, Some(TooManyRecords)}
    {
      if resource.scopes.None? {
        return Some(InvalidScopes);
      }
      error := AppendScopes(ctx, signal, resource, resource.scopes.value, seen);
    }

    method AppendResources(ctx: Context, signal: Signal, resources: seq<Resource>, ghost seen: seq<Leaf>)
      returns (error: Option<Error>)
      requires Holds(ctx, signal, seen)
      modifies this
      ensures error.None? ==> GoodResources(resources)
      ensures GoodResources(resources) ==>
        Took(error.None?, ctx, signal, seen + ResourcesLeaves(signal, resources)) && error in {None, Some(TooManyRecords)}
    {
      ghost var done := seen;
      var i := 0;
      assert resources[0..] == resources;
      while i < |resources|
        invariant 0 <= i <= |resources|
        invariant forall j :: 0 <= j < i ==> GoodResource(resources[j])
        invariant GoodResources(resources) ==>
          done + ResourcesLeaves(signal, resources[i..]) == seen + ResourcesLeaves(signal, resources)
        invariant Holds(ctx, signal, done)
      {
        assert resources[i..][1..] == resources[i + 1..];
        if GoodResources(resources) {
          Regroup(done, ResourceLeaves(signal, resources[i]), ResourcesLeaves(signal, resources[i + 1..]));
        }
        error := AppendResource(ctx, signal, resources[i], done);
        if error.Some? {
          return;
        }
        done := done + ResourceLeaves(signal, resources[i]);
        i := i + 1;
      }
      Regroup(done, [], []);
      return None;
    }
  }

  /**
   `normalise`. It succeeds exactly on well-shaped payloads of at most 4096 leaf records, and then has
   counted each of them once: kept in document order, dropped or rejected.
   */
  method Normalise(ctx: Context, signal: Signal, payload: Payload) returns (result: Result)
    ensures result.Ok? <==> WellShaped(payload) && |Leaves(signal, payload)| <= MAX_RECORDS
    ensures WellShaped(payload) && result.Err? ==> result.error == TooManyRecords
    ensures result.Ok? ==>
      && result.batch.events == Kept(ctx, signal, Leaves(signal, payload))
      && |result.batch.events| + result.batch.dropped + result.batch.rejected == |Leaves(signal, payload)|
      && result.batch == TallyOf(ctx, signal, Leaves(signal, payload))
  {
    if payload.resources.None? {
      return Err(InvalidResources);
    }
    var batch := new Batch();
    ghost var leaves := if WellShaped(payload) then Leaves(signal, payload) else [];
    Regroup([], [], leaves);
    var error := batch.AppendResources(ctx, signal, payload.resources.value, []);
    if error.Some? {
      return Err(error.value);
    }
    TallyKeeps(ctx, signal, leaves);
    TallyIsComplete(ctx, signal, leaves);
    return Ok(Tally(batch.events, batch.rejected, batch.dropped));
  }

  lemma EveryKind(row: Record)
    ensures row.series == map[] <==> !exists k :: k in KINDS && k in row.series
  {
    forall k | k in row.series
      ensures k in KINDS
    {
      match k
      case Sum => assert KINDS[0] == k;
      case Gauge => assert KINDS[1] == k;
      case Histogram => assert KINDS[2] == k;
      case ExponentialHistogram => assert KINDS[3] == k;
      case Summary => assert KINDS[4] == k;
    }
  }

  // ---------------------------------------------------------------------------
  // Replay
  // ---------------------------------------------------------------------------

  predicate SameButCapture(e: Event, f: Event) {
    e.(capturedAt := 0) == f.(capturedAt := 0)
  }

  lemma SameEvent(ctx: Context, again: Context, signal: Signal, leaf: Leaf)
    requires again == ctx.(capturedAt := again.capturedAt)
    ensures var e, f := MakeEvent(ctx, signal, leaf), MakeEvent(again, signal, leaf);
      e.Some? == f.Some? && (e.Some? ==> SameButCapture(e.value, f.value) && Retained(e.value) == Retained(f.value))
  {
  }

  /** The same payload on the same device, captured at another time: the same events under the same ids. */
  lemma {:induction false} ReplayKeepsIds(ctx: Context, again: Context, signal: Signal, leaves: seq<Leaf>)
    requires again == ctx.(capturedAt := again.capturedAt)
    ensures var first, second := Kept(ctx, signal, leaves), Kept(again, signal, leaves);
      |first| == |second| && forall i :: 0 <= i < |first| ==> SameButCapture(first[i], second[i]) && first[i].id == second[i].id
    decreases |leaves|
  {
    if leaves != [] {
      SameEvent(ctx, again, signal, leaves[0]);
      ReplayKeepsIds(ctx, again, signal, leaves[1..]);
    }
  }
}
