/**
 What the decoder makes of the records of a payload, said of the records: two of them get one id exactly
 when they are the same record, the flat list has them in document order, and each event takes its time,
 session and name from where the record says.
 */
module OtlpRecords {
  import opened Wrappers
  import opened Sequences
  import opened Otlp

  // ---------------------------------------------------------------------------
  // Where a leaf comes from
  // ---------------------------------------------------------------------------

  /** A log record or span, a data point of a metric, or an event of a span. */
  datatype Source =
    | Row(resource: Resource, scope: Scope, row: Record)
    | Point(resource: Resource, scope: Scope, row: Record, kind: MetricKind, point: Record)
    | Child(resource: Resource, scope: Scope, row: Record, child: Record)

  predicate InRow(s: Source, signal: Signal, resource: Resource, scope: Scope, row: Record) {
    && s.resource == resource && s.scope == scope && s.row == row
    && match s
       case Row(_, _, _) => !signal.Metrics?
       case Point(_, _, _, kind, point) => signal.Metrics? && kind in row.series && point in row.series[kind].points
       case Child(_, _, _, child) => signal.Traces? && row.events.Some? && child in row.events.value
  }

  /** The record is part of the payload. */
  predicate InPayload(s: Source, signal: Signal, payload: Payload) {
    && WellShaped(payload) && s.resource in payload.resources.value
    && s.resource.scopes.Some? && s.scope in s.resource.scopes.value
    && s.scope.records.Some? && s.row in s.scope.records.value
    && InRow(s, signal, s.resource, s.scope, s.row)
  }

  /** The leaf the decoder makes of it. */
  predicate IsLeafOf(leaf: Leaf, s: Source) {
    match s
    case Row(resource, scope, row) => leaf == RowLeaf(resource, scope, row)
    case Point(resource, scope, row, kind, point) =>
      kind in row.series && leaf == PointLeaf(resource, scope, row, kind, point, row.series[kind].temporality)
    case Child(resource, scope, row, child) => leaf == ChildLeaf(resource, scope, row, child)
  }

  lemma {:induction false} PointSource(resource: Resource, scope: Scope, row: Record, kind: MetricKind, points: seq<Record>, temporality: Json, leaf: Leaf)
    returns (point: Record)
    requires leaf in PointLeaves(resource, scope, row, kind, points, temporality)
    ensures point in points && leaf == PointLeaf(resource, scope, row, kind, point, temporality)
    decreases |points|
  {
    if leaf == PointLeaf(resource, scope, row, kind, points[0], temporality) {
      point := points[0];
    } else {
      point := PointSource(resource, scope, row, kind, points[1..], temporality, leaf);
    }
  }

  lemma {:induction false} SeriesSource(resource: Resource, scope: Scope, row: Record, kinds: seq<MetricKind>, leaf: Leaf)
    returns (s: Source)
    requires leaf in SeriesLeaves(resource, scope, row, kinds)
    ensures InRow(s, Metrics, resource, scope, row) && IsLeafOf(leaf, s)
    decreases |kinds|
  {
    var kind := kinds[0];
    if kind in row.series && leaf in KindLeaves(resource, scope, row, kind) {
      var point := PointSource(resource, scope, row, kind, row.series[kind].points, row.series[kind].temporality, leaf);
      s := Point(resource, scope, row, kind, point);
    } else {
      s := SeriesSource(resource, scope, row, kinds[1..], leaf);
    }
  }

  lemma {:induction false} ChildSource(resource: Resource, scope: Scope, row: Record, children: seq<Record>, leaf: Leaf)
    returns (child: Record)
    requires leaf in ChildLeaves(resource, scope, row, children)
    ensures child in children && leaf == ChildLeaf(resource, scope, row, child)
    decreases |children|
  {
    if leaf == ChildLeaf(resource, scope, row, children[0]) {
      child := children[0];
    } else {
      child := ChildSource(resource, scope, row, children[1..], leaf);
    }
  }

  lemma RowSource(signal: Signal, resource: Resource, scope: Scope, row: Record, leaf: Leaf) returns (s: Source)
    requires leaf in RowLeaves(signal, resource, scope, row) && leaf.Leaf?
    ensures InRow(s, signal, resource, scope, row) && IsLeafOf(leaf, s)
  {
    if signal.Metrics? {
      s := SeriesSource(resource, scope, row, KINDS, leaf);
    } else if leaf == RowLeaf(resource, scope, row) {
      s := Row(resource, scope, row);
    } else {
      var child := ChildSource(resource, scope, row, row.events.value, leaf);
      s := Child(resource, scope, row, child);
    }
  }

  lemma {:induction false} RowsSource(signal: Signal, resource: Resource, scope: Scope, rows: seq<Record>, leaf: Leaf)
    returns (s: Source)
    requires leaf in RowsLeaves(signal, resource, scope, rows) && leaf.Leaf?
    ensures s.row in rows && InRow(s, signal, resource, scope, s.row) && IsLeafOf(leaf, s)
    decreases |rows|
  {
    if leaf in RowLeaves(signal, resource, scope, rows[0]) {
      s := RowSource(signal, resource, scope, rows[0], leaf);
    } else {
      s := RowsSource(signal, resource, scope, rows[1..], leaf);
    }
  }

  lemma {:induction false} ScopesSource(signal: Signal, resource: Resource, scopes: seq<Scope>, leaf: Leaf)
    returns (s: Source)
    requires GoodScopes(scopes) && leaf in ScopesLeaves(signal, resource, scopes) && leaf.Leaf?
    ensures s.scope in scopes && s.scope.records.Some? && s.row in s.scope.records.value
    ensures InRow(s, signal, resource, s.scope, s.row) && IsLeafOf(leaf, s)
    decreases |scopes|
  {
    if leaf in RowsLeaves(signal, resource, scopes[0], scopes[0].records.value) {
      s := RowsSource(signal, resource, scopes[0], scopes[0].records.value, leaf);
    } else {
      s := ScopesSource(signal, resource, scopes[1..], leaf);
    }
  }

  lemma {:induction false} ResourcesSource(signal: Signal, resources: seq<Resource>, leaf: Leaf) returns (s: Source)
    requires GoodResources(resources) && leaf in ResourcesLeaves(signal, resources) && leaf.Leaf?
    ensures InPayload(s, signal, Payload(Some(resources))) && IsLeafOf(leaf, s)
    decreases |resources|
  {
    if leaf in ResourceLeaves(signal, resources[0]) {
      s := ScopesSource(signal, resources[0], resources[0].scopes.value, leaf);
    } else {
      s := ResourcesSource(signal, resources[1..], leaf);
    }
  }

  // ---------------------------------------------------------------------------
  // Ids
  // ---------------------------------------------------------------------------

  /** The same kind of record, and the same JSON wherever the id is to tell records apart. */
  predicate SameRecord(s: Source, t: Source) {
    && s.resource.json == t.resource.json && s.scope.json == t.scope.json
    && match s
       case Row(_, _, row) => t.Row? && row.json == t.row.json
       case Point(_, _, row, kind, point) =>
         && t.Point? && row.name == t.row.name && row.unit == t.row.unit && kind == t.kind && point.json == t.point.json
         && kind in row.series && t.kind in t.row.series
         && row.series[kind].temporality == t.row.series[t.kind].temporality
       case Child(_, _, row, child) =>
         && t.Child? && row.traceId == t.row.traceId && row.spanId == t.row.spanId
         && row.attributesJson == t.row.attributesJson && child.json == t.child.json
  }

  /** Two records get one id if and only if device, provider, signal and record are the same. */
  lemma SameIdExactlyWhen(ctx: Context, other: Context, signal: Signal, signal2: Signal, leaf: Leaf, leaf2: Leaf, s: Source, t: Source)
    requires IsLeafOf(leaf, s) && IsLeafOf(leaf2, t)
    requires MakeEvent(ctx, signal, leaf).Some? && MakeEvent(other, signal2, leaf2).Some?
    ensures MakeEvent(ctx, signal, leaf).value.id == MakeEvent(other, signal2, leaf2).value.id <==>
      ctx.device == other.device && ctx.provider == other.provider && signal == signal2 && SameRecord(s, t)
  {
  }

  /** In one batch, events of different records never share an id. */
  lemma BatchIdsTellRecordsApart(ctx: Context, signal: Signal, payload: Payload, i: nat, j: nat)
    returns (s: Source, t: Source)
    requires WellShaped(payload) && i < |Leaves(signal, payload)| && j < |Leaves(signal, payload)|
    requires MakeEvent(ctx, signal, Leaves(signal, payload)[i]).Some? && MakeEvent(ctx, signal, Leaves(signal, payload)[j]).Some?
    ensures InPayload(s, signal, payload) && IsLeafOf(Leaves(signal, payload)[i], s)
    ensures InPayload(t, signal, payload) && IsLeafOf(Leaves(signal, payload)[j], t)
    ensures MakeEvent(ctx, signal, Leaves(signal, payload)[i]).value.id == MakeEvent(ctx, signal, Leaves(signal, payload)[j]).value.id
      <==> SameRecord(s, t)
  {
    var leaves := Leaves(signal, payload);
    s := ResourcesSource(signal, payload.resources.value, leaves[i]);
    t := ResourcesSource(signal, payload.resources.value, leaves[j]);
    SameIdExactlyWhen(ctx, ctx, signal, signal, leaves[i], leaves[j], s, t);
  }

  // ---------------------------------------------------------------------------
  // Document order
  // ---------------------------------------------------------------------------

  /** What comes first in the document comes first in the list, at every level. */
  lemma {:induction false} RowsInOrder(signal: Signal, resource: Resource, scope: Scope, a: seq<Record>, b: seq<Record>)
    ensures RowsLeaves(signal, resource, scope, a + b)
      == RowsLeaves(signal, resource, scope, a) + RowsLeaves(signal, resource, scope, b)
    decreases |a|
  {
    if a == [] {
      assert a + b == b;
    } else {
      assert (a + b)[1..] == a[1..] + b && (a + b)[0] == a[0];
      RowsInOrder(signal, resource, scope, a[1..], b);
      Regroup(RowLeaves(signal, resource, scope, a[0]), RowsLeaves(signal, resource, scope, a[1..]), RowsLeaves(signal, resource, scope, b));
    }
  }

  lemma {:induction false} ScopesInOrder(signal: Signal, resource: Resource, a: seq<Scope>, b: seq<Scope>)
    requires GoodScopes(a) && GoodScopes(b)
    ensures ScopesLeaves(signal, resource, a + b) == ScopesLeaves(signal, resource, a) + ScopesLeaves(signal, resource, b)
    decreases |a|
  {
    if a == [] {
      assert a + b == b;
    } else {
      assert (a + b)[1..] == a[1..] + b && (a + b)[0] == a[0];
      ScopesInOrder(signal, resource, a[1..], b);
      Regroup(RowsLeaves(signal, resource, a[0], a[0].records.value), ScopesLeaves(signal, resource, a[1..]), ScopesLeaves(signal, resource, b));
    }
  }

  lemma {:induction false} ResourcesInOrder(signal: Signal, a: seq<Resource>, b: seq<Resource>)
    requires GoodResources(a) && GoodResources(b)
    ensures ResourcesLeaves(signal, a + b) == ResourcesLeaves(signal, a) + ResourcesLeaves(signal, b)
    decreases |a|
  {
    if a == [] {
      assert a + b == b;
    } else {
      assert (a + b)[1..] == a[1..] + b && (a + b)[0] == a[0];
      ResourcesInOrder(signal, a[1..], b);
      Regroup(ResourceLeaves(signal, a[0]), ResourcesLeaves(signal, a[1..]), ResourcesLeaves(signal, b));
    }
  }

  lemma {:induction false} PointsInOrder(resource: Resource, scope: Scope, row: Record, kind: MetricKind, points: seq<Record>, temporality: Json)
    ensures var leaves := PointLeaves(resource, scope, row, kind, points, temporality);
      |leaves| == |points| && forall i :: 0 <= i < |points| ==> leaves[i] == PointLeaf(resource, scope, row, kind, points[i], temporality)
    decreases |points|
  {
    if points != [] {
      PointsInOrder(resource, scope, row, kind, points[1..], temporality);
    }
  }

  lemma {:induction false} ChildrenInOrder(resource: Resource, scope: Scope, row: Record, children: seq<Record>)
    ensures var leaves := ChildLeaves(resource, scope, row, children);
      |leaves| == |children| && forall i :: 0 <= i < |children| ==> leaves[i] == ChildLeaf(resource, scope, row, children[i])
    decreases |children|
  {
    if children != [] {
      ChildrenInOrder(resource, scope, row, children[1..]);
    }
  }

  /** The data points of one kind, none if the metric has no series of it. */
  function LeavesOfKind(resource: Resource, scope: Scope, row: Record, kind: MetricKind): seq<Leaf> {
    if kind in row.series then KindLeaves(resource, scope, row, kind) else []
  }

  lemma SeriesFrom(resource: Resource, scope: Scope, row: Record, kind: MetricKind, rest: seq<MetricKind>)
    ensures SeriesLeaves(resource, scope, row, [kind] + rest)
      == LeavesOfKind(resource, scope, row, kind) + SeriesLeaves(resource, scope, row, rest)
  {
    assert ([kind] + rest)[1..] == rest;
  }

  /** Sums, gauges, histograms, exponential histograms, summaries. */
  lemma SeriesInOrder(resource: Resource, scope: Scope, row: Record)
    ensures SeriesLeaves(resource, scope, row, KINDS)
      == LeavesOfKind(resource, scope, row, Sum) + (LeavesOfKind(resource, scope, row, Gauge)
         + (LeavesOfKind(resource, scope, row, Histogram) + (LeavesOfKind(resource, scope, row, ExponentialHistogram)
         + LeavesOfKind(resource, scope, row, Summary))))
  {
    assert KINDS == [Sum] + [Gauge, Histogram, ExponentialHistogram, Summary];
    SeriesFrom(resource, scope, row, Sum, [Gauge, Histogram, ExponentialHistogram, Summary]);
    SeriesFrom(resource, scope, row, Gauge, [Histogram, ExponentialHistogram, Summary]);
    SeriesFrom(resource, scope, row, Histogram, [ExponentialHistogram, Summary]);
    SeriesFrom(resource, scope, row, ExponentialHistogram, [Summary]);
    SeriesFrom(resource, scope, row, Summary, []);
  }

  /**
   The leaves of one row: a log record is one; a span is one and its events follow in order; a metric is
   its data points, kind by kind, or one rejection if it has none of the five kinds.
   */
  lemma RowReadsAs(signal: Signal, resource: Resource, scope: Scope, row: Record)
    ensures var leaves := RowLeaves(signal, resource, scope, row);
      match signal
      case Logs => leaves == [RowLeaf(resource, scope, row)]
      case Traces =>
        var children := if row.events.Some? then row.events.value else [];
        && |leaves| == 1 + |children| && leaves[0] == RowLeaf(resource, scope, row)
        && forall i :: 0 <= i < |children| ==> leaves[1 + i] == ChildLeaf(resource, scope, row, children[i])
      case Metrics =>
        if row.series == map[] then leaves == [Unrecognised]
        else leaves == LeavesOfKind(resource, scope, row, Sum) + (LeavesOfKind(resource, scope, row, Gauge)
               + (LeavesOfKind(resource, scope, row, Histogram) + (LeavesOfKind(resource, scope, row, ExponentialHistogram)
               + LeavesOfKind(resource, scope, row, Summary))))
  {
    match signal
    case Logs =>
    case Traces =>
      if row.events.Some? {
        ChildrenInOrder(resource, scope, row, row.events.value);
      }
    case Metrics => SeriesInOrder(resource, scope, row);
  }

  // ---------------------------------------------------------------------------
  // Time, session, name, retention
  // ---------------------------------------------------------------------------

  predicate Stated(nanos: Option<nat>) {
    nanos.Some? && nanos.value > 0
  }

  /**
   The time of an event: the record's own, which for a span is its start; otherwise the one its attributes
   state; otherwise the one it was observed at. A record without any is rejected.
   */
  lemma TimeIsTheFirstStated(ctx: Context, signal: Signal, leaf: Leaf)
    requires leaf.Leaf?
    ensures var own := if signal.Traces? && !leaf.spanEvent then leaf.record.startTime else leaf.record.time;
      var attributes := leaf.inherited + leaf.record.attributes;
      var text := if "event.timestamp" in attributes then ctx.parseTime(attributes["event.timestamp"]) else None;
      var e := MakeEvent(ctx, signal, leaf);
      && (Stated(own) ==> e.Some? && e.value.observedAt == own.value / 1000)
      && (!Stated(own) && text.Some? && text.value > 0 ==> e.Some? && e.value.observedAt == text.value)
      && (!Stated(own) && !(text.Some? && text.value > 0) && Stated(leaf.record.observedTime) ==>
            e.Some? && e.value.observedAt == leaf.record.observedTime.value / 1000)
      && (!Stated(own) && !(text.Some? && text.value > 0) && !Stated(leaf.record.observedTime) ==> e.None?)
  {
  }

  /** The value an attribute has, if it has one. */
  function Given(attributes: Attributes, name: string): Option<string> {
    if name in attributes then Some(attributes[name]) else None
  }

  function GivenFor(attributes: Attributes, names: seq<string>): (values: seq<Option<string>>)
    ensures |values| == |names| && forall i :: 0 <= i < |names| ==> values[i] == Given(attributes, names[i])
  {
    seq(|names|, i requires 0 <= i < |names| => Given(attributes, names[i]))
  }

  predicate Usable(value: Option<string>) {
    value.Some? && IsIdentifier(value.value)
  }

  predicate NoneUsable(values: seq<Option<string>>, upto: nat)
    requires upto <= |values|
  {
    forall j :: 0 <= j < upto ==> !Usable(values[j])
  }

  /** `s` is the first of the values that is an identifier, or the fallback when none is. */
  predicate IsFirstOf(s: string, values: seq<Option<string>>, fallback: string) {
    || (exists i :: 0 <= i < |values| && Usable(values[i]) && NoneUsable(values, i) && s == values[i].value)
    || (NoneUsable(values, |values|) && s == fallback)
  }

  lemma {:induction false} FirstOfIsUnique(s: string, t: string, values: seq<Option<string>>, fallback: string)
    requires IsFirstOf(s, values, fallback) && IsFirstOf(t, values, fallback)
    ensures s == t
  {
    if i :| 0 <= i < |values| && Usable(values[i]) && NoneUsable(values, i) && s == values[i].value {
      var j :| 0 <= j < |values| && Usable(values[j]) && NoneUsable(values, j) && t == values[j].value;
      assert i == j;
    }
  }

  lemma FirstOfRest(s: string, first: Option<string>, rest: seq<Option<string>>, fallback: string)
    requires IsFirstOf(s, rest, fallback)
    ensures IsFirstOf(if Usable(first) then first.value else s, [first] + rest, fallback)
  {
    var values := [first] + rest;
    if Usable(first) {
      assert Usable(values[0]) && NoneUsable(values, 0);
    } else if i :| 0 <= i < |rest| && Usable(rest[i]) && NoneUsable(rest, i) && s == rest[i].value {
      assert forall j :: 0 < j < |values| ==> values[j] == rest[j - 1];
      assert NoneUsable(values, i + 1) && values[i + 1] == rest[i];
    } else {
      assert forall j :: 0 < j < |values| ==> values[j] == rest[j - 1];
    }
  }

  lemma {:induction false} FirstNamed(attributes: Attributes, names: seq<string>, rest: seq<Option<string>>, s: string, fallback: string)
    requires IsFirstOf(s, rest, fallback)
    ensures var found := TextAttribute(attributes, names);
      IsFirstOf(if found.Some? then found.value else s, GivenFor(attributes, names) + rest, fallback)
    decreases |names|
  {
    var values := GivenFor(attributes, names);
    if names == [] {
      assert values + rest == rest;
    } else {
      FirstNamed(attributes, names[1..], rest, s, fallback);
      var found := TextAttribute(attributes, names[1..]);
      var later := GivenFor(attributes, names[1..]) + rest;
      FirstOfRest(if found.Some? then found.value else s, values[0], later, fallback);
      assert values + rest == [values[0]] + later;
    }
  }

  /** The session: the first usable of five attributes, or the provider's own; the flag tells which. */
  lemma SessionIsAttributed(ctx: Context, signal: Signal, leaf: Leaf)
    requires leaf.Leaf? && MakeEvent(ctx, signal, leaf).Some?
    ensures var e, attributes := MakeEvent(ctx, signal, leaf).value, leaf.inherited + leaf.record.attributes;
      && IsFirstOf(e.session,
           GivenFor(attributes, ["session.id", "conversation.id", "session_id", "conversation_id", "thread_id"]),
           "otel-unattributed-" + ctx.provider)
      && (e.sessionAttributed <==> !("otel-unattributed-" <= e.session))
  {
    var attributes := leaf.inherited + leaf.record.attributes;
    var names := ["session.id", "conversation.id", "session_id", "conversation_id", "thread_id"];
    FirstNamed(attributes, names, [], UNATTRIBUTED + ctx.provider, UNATTRIBUTED + ctx.provider);
    assert GivenFor(attributes, names) + [] == GivenFor(attributes, names);
  }

  /** A span event without a session of its own is in the session of its span. */
  lemma SpanEventIsInItsSpansSession(ctx: Context, resource: Resource, scope: Scope, row: Record, child: Record)
    requires "session.id" in row.attributes && IsIdentifier(row.attributes["session.id"]) && "session.id" !in child.attributes
    requires MakeEvent(ctx, Traces, ChildLeaf(resource, scope, row, child)).Some?
    ensures var e := MakeEvent(ctx, Traces, ChildLeaf(resource, scope, row, child)).value;
      e.session == row.attributes["session.id"] && e.recordType == SpanEvent
  {
    var leaf := ChildLeaf(resource, scope, row, child);
    SessionIsAttributed(ctx, Traces, leaf);
    var values := GivenFor(leaf.inherited + leaf.record.attributes,
                           ["session.id", "conversation.id", "session_id", "conversation_id", "thread_id"]);
    var fallback := "otel-unattributed-" + ctx.provider;
    assert Usable(values[0]) && NoneUsable(values, 0);
    FirstOfIsUnique(MakeEvent(ctx, Traces, leaf).value.session, values[0].value, values, fallback);
  }

  /** The name: the metric's, the record's event name, three attributes, the record's name and its body, in that order. */
  lemma NameIsTheFirstGiven(ctx: Context, signal: Signal, leaf: Leaf)
    requires leaf.Leaf? && MakeEvent(ctx, signal, leaf).Some?
    ensures var e, attributes := MakeEvent(ctx, signal, leaf).value, leaf.inherited + leaf.record.attributes;
      IsFirstOf(e.name,
        [leaf.metricName] + ([leaf.record.eventName]
          + (GivenFor(attributes, ["event.name", "event_name", "name"]) + ([leaf.record.name] + ([leaf.record.body] + [])))),
        "otel.observation")
  {
    var attributes := leaf.inherited + leaf.record.attributes;
    var names, fallback := ["event.name", "event_name", "name"], "otel.observation";
    var record := leaf.record;
    FirstOfRest(fallback, record.body, [], fallback);
    var last := if Usable(record.body) then record.body.value else fallback;
    FirstOfRest(last, record.name, [record.body] + [], fallback);
    var own := if Usable(record.name) then record.name.value else last;
    FirstNamed(attributes, names, [record.name] + ([record.body] + []), own, fallback);
    var named := TextAttribute(attributes, names);
    var later := GivenFor(attributes, names) + ([record.name] + ([record.body] + []));
    var text := if named.Some? then named.value else own;
    FirstOfRest(text, record.eventName, later, fallback);
    FirstOfRest(if Usable(record.eventName) then record.eventName.value else text, leaf.metricName,
                [record.eventName] + later, fallback);
  }

  /** What is dropped: one name, four families of names, and bare spans without a session. */
  lemma DroppedFamilies(e: Event)
    ensures Retained(e) <==>
      && e.name != "codex.sse_event"
      && (forall p :: p in ["codex.sse_event.", "codex.sqlite.", "hook_execution_", "claude_code.hook_execution_"] ==> !(p <= e.name))
      && (e.recordType == Span ==> e.sessionAttributed)
  {
    var families := ["codex.sse_event.", "codex.sqlite.", "hook_execution_", "claude_code.hook_execution_"];
    assert families[0] in families && families[1] in families && families[2] in families && families[3] in families;
  }
}
