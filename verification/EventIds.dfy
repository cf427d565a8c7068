/**
 Event ids shared by every channel (crates/attemptdb-adapters/src/common.rs), the hook normaliser that
 assigns them (crates/attemptdb-adapters/src/claude_code.rs) and the by-id duplicate check of the
 store. UUIDv5 is taken to be injective, so a derived id is the name it hashes.
 */
module EventIds {
  import opened Wrappers

  datatype Kind = Started | Finished | Failed | PermissionRequested | PermissionDenied | NotATool

  /** A natural id is derived; otherwise a hook's is random, an importer's made from the entry it read. */
  datatype EventId = Own(number: nat) | Derived(name: string)

  datatype Event = Event(id: EventId, provider: string, session: string, kind: Kind, call: Option<string>)

  const SEPARATOR: char := 0x1f as char
  const UNKNOWN_SESSION := "unknown"
  const CALL := "call:"

  /** `id_slot`: the two ways a call ends share one. */
  function Slot(k: Kind): string {
    match k
    case Started => "tool_call_started"
    case Finished => "tool_call_end"
    case Failed => "tool_call_end"
    case PermissionRequested => "permission_requested"
    case PermissionDenied => "permission_denied"
    case NotATool => "unknown"
  }

  /** What `EventId::derive` hashes. */
  function Joined(parts: seq<string>): string {
    if parts == [] then "" else [SEPARATOR] + parts[0] + Joined(parts[1..])
  }

  function NameOf(provider: string, session: string, kind: Kind, call: string): string {
    "ev_" + Joined(["event-v1", provider, session, Slot(kind), CALL + call])
  }

  predicate Plain(s: string) {
    SEPARATOR !in s
  }

  // ---------------------------------------------------------------------------
  // When two calls share an id
  // ---------------------------------------------------------------------------

  /** The name after the provider. */
  function Tail(session: string, slot: string, call: string): string {
    session + [SEPARATOR] + slot + [SEPARATOR] + CALL + call
  }

  lemma NameIsTail(provider: string, session: string, kind: Kind, call: string)
    ensures NameOf(provider, session, kind, call)
      == "ev_" + [SEPARATOR] + "event-v1" + [SEPARATOR] + provider + [SEPARATOR] + Tail(session, Slot(kind), call)
  {
    var slot, native := Slot(kind), CALL + call;
    JoinedPart(native, []);
    JoinedPart(slot, [native]);
    JoinedPart(session, [slot, native]);
    JoinedPart(provider, [session, slot, native]);
    JoinedPart("event-v1", [provider, session, slot, native]);
  }

  lemma JoinedPart(part: string, rest: seq<string>)
    ensures Joined([part] + rest) == [SEPARATOR] + part + Joined(rest)
  {
    assert ([part] + rest)[1..] == rest;
  }

  /** A field without a separator ends at the first one. */
  lemma SplitAtSeparator(a: string, b: string, x: string, y: string)
    requires Plain(a) && Plain(b) && a + [SEPARATOR] + x == b + [SEPARATOR] + y
    ensures a == b && x == y
  {
    var whole := a + [SEPARATOR] + x;
    assert whole[|a|] == SEPARATOR && whole[|b|] == SEPARATOR;
    assert a == whole[..|a|] && b == whole[..|b|] && x == whole[|a| + 1..] && y == whole[|b| + 1..];
  }

  /** The second session spells out the first one's slot, and the first call id the second one's. */
  predicate Embeds(session: string, slot: string, call: string, session2: string, slot2: string, call2: string) {
    var prefix := session + [SEPARATOR] + slot + [SEPARATOR] + CALL;
    prefix <= session2 && call == session2[|prefix|..] + [SEPARATOR] + slot2 + [SEPARATOR] + CALL + call2
  }

  predicate IsSlot(slot: string) {
    Plain(slot) && |slot| >= |CALL| && slot[0] != CALL[0]
  }

  /** `rest` is what the longer session has after the shorter one and a separator. */
  lemma RestSpellsSlot(slot: string, call: string, rest: string, slot2: string, call2: string)
    requires IsSlot(slot) && IsSlot(slot2)
    requires slot + [SEPARATOR] + CALL + call == rest + [SEPARATOR] + slot2 + [SEPARATOR] + CALL + call2
    ensures slot + [SEPARATOR] + CALL <= rest
  {
    var left, n := slot + [SEPARATOR] + CALL + call, |slot|;
    assert left == slot + [SEPARATOR] + (CALL + call);
    assert left[|rest|] == SEPARATOR && left[|rest| + 1] == slot2[0];
    assert left[n + 1] == CALL[0];
    assert forall m :: n < m <= n + |CALL| ==> left[m] == CALL[m - n - 1] && left[m] != SEPARATOR;
    assert left[..n + 1 + |CALL|] == slot + [SEPARATOR] + CALL;
    assert left[..|rest|] == rest;
  }

  /** What the longer session has after the shorter one. */
  lemma LongerSession(session: string, line: string, session2: string, line2: string) returns (rest: string)
    requires |session| < |session2| && session + [SEPARATOR] + line == session2 + [SEPARATOR] + line2
    ensures session2 == session + [SEPARATOR] + rest && line == rest + [SEPARATOR] + line2
  {
    var whole, n := session + [SEPARATOR] + line, |session|;
    assert session == whole[..n] && session2 == whole[..|session2|] && whole[n] == SEPARATOR;
    rest := session2[n + 1..];
    assert session2 == session2[..n] + [session2[n]] + rest;
    assert line == whole[n + 1..];
    assert whole == session + [SEPARATOR] + (rest + [SEPARATOR] + line2);
  }

  lemma LongerSessionEmbeds(session: string, slot: string, call: string, session2: string, slot2: string, call2: string)
    requires IsSlot(slot) && IsSlot(slot2) && |session| < |session2|
    requires Tail(session, slot, call) == Tail(session2, slot2, call2)
    ensures Embeds(session, slot, call, session2, slot2, call2)
  {
    var line, line2 := slot + [SEPARATOR] + CALL + call, slot2 + [SEPARATOR] + CALL + call2;
    assert Tail(session, slot, call) == session + [SEPARATOR] + line;
    assert Tail(session2, slot2, call2) == session2 + [SEPARATOR] + line2;
    var rest := LongerSession(session, line, session2, line2);
    assert rest + [SEPARATOR] + line2 == rest + [SEPARATOR] + slot2 + [SEPARATOR] + CALL + call2;
    RestSpellsSlot(slot, call, rest, slot2, call2);
    EmbedsFromRest(session, slot, call, rest, slot2, call2);
  }

  lemma EmbedsFromRest(session: string, slot: string, call: string, rest: string, slot2: string, call2: string)
    requires slot + [SEPARATOR] + CALL <= rest
    requires slot + [SEPARATOR] + CALL + call == rest + [SEPARATOR] + slot2 + [SEPARATOR] + CALL + call2
    ensures Embeds(session, slot, call, session + [SEPARATOR] + rest, slot2, call2)
  {
    var head, session2 := slot + [SEPARATOR] + CALL, session + [SEPARATOR] + rest;
    var prefix := session + [SEPARATOR] + slot + [SEPARATOR] + CALL;
    assert prefix == session + [SEPARATOR] + head;
    assert session2[|prefix|..] == rest[|head|..];
    assert (head + call)[|head|..] == call;
    assert (rest + [SEPARATOR] + slot2 + [SEPARATOR] + CALL + call2)[|head|..]
        == rest[|head|..] + [SEPARATOR] + slot2 + [SEPARATOR] + CALL + call2;
  }

  lemma TailStarts(session: string, slot: string, call: string)
    ensures |Tail(session, slot, call)| >= |session| && Tail(session, slot, call)[..|session|] == session
  {
  }

  lemma SameSessionSameTail(session: string, slot: string, call: string, slot2: string, call2: string)
    requires IsSlot(slot) && IsSlot(slot2)
    requires Tail(session, slot, call) == Tail(session, slot2, call2)
    ensures slot == slot2 && call == call2
  {
    var n := |session| + 1;
    assert Tail(session, slot, call)[n..] == slot + [SEPARATOR] + (CALL + call);
    assert Tail(session, slot2, call2)[n..] == slot2 + [SEPARATOR] + (CALL + call2);
    SplitAtSeparator(slot, slot2, CALL + call, CALL + call2);
    assert (CALL + call)[|CALL|..] == call && (CALL + call2)[|CALL|..] == call2;
  }

  lemma SameNameSameTail(p: string, p2: string, s: string, s2: string, k: Kind, k2: Kind, c: string, c2: string)
    requires Plain(p) && Plain(p2)
    ensures NameOf(p, s, k, c) == NameOf(p2, s2, k2, c2) <==> p == p2 && Tail(s, Slot(k), c) == Tail(s2, Slot(k2), c2)
  {
    NameIsTail(p, s, k, c);
    NameIsTail(p2, s2, k2, c2);
    var head := "ev_" + [SEPARATOR] + "event-v1" + [SEPARATOR];
    var a, b := p + [SEPARATOR] + Tail(s, Slot(k), c), p2 + [SEPARATOR] + Tail(s2, Slot(k2), c2);
    assert NameOf(p, s, k, c) == head + a && NameOf(p2, s2, k2, c2) == head + b;
    if NameOf(p, s, k, c) == NameOf(p2, s2, k2, c2) {
      assert (head + a)[|head|..] == a && (head + b)[|head|..] == b;
      SplitAtSeparator(p, p2, Tail(s, Slot(k), c), Tail(s2, Slot(k2), c2));
    }
  }

  /**
   Exactly when two tool-call events get one id, for providers named without a separator: the same
   call in the same slot, or a session id that spells out another call's fields, separator included.
   */
  lemma SharesIdExactlyWhen(p: string, p2: string, s: string, s2: string, k: Kind, k2: Kind, c: string, c2: string)
    requires Plain(p) && Plain(p2)
    ensures NameOf(p, s, k, c) == NameOf(p2, s2, k2, c2) <==>
      && p == p2
      && (|| (s == s2 && Slot(k) == Slot(k2) && c == c2)
          || Embeds(s, Slot(k), c, s2, Slot(k2), c2)
          || Embeds(s2, Slot(k2), c2, s, Slot(k), c))
  {
    SameNameSameTail(p, p2, s, s2, k, k2, c, c2);
    SameTailExactlyWhen(s, s2, Slot(k), Slot(k2), c, c2);
  }

  lemma SameTailExactlyWhen(s: string, s2: string, slot: string, slot2: string, c: string, c2: string)
    requires IsSlot(slot) && IsSlot(slot2)
    ensures Tail(s, slot, c) == Tail(s2, slot2, c2) <==>
      || (s == s2 && slot == slot2 && c == c2)
      || Embeds(s, slot, c, s2, slot2, c2)
      || Embeds(s2, slot2, c2, s, slot, c)
  {
    if Tail(s, slot, c) == Tail(s2, slot2, c2) {
      if |s| < |s2| {
        LongerSessionEmbeds(s, slot, c, s2, slot2, c2);
      } else if |s2| < |s| {
        LongerSessionEmbeds(s2, slot2, c2, s, slot, c);
      } else {
        TailStarts(s, slot, c);
        TailStarts(s2, slot2, c2);
        SameSessionSameTail(s, slot, c, slot2, c2);
      }
    }
  }

  /** Two different calls with one id: the fields are joined without escaping. */
  lemma TwoCallsOneId()
    ensures var s2 := "s" + [SEPARATOR] + "tool_call_started" + [SEPARATOR] + "call:";
      var c := [SEPARATOR] + "tool_call_started" + [SEPARATOR] + "call:b";
      NameOf("codex", "s", Started, c) == NameOf("codex", s2, Started, "b")
  {
    var prefix := "s" + [SEPARATOR] + "tool_call_started" + [SEPARATOR] + CALL;
    var c := [SEPARATOR] + "tool_call_started" + [SEPARATOR] + "call:b";
    assert c == prefix[|prefix|..] + [SEPARATOR] + Slot(Started) + [SEPARATOR] + CALL + "b";
    assert Embeds("s", Slot(Started), c, prefix, Slot(Started), "b");
    SharesIdExactlyWhen("codex", "codex", "s", prefix, Started, Started, c, "b");
  }

  // ---------------------------------------------------------------------------
  // The channels
  // ---------------------------------------------------------------------------

  /** The parts of a tool response that decide how the call ended. */
  datatype Response = Response(interrupted: bool, exitCode: Option<int>)

  /** A hook payload, or a tool-call entry an importer reads from a transcript. */
  datatype Delivery =
    | Hook(provider: string, reported: Kind, sessionId: Option<string>, call: Option<string>,
           response: Option<Response>, own: nat)
    | Imported(provider: string, session: string, kind: Kind, call: Option<string>, own: nat)

  /** A finished call that was interrupted, or exited with another code than 0, failed. */
  function KindOf(d: Delivery): Kind {
    match d
    case Imported(_, _, kind, _, _) => kind
    case Hook(_, reported, _, _, response, _) =>
      if reported.Finished? && response.Some?
         && (response.value.interrupted || (response.value.exitCode.Some? && response.value.exitCode.value != 0))
      then Failed else reported
  }

  function SessionOf(d: Delivery): string {
    match d
    case Imported(_, session, _, _, _) => session
    case Hook(_, _, session, _, _, _) => if session.Some? then session.value else UNKNOWN_SESSION
  }

  /** The provider names the call, and its session is known. */
  predicate IsNamed(d: Delivery) {
    && !KindOf(d).NotATool? && d.call.Some?
    && (d.Hook? ==> SessionOf(d) != UNKNOWN_SESSION)
  }

  /** The event each channel makes of a delivery. */
  function EventOf(d: Delivery): Event {
    var id := if IsNamed(d) then Derived(NameOf(d.provider, SessionOf(d), KindOf(d), d.call.value)) else Own(d.own);
    Event(id, d.provider, SessionOf(d), KindOf(d), d.call)
  }

  /** The hook's event as it is built. */
  class Normaliser {
    var event: Event

    constructor (d: Delivery)
      requires d.Hook?
      ensures event == Event(Own(d.own), d.provider, SessionOf(d), d.reported, d.call)
    {
      var session := if d.sessionId.Some? then d.sessionId.value else UNKNOWN_SESSION;
      event := Event(Own(d.own), d.provider, session, d.reported, d.call);
    }

    method ToolFinished(response: Option<Response>)
      modifies this
      ensures event == old(event).(kind :=
        if response.Some? && (response.value.interrupted
                              || (response.value.exitCode.Some? && response.value.exitCode.value != 0))
        then Failed else old(event).kind)
    {
      if response.None? {
        return;
      }
      if response.value.interrupted {
        event := event.(kind := Failed);
        return;
      }
      match response.value.exitCode {
        case Some(code) =>
          if code != 0 {
            event := event.(kind := Failed);
          }
        case None =>
      }
    }

    method AssignNaturalId()
      modifies this
      ensures event == old(event).(id :=
        if old(event).kind.NotATool? || old(event).session == UNKNOWN_SESSION || old(event).call.None? then old(event).id
        else Derived(NameOf(old(event).provider, old(event).session, old(event).kind, old(event).call.value)))
    {
      if event.kind.NotATool? || event.session == UNKNOWN_SESSION {
        return;
      }
      if event.call.Some? {
        event := event.(id := Derived(NameOf(event.provider, event.session, event.kind, event.call.value)));
      }
    }
  }

  /** `normalise_claude_shaped`, as far as the id depends on it. */
  method NormaliseHook(d: Delivery) returns (e: Event)
    requires d.Hook?
    ensures e == EventOf(d)
  {
    var n := new Normaliser(d);
    if d.reported.Finished? {
      n.ToolFinished(d.response);
    }
    n.AssignNaturalId();
    e := n.event;
  }

  // ---------------------------------------------------------------------------
  // The store
  // ---------------------------------------------------------------------------

  function IdsOf(events: seq<Event>): set<EventId> {
    set i | 0 <= i < |events| :: events[i].id
  }

  function Arriving(ds: seq<Delivery>): set<EventId> {
    set i | 0 <= i < |ds| :: EventOf(ds[i]).id
  }

  predicate UniqueIds(events: seq<Event>) {
    forall i, j :: 0 <= i < j < |events| ==> events[i].id != events[j].id
  }

  /** Every stored event was delivered, and nothing delivered is missing. */
  predicate Stores(events: seq<Event>, ds: seq<Delivery>) {
    && UniqueIds(events)
    && IdsOf(events) == Arriving(ds)
    && forall i :: 0 <= i < |events| ==> exists j :: 0 <= j < |ds| && EventOf(ds[j]) == events[i]
  }

  /** The duplicate check of the store: an id it knows is dropped. */
  method Ingest(ds: seq<Delivery>) returns (events: seq<Event>)
    ensures Stores(events, ds)
  {
    events := [];
    var known: set<EventId> := {};
    var n := 0;
    while n < |ds|
      invariant 0 <= n <= |ds|
      invariant known == IdsOf(events) && Stores(events, ds[..n])
    {
      var e := EventOf(ds[n]);
      StoresOneMore(events, ds, n);
      if e.id !in known {
        events := events + [e];
        known := known + {e.id};
      }
      n := n + 1;
    }
    assert ds[..n] == ds;
  }

  lemma IdsOneMore(events: seq<Event>, e: Event)
    ensures IdsOf(events + [e]) == IdsOf(events) + {e.id}
  {
    var more := events + [e];
    forall id | id in IdsOf(events)
      ensures id in IdsOf(more)
    {
      var i :| 0 <= i < |events| && events[i].id == id;
      assert more[i].id == id;
    }
    assert more[|events|].id in IdsOf(more);
  }

  lemma StoresOneMore(events: seq<Event>, ds: seq<Delivery>, n: nat)
    requires n < |ds| && Stores(events, ds[..n])
    ensures var e := EventOf(ds[n]);
      if e.id in IdsOf(events) then Stores(events, ds[..n + 1])
      else Stores(events + [e], ds[..n + 1]) && IdsOf(events + [e]) == IdsOf(events) + {e.id}
  {
    var e, more := EventOf(ds[n]), ds[..n + 1];
    IdsOneMore(events, e);
    forall i | 0 <= i < |events|
      ensures exists j :: 0 <= j < |more| && EventOf(more[j]) == events[i]
    {
      var j :| 0 <= j < n && EventOf(ds[..n][j]) == events[i];
      assert EventOf(more[j]) == events[i];
    }
    assert EventOf(more[n]) == e;
  }

  /** Whatever the order and the repetitions, the same deliveries leave the same ids. */
  lemma OrderDoesNotMatter(a: seq<Delivery>, b: seq<Delivery>, stored: seq<Event>, stored2: seq<Event>)
    requires forall d :: d in a <==> d in b
    requires Stores(stored, a) && Stores(stored2, b)
    ensures IdsOf(stored) == IdsOf(stored2) && |stored| == |stored2|
  {
    SameArrivals(a, b);
    SameArrivals(b, a);
    CountOfIds(stored);
    CountOfIds(stored2);
  }

  lemma SameArrivals(a: seq<Delivery>, b: seq<Delivery>)
    requires forall d :: d in a ==> d in b
    ensures Arriving(a) <= Arriving(b)
  {
    forall id | id in Arriving(a)
      ensures id in Arriving(b)
    {
      var i :| 0 <= i < |a| && EventOf(a[i]).id == id;
      assert a[i] in b;
      var j :| 0 <= j < |b| && b[j] == a[i];
      assert EventOf(b[j]).id == id;
    }
  }

  lemma {:induction false} CountOfIds(events: seq<Event>)
    requires UniqueIds(events)
    ensures |IdsOf(events)| == |events|
    decreases |events|
  {
    if events != [] {
      var before, last := events[..|events| - 1], events[|events| - 1];
      CountOfIds(before);
      IdsOneMore(before, last);
      assert events == before + [last];
    }
  }

  predicate IsEnd(k: Kind) {
    k.Finished? || k.Failed?
  }

  /** The two deliveries are about the same moment of the same call. */
  predicate SameMoment(d: Delivery, d2: Delivery) {
    && d.provider == d2.provider && SessionOf(d) == SessionOf(d2) && d.call == d2.call
    && (KindOf(d) == KindOf(d2) || (IsEnd(KindOf(d)) && IsEnd(KindOf(d2))))
  }

  predicate PlainFields(d: Delivery) {
    Plain(d.provider) && Plain(SessionOf(d))
  }

  /** Named deliveries share an id exactly when they are the same moment, given plain session ids. */
  lemma SameIdIsSameMoment(d: Delivery, d2: Delivery)
    requires IsNamed(d) && IsNamed(d2) && PlainFields(d) && PlainFields(d2)
    ensures EventOf(d).id == EventOf(d2).id <==> SameMoment(d, d2)
  {
    var s, s2, k, k2 := SessionOf(d), SessionOf(d2), KindOf(d), KindOf(d2);
    var c, c2 := d.call.value, d2.call.value;
    SharesIdExactlyWhen(d.provider, d2.provider, s, s2, k, k2, c, c2);
    EmbeddingIsNotPlain(s, Slot(k), c, s2, Slot(k2), c2);
    EmbeddingIsNotPlain(s2, Slot(k2), c2, s, Slot(k), c);
    SameSlot(k, k2);
  }

  lemma EmbeddingIsNotPlain(session: string, slot: string, call: string, session2: string, slot2: string, call2: string)
    ensures Embeds(session, slot, call, session2, slot2, call2) ==> !Plain(session2)
  {
    var prefix := session + [SEPARATOR] + slot + [SEPARATOR] + CALL;
    if prefix <= session2 {
      assert session2[|session|] == prefix[|session|] == SEPARATOR;
    }
  }

  lemma SameSlot(k: Kind, k2: Kind)
    requires !k.NotATool? && !k2.NotATool?
    ensures Slot(k) == Slot(k2) <==> k == k2 || (IsEnd(k) && IsEnd(k2))
  {
    assert Slot(Started)[0] == 't' && Slot(Started)[10] == 's';
    assert Slot(Finished)[0] == 't' && Slot(Finished)[10] == 'e';
    assert Slot(PermissionRequested)[11] == 'r' && Slot(PermissionDenied)[11] == 'd';
    assert Slot(PermissionRequested)[0] == 'p' && Slot(PermissionDenied)[0] == 'p';
  }

  /** The event is about the moment of the call that the delivery is about. */
  predicate IsAbout(e: Event, d: Delivery) {
    && e.provider == d.provider && e.session == SessionOf(d) && e.call == d.call
    && (e.kind == KindOf(d) || (IsEnd(e.kind) && IsEnd(KindOf(d))))
  }

  /** In a known session, whatever makes an event about the moment of a named delivery gives it that id. */
  lemma AboutTheSameIsTheSame(x: Delivery, d: Delivery)
    requires PlainFields(x) && PlainFields(d) && IsNamed(d) && SessionOf(d) != UNKNOWN_SESSION
    ensures IsAbout(EventOf(x), d) ==> EventOf(x).id == EventOf(d).id
  {
    if IsAbout(EventOf(x), d) {
      SameIdIsSameMoment(x, d);
    }
  }

  /**
   A named delivery, however often and through whichever channel it arrives, is one stored event, and
   that event is about the same moment of the same call, never another call's. In a known session no
   other stored event is about that moment: at most one start and one end, even when the channels
   disagree on how it ended.
   */
  lemma OneEventPerMoment(ds: seq<Delivery>, stored: seq<Event>, d: Delivery) returns (at: nat)
    requires Stores(stored, ds) && d in ds && IsNamed(d) && PlainFields(d)
    requires forall x :: x in ds ==> PlainFields(x)
    ensures at < |stored| && stored[at].id == EventOf(d).id
    ensures IsAbout(stored[at], d)
    ensures forall i :: 0 <= i < |stored| && i != at ==> stored[i].id != EventOf(d).id
    ensures forall x :: x in ds && IsNamed(x) && SameMoment(x, d) ==> EventOf(x).id == stored[at].id
    ensures SessionOf(d) != UNKNOWN_SESSION ==> forall i :: 0 <= i < |stored| && i != at ==> !IsAbout(stored[i], d)
  {
    var i :| 0 <= i < |ds| && ds[i] == d;
    assert EventOf(ds[i]).id in Arriving(ds);
    at :| 0 <= at < |stored| && stored[at].id == EventOf(d).id;
    var j :| 0 <= j < |ds| && EventOf(ds[j]) == stored[at];
    SameIdIsSameMoment(ds[j], d);
    forall x | x in ds && IsNamed(x) && SameMoment(x, d)
      ensures EventOf(x).id == stored[at].id
    {
      SameIdIsSameMoment(x, d);
    }
    forall m | 0 <= m < |stored| && m != at && SessionOf(d) != UNKNOWN_SESSION
      ensures !IsAbout(stored[m], d)
    {
      var k :| 0 <= k < |ds| && EventOf(ds[k]) == stored[m];
      assert stored[m].id != stored[at].id;
      AboutTheSameIsTheSame(ds[k], d);
    }
  }

  /** Without a session id a repeated hook stays two events. */
  lemma UnknownSessionIsNotMerged(provider: string, kind: Kind, call: string, n: nat, m: nat)
    requires n != m
    ensures EventOf(Hook(provider, kind, None, Some(call), None, n)).id
      != EventOf(Hook(provider, kind, None, Some(call), None, m)).id
  {
  }

  /** Nor is it merged with what an importer that found no session id makes of the call: two stored events. */
  lemma UnknownSessionIsStoredTwice(provider: string, kind: Kind, call: string, n: nat, m: nat, stored: seq<Event>)
    requires !kind.NotATool?
    requires Stores(stored, [Imported(provider, UNKNOWN_SESSION, kind, Some(call), n), Hook(provider, kind, None, Some(call), None, m)])
    ensures |stored| == 2 && forall i :: 0 <= i < |stored| ==>
      IsAbout(stored[i], Imported(provider, UNKNOWN_SESSION, kind, Some(call), n))
  {
    var ds := [Imported(provider, UNKNOWN_SESSION, kind, Some(call), n), Hook(provider, kind, None, Some(call), None, m)];
    var first, second := EventOf(ds[0]).id, EventOf(ds[1]).id;
    assert Arriving(ds) == {first, second};
    CountOfIds(stored);
  }
}
