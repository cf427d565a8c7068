/**
 What may leave the device for a sync peer (crates/attemptdb-capture/src/sync.rs): the repository
 policy, the consent with its history watermark, and what the server keeps of what it is sent.
 */
module SyncPolicy {
  import opened Wrappers

  /** `keys` is every policy key that names the event's project: its id and its remote. */
  datatype Event = Event(
    id: nat, keys: set<nat>, observedAt: int, imported: bool, unattributed: bool, discarded: bool)

  datatype Policy = Policy(included: seq<nat>, excluded: seq<nat>)

  datatype Profile = MetadataOnly | Semantic | Messages | Full

  datatype Consent = Consent(at: int, profile: Profile, policy: Policy, before: Option<int>, beforeSeq: Option<nat>)

  datatype Peer = Peer(url: nat, key: nat, profile: Profile, policy: Policy, consent: Option<Consent>)

  predicate Names(keys: seq<nat>, e: Event) {
    exists i :: 0 <= i < |keys| && keys[i] in e.keys
  }

  predicate Allows(p: Policy, e: Event) {
    && !((p.included != [] || p.excluded != []) && e.unattributed)
    && !Names(p.excluded, e)
    && (p.included == [] || Names(p.included, e))
  }

  /** What a policy lets out, whatever the consent says. */
  predicate Sendable(p: Policy, e: Event) {
    !e.discarded && Allows(p, e)
  }

  predicate HasWatermark(c: Option<Consent>) {
    c.Some? && (c.value.before.Some? || c.value.beforeSeq.Some?)
  }

  /** `withholds`; `number` is the event's sequence number. */
  predicate Withholds(c: Consent, e: Event, number: nat) {
    match c.beforeSeq
    case Some(newest) => number <= newest || (e.imported && c.before.Some? && e.observedAt < c.before.value)
    case None => c.before.Some? && e.observedAt < c.before.value
  }

  predicate Withheld(p: Peer, e: Event, number: nat) {
    p.consent.Some? && Withholds(p.consent.value, e, number)
  }

  /** What an upload under this configuration sends. */
  predicate Due(p: Peer, e: Event, number: nat) {
    Sendable(p.policy, e) && !Withheld(p, e, number)
  }

  /** Nothing numbered `w` or below leaves under this configuration. */
  predicate HoldsBack(c: Option<Consent>, w: nat) {
    c.Some? && c.value.beforeSeq.Some? && c.value.beforeSeq.value >= w
  }

  // ---------------------------------------------------------------------------
  // How the commands change a peer's consent
  // ---------------------------------------------------------------------------

  function RefreshConsent(p: Peer, now: int): Peer {
    var before := if p.consent.Some? then p.consent.value.before else None;
    var beforeSeq := if p.consent.Some? then p.consent.value.beforeSeq else None;
    p.(consent := Some(Consent(now, p.profile, p.policy, before, beforeSeq)))
  }

  function Later(a: int, b: int): int {
    if a >= b then a else b
  }

  function AdvanceWatermark(c: Consent, now: int, newest: nat): Consent {
    c.(before := Some(if c.before.Some? then Later(c.before.value, now) else now),
       beforeSeq := Some(if c.beforeSeq.Some? && c.beforeSeq.value >= newest then c.beforeSeq.value else newest))
  }

  function CloseHistory(p: Peer, now: int, newest: nat): Peer {
    var c := if p.consent.Some? then p.consent.value else Consent(now, p.profile, p.policy, None, None);
    p.(consent := Some(AdvanceWatermark(c, now, newest)))
  }

  function ClearWatermark(p: Peer): Peer {
    if p.consent.Some? then p.(consent := Some(p.consent.value.(before := None, beforeSeq := None))) else p
  }

  datatype PolicyChange = Exclude(key: nat) | Include(key: nat) | Remove(key: nat) | Clear

  function Added(keys: seq<nat>, key: nat): seq<nat> {
    if key in keys then keys else keys + [key]
  }

  function Without(keys: seq<nat>, key: nat): seq<nat> {
    if keys == [] then []
    else (if keys[0] == key then [] else [keys[0]]) + Without(keys[1..], key)
  }

  function ChangedPolicy(p: Policy, c: PolicyChange): Policy {
    match c
    case Exclude(k) => p.(excluded := Added(p.excluded, k))
    case Include(k) => p.(included := Added(p.included, k))
    case Remove(k) => Policy(Without(p.included, k), Without(p.excluded, k))
    case Clear => Policy([], [])
  }

  /**
   Closing holds back everything recorded so far. Of what is recorded later it keeps back all that was
   held back before, except live events that a watermark by time alone would have held.
   */
  lemma CloseHistoryHoldsBack(p: Peer, now: int, newest: nat, e: Event, number: nat)
    ensures HoldsBack(CloseHistory(p, now, newest).consent, newest)
    ensures number <= newest ==> Withheld(CloseHistory(p, now, newest), e, number)
    ensures forall w :: HoldsBack(p.consent, w) ==> HoldsBack(CloseHistory(p, now, newest).consent, w)
    ensures Withheld(p, e, number) ==>
      (Withheld(CloseHistory(p, now, newest), e, number) <==>
         number <= newest || e.imported || p.consent.value.beforeSeq.Some?)
  {
  }

  // ---------------------------------------------------------------------------
  // The cursor file
  // ---------------------------------------------------------------------------

  /** `acked` is the last sequence number handled against `url`. */
  datatype SyncState = SyncState(url: Option<nat>, acked: nat)

  const NEW_STATE := SyncState(None, 0)

  function BoundTo(s: SyncState, url: nat): SyncState {
    SyncState(Some(url), if s.url.None? || s.url.value == url then s.acked else 0)
  }

  // ---------------------------------------------------------------------------
  // The server
  // ---------------------------------------------------------------------------

  predicate Holds(store: seq<Event>, id: nat) {
    exists i :: 0 <= i < |store| && store[i].id == id
  }

  function Receive(store: seq<Event>, e: Event): seq<Event> {
    if Holds(store, e.id) then store else store + [e]
  }

  function Deliver(store: seq<Event>, events: seq<Event>): seq<Event> {
    if events == [] then store else Receive(Deliver(store, events[..|events| - 1]), events[|events| - 1])
  }

  /** The events numbered `from + 1` to `upto` that are due, in order. */
  function DueEvents(p: Peer, log: seq<Event>, from: nat, upto: nat): seq<Event>
    requires upto <= |log|
    decreases upto
  {
    if upto <= from then []
    else DueEvents(p, log, from, upto - 1) + if Due(p, log[upto - 1], upto) then [log[upto - 1]] else []
  }

  predicate NoDuplicates(store: seq<Event>) {
    forall i, j :: 0 <= i < j < |store| ==> store[i].id != store[j].id
  }

  lemma ReceiveEffect(store: seq<Event>, e: Event, id: nat)
    ensures Holds(Receive(store, e), id) <==> Holds(store, id) || e.id == id
  {
    var after := Receive(store, e);
    if Holds(store, id) {
      var i :| 0 <= i < |store| && store[i].id == id;
      assert after[i].id == id;
    } else if e.id == id {
      assert after[|store|] == e;
    }
  }

  lemma {:induction false} DeliverKeepsUnique(store: seq<Event>, events: seq<Event>)
    requires NoDuplicates(store)
    ensures NoDuplicates(Deliver(store, events))
    decreases |events|
  {
    if events != [] {
      DeliverKeepsUnique(store, events[..|events| - 1]);
    }
  }

  lemma {:induction false} DeliverInParts(store: seq<Event>, first: seq<Event>, second: seq<Event>)
    ensures Deliver(store, first + second) == Deliver(Deliver(store, first), second)
    decreases |second|
  {
    if second == [] {
      assert first + second == first;
    } else {
      var whole, rest := first + second, second[..|second| - 1];
      assert whole[..|whole| - 1] == first + rest;
      DeliverInParts(store, first, rest);
    }
  }

  lemma {:induction false} DeliverKeeps(store: seq<Event>, events: seq<Event>, id: nat)
    requires Holds(store, id)
    ensures Holds(Deliver(store, events), id)
    decreases |events|
  {
    if events != [] {
      var before := events[..|events| - 1];
      DeliverKeeps(store, before, id);
      ReceiveEffect(Deliver(store, before), events[|events| - 1], id);
    }
  }

  lemma {:induction false} DueEventsInParts(p: Peer, log: seq<Event>, from: nat, middle: nat, upto: nat)
    requires from <= middle <= upto <= |log|
    ensures DueEvents(p, log, from, upto) == DueEvents(p, log, from, middle) + DueEvents(p, log, middle, upto)
    decreases upto
  {
    if middle < upto {
      DueEventsInParts(p, log, from, middle, upto - 1);
    }
  }

  lemma DeliverNext(p: Peer, log: seq<Event>, from: nat, upto: nat, store: seq<Event>)
    requires from < upto <= |log|
    ensures Deliver(store, DueEvents(p, log, from, upto)) ==
      (if Due(p, log[upto - 1], upto) then Receive(Deliver(store, DueEvents(p, log, from, upto - 1)), log[upto - 1])
       else Deliver(store, DueEvents(p, log, from, upto - 1)))
  {
    var before := DueEvents(p, log, from, upto - 1);
    if Due(p, log[upto - 1], upto) {
      var now := before + [log[upto - 1]];
      assert now[..|now| - 1] == before;
    } else {
      assert DueEvents(p, log, from, upto) == before;
    }
  }

  /** The server ends up holding each due event of the range. */
  lemma {:induction false} DueIsDelivered(p: Peer, log: seq<Event>, from: nat, upto: nat, store: seq<Event>, k: nat)
    requires from <= k < upto <= |log| && Due(p, log[k], k + 1)
    ensures Holds(Deliver(store, DueEvents(p, log, from, upto)), log[k].id)
    decreases upto
  {
    DeliverNext(p, log, from, upto, store);
    var before := Deliver(store, DueEvents(p, log, from, upto - 1));
    ReceiveEffect(before, log[upto - 1], log[k].id);
    if k < upto - 1 {
      DueIsDelivered(p, log, from, upto - 1, store, k);
    }
  }

  /** And nothing else. */
  lemma {:induction false} DeliveredIsDue(p: Peer, log: seq<Event>, from: nat, upto: nat, store: seq<Event>, e: Event)
    returns (k: nat)
    requires upto <= |log| && e in Deliver(store, DueEvents(p, log, from, upto)) && e !in store
    ensures from <= k < upto && log[k] == e && Due(p, e, k + 1)
    decreases upto
  {
    DeliverNext(p, log, from, upto, store);
    var before := Deliver(store, DueEvents(p, log, from, upto - 1));
    if e in before {
      k := DeliveredIsDue(p, log, from, upto - 1, store, e);
    } else {
      k := upto - 1;
    }
  }
}
