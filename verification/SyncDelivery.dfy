/**
 What `attempt sync` delivers: after `history include` and an upload run to the newest event the server
 holds exactly what the policy allows; and the ways an event can end up behind the cursor, neither
 sent nor held back.
 */
module SyncDelivery {
  import opened Wrappers
  import opened SyncPolicy
  import opened Sync
  import opened SyncHistory

  /** The cursor an upload would start from. */
  function CursorFor(d: Device, name: nat): nat
    requires name in d.peers
  {
    BoundTo(FileOf(d.files, name), d.peers[name].url).acked
  }

  /** Of the first `upto` events, the server holds every one the policy allows. */
  predicate Delivered(log: seq<Event>, store: seq<Event>, policy: Policy, upto: nat) {
    forall k :: 0 <= k < upto && k < |log| && Sendable(policy, log[k]) ==> Holds(store, log[k].id)
  }

  lemma SendingDelivers(p: Peer, log: seq<Event>, store: seq<Event>, from: nat, upto: nat)
    requires from <= upto <= |log| && !HasWatermark(p.consent)
    requires Delivered(log, store, p.policy, from)
    ensures Delivered(log, Deliver(store, DueEvents(p, log, from, upto)), p.policy, upto)
  {
    forall k | 0 <= k < upto && Sendable(p.policy, log[k])
      ensures Holds(Deliver(store, DueEvents(p, log, from, upto)), log[k].id)
    {
      if k < from {
        DeliverKeeps(store, DueEvents(p, log, from, upto), log[k].id);
      } else {
        DueIsDelivered(p, log, from, upto, store, k);
      }
    }
  }

  lemma SendingKeepsDelivered(p: Peer, log: seq<Event>, store: seq<Event>, from: nat, upto: nat, policy: Policy, n: nat)
    requires upto <= |log| && Delivered(log, store, policy, n)
    ensures Delivered(log, Deliver(store, DueEvents(p, log, from, upto)), policy, n)
  {
    forall k | 0 <= k < n && k < |log| && Sendable(policy, log[k])
      ensures Holds(Deliver(store, DueEvents(p, log, from, upto)), log[k].id)
    {
      DeliverKeeps(store, DueEvents(p, log, from, upto), log[k].id);
    }
  }

  // ---------------------------------------------------------------------------
  // history include
  // ---------------------------------------------------------------------------

  predicate Open(p: Peer, url: nat, policy: Policy) {
    p.url == url && p.policy == policy && !HasWatermark(p.consent)
  }

  /** The peer holds nothing back, and neither its cursor nor a run of it has passed anything undelivered. */
  predicate CatchingUp(d: Device, name: nat, url: nat, policy: Policy) {
    && name in d.peers && Open(d.peers[name], url, policy)
    && Delivered(d.log, StoreOf(d, url), policy, CursorFor(d, name))
    && (forall r :: r in d.runs && d.runs[r].name == name ==>
          Open(d.runs[r].peer, url, policy) && Delivered(d.log, StoreOf(d, url), policy, d.runs[r].cursor))
  }

  /** Steps that configure the peer anew, or delete from the server. */
  predicate Disturbs(d: Device, a: Action, name: nat, url: nat) {
    match a
    case SaveConnection(n, _, _, _, _, _, _) => n == name
    case CloseForForget(n, _) => n == name
    case ChangePolicy(n, _, _) => n == name
    case ConcludeConnection(_) => d.command.Connecting? && d.command.name == name
    case ConcludeForget(_, deleted) =>
      d.command.Forgetting? && (d.command.name == name
      || (deleted && d.command.name in d.peers && d.peers[d.command.name].url == url))
    case ForgetOnLeaving(_, deleted) =>
      d.command.Leaving? && (d.command.name == name
      || (deleted && d.command.name in d.peers && d.peers[d.command.name].url == url))
    case FinishLeaving => d.command.Leaving? && d.command.name == name
    case _ => false
  }

  lemma CommandKeepsOpen(d: Device, a: Action, name: nat, url: nat, policy: Policy)
    requires name in d.peers && Open(d.peers[name], url, policy)
    requires Enabled(d, a) && !InBackground(a) && !Disturbs(d, a, name, url)
    ensures name in Next(d, a).peers && Open(Next(d, a).peers[name], url, policy)
    ensures CursorFor(Next(d, a), name) <= CursorFor(d, name)
  {
  }

  lemma CommandKeepsCatchingUp(d: Device, a: Action, name: nat, url: nat, policy: Policy)
    requires CatchingUp(d, name, url, policy) && Enabled(d, a) && !InBackground(a) && !Disturbs(d, a, name, url)
    ensures CatchingUp(Next(d, a), name, url, policy)
  {
    CommandKeepsOpen(d, a, name, url, policy);
  }

  lemma SendKeepsCatchingUp(d: Device, r: nat, upto: nat, name: nat, url: nat, policy: Policy)
    requires Valid(d) && CatchingUp(d, name, url, policy) && Enabled(d, SendBatch(r, upto))
    ensures CatchingUp(Next(d, SendBatch(r, upto)), name, url, policy)
  {
    var run, n := d.runs[r], Next(d, SendBatch(r, upto));
    if run.peer.url == url {
      var store := StoreOf(d, url);
      SendingKeepsDelivered(run.peer, d.log, store, run.cursor, upto, policy, CursorFor(d, name));
      forall q | q in d.runs && d.runs[q].name == name
        ensures Delivered(d.log, StoreOf(n, url), policy, d.runs[q].cursor)
      {
        SendingKeepsDelivered(run.peer, d.log, store, run.cursor, upto, policy, d.runs[q].cursor);
      }
      if run.name == name {
        SendingDelivers(run.peer, d.log, store, run.cursor, upto);
      }
    }
  }

  lemma RecordKeepsCatchingUp(d: Device, e: Event, name: nat, url: nat, policy: Policy)
    requires Valid(d) && CatchingUp(d, name, url, policy) && Enabled(d, Record(e))
    ensures CatchingUp(Next(d, Record(e)), name, url, policy)
  {
    forall r | r in d.runs && d.runs[r].name == name
      ensures Delivered(d.log + [e], StoreOf(d, url), policy, d.runs[r].cursor)
    {
    }
  }

  lemma BackgroundKeepsCatchingUp(d: Device, a: Action, name: nat, url: nat, policy: Policy)
    requires Valid(d) && CatchingUp(d, name, url, policy) && Enabled(d, a) && InBackground(a)
    ensures CatchingUp(Next(d, a), name, url, policy)
  {
    if a.SendBatch? {
      SendKeepsCatchingUp(d, a.r, a.upto, name, url, policy);
    } else if a.Record? {
      RecordKeepsCatchingUp(d, a.event, name, url, policy);
    }
  }

  lemma StepKeepsCatchingUp(d: Device, a: Action, name: nat, url: nat, policy: Policy)
    requires Valid(d) && CatchingUp(d, name, url, policy) && Enabled(d, a) && !Disturbs(d, a, name, url)
    ensures CatchingUp(Next(d, a), name, url, policy)
  {
    if InBackground(a) {
      BackgroundKeepsCatchingUp(d, a, name, url, policy);
    } else {
      CommandKeepsCatchingUp(d, a, name, url, policy);
    }
  }

  lemma {:induction false} RunKeepsCatchingUp(
    states: seq<Device>, actions: seq<Action>, i: nat, j: nat, name: nat, url: nat, policy: Policy)
    requires Run(states, actions) && Starts(states[0]) && i <= j < |states|
    requires forall m :: i <= m < j ==> !Disturbs(states[m], actions[m], name, url)
    requires CatchingUp(states[i], name, url, policy)
    ensures CatchingUp(states[j], name, url, policy)
    decreases j
  {
    if i < j {
      RunKeepsCatchingUp(states, actions, i, j - 1, name, url, policy);
      RunKeepsValid(states, actions, j - 1);
      var d, a := states[j - 1], actions[j - 1];
      assert !Disturbs(d, a, name, url);
      StepKeepsCatchingUp(d, a, name, url, policy);
    }
  }

  // ---------------------------------------------------------------------------
  // Under one policy the server holds nothing the policy keeps out
  // ---------------------------------------------------------------------------

  predicate OnePolicy(d: Device, url: nat, policy: Policy) {
    forall n :: n in d.peers && d.peers[n].url == url ==> d.peers[n].policy == policy
  }

  predicate OnlyAllowed(d: Device, url: nat, policy: Policy) {
    && (forall e :: e in StoreOf(d, url) ==> e in d.log && Sendable(policy, e))
    && (forall r :: r in d.runs && d.runs[r].peer.url == url ==> d.runs[r].peer.policy == policy)
  }

  lemma StepKeepsOnlyAllowed(d: Device, a: Action, url: nat, policy: Policy)
    requires OnlyAllowed(d, url, policy) && OnePolicy(d, url, policy) && Enabled(d, a)
    ensures OnlyAllowed(Next(d, a), url, policy)
  {
    if a.SendBatch? && d.runs[a.r].peer.url == url {
      var run, store, after := d.runs[a.r], StoreOf(d, url), StoreOf(Next(d, a), url);
      forall e | e in after
        ensures e in d.log && Sendable(policy, e)
      {
        if e !in store {
          var _ := DeliveredIsDue(run.peer, d.log, run.cursor, a.upto, store, e);
        }
      }
    }
  }

  lemma {:induction false} RunKeepsOnlyAllowed(
    states: seq<Device>, actions: seq<Action>, j: nat, url: nat, policy: Policy)
    requires Run(states, actions) && j < |states|
    requires OnlyAllowed(states[0], url, policy)
    requires forall m :: 0 <= m < j ==> OnePolicy(states[m], url, policy)
    ensures OnlyAllowed(states[j], url, policy)
    decreases j
  {
    if j > 0 {
      RunKeepsOnlyAllowed(states, actions, j - 1, url, policy);
      StepKeepsOnlyAllowed(states[j - 1], actions[j - 1], url, policy);
    }
  }

  /** Held by id means held, for a store of logged events. */
  lemma HeldIsTheEvent(log: seq<Event>, store: seq<Event>, k: nat)
    requires NoDuplicates(log) && k < |log| && Holds(store, log[k].id)
    requires forall e :: e in store ==> e in log
    ensures log[k] in store
  {
    var i :| 0 <= i < |store| && store[i].id == log[k].id;
    assert store[i] in store;
    var m :| 0 <= m < |log| && log[m] == store[i];
  }

  /**
   `history include` at step `b`, its cursor reset at step `c` with no run of the peer under way, and
   uploads that have reached the newest event by step `j`: the server then holds exactly the events
   the policy allows, each once, whatever had been held back before.
   */
  lemma HistoryIncludeDelivers(
    states: seq<Device>, actions: seq<Action>, b: nat, c: nat, j: nat, name: nat, url: nat, policy: Policy)
    requires Run(states, actions) && Starts(states[0]) && b < c < j < |states|
    requires OnlyAllowed(states[0], url, policy)
    requires forall m :: 0 <= m < j ==> OnePolicy(states[m], url, policy)
    requires actions[b].IncludeInConfig? && actions[b].name == name
    requires name in states[b].peers && HasWatermark(states[b].peers[name].consent) && states[b].peers[name].url == url
    requires actions[c] == ResetCursor && forall m :: b < m < c ==> InBackground(actions[m])
    requires forall r :: r in states[c].runs ==> states[c].runs[r].name != name
    requires forall m :: c < m < j ==> !Disturbs(states[m], actions[m], name, url)
    requires name in states[j].peers && CursorFor(states[j], name) == |states[j].log|
    ensures forall e :: e in StoreOf(states[j], url) <==> e in states[j].log && Sendable(policy, e)
    ensures NoDuplicates(StoreOf(states[j], url))
  {
    BackgroundLeavesPeers(states, actions, b + 1, c);
    assert CatchingUp(states[c + 1], name, url, policy) by {
      assert OnePolicy(states[b], url, policy);
    }
    RunKeepsCatchingUp(states, actions, c + 1, j, name, url, policy);
    RunKeepsOnlyAllowed(states, actions, j, url, policy);
    RunKeepsValid(states, actions, j);
    var d := states[j];
    forall e | e in d.log && Sendable(policy, e)
      ensures e in StoreOf(d, url)
    {
      var k :| 0 <= k < |d.log| && d.log[k] == e;
      HeldIsTheEvent(d.log, StoreOf(d, url), k);
    }
  }

  // ---------------------------------------------------------------------------
  // Behind the cursor
  // ---------------------------------------------------------------------------

  /** Everything the peer's cursor has passed is delivered, held back, or kept out by the policy. */
  predicate Accounted(d: Device, name: nat)
    requires name in d.peers
  {
    Arrived(d, d.peers[name], CursorFor(d, name))
  }

  predicate Arrived(d: Device, p: Peer, upto: nat) {
    forall k :: 0 <= k < upto && k < |d.log| && Due(p, d.log[k], k + 1) ==> Holds(StoreOf(d, p.url), d.log[k].id)
  }

  /** A forget the server refuses, with a whole upload run while it waited. */
  lemma UploadDuringForget(d: Device, name: nat, now: int) returns (states: seq<Device>, actions: seq<Action>)
    requires Starts(d) && name in d.peers
    ensures Run(states, actions) && states[0] == d
    ensures actions == [OpenLog, CloseForForget(name, now), StartUpload(0, name), FinishUpload(0), ConcludeForget(false, false)]
    ensures var after := Last(states);
      && after.peers == d.peers && after.servers == d.servers && after.log == d.log
      && CursorFor(after, name) == |d.log|
  {
    states, actions := ForgetClosed(d, name, now);
    forall k | 0 <= k < |d.log|
      ensures !Due(Last(states).peers[name], d.log[k], k + 1)
    {
      CloseHistoryHoldsBack(d.peers[name], now, |d.log|, d.log[k], k + 1);
    }
    var closed := Last(states);
    assert CursorFor(closed, name) == CursorFor(d, name);
    states, actions := Step(states, actions, StartUpload(0, name));
    states, actions := Step(states, actions, FinishUpload(0));
    states, actions := Step(states, actions, ConcludeForget(false, false));
    assert Last(states).peers == d.peers;
  }

  lemma ForgetClosed(d: Device, name: nat, now: int) returns (states: seq<Device>, actions: seq<Action>)
    requires Starts(d) && name in d.peers
    ensures Run(states, actions) && states[0] == d && actions == [OpenLog, CloseForForget(name, now)]
    ensures Last(states) == d.(peers := d.peers[name := CloseHistory(d.peers[name], now, |d.log|)],
                               command := Forgetting(name, d.peers[name].consent, FileOf(d.files, name)))
  {
    states, actions := [d], [];
    states, actions := Step(states, actions, OpenLog);
    states, actions := Step(states, actions, CloseForForget(name, now));
  }

  /**
   A refused forget puts the consent back but not the cursor: with an upload run in between it keeps
   the account exactly when nothing was waiting to be sent before it.
   */
  lemma RefusedForgetAccountedExactlyWhen(d: Device, name: nat, now: int)
    returns (states: seq<Device>, actions: seq<Action>)
    requires Starts(d) && name in d.peers
    ensures Run(states, actions) && states[0] == d
    ensures actions == [OpenLog, CloseForForget(name, now), StartUpload(0, name), FinishUpload(0), ConcludeForget(false, false)]
    ensures name in Last(states).peers
    ensures Accounted(Last(states), name) <==> Arrived(d, d.peers[name], |d.log|)
  {
    states, actions := UploadDuringForget(d, name, now);
    var after := Last(states);
    assert StoreOf(after, d.peers[name].url) == StoreOf(d, d.peers[name].url);
  }

  // ---------------------------------------------------------------------------
  // --include-history on a peer that was left
  // ---------------------------------------------------------------------------

  /** The connection as `connect` or `add` makes it, with everything but these left at its default. */
  function Connection(name: nat, url: nat, policy: Policy, includeHistory: bool): Action {
    SaveConnection(name, url, 0, Semantic, policy, includeHistory, 0)
  }

  /**
   A connection with `--include-history` promises everything recorded so far. Once accepted, its
   account is right exactly when the cursor went back to 0, or never had anything to go back over: the
   guard that rewinds it asks for a replaced peer, and so misses one that was left.
   */
  lemma IncludeHistoryAccountedExactlyWhen(d: Device)
    requires d.command.Connecting? && d.command.includeHistory && d.command.name in d.peers
    requires !HasWatermark(d.peers[d.command.name].consent)
    ensures var name, after := d.command.name, Next(d, ConcludeConnection(true));
      var file, peer := FileOf(d.files, name), d.peers[name];
      Accounted(after, name) <==>
        || (d.command.previous.Some? && file.url == Some(peer.url))
        || (file.url.Some? && file.url.value != peer.url)
        || Delivered(d.log, StoreOf(d, peer.url), peer.policy, file.acked)
  {
  }

  /** A first connection, an upload that holds everything back, and the peer is left. */
  lemma ConnectedAndLeft(d: Device, name: nat, url: nat, policy: Policy)
    returns (states: seq<Device>, actions: seq<Action>)
    requires Starts(d) && name !in d.peers && name !in d.files && d.log != []
    ensures Run(states, actions) && states[0] == d && |actions| == 7
    ensures Last(states) == d.(files := d.files[name := SyncState(Some(url), |d.log|)])
  {
    states, actions := ConnectedAndUploaded(d, name, url, policy);
    states, actions := Step(states, actions, StartLeaving(name));
    states, actions := Step(states, actions, FinishLeaving);
    assert Last(states).peers == d.peers;
  }

  lemma ConnectedAndUploaded(d: Device, name: nat, url: nat, policy: Policy)
    returns (states: seq<Device>, actions: seq<Action>)
    requires Starts(d) && name !in d.peers && name !in d.files && d.log != []
    ensures Run(states, actions) && states[0] == d && |actions| == 5
    ensures Last(states) == d.(peers := d.peers[name := Connected(None, Connection(name, url, policy, false), |d.log|)],
                               files := d.files[name := SyncState(Some(url), |d.log|)])
  {
    states, actions := FirstConnected(d, name, url, policy);
    assert NothingDue(Last(states).peers[name], d.log, 0, |d.log|);
    states, actions := Step(states, actions, StartUpload(0, name));
    states, actions := Step(states, actions, FinishUpload(0));
    assert Last(states).runs == d.runs;
  }

  lemma FirstConnected(d: Device, name: nat, url: nat, policy: Policy)
    returns (states: seq<Device>, actions: seq<Action>)
    requires Starts(d) && name !in d.peers
    ensures Run(states, actions) && states[0] == d && |actions| == 3
    ensures Last(states) == d.(peers := d.peers[name := Connected(None, Connection(name, url, policy, false), |d.log|)])
  {
    states, actions := [d], [];
    states, actions := Step(states, actions, OpenLog);
    states, actions := Step(states, actions, Connection(name, url, policy, false));
    states, actions := Step(states, actions, ConcludeConnection(true));
  }

  /**
   Connected, uploaded, left, and connected again with `--include-history`: no watermark is left, the
   cursor stands at the newest event, and nothing was sent; `history include` then finds nothing to do.
   */
  lemma LeftHistoryIsNotIncluded(d: Device, name: nat, url: nat, policy: Policy)
    returns (states: seq<Device>, actions: seq<Action>)
    requires Starts(d) && name !in d.peers && name !in d.files && d.log != []
    ensures Run(states, actions) && states[0] == d && |actions| == 10
    ensures actions[8] == Connection(name, url, policy, true) && actions[9] == ConcludeConnection(true)
    ensures var after := Last(states);
      && name in after.peers && Open(after.peers[name], url, policy)
      && CursorFor(after, name) == |after.log| && after.log == d.log && after.servers == d.servers
      && forall now :: Enabled(after, IncludeInConfig(name, now)) && Next(after, IncludeInConfig(name, now)) == after
  {
    states, actions := ConnectedAndLeft(d, name, url, policy);
    states, actions := Step(states, actions, OpenLog);
    states, actions := Step(states, actions, Connection(name, url, policy, true));
    states, actions := Step(states, actions, ConcludeConnection(true));
  }

  // ---------------------------------------------------------------------------
  // history include during an upload
  // ---------------------------------------------------------------------------

  /**
   An upload run that had only held-back events left, overtaken by `history include`: finishing, it
   puts the cursor back over all of them, and including again does nothing. So the account is right
   exactly when the server held everything the policy allows before.
   */
  lemma IncludeUndoneByUpload(d: Device, name: nat, now: int) returns (states: seq<Device>, actions: seq<Action>)
    requires Starts(d) && name in d.peers && HasWatermark(d.peers[name].consent)
    requires CursorFor(d, name) < |d.log| && NothingDue(d.peers[name], d.log, CursorFor(d, name), |d.log|)
    ensures Run(states, actions) && states[0] == d
    ensures actions == [StartUpload(0, name), IncludeInConfig(name, now), ResetCursor, FinishUpload(0)]
    ensures var after := Last(states);
      && name in after.peers
      && (Accounted(after, name) <==>
            Delivered(d.log, StoreOf(d, d.peers[name].url), d.peers[name].policy, |d.log|))
      && forall later :: Enabled(after, IncludeInConfig(name, later)) && Next(after, IncludeInConfig(name, later)) == after
  {
    states, actions := IncludedDuringUpload(d, name, now);
    states, actions := Step(states, actions, FinishUpload(0));
    var after := Last(states);
    assert CursorFor(after, name) == |d.log|;
  }

  /**
   `history include` stopped after the configuration was saved: the watermark is gone, the cursor stays,
   and including again does nothing. So the account is right exactly when everything behind the cursor
   that the policy allows was delivered before.
   */
  lemma StoppedIncludeAccountedExactlyWhen(d: Device, name: nat, now: int)
    returns (states: seq<Device>, actions: seq<Action>)
    requires Starts(d) && name in d.peers && HasWatermark(d.peers[name].consent)
    ensures Run(states, actions) && states[0] == d && actions == [IncludeInConfig(name, now), Stop]
    ensures var after := Last(states);
      && name in after.peers
      && (Accounted(after, name) <==>
            Delivered(d.log, StoreOf(d, d.peers[name].url), d.peers[name].policy, CursorFor(d, name)))
      && forall later :: Enabled(after, IncludeInConfig(name, later)) && Next(after, IncludeInConfig(name, later)) == after
  {
    states, actions := [d], [];
    states, actions := Step(states, actions, IncludeInConfig(name, now));
    states, actions := Step(states, actions, Stop);
    var peer := Last(states).peers[name];
    assert forall e, k :: Due(peer, e, k) <==> Sendable(peer.policy, e);
  }

  lemma IncludedDuringUpload(d: Device, name: nat, now: int) returns (states: seq<Device>, actions: seq<Action>)
    requires Starts(d) && name in d.peers && HasWatermark(d.peers[name].consent)
    ensures Run(states, actions) && states[0] == d
    ensures actions == [StartUpload(0, name), IncludeInConfig(name, now), ResetCursor]
    ensures Last(states) == d.(runs := map[0 := Started(d, name)],
                               peers := d.peers[name := RefreshConsent(ClearWatermark(d.peers[name]), now)],
                               files := d.files[name := SyncState(Some(d.peers[name].url), 0)])
  {
    states, actions := [d], [];
    states, actions := Step(states, actions, StartUpload(0, name));
    states, actions := Step(states, actions, IncludeInConfig(name, now));
    states, actions := Step(states, actions, ResetCursor);
  }
}
