/**
 What the watermark, the cursor and the undo of `attempt sync` amount to over whole runs: history held
 back stays held back, what is forgotten stays forgotten, and a failed command leaves the peers alone.
 */
module SyncHistory {
  import opened Wrappers
  import opened SyncPolicy
  import opened Sync

  // ---------------------------------------------------------------------------
  // The watermark
  // ---------------------------------------------------------------------------

  /** The explicit opt-ins. */
  predicate IncludesHistory(a: Action) {
    (a.SaveConnection? && a.includeHistory) || a.IncludeInConfig?
  }

  /**
   Whatever happens short of an opt-in, the peer holds back everything numbered `w` or below: now, if
   the command under way is undone, and if the peer is left and connected again.
   */
  predicate Kept(d: Device, name: nat, w: nat) {
    && w <= |d.log|
    && (name in d.peers ==> HoldsBack(d.peers[name].consent, w))
    && (match d.command
        case Opened(newest, _) => newest >= w
        case Connecting(n, previous, _) => n == name && previous.Some? ==> HoldsBack(previous.value.consent, w)
        case Forgetting(n, consent, _) => n == name ==> HoldsBack(consent, w)
        case _ => true)
  }

  lemma StepKeeps(d: Device, a: Action, name: nat, w: nat)
    requires Kept(d, name, w) && Enabled(d, a) && !IncludesHistory(a)
    ensures Kept(Next(d, a), name, w)
  {
  }

  lemma {:induction false} RunKeeps(states: seq<Device>, actions: seq<Action>, i: nat, j: nat, name: nat, w: nat)
    requires Run(states, actions) && i <= j < |states|
    requires forall k :: i <= k < j ==> !IncludesHistory(actions[k])
    requires Kept(states[i], name, w)
    ensures Kept(states[j], name, w)
    decreases j
  {
    if i < j {
      RunKeeps(states, actions, i, j - 1, name, w);
      StepKeeps(states[j - 1], actions[j - 1], name, w);
    }
  }

  /**
   Between commands a watermark never drops or clears without an opt-in: not by a profile, a policy, a
   forget that fails or succeeds, another server, or leaving and connecting again.
   */
  lemma WatermarkNeverDrops(states: seq<Device>, actions: seq<Action>, i: nat, j: nat, name: nat, w: nat)
    requires Run(states, actions) && Starts(states[0]) && i <= j < |states|
    requires forall k :: i <= k < j ==> !IncludesHistory(actions[k])
    requires MarksRecorded(states[0]) && states[i].command.Idle?
    requires name in states[i].peers && HoldsBack(states[i].peers[name].consent, w)
    ensures name in states[j].peers ==> HoldsBack(states[j].peers[name].consent, w)
  {
    RunKeepsMarks(states, actions, i);
    RunKeeps(states, actions, i, j, name, w);
  }

  /** Every watermark was the newest sequence number once. */
  predicate Recorded(c: Option<Consent>, newest: nat) {
    c.Some? && c.value.beforeSeq.Some? ==> c.value.beforeSeq.value <= newest
  }

  predicate MarksRecorded(d: Device) {
    && (forall n :: n in d.peers ==> Recorded(d.peers[n].consent, |d.log|))
    && (match d.command
        case Opened(newest, _) => newest <= |d.log|
        case Connecting(_, previous, _) => previous.Some? ==> Recorded(previous.value.consent, |d.log|)
        case Forgetting(_, consent, _) => Recorded(consent, |d.log|)
        case _ => true)
  }

  lemma {:induction false} RunKeepsMarks(states: seq<Device>, actions: seq<Action>, i: nat)
    requires Run(states, actions) && MarksRecorded(states[0]) && i < |states|
    ensures MarksRecorded(states[i])
    decreases i
  {
    if i > 0 {
      RunKeepsMarks(states, actions, i - 1);
      StepKeepsMarks(states[i - 1], actions[i - 1]);
    }
  }

  lemma StepKeepsMarks(d: Device, a: Action)
    requires MarksRecorded(d) && Enabled(d, a)
    ensures MarksRecorded(Next(d, a))
  {
  }

  // ---------------------------------------------------------------------------
  // What an upload sends
  // ---------------------------------------------------------------------------

  /** The step sends the event numbered `n`. */
  predicate Sends(d: Device, a: Action, n: nat)
    requires Enabled(d, a)
  {
    a.SendBatch? && d.runs[a.r].cursor < n <= a.upto && Due(d.runs[a.r].peer, d.log[n - 1], n)
  }

  lemma RunGoesOn(d: Device, a: Action, r: nat)
    requires Enabled(d, a) && r in Next(d, a).runs && !(a.StartUpload? && a.r == r)
    ensures r in d.runs && d.runs[r].name == Next(d, a).runs[r].name && d.runs[r].peer == Next(d, a).runs[r].peer
  {
  }

  /** A run goes by the configuration of the moment it started. */
  lemma {:induction false} UploadBegan(states: seq<Device>, actions: seq<Action>, j: nat, r: nat) returns (k: nat)
    requires Run(states, actions) && Starts(states[0]) && j < |states| && r in states[j].runs
    ensures k < j && actions[k] == StartUpload(r, states[j].runs[r].name)
    ensures states[j].runs[r].name in states[k].peers
    ensures states[j].runs[r].peer == states[k].peers[states[j].runs[r].name]
    decreases j
  {
    var a, before := actions[j - 1], states[j - 1];
    if a.StartUpload? && a.r == r {
      k := j - 1;
    } else {
      RunGoesOn(before, a, r);
      k := UploadBegan(states, actions, j - 1, r);
    }
  }

  /**
   Once a peer holds back everything numbered `w` or below, no run that starts later sends any of it,
   as long as nobody opts in: `k` is where the run that sends at step `j` started.
   */
  lemma HeldBackNeverLeaves(states: seq<Device>, actions: seq<Action>, i: nat, j: nat, name: nat, w: nat)
    returns (k: nat)
    requires Run(states, actions) && Starts(states[0]) && i <= j < |actions|
    requires forall m :: i <= m < j ==> !IncludesHistory(actions[m])
    requires Kept(states[i], name, w)
    requires actions[j].SendBatch? && states[j].runs[actions[j].r].name == name
    ensures k < j && actions[k] == StartUpload(actions[j].r, name)
    ensures i <= k ==> forall n: nat :: Sends(states[j], actions[j], n) ==> n > w
  {
    k := UploadBegan(states, actions, j, actions[j].r);
    if i <= k {
      RunKeeps(states, actions, i, k, name, w);
    }
  }

  // ---------------------------------------------------------------------------
  // Undo
  // ---------------------------------------------------------------------------

  lemma {:induction false} BackgroundLeavesPeers(states: seq<Device>, actions: seq<Action>, i: nat, j: nat)
    requires Run(states, actions) && i <= j < |states|
    requires forall k :: i <= k < j ==> InBackground(actions[k])
    ensures states[j].peers == states[i].peers && states[j].command == states[i].command
    ensures states[i].log <= states[j].log
    decreases j
  {
    if i < j {
      BackgroundLeavesPeers(states, actions, i, j - 1);
    }
  }

  /**
   A connection the server does not accept, or a forget it refuses, leaves every peer as it was,
   whatever was recorded and uploaded in between.
   */
  lemma FailedCommandRestoresPeers(states: seq<Device>, actions: seq<Action>, b: nat, e: nat)
    requires Run(states, actions) && b < e < |actions|
    requires actions[b].SaveConnection? || actions[b].CloseForForget?
    requires forall k :: b < k < e ==> InBackground(actions[k])
    requires actions[e] == ConcludeConnection(false) || (actions[e].ConcludeForget? && !actions[e].done)
    ensures states[e + 1].peers == states[b].peers
  {
    BackgroundLeavesPeers(states, actions, b + 1, e);
    var was, closed, now := states[b].peers, states[b + 1].peers, states[e + 1].peers;
    assert now.Keys == was.Keys;
    forall n | n in was
      ensures now[n] == was[n]
    {
    }
  }

  // ---------------------------------------------------------------------------
  // Forget
  // ---------------------------------------------------------------------------

  /** While a forget waits for the server the peer is closed already. */
  lemma ClosedWhileForgetting(states: seq<Device>, actions: seq<Action>, b: nat, k: nat, name: nat, w: nat)
    requires Run(states, actions) && b < k < |states|
    requires actions[b].CloseForForget? && actions[b].name == name && name in states[b].peers
    requires states[b].command.newest == w
    requires forall m :: b < m < k ==> InBackground(actions[m])
    ensures name in states[k].peers && HoldsBack(states[k].peers[name].consent, w)
  {
    BackgroundLeavesPeers(states, actions, b + 1, k);
    CloseHistoryHoldsBack(states[b].peers[name], actions[b].now, w, Event(0, {}, 0, false, false, false), 0);
  }

  /** After a forget that succeeds, nothing recorded before it leaves, short of an opt-in. */
  lemma ForgottenIsKept(states: seq<Device>, actions: seq<Action>, b: nat, e: nat, name: nat, w: nat)
    requires Run(states, actions) && Starts(states[0]) && b < e < |actions|
    requires actions[b].CloseForForget? && actions[b].name == name && name in states[b].peers
    requires states[b].command.newest == w
    requires forall m :: b < m < e ==> InBackground(actions[m])
    requires actions[e].ConcludeForget? && actions[e].done
    ensures Kept(states[e + 1], name, w)
  {
    RunKeepsValid(states, actions, b);
    BackgroundLeavesPeers(states, actions, b + 1, e);
    ClosedWhileForgetting(states, actions, b, e, name, w);
  }

  /**
   A forget that closed the peer at step `b`, with `w` events recorded, and succeeded at step `e`:
   every run that started after it closed sends only what was recorded after, as long as nobody opts
   in. A run that started before may still send the rest: see `UploadOutrunsForget`.
   */
  lemma ForgottenNeverLeaves(states: seq<Device>, actions: seq<Action>, b: nat, e: nat, j: nat, name: nat, w: nat)
    returns (k: nat)
    requires Run(states, actions) && Starts(states[0]) && b < e < |actions| && b < j < |actions|
    requires actions[b].CloseForForget? && actions[b].name == name && name in states[b].peers
    requires states[b].command.newest == w
    requires forall m :: b < m < e ==> InBackground(actions[m])
    requires actions[e].ConcludeForget? && actions[e].done
    requires forall m :: e < m < j ==> !IncludesHistory(actions[m])
    requires actions[j].SendBatch? && states[j].runs[actions[j].r].name == name
    ensures k < j && actions[k] == StartUpload(actions[j].r, name)
    ensures b < k ==> forall n: nat :: Sends(states[j], actions[j], n) ==> n > w
  {
    k := UploadBegan(states, actions, j, actions[j].r);
    if e < k {
      ForgottenIsKept(states, actions, b, e, name, w);
      RunKeeps(states, actions, e + 1, k, name, w);
    } else if b < k {
      ClosedWhileForgetting(states, actions, b, k, name, w);
    }
  }

  // ---------------------------------------------------------------------------
  // Runs built step by step
  // ---------------------------------------------------------------------------

  function Last(states: seq<Device>): Device
    requires states != []
  {
    states[|states| - 1]
  }

  lemma Step(states: seq<Device>, actions: seq<Action>, a: Action) returns (more: seq<Device>, taken: seq<Action>)
    requires Run(states, actions) && Enabled(Last(states), a)
    ensures Run(more, taken) && taken == actions + [a] && states <= more
    ensures Last(more) == Next(Last(states), a)
  {
    more, taken := states + [Next(Last(states), a)], actions + [a];
  }

  /** An upload starts; then a forget runs from its beginning to its success. */
  lemma ForgetWithUploadUnderWay(d: Device, name: nat) returns (states: seq<Device>, actions: seq<Action>)
    requires Starts(d) && name in d.peers
    ensures Run(states, actions) && states[0] == d && |actions| == 4
    ensures actions[3] == ConcludeForget(true, true) && StoreOf(states[4], d.peers[name].url) == []
    ensures states[4].runs == map[0 := Started(d, name)] && states[4].log == d.log
  {
    states, actions := [d], [];
    states, actions := Step(states, actions, StartUpload(0, name));
    states, actions := Step(states, actions, OpenLog);
    states, actions := Step(states, actions, CloseForForget(name, 0));
    states, actions := Step(states, actions, ConcludeForget(true, true));
  }

  /** The run's batch arrives after the server has deleted: for any device with something due, it holds it again. */
  lemma UploadOutrunsForget(d: Device, name: nat, upto: nat) returns (states: seq<Device>, actions: seq<Action>)
    requires Starts(d) && name in d.peers
    requires Started(d, name).cursor < upto <= |d.log| && Due(d.peers[name], d.log[upto - 1], upto)
    ensures Run(states, actions) && states[0] == d && |actions| == 5
    ensures actions[3] == ConcludeForget(true, true) && StoreOf(states[4], d.peers[name].url) == []
    ensures Holds(StoreOf(states[5], d.peers[name].url), d.log[upto - 1].id)
  {
    states, actions := ForgetWithUploadUnderWay(d, name);
    states, actions := Step(states, actions, SendBatch(0, upto));
    DueIsDelivered(d.peers[name], d.log, Started(d, name).cursor, upto, [], upto - 1);
  }
}
