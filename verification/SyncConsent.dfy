/**
 What the policy and the consent keep on the device, said of the events themselves and over whole runs:
 an excluded repository does not leave, an included list lets nothing else out, and no command but an
 opt-in frees what was held back.
 */
module SyncConsent {
  import opened Wrappers
  import opened SyncPolicy
  import opened Sync
  import opened SyncHistory

  // ---------------------------------------------------------------------------
  // The policy
  // ---------------------------------------------------------------------------

  /** Under the policy the event may leave: nothing of it is excluded, and something of it is included if anything is. */
  predicate MayLeave(p: Policy, e: Event) {
    && !e.discarded
    && (forall k :: k in e.keys ==> k !in p.excluded)
    && (p.included != [] ==> exists k :: k in e.keys && k in p.included)
    && (e.unattributed ==> p.included == [] && p.excluded == [])
  }

  lemma SendableExactlyWhen(p: Policy, e: Event)
    ensures Sendable(p, e) <==> MayLeave(p, e)
  {
    NamesExactlyWhen(p.excluded, e);
    NamesExactlyWhen(p.included, e);
  }

  lemma NamesExactlyWhen(keys: seq<nat>, e: Event)
    ensures Names(keys, e) <==> exists k :: k in e.keys && k in keys
  {
    if k :| k in e.keys && k in keys {
      var i :| 0 <= i < |keys| && keys[i] == k;
    }
  }

  /** In every run, a batch sends an event of its range exactly when the run's policy lets it leave and nothing holds it back. */
  lemma SendsExactlyWhen(states: seq<Device>, actions: seq<Action>, j: nat, n: nat)
    requires Run(states, actions) && j < |actions| && actions[j].SendBatch?
    requires states[j].runs[actions[j].r].cursor < n <= actions[j].upto
    ensures var run, e := states[j].runs[actions[j].r], states[j].log[n - 1];
      Sends(states[j], actions[j], n) <==> MayLeave(run.peer.policy, e) && !Withheld(run.peer, e, n)
  {
    SendableExactlyWhen(states[j].runs[actions[j].r].peer.policy, states[j].log[n - 1]);
  }

  /** With no policy set, everything undiscarded that is not held back is sent. */
  lemma NoPolicySendsAll(p: Peer, e: Event, n: nat)
    requires p.policy == Policy([], [])
    ensures Due(p, e, n) <==> !e.discarded && !Withheld(p, e, n)
  {
    SendableExactlyWhen(p.policy, e);
  }

  lemma {:induction false} WithoutRemovesOne(keys: seq<nat>, key: nat, k: nat)
    ensures k in Without(keys, key) <==> k in keys && k != key
    decreases |keys|
  {
    if keys != [] {
      WithoutRemovesOne(keys[1..], key, k);
    }
  }

  /** What each change of a policy does to its two lists. */
  lemma PolicyChanges(p: Policy, c: PolicyChange, k: nat)
    ensures var q := ChangedPolicy(p, c);
      && (c.Exclude? ==> q.included == p.included && (k in q.excluded <==> k in p.excluded || k == c.key))
      && (c.Include? ==> q.excluded == p.excluded && (k in q.included <==> k in p.included || k == c.key))
      && (c.Remove? ==> (k in q.excluded <==> k in p.excluded && k != c.key) && (k in q.included <==> k in p.included && k != c.key))
      && (c.Clear? ==> q == Policy([], []))
  {
    if c.Remove? {
      WithoutRemovesOne(p.excluded, c.key, k);
      WithoutRemovesOne(p.included, c.key, k);
    }
  }

  /** The steps that can let an excluded repository out again: taking the entry back, or a new connection. */
  predicate Readmits(a: Action, name: nat, k: nat) {
    || (a.ChangePolicy? && a.name == name && (a.change.Clear? || a.change == Remove(k)))
    || (a.SaveConnection? && a.name == name)
  }

  /** The repository is excluded now, and would be if the command under way is undone. */
  predicate Excludes(d: Device, name: nat, k: nat) {
    && (name in d.peers ==> k in d.peers[name].policy.excluded)
    && (d.command.Connecting? && d.command.name == name && d.command.previous.Some? ==>
          k in d.command.previous.value.policy.excluded)
  }

  lemma StepExcludes(d: Device, a: Action, name: nat, k: nat)
    requires Excludes(d, name, k) && Enabled(d, a) && !Readmits(a, name, k)
    ensures Excludes(Next(d, a), name, k)
  {
    if a.ChangePolicy? && name in d.peers {
      PolicyChanges(d.peers[name].policy, a.change, k);
    }
  }

  lemma {:induction false} RunExcludes(states: seq<Device>, actions: seq<Action>, i: nat, j: nat, name: nat, k: nat)
    requires Run(states, actions) && i <= j < |states| && Excludes(states[i], name, k)
    requires forall m :: i <= m < j ==> !Readmits(actions[m], name, k)
    ensures Excludes(states[j], name, k)
    decreases j
  {
    if i < j {
      RunExcludes(states, actions, i, j - 1, name, k);
      assert !Readmits(actions[j - 1], name, k);
      StepExcludes(states[j - 1], actions[j - 1], name, k);
    }
  }

  /**
   Once a repository is excluded at step `i`, and until the entry is taken back or the peer connected
   anew, no run that starts later sends an event of it. `start` is where the run that sends at step `j`
   started.
   */
  lemma ExcludedNeverLeaves(states: seq<Device>, actions: seq<Action>, i: nat, j: nat, name: nat, k: nat)
    returns (start: nat)
    requires Run(states, actions) && Starts(states[0]) && i < j < |actions|
    requires actions[i].ChangePolicy? && actions[i].name == name && actions[i].change == Exclude(k)
    requires forall m :: i < m < j ==> !Readmits(actions[m], name, k)
    requires actions[j].SendBatch? && states[j].runs[actions[j].r].name == name
    ensures start < j && actions[start] == StartUpload(actions[j].r, name)
    ensures i < start ==> forall n: nat :: Sends(states[j], actions[j], n) ==> k !in states[j].log[n - 1].keys
  {
    start := UploadBegan(states, actions, j, actions[j].r);
    if i < start {
      if name in states[i].peers {
        PolicyChanges(states[i].peers[name].policy, actions[i].change, k);
      }
      RunExcludes(states, actions, i + 1, start, name, k);
      forall n: nat | Sends(states[j], actions[j], n)
        ensures k !in states[j].log[n - 1].keys
      {
        SendsExactlyWhen(states, actions, j, n);
      }
    }
  }

  // ---------------------------------------------------------------------------
  // The consent
  // ---------------------------------------------------------------------------

  /** A first connection, or one to another server, holds back what is recorded and what is imported from before. */
  lemma NewConnectionWithholds(previous: Option<Peer>, a: Action, newest: nat, e: Event, n: nat)
    requires a.SaveConnection? && !a.includeHistory && (previous.None? || previous.value.url != a.url)
    ensures Withheld(Connected(previous, a, newest), e, n) <==> n <= newest || (e.imported && e.observedAt < a.now)
  {
  }

  /** Connecting again to the same server holds back what was held back; including history, nothing. */
  lemma ReconnectionWithholds(previous: Peer, a: Action, newest: nat, e: Event, n: nat)
    requires a.SaveConnection? && (previous.url == a.url || a.includeHistory)
    ensures Withheld(Connected(Some(previous), a, newest), e, n) <==> !a.includeHistory && Withheld(previous, e, n)
  {
  }

  /** A watermark by time alone, as older configurations have it. */
  lemma TimeAloneWithholds(p: Peer, t: int, e: Event, n: nat)
    requires p.consent.Some? && p.consent.value.beforeSeq.None? && p.consent.value.before == Some(t)
    ensures Withheld(p, e, n) <==> e.observedAt < t
  {
  }

  /** An accepted connection is what was asked for. */
  lemma ConnectionIsWhatWasAsked(d: Device, a: Action)
    requires a.SaveConnection? && Enabled(d, a)
    ensures var saved := Next(d, a);
      && Enabled(saved, ConcludeConnection(true))
      && var p := Next(saved, ConcludeConnection(true)).peers;
      && p.Keys == d.peers.Keys + {a.name}
      && p[a.name].url == a.url && p[a.name].key == a.key && p[a.name].profile == a.profile && p[a.name].policy == a.policy
      && forall n :: n in d.peers && n != a.name ==> p[n] == d.peers[n]
  {
  }

  /** Neither a profile nor a policy frees or holds back anything, imports included. */
  lemma ProfileAndPolicyKeepWithheld(d: Device, a: Action, name: nat, e: Event, n: nat)
    requires Enabled(d, a) && (a.SetProfile? || a.ChangePolicy?) && name in d.peers
    ensures name in Next(d, a).peers
    ensures Withheld(Next(d, a).peers[name], e, n) <==> Withheld(d.peers[name], e, n)
    ensures a.SetProfile? ==> Next(d, a).peers[name].policy == d.peers[name].policy
    ensures a.name == name ==>
      Next(d, a).peers[name].profile == if a.SetProfile? then a.profile else d.peers[name].profile
    ensures a.name != name ==> Next(d, a).peers[name] == d.peers[name]
  {
  }

  /** `history include` frees everything of its peer, and touches no other. */
  lemma IncludeFreesAll(d: Device, name: nat, now: int, other: nat, e: Event, n: nat)
    requires d.command.Idle? && name in d.peers && other in d.peers
    ensures var after := Next(d, IncludeInConfig(name, now)).peers;
      && name in after && other in after && !Withheld(after[name], e, n)
      && after[name].policy == d.peers[name].policy && (other != name ==> after[other] == d.peers[other])
  {
  }

  // ---------------------------------------------------------------------------
  // Forgetting and leaving
  // ---------------------------------------------------------------------------

  /** The server of a peer has nothing of this device left, and the other servers what they had. */
  predicate Emptied(was: Device, now: Device, url: nat) {
    StoreOf(now, url) == [] && now.servers - {url} == was.servers - {url}
  }

  /** A forget that succeeds empties the peer's server; its cursor file is bound to that server where it was, and no other peer changes. */
  lemma ForgetEmpties(d: Device, name: nat, now: int)
    requires d.command.Idle? && name in d.peers
    ensures var closed := Next(Next(d, OpenLog), CloseForForget(name, now));
      && Enabled(closed, ConcludeForget(true, true))
      && var after := Next(closed, ConcludeForget(true, true));
      && Emptied(d, after, d.peers[name].url) && after.command.Idle? && after.log == d.log
      && after.peers.Keys == d.peers.Keys
      && FileOf(after.files, name) == SyncState(Some(d.peers[name].url), Started(d, name).cursor)
      && forall other :: other in d.peers && other != name ==>
           after.peers[other] == d.peers[other] && FileOf(after.files, other) == FileOf(d.files, other)
  {
  }

  /** One that is refused changes nothing, unless the server deleted before it failed. */
  lemma RefusedForgetChanges(d: Device, name: nat, now: int, deleted: bool)
    requires d.command.Idle? && name in d.peers
    ensures var closed := Next(Next(d, OpenLog), CloseForForget(name, now));
      && Enabled(closed, ConcludeForget(false, deleted))
      && var after := Next(closed, ConcludeForget(false, deleted));
      && (!deleted ==> after == d)
      && (deleted ==> after == d.(servers := after.servers) && Emptied(d, after, d.peers[name].url))
  {
    var closed := Next(Next(d, OpenLog), CloseForForget(name, now));
    var p := d.peers[name];
    assert closed.peers[name := closed.peers[name].(consent := p.consent)] == d.peers;
  }

  /** Leaving with a deletion: the server is emptied and the peer is gone; the cursor file stays, bound to that server. */
  lemma LeavingEmpties(d: Device, name: nat)
    requires d.command.Idle? && name in d.peers
    ensures var asked := Next(Next(d, StartLeaving(name)), ForgetOnLeaving(true, true));
      && Enabled(asked, FinishLeaving)
      && var after := Next(asked, FinishLeaving);
      && Emptied(d, after, d.peers[name].url) && after.command.Idle? && after.log == d.log
      && after.peers == d.peers - {name}
      && FileOf(after.files, name) == SyncState(Some(d.peers[name].url), Started(d, name).cursor)
      && forall other :: other != name ==> FileOf(after.files, other) == FileOf(d.files, other)
  {
  }

  /** Without one only the peer goes; with one that is refused, the peer and its file stay. */
  lemma LeavingKeeps(d: Device, name: nat, deleted: bool)
    requires d.command.Idle? && name in d.peers
    ensures var leaving := Next(d, StartLeaving(name));
      && Next(leaving, FinishLeaving) == d.(peers := d.peers - {name})
      && var refused := Next(leaving, ForgetOnLeaving(false, deleted));
      && (!deleted ==> refused == d)
      && (deleted ==> refused == d.(servers := refused.servers) && Emptied(d, refused, d.peers[name].url))
  {
  }

  /** Asking for the profile in force, or for anything of a peer there is not, changes nothing. */
  lemma NothingToChange(d: Device, a: Action)
    requires Enabled(d, a) && (a.SetProfile? || a.ChangePolicy? || a.IncludeInConfig? || a.StartLeaving?)
    requires a.name !in d.peers || (a.SetProfile? && d.peers[a.name].profile == a.profile)
    ensures Next(d, a) == d
  {
  }

  // ---------------------------------------------------------------------------
  // What is on record
  // ---------------------------------------------------------------------------

  /** The consent on record is to the profile and the policy in force. */
  predicate OnRecord(p: Peer) {
    p.consent.Some? ==> p.consent.value.profile == p.profile && p.consent.value.policy == p.policy
  }

  /** So it is of every peer, and would be if the command under way were undone. */
  predicate Agreed(d: Device) {
    && (forall name :: name in d.peers ==> OnRecord(d.peers[name]))
    && (d.command.Connecting? && d.command.previous.Some? ==> OnRecord(d.command.previous.value))
    && (d.command.Forgetting? && d.command.name in d.peers ==>
          OnRecord(d.peers[d.command.name].(consent := d.command.consent)))
  }

  lemma BackgroundKeepsAgreed(d: Device, a: Action)
    requires Agreed(d) && Enabled(d, a) && InBackground(a)
    ensures Agreed(Next(d, a))
  {
    assert Next(d, a).peers == d.peers && Next(d, a).command == d.command;
  }

  lemma CommandKeepsAgreed(d: Device, a: Action)
    requires Agreed(d) && Enabled(d, a) && !InBackground(a)
    ensures Agreed(Commanded(d, a))
  {
  }

  lemma StepKeepsAgreed(d: Device, a: Action)
    requires Agreed(d) && Enabled(d, a)
    ensures Agreed(Next(d, a))
  {
    if InBackground(a) {
      BackgroundKeepsAgreed(d, a);
    } else {
      CommandKeepsAgreed(d, a);
    }
  }

  /** In every run, undone commands included, the consent on record is to what is in force. */
  lemma {:induction false} RunKeepsAgreed(states: seq<Device>, actions: seq<Action>, i: nat)
    requires Run(states, actions) && i < |states| && Agreed(states[0])
    ensures Agreed(states[i])
    decreases i
  {
    if i > 0 {
      RunKeepsAgreed(states, actions, i - 1);
      StepKeepsAgreed(states[i - 1], actions[i - 1]);
    }
  }

  /** A change of profile or policy, and `history include`, date the consent. */
  lemma ChangeIsDated(d: Device, a: Action)
    requires Enabled(d, a) && (a.SetProfile? || a.ChangePolicy? || a.IncludeInConfig?) && a.name in d.peers
    requires a.SetProfile? ==> d.peers[a.name].profile != a.profile
    requires a.IncludeInConfig? ==> HasWatermark(d.peers[a.name].consent)
    ensures var p := Next(d, a).peers;
      a.name in p && p[a.name].consent.Some? && p[a.name].consent.value.at == a.now && OnRecord(p[a.name])
  {
  }
}
