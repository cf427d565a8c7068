/**
 `attempt sync` (crates/attempt/src/cmd_sync.rs) beside the uploader (`upload_once` and `stream_upload`
 in crates/attemptdb-capture/src/sync.rs). One command runs at a time; a command that waits for a
 server is split there. Any number of upload runs go on beside it, each with the configuration and
 the cursor it read when it started: nothing locks the two files a command and a run both write.
 */
module Sync {
  import opened Wrappers
  import opened SyncPolicy

  /** An upload run: what it read when it started, and how far it has come. */
  datatype UploadRun = UploadRun(name: nat, peer: Peer, started: nat, cursor: nat, newest: nat)

  /** Where the command is. `Opened` has read the newest sequence number and the cursor files. */
  datatype Command =
    | Idle
    | Opened(newest: nat, files: map<nat, SyncState>)
    | Connecting(name: nat, previous: Option<Peer>, includeHistory: bool)
    | Forgetting(name: nat, consent: Option<Consent>, loaded: SyncState)
    | Including(name: nat)
    | Leaving(name: nat, loaded: SyncState, asked: bool)

  /** The event numbered `n` is `log[n - 1]`. `files` holds the cursor files, `servers` what each server holds. */
  datatype Device = Device(
    log: seq<Event>,
    peers: map<nat, Peer>,
    files: map<nat, SyncState>,
    servers: map<nat, seq<Event>>,
    command: Command,
    runs: map<nat, UploadRun>)

  datatype Action =
    | Record(event: Event)
    | OpenLog
    | SaveConnection(name: nat, url: nat, key: nat, profile: Profile, policy: Policy, includeHistory: bool, now: int)
    | ConcludeConnection(accepted: bool)
    | CloseForForget(name: nat, now: int)
    | ConcludeForget(done: bool, deleted: bool)
    | SetProfile(name: nat, profile: Profile, now: int)
    | ChangePolicy(name: nat, change: PolicyChange, now: int)
    | IncludeInConfig(name: nat, now: int)
    | ResetCursor
    | StartLeaving(name: nat)
    | ForgetOnLeaving(done: bool, deleted: bool)
    | FinishLeaving
    | Stop
    | StartUpload(r: nat, name: nat)
    | SendBatch(r: nat, upto: nat)
    | FinishUpload(r: nat)
    | AbortUpload(r: nat, saved: bool)

  function FileOf(files: map<nat, SyncState>, name: nat): SyncState {
    if name in files then files[name] else NEW_STATE
  }

  function StoreOf(d: Device, url: nat): seq<Event> {
    if url in d.servers then d.servers[url] else []
  }

  predicate FreshId(log: seq<Event>, e: Event) {
    forall i :: 0 <= i < |log| ==> log[i].id != e.id
  }

  /** No event numbered `from + 1` to `upto` is due. */
  predicate NothingDue(p: Peer, log: seq<Event>, from: nat, upto: nat)
    requires upto <= |log|
  {
    forall k :: from <= k < upto ==> !Due(p, log[k], k + 1)
  }

  predicate Enabled(d: Device, a: Action) {
    match a
    case Record(e) => FreshId(d.log, e)
    case OpenLog => d.command.Idle?
    case SaveConnection(_, _, _, _, _, _, _) => d.command.Opened?
    case ConcludeConnection(_) => d.command.Connecting? && d.command.name in d.peers
    case CloseForForget(_, _) => d.command.Opened?
    case ConcludeForget(done, deleted) =>
      d.command.Forgetting? && d.command.name in d.peers && (done ==> deleted)
    case SetProfile(_, _, _) => d.command.Idle?
    case ChangePolicy(_, _, _) => d.command.Idle?
    case IncludeInConfig(_, _) => d.command.Idle?
    case ResetCursor => d.command.Including? && d.command.name in d.peers
    case StartLeaving(_) => d.command.Idle?
    case ForgetOnLeaving(done, deleted) =>
      d.command.Leaving? && d.command.name in d.peers && !d.command.asked && (done ==> deleted)
    case FinishLeaving => d.command.Leaving?
    case Stop => true
    case StartUpload(r, name) => r !in d.runs && name in d.peers
    case SendBatch(r, upto) =>
      && r in d.runs
      && d.runs[r].cursor < upto <= d.runs[r].newest && upto <= |d.log|
      && Due(d.runs[r].peer, d.log[upto - 1], upto)
    case FinishUpload(r) =>
      && r in d.runs && d.runs[r].newest <= |d.log|
      && NothingDue(d.runs[r].peer, d.log, d.runs[r].cursor, d.runs[r].newest)
    case AbortUpload(r, _) => r in d.runs
  }

  // ---------------------------------------------------------------------------
  // Commands
  // ---------------------------------------------------------------------------

  function Connected(previous: Option<Peer>, a: Action, newest: nat): Peer
    requires a.SaveConnection?
  {
    var kept := previous.Some? && previous.value.url == a.url;
    var before :=
      if a.includeHistory then None
      else if !kept then Some(a.now)
      else if previous.value.consent.Some? then previous.value.consent.value.before else None;
    var beforeSeq :=
      if a.includeHistory then None
      else if !kept then Some(newest)
      else if previous.value.consent.Some? then previous.value.consent.value.beforeSeq else None;
    Peer(a.url, a.key, a.profile, a.policy, Some(Consent(a.now, a.profile, a.policy, before, beforeSeq)))
  }

  function Lookup<V>(m: map<nat, V>, name: nat): Option<V> {
    if name in m then Some(m[name]) else None
  }

  /** What an undo leaves: the entry as it was, or none. */
  function Restored<V>(m: map<nat, V>, name: nat, previous: Option<V>): map<nat, V> {
    if previous.Some? then m[name := previous.value] else m - {name}
  }

  /** `--include-history` puts the cursor back only for a peer it replaced, and only a cursor bound to its server. */
  predicate Rewinds(d: Device) {
    && d.command.Connecting? && d.command.name in d.peers
    && d.command.includeHistory && d.command.previous.Some?
    && FileOf(d.files, d.command.name).acked > 0
    && FileOf(d.files, d.command.name).url == Some(d.peers[d.command.name].url)
  }

  function AfterConnection(d: Device, accepted: bool): Device
    requires d.command.Connecting? && d.command.name in d.peers
  {
    var c := d.command;
    if !accepted then d.(peers := Restored(d.peers, c.name, c.previous), command := Idle)
    else d.(files := if Rewinds(d) then d.files[c.name := FileOf(d.files, c.name).(acked := 0)] else d.files,
            command := Idle)
  }

  function AfterForget(d: Device, done: bool, deleted: bool): Device
    requires d.command.Forgetting? && d.command.name in d.peers
  {
    var c := d.command;
    var peer := d.peers[c.name];
    d.(peers := if done then d.peers else d.peers[c.name := peer.(consent := c.consent)],
       files := if done then d.files[c.name := BoundTo(c.loaded, peer.url)] else d.files,
       servers := if deleted then d.servers[peer.url := []] else d.servers,
       command := Idle)
  }

  /** Leaving with `--forget`: the peer stays if the server refuses. */
  function AfterForgetOnLeaving(d: Device, done: bool, deleted: bool): Device
    requires d.command.Leaving? && d.command.name in d.peers
  {
    var c := d.command;
    var url := d.peers[c.name].url;
    d.(files := if done then d.files[c.name := BoundTo(c.loaded, url)] else d.files,
       servers := if deleted then d.servers[url := []] else d.servers,
       command := if done then c.(asked := true) else Idle)
  }

  function Commanded(d: Device, a: Action): Device
    requires Enabled(d, a)
    requires !(a.Record? || a.StartUpload? || a.SendBatch? || a.FinishUpload? || a.AbortUpload?)
  {
    match a
    case OpenLog => d.(command := Opened(|d.log|, d.files))
    case SaveConnection(name, _, _, _, _, includeHistory, _) =>
      var previous := Lookup(d.peers, name);
      d.(peers := d.peers[name := Connected(previous, a, d.command.newest)],
         command := Connecting(name, previous, includeHistory))
    case ConcludeConnection(accepted) => AfterConnection(d, accepted)
    case CloseForForget(name, now) =>
      if name !in d.peers then d.(command := Idle)
      else d.(peers := d.peers[name := CloseHistory(d.peers[name], now, d.command.newest)],
              command := Forgetting(name, d.peers[name].consent, FileOf(d.command.files, name)))
    case ConcludeForget(done, deleted) => AfterForget(d, done, deleted)
    case SetProfile(name, profile, now) =>
      if name !in d.peers || d.peers[name].profile == profile then d
      else d.(peers := d.peers[name := RefreshConsent(d.peers[name].(profile := profile), now)])
    case ChangePolicy(name, change, now) =>
      if name !in d.peers then d
      else d.(peers := d.peers[name :=
                RefreshConsent(d.peers[name].(policy := ChangedPolicy(d.peers[name].policy, change)), now)])
    case IncludeInConfig(name, now) =>
      if name !in d.peers || !HasWatermark(d.peers[name].consent) then d
      else d.(peers := d.peers[name := RefreshConsent(ClearWatermark(d.peers[name]), now)], command := Including(name))
    case ResetCursor =>
      d.(files := d.files[d.command.name := SyncState(Some(d.peers[d.command.name].url), 0)], command := Idle)
    case StartLeaving(name) =>
      if name !in d.peers then d else d.(command := Leaving(name, FileOf(d.files, name), false))
    case ForgetOnLeaving(done, deleted) => AfterForgetOnLeaving(d, done, deleted)
    case FinishLeaving => d.(peers := d.peers - {d.command.name}, command := Idle)
    case Stop => d.(command := Idle)
  }

  // ---------------------------------------------------------------------------
  // Uploads
  // ---------------------------------------------------------------------------

  function Started(d: Device, name: nat): UploadRun
    requires name in d.peers
  {
    var cursor := BoundTo(FileOf(d.files, name), d.peers[name].url).acked;
    UploadRun(name, d.peers[name], cursor, cursor, |d.log|)
  }

  /** The server took the batch up to `upto`: the run's cursor moves there, and is saved. */
  function Sent(d: Device, r: nat, upto: nat): Device
    requires Enabled(d, SendBatch(r, upto))
  {
    var run := d.runs[r];
    d.(servers := d.servers[run.peer.url :=
                    Deliver(StoreOf(d, run.peer.url), DueEvents(run.peer, d.log, run.cursor, upto))],
       files := d.files[run.name := SyncState(Some(run.peer.url), upto)],
       runs := d.runs[r := run.(cursor := upto)])
  }

  function Greater(a: nat, b: nat): nat {
    if a >= b then a else b
  }

  /** The cursor covers the whole scan; its file is written only if the run changed it. */
  function Done(d: Device, r: nat): Device
    requires Enabled(d, FinishUpload(r))
  {
    var run := d.runs[r];
    var cursor := Greater(run.cursor, run.newest);
    d.(files := if cursor > run.started then d.files[run.name := SyncState(Some(run.peer.url), cursor)] else d.files,
       runs := d.runs - {r})
  }

  function Next(d: Device, a: Action): Device
    requires Enabled(d, a)
  {
    match a
    case Record(e) => d.(log := d.log + [e])
    case StartUpload(r, name) => d.(runs := d.runs[r := Started(d, name)])
    case SendBatch(r, upto) => Sent(d, r, upto)
    case FinishUpload(r) => Done(d, r)
    case AbortUpload(r, saved) =>
      var run := d.runs[r];
      d.(files := if saved then d.files[run.name := SyncState(Some(run.peer.url), run.cursor)] else d.files,
         runs := d.runs - {r})
    case _ => Commanded(d, a)
  }

  /** Steps that no command takes. */
  predicate InBackground(a: Action) {
    a.Record? || a.StartUpload? || a.SendBatch? || a.FinishUpload? || a.AbortUpload?
  }

  predicate Run(states: seq<Device>, actions: seq<Action>) {
    && |states| == |actions| + 1
    && forall i :: 0 <= i < |actions| ==> Enabled(states[i], actions[i]) && states[i + 1] == Next(states[i], actions[i])
  }

  // ---------------------------------------------------------------------------
  // What every run keeps
  // ---------------------------------------------------------------------------

  /** Sequence numbers in the files and in the runs have been given out, and a command's peer is configured. */
  predicate Valid(d: Device) {
    && NoDuplicates(d.log)
    && (forall name :: name in d.files ==> d.files[name].acked <= |d.log|)
    && (forall r :: r in d.runs ==> d.runs[r].newest <= |d.log| && d.runs[r].started <= d.runs[r].cursor <= |d.log|)
    && (match d.command
        case Idle => true
        case Opened(newest, files) =>
          newest <= |d.log| && forall name :: name in files ==> files[name].acked <= newest
        case Connecting(name, _, _) => name in d.peers
        case Forgetting(name, _, loaded) => name in d.peers && loaded.acked <= |d.log|
        case Including(name) => name in d.peers
        case Leaving(name, loaded, _) => name in d.peers && loaded.acked <= |d.log|)
    && (forall url :: url in d.servers ==> NoDuplicates(d.servers[url]))
  }

  /** A device between commands and uploads, whatever it has configured, recorded or sent. */
  predicate Starts(d: Device) {
    Valid(d) && d.command.Idle? && d.runs == map[]
  }

  lemma BackgroundKeepsValid(d: Device, a: Action)
    requires Valid(d) && Enabled(d, a) && InBackground(a)
    ensures Valid(Next(d, a))
  {
    if a.SendBatch? {
      var run := d.runs[a.r];
      DeliverKeepsUnique(StoreOf(d, run.peer.url), DueEvents(run.peer, d.log, run.cursor, a.upto));
    }
  }

  /** Steps that only touch the configuration. */
  predicate Configures(a: Action) {
    || a.OpenLog? || a.SaveConnection? || a.CloseForForget? || a.SetProfile? || a.ChangePolicy? || a.IncludeInConfig?
    || a.StartLeaving? || a.FinishLeaving? || a.Stop?
  }

  lemma ConfigureKeepsValid(d: Device, a: Action)
    requires Valid(d) && Enabled(d, a) && Configures(a)
    ensures Valid(Next(d, a))
  {
  }

  lemma CommandKeepsValid(d: Device, a: Action)
    requires Valid(d) && Enabled(d, a) && !InBackground(a)
    ensures Valid(Next(d, a))
  {
    if Configures(a) {
      ConfigureKeepsValid(d, a);
    }
  }

  lemma {:induction false} RunKeepsValid(states: seq<Device>, actions: seq<Action>, i: nat)
    requires Run(states, actions) && Starts(states[0]) && i < |states|
    ensures Valid(states[i])
    decreases i
  {
    if i > 0 {
      RunKeepsValid(states, actions, i - 1);
      if InBackground(actions[i - 1]) {
        BackgroundKeepsValid(states[i - 1], actions[i - 1]);
      } else {
        CommandKeepsValid(states[i - 1], actions[i - 1]);
      }
    }
  }
}
