/**
 The commands and the uploader as the source runs them, updating the configuration and the cursor
 files in place, each proved to take the steps of `Sync`.
 */
module SyncCommands {
  import opened Wrappers
  import opened SyncPolicy
  import opened Sync

  // ---------------------------------------------------------------------------
  // Whole commands, with nothing beside them
  // ---------------------------------------------------------------------------

  function Connects(d: Device, a: Action, accepted: bool): Device
    requires d.command.Idle? && a.SaveConnection?
  {
    Next(Next(Next(d, OpenLog), a), ConcludeConnection(accepted))
  }

  function Forgets(d: Device, name: nat, now: int, done: bool, deleted: bool): Device
    requires d.command.Idle? && (done ==> deleted)
  {
    var closed := Next(Next(d, OpenLog), CloseForForget(name, now));
    if closed.command.Forgetting? then Next(closed, ConcludeForget(done, deleted)) else closed
  }

  function IncludesAll(d: Device, name: nat, now: int): Device
    requires d.command.Idle?
  {
    var cleared := Next(d, IncludeInConfig(name, now));
    if cleared.command.Including? then Next(cleared, ResetCursor) else cleared
  }

  function Leaves(d: Device, name: nat, forget: bool, done: bool, deleted: bool): Device
    requires d.command.Idle? && (forget && done ==> deleted)
  {
    var leaving := Next(d, StartLeaving(name));
    if leaving.command.Idle? then leaving
    else
      var asked := if forget then Next(leaving, ForgetOnLeaving(done, deleted)) else leaving;
      if asked.command.Idle? then asked else Next(asked, FinishLeaving)
  }

  lemma OverwriteTwice<V>(m: map<nat, V>, k: nat, v: V, w: V)
    ensures m[k := v][k := w] == m[k := w]
  {
  }

  /** Cutting an upload into batches makes no difference: two batches leave what one does. */
  lemma BatchingDoesNotMatter(d: Device, r: nat, middle: nat, upto: nat)
    requires Enabled(d, SendBatch(r, middle)) && Enabled(d, SendBatch(r, upto)) && middle < upto
    ensures Enabled(Sent(d, r, middle), SendBatch(r, upto))
    ensures Sent(Sent(d, r, middle), r, upto) == Sent(d, r, upto)
  {
    var run, first := d.runs[r], Sent(d, r, middle);
    var url, store := run.peer.url, StoreOf(d, run.peer.url);
    var early, late := DueEvents(run.peer, d.log, run.cursor, middle), DueEvents(run.peer, d.log, middle, upto);
    DueEventsInParts(run.peer, d.log, run.cursor, middle, upto);
    DeliverInParts(store, early, late);
    OverwriteTwice(d.servers, url, Deliver(store, early), Deliver(store, early + late));
    OverwriteTwice(d.files, run.name, SyncState(Some(url), middle), SyncState(Some(url), upto));
    OverwriteTwice(d.runs, r, run.(cursor := middle), run.(cursor := upto));
  }

  class SyncClient {
    var log: seq<Event>
    var peers: map<nat, Peer>
    var files: map<nat, SyncState>
    var servers: map<nat, seq<Event>>

    ghost function Contents(): Device
      reads this
    {
      Device(log, peers, files, servers, Idle, map[])
    }

    constructor ()
      ensures Contents() == Device([], map[], map[], map[], Idle, map[])
    {
      log, peers, files, servers := [], map[], map[], map[];
    }

    /** `add_peer`: saved first, then put back if the handshake fails. */
    method AddPeer(name: nat, url: nat, key: nat, profile: Profile, policy: Policy, includeHistory: bool, now: int,
                   accepted: bool)
      modifies this`peers, this`files
      ensures Contents() ==
        Connects(old(Contents()), SaveConnection(name, url, key, profile, policy, includeHistory, now), accepted)
      ensures !accepted ==> peers == old(peers) && files == old(files)
    {
      var newest := |log|;
      var before, beforeSeq := None, None;
      if !includeHistory {
        if name in peers && peers[name].url == url {
          if peers[name].consent.Some? {
            before, beforeSeq := peers[name].consent.value.before, peers[name].consent.value.beforeSeq;
          }
        } else {
          before, beforeSeq := Some(now), Some(newest);
        }
      }
      var peer := Peer(url, key, profile, policy, Some(Consent(now, profile, policy, before, beforeSeq)));
      var previous := Lookup(peers, name);
      peers := peers[name := peer];
      if !accepted {
        match previous {
          case Some(p) => peers := peers[name := p];
          case None => peers := peers - {name};
        }
        assert peers == old(peers);
        return;
      }
      var state := FileOf(files, name);
      if includeHistory && previous.Some? && state.acked > 0 && state.url == Some(url) {
        files := files[name := state.(acked := 0)];
      }
    }

    /** `forget`: closed first, and put back if the server refuses. */
    method Forget(name: nat, now: int, done: bool, deleted: bool)
      requires done ==> deleted
      modifies this`peers, this`files, this`servers
      ensures Contents() == Forgets(old(Contents()), name, now, done, deleted)
      ensures !done ==> peers == old(peers) && files == old(files)
    {
      if name !in peers {
        return;
      }
      var state, newest := FileOf(files, name), |log|;
      var previous := peers[name].consent;
      var closed := CloseHistory(peers[name], now, newest);
      peers := peers[name := closed];
      if deleted {
        servers := servers[closed.url := []];
      }
      if !done {
        peers := peers[name := peers[name].(consent := previous)];
        assert peers == old(peers);
        return;
      }
      files := files[name := BoundTo(state, closed.url)];
    }

    method SetProfile(name: nat, profile: Profile, now: int) returns (changed: bool)
      modifies this`peers
      ensures Contents() == Next(old(Contents()), Action.SetProfile(name, profile, now))
      ensures changed <==> name in old(peers) && old(peers)[name].profile != profile
    {
      changed := false;
      if name in peers {
        var before := peers[name].profile;
        if before != profile {
          peers := peers[name := RefreshConsent(peers[name].(profile := profile), now)];
          changed := true;
        }
      }
    }

    method ChangePolicy(name: nat, change: PolicyChange, now: int)
      modifies this`peers
      ensures Contents() == Next(old(Contents()), Action.ChangePolicy(name, change, now))
    {
      if name in peers {
        var policy := ChangedPolicy(peers[name].policy, change);
        peers := peers[name := RefreshConsent(peers[name].(policy := policy), now)];
      }
    }

    /** `history include`: the watermark goes, and the cursor goes back to the start. */
    method IncludeHistory(name: nat, now: int)
      modifies this`peers, this`files
      ensures Contents() == IncludesAll(old(Contents()), name, now)
    {
      if name !in peers || !HasWatermark(peers[name].consent) {
        return;
      }
      peers := peers[name := RefreshConsent(ClearWatermark(peers[name]), now)];
      var state := BoundTo(FileOf(files, name), peers[name].url);
      files := files[name := state.(acked := 0)];
    }

    method LeavePeer(name: nat, forget: bool, done: bool, deleted: bool)
      requires forget && done ==> deleted
      modifies this`peers, this`files, this`servers
      ensures Contents() == Leaves(old(Contents()), name, forget, done, deleted)
    {
      if name !in peers {
        return;
      }
      var peer, state := peers[name], FileOf(files, name);
      if forget {
        if deleted {
          servers := servers[peer.url := []];
        }
        if !done {
          return;
        }
        files := files[name := BoundTo(state, peer.url)];
      }
      peers := peers - {name};
    }

    /** The server takes a batch. */
    method Send(url: nat, chunk: seq<Event>)
      modifies this`servers
      ensures servers == old(servers)[url := Deliver(StoreOf(old(Contents()), url), chunk)]
    {
      var store, i := if url in servers then servers[url] else [], 0;
      ghost var was := store;
      while i < |chunk|
        invariant 0 <= i <= |chunk|
        invariant store == Deliver(was, chunk[..i])
      {
        store := Receive(store, chunk[i]);
        assert chunk[..i + 1][..i] == chunk[..i];
        i := i + 1;
      }
      assert chunk[..i] == chunk;
      servers := servers[url := store];
    }

    /** A batch is taken and the cursor saved behind it. */
    method SendAndSave(name: nat, chunk: seq<Event>, upto: nat, ghost was: Device, ghost start: nat, ghost cursor: nat)
      requires name in peers && start <= cursor < upto <= |log| && Progress(was, Contents(), name, start, cursor)
      requires chunk == DueEvents(peers[name], log, cursor, upto)
      modifies this`files, this`servers
      ensures Progress(was, Contents(), name, start, upto)
    {
      GivenMore(was, name, start, cursor, upto);
      Send(peers[name].url, chunk);
      files := files[name := SyncState(Some(peers[name].url), upto)];
    }

    /** The scan of `stream_upload`, with a server that takes `accepts` batches and then fails. */
    method ScanEvents(name: nat, start: nat, batchSize: nat, accepts: nat) returns (ok: bool, cursor: nat)
      requires name in peers && batchSize >= 1 && start < |log|
      modifies this`files, this`servers
      ensures start <= cursor <= |log| && Progress(old(Contents()), Contents(), name, start, cursor)
      ensures ok ==> DueEvents(peers[name], log, cursor, |log|) == []
    {
      cursor := start;
      var chunk, taken, k := [], 0, start;
      while k < |log|
        invariant start <= cursor <= k <= |log|
        invariant chunk == DueEvents(peers[name], log, cursor, k)
        invariant Progress(old(Contents()), Contents(), name, start, cursor)
      {
        if Due(peers[name], log[k], k + 1) {
          chunk := chunk + [log[k]];
        }
        k := k + 1;
        if |chunk| >= batchSize {
          if taken == accepts {
            return false, cursor;
          }
          SendAndSave(name, chunk, k, old(Contents()), start, cursor);
          cursor, chunk, taken := k, [], taken + 1;
        }
      }
      if |chunk| > 0 {
        if taken == accepts {
          return false, cursor;
        }
        SendAndSave(name, chunk, k, old(Contents()), start, cursor);
        cursor := k;
      }
      ok := true;
    }

    /**
     `stream_upload`. However the events fall into batches, the server has been given exactly what was
     due up to the saved cursor, and a run that ends well has passed every event.
     */
    method StreamUpload(name: nat, batchSize: nat, accepts: nat) returns (ok: bool, cursor: nat)
      requires name in peers && batchSize >= 1
      modifies this`files, this`servers
      ensures var start := Started(old(Contents()), name).cursor;
        if start >= |log| then ok && cursor == start && Contents() == old(Contents())
        else
          && start <= cursor <= |log| && (ok ==> cursor == |log|)
          && StoreOf(Contents(), peers[name].url) == Given(old(Contents()), name, start, cursor)
          && servers - {peers[name].url} == old(servers) - {peers[name].url}
          && files == old(files)[name := SyncState(Some(peers[name].url), cursor)]
    {
      var start := BoundTo(FileOf(files, name), peers[name].url).acked;
      if start >= |log| {
        return true, start;
      }
      ok, cursor := ScanEvents(name, start, batchSize, accepts);
      if ok {
        GivenMore(old(Contents()), name, start, cursor, |log|);
        cursor := |log|;
      }
      files := files[name := SyncState(Some(peers[name].url), cursor)];
    }
  }

  /** What the peer's server holds once it was given what was due from `start` to `cursor`. */
  ghost function Given(was: Device, name: nat, start: nat, cursor: nat): seq<Event>
    requires name in was.peers && cursor <= |was.log|
  {
    Deliver(StoreOf(was, was.peers[name].url), DueEvents(was.peers[name], was.log, start, cursor))
  }

  /** An upload that has come from `start` to `cursor`, and changed nothing but its server and its file. */
  ghost predicate Progress(was: Device, now: Device, name: nat, start: nat, cursor: nat) {
    && name in was.peers && now.peers == was.peers && now.log == was.log && cursor <= |was.log|
    && StoreOf(now, was.peers[name].url) == Given(was, name, start, cursor)
    && now.servers - {was.peers[name].url} == was.servers - {was.peers[name].url}
    && now.files == (if cursor > start then was.files[name := SyncState(Some(was.peers[name].url), cursor)] else was.files)
  }

  lemma GivenMore(was: Device, name: nat, start: nat, cursor: nat, k: nat)
    requires name in was.peers && start <= cursor <= k <= |was.log|
    ensures Given(was, name, start, k) ==
      Deliver(Given(was, name, start, cursor), DueEvents(was.peers[name], was.log, cursor, k))
  {
    DueEventsInParts(was.peers[name], was.log, start, cursor, k);
    DeliverInParts(StoreOf(was, was.peers[name].url), DueEvents(was.peers[name], was.log, start, cursor),
                   DueEvents(was.peers[name], was.log, cursor, k));
  }

  // ---------------------------------------------------------------------------
  // A whole upload of the machine does what the uploader does
  // ---------------------------------------------------------------------------

  /** The outcome `StreamUpload` promises, with the cursor it saves. */
  ghost predicate Uploaded(d: Device, after: Device, name: nat, cursor: nat)
    requires name in d.peers && cursor <= |d.log|
  {
    var start, url := Started(d, name).cursor, d.peers[name].url;
    && after.log == d.log && after.peers == d.peers && after.command == d.command && after.runs == d.runs
    && if start >= |d.log| then after.files == d.files && after.servers == d.servers
       else
         && after.files == d.files[name := SyncState(Some(url), cursor)]
         && StoreOf(after, url) == Given(d, name, start, cursor)
         && after.servers - {url} == d.servers - {url}
  }

  /** With nothing due, a run that is started and finished has that outcome. */
  lemma EmptyUpload(d: Device, name: nat, r: nat)
    requires Valid(d) && name in d.peers && r !in d.runs
    requires NothingDue(d.peers[name], d.log, Started(d, name).cursor, |d.log|)
    ensures var begun := Next(d, StartUpload(r, name));
      Enabled(begun, FinishUpload(r)) && Uploaded(d, Next(begun, FinishUpload(r)), name, |d.log|)
  {
    var run, begun := Started(d, name), Next(d, StartUpload(r, name));
    assert begun.runs[r] == run && begun.runs - {r} == d.runs;
    if run.cursor < |d.log| {
      NothingDueIsNoEvents(run.peer, d.log, run.cursor, |d.log|);
    }
  }

  /** And so has one that the server refuses before its first batch is taken. */
  lemma RefusedUpload(d: Device, name: nat, r: nat)
    requires name in d.peers && r !in d.runs && Started(d, name).cursor < |d.log|
    ensures var begun := Next(d, StartUpload(r, name));
      Uploaded(d, Next(begun, AbortUpload(r, true)), name, Started(d, name).cursor)
  {
    var run, begun := Started(d, name), Next(d, StartUpload(r, name));
    assert begun.runs[r] == run && begun.runs - {r} == d.runs;
    assert DueEvents(run.peer, d.log, run.cursor, run.cursor) == [];
  }

  lemma {:induction false} NothingDueIsNoEvents(p: Peer, log: seq<Event>, from: nat, upto: nat)
    requires upto <= |log| && NothingDue(p, log, from, upto)
    ensures DueEvents(p, log, from, upto) == []
    decreases upto
  {
    if from < upto {
      NothingDueIsNoEvents(p, log, from, upto - 1);
    }
  }

  /** And so has one that sends up to the last due event in between. */
  lemma SentUpload(d: Device, name: nat, r: nat, last: nat)
    requires name in d.peers && r !in d.runs
    requires Started(d, name).cursor < last <= |d.log| && Due(d.peers[name], d.log[last - 1], last)
    requires NothingDue(d.peers[name], d.log, last, |d.log|)
    ensures var begun := Begun(d, name, r);
      && begun == Next(d, StartUpload(r, name))
      && Enabled(begun, SendBatch(r, last)) && Enabled(Sent(begun, r, last), FinishUpload(r))
      && Uploaded(d, Done(Sent(begun, r, last), r), name, |d.log|)
  {
    var begun := Begun(d, name, r);
    assert begun.runs - {r} == d.runs;
    SentAndFinished(begun, r, last);
    GivenByLast(d, name, Started(d, name).cursor, last);
    IsUploaded(d, Done(Sent(begun, r, last), r), name, |d.log|);
  }

  /** And one that the server stops after any batch. */
  lemma StoppedUpload(d: Device, name: nat, r: nat, last: nat)
    requires name in d.peers && r !in d.runs
    requires Started(d, name).cursor < last <= |d.log| && Due(d.peers[name], d.log[last - 1], last)
    ensures var begun := Begun(d, name, r);
      && begun == Next(d, StartUpload(r, name)) && Enabled(begun, SendBatch(r, last))
      && Uploaded(d, Next(Sent(begun, r, last), AbortUpload(r, true)), name, last)
  {
    var begun := Begun(d, name, r);
    assert begun.runs - {r} == d.runs;
    SentAndStopped(begun, r, last);
    IsUploaded(d, Next(Sent(begun, r, last), AbortUpload(r, true)), name, last);
  }

  ghost function Begun(d: Device, name: nat, r: nat): Device
    requires name in d.peers
  {
    d.(runs := d.runs[r := Started(d, name)])
  }

  lemma IsUploaded(d: Device, after: Device, name: nat, cursor: nat)
    requires name in d.peers && Started(d, name).cursor < |d.log| && cursor <= |d.log|
    requires after.log == d.log && after.peers == d.peers && after.command == d.command && after.runs == d.runs
    requires after.files == d.files[name := SyncState(Some(d.peers[name].url), cursor)]
    requires after.servers == d.servers[d.peers[name].url := Given(d, name, Started(d, name).cursor, cursor)]
    ensures Uploaded(d, after, name, cursor)
  {
    OnlyThatServer(d.servers, d.peers[name].url, Given(d, name, Started(d, name).cursor, cursor));
  }

  lemma OnlyThatServer(servers: map<nat, seq<Event>>, url: nat, store: seq<Event>)
    ensures servers[url := store] - {url} == servers - {url}
  {
  }

  lemma GivenByLast(d: Device, name: nat, from: nat, last: nat)
    requires name in d.peers && from <= last <= |d.log| && NothingDue(d.peers[name], d.log, last, |d.log|)
    ensures Given(d, name, from, |d.log|) == Given(d, name, from, last)
  {
    var p := d.peers[name];
    NothingDueIsNoEvents(p, d.log, last, |d.log|);
    DueEventsInParts(p, d.log, from, last, |d.log|);
    assert DueEvents(p, d.log, from, last) + [] == DueEvents(p, d.log, from, last);
  }

  /** A batch and the refusal of the next, together. */
  lemma SentAndStopped(d: Device, r: nat, last: nat)
    requires Enabled(d, SendBatch(r, last))
    ensures var run, after := d.runs[r], Next(Sent(d, r, last), AbortUpload(r, true));
      && after.log == d.log && after.peers == d.peers && after.command == d.command && after.runs == d.runs - {r}
      && after.servers == d.servers[run.peer.url := Deliver(StoreOf(d, run.peer.url), DueEvents(run.peer, d.log, run.cursor, last))]
      && after.files == d.files[run.name := SyncState(Some(run.peer.url), last)]
  {
    var run, sent := d.runs[r], Sent(d, r, last);
    assert sent.runs[r] == run.(cursor := last) && sent.runs - {r} == d.runs - {r};
    OverwriteTwice(d.files, run.name, SyncState(Some(run.peer.url), last), SyncState(Some(run.peer.url), last));
  }

  /** A batch and the end of its run, together. */
  lemma SentAndFinished(d: Device, r: nat, last: nat)
    requires Enabled(d, SendBatch(r, last)) && d.runs[r].started == d.runs[r].cursor && d.runs[r].newest == |d.log|
    requires NothingDue(d.runs[r].peer, d.log, last, |d.log|)
    ensures Enabled(Sent(d, r, last), FinishUpload(r))
    ensures var run, after := d.runs[r], Done(Sent(d, r, last), r);
      && after.log == d.log && after.peers == d.peers && after.command == d.command && after.runs == d.runs - {r}
      && after.servers == d.servers[run.peer.url := Deliver(StoreOf(d, run.peer.url), DueEvents(run.peer, d.log, run.cursor, last))]
      && after.files == d.files[run.name := SyncState(Some(run.peer.url), |d.log|)]
  {
    var run, sent := d.runs[r], Sent(d, r, last);
    assert sent.runs[r] == run.(cursor := last) && sent.runs - {r} == d.runs - {r};
    OverwriteTwice(d.files, run.name, SyncState(Some(run.peer.url), last), SyncState(Some(run.peer.url), |d.log|));
  }
}
