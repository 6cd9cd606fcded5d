/**
  When replicas hold exact prefixes of their master's log: run by run, for any number of callback threads, and step by
  step where it can go wrong.
 */
module ReplicationSafety {
  import opened Prelude
  import opened QueryObject
  import opened Replication

  /** Every entry is an update that did change the object it met. */
  ghost predicate LogOk<S, M, R>(beh: Behaviour<S, M, R>, log: seq<Message<M>>) {
    forall i {:trigger EntryOk(beh, log, i)} :: 0 <= i < |log| ==> EntryOk(beh, log, i)
  }

  ghost predicate EntryOk<S, M, R>(beh: Behaviour<S, M, R>, log: seq<Message<M>>, i: nat) {
    i < |log| && Updates(log[i]) && beh.update(Fold(beh, log[..i]), log[i].body).1
  }

  /** The messages are updates `k`, `k + 1`, ... of the log to its end, with tags that may be too old. */
  predicate Carries<M(==)>(log: seq<Message<M>>, k: int, msgs: seq<Published<M>>) {
    && 0 <= k && k + |msgs| == |log|
    && forall i :: 0 <= i < |msgs| ==> msgs[i].msg == log[k + i] && msgs[i].tag <= k + i
  }

  /** Where in the log the replica's undigested messages begin. */
  function Begins<S, M>(log: seq<Message<M>>, p: Proc<S, M>): int
    requires p.Replica?
  {
    |log| - |p.buffered| - |p.channel|
  }

  /** Before the snapshot is installed: what is buffered and what is on its way are the latest updates, and the
      snapshot, if taken, lies within them; `behind` is how far it is ahead of what has been delivered. */
  ghost predicate WaitingOk<S, M, R>(beh: Behaviour<S, M, R>, log: seq<Message<M>>, p: Proc<S, M>)
    requires p.Replica?
  {
    && !p.elected && Carries(log, Begins(log, p), p.buffered + p.channel)
    && (p.snapshot.Some? ==>
          var v := p.snapshot.value.version;
          && At(beh, log, p.snapshot.value) && Begins(log, p) <= v
          && p.behind == if v > |log| - |p.channel| then v - (|log| - |p.channel|) else 0)
  }

  ghost predicate FollowingOk<S, M, R>(beh: Behaviour<S, M, R>, log: seq<Message<M>>, p: Proc<S, M>)
    requires p.Replica?
  {
    !p.waiting && p.buffered == [] && At(beh, log, p.obj) && Carries(log, p.obj.version, p.channel)
  }

  ghost predicate ReplicaOk<S, M, R>(beh: Behaviour<S, M, R>, log: seq<Message<M>>, p: Proc<S, M>)
    requires p.Replica?
  {
    if p.installed then FollowingOk(beh, log, p) else WaitingOk(beh, log, p)
  }

  ghost predicate ProcOk<S, M, R>(beh: Behaviour<S, M, R>, c: Cluster<S, M>, i: nat)
    requires i < |c.procs|
  {
    match c.procs[i]
    case Dead => true
    case Master(obj, callbacks) =>
      && c.owner == Some(i) && c.logs != []
      && At(beh, c.logs[|c.logs| - 1], obj) && obj.version == |c.logs[|c.logs| - 1]|
      && (forall k :: 0 <= k < |callbacks| ==> callbacks[k].tag <= obj.version)
    case Replica(epoch, _, _, _, _, _, _, _, _, elected) =>
      && epoch < |c.logs| && ReplicaOk(beh, c.logs[epoch], c.procs[i])
      && (elected ==> c.owner == Some(i) && c.procs[i].installed)
  }

  ghost predicate Inv<S, M, R>(beh: Behaviour<S, M, R>, c: Cluster<S, M>) {
    && c.logs != []
    && (forall e :: 0 <= e < |c.logs| ==> LogOk(beh, c.logs[e]))
    && (forall i :: 0 <= i < |c.procs| ==> ProcOk(beh, c, i))
    && (c.owner.Some? ==>
          && c.owner.value < |c.procs|
          && (c.procs[c.owner.value].Master? || (c.procs[c.owner.value].Replica? && c.procs[c.owner.value].elected)))
  }

  // ---- which steps are safe ----

  /** Of the buffered messages, those the snapshot does not contain carry their true version. */
  predicate FreshBuffer<S, M>(log: seq<Message<M>>, p: Proc<S, M>)
    requires p.Replica? && p.snapshot.Some?
  {
    forall i :: 0 <= i < |p.buffered| && Begins(log, p) + i >= p.snapshot.value.version ==>
      p.buffered[i].tag == Begins(log, p) + i
  }

  /** No message is handled inside the handover, no snapshot overtakes what it contains, and nobody changes to a master
      it does not match. */
  ghost predicate Undisturbed<S, M>(c: Cluster<S, M>, st: Step<M>) {
    match st
    case Deliver(r) => IsReplica(c, r) ==> c.procs[r].waiting || c.procs[r].installed
    case Install(r) => IsReplica(c, r) ==> c.procs[r].behind == 0
    case Resubscribe(r) => HasMaster(c) && IsReplica(c, r) ==> Matched(c, r)
    case _ => true
  }

  ghost predicate InstallsFresh<S, M>(c: Cluster<S, M>, st: Step<M>) {
    st.Install? && IsReplica(c, st.r) && c.procs[st.r].snapshot.Some? && c.procs[st.r].epoch < |c.logs| ==>
      FreshBuffer(c.logs[c.procs[st.r].epoch], c.procs[st.r])
  }

  ghost predicate Tidy<S, M>(c: Cluster<S, M>, st: Step<M>) { Undisturbed(c, st) && InstallsFresh(c, st) }

  /** A callback that changes the object meets the version it read. */
  ghost predicate Prompt<S, M, R>(beh: Behaviour<S, M, R>, c: Cluster<S, M>, st: Step<M>) {
    st.Finish? && HasMaster(c) && st.k < |c.procs[c.owner.value].callbacks| ==>
      var m := c.procs[c.owner.value];
      Process(beh, m.obj, m.callbacks[st.k].msg).1 ==> m.callbacks[st.k].tag == m.obj.version
  }

  /** A run all of whose steps are tidy. */
  ghost predicate TidyRun<S, M, R>(
      cfg: Config, beh: Behaviour<S, M, R>, c: Cluster<S, M>, steps: seq<Step<M>>, t: Cluster<S, M>)
    decreases |steps|
  {
    if steps == [] then c == t
    else
      && Enabled(cfg, c, steps[0]) && Tidy(c, steps[0])
      && TidyRun(cfg, beh, Apply(cfg, beh, c, steps[0]), steps[1..], t)
  }

  /** A run all of whose steps are undisturbed and prompt. */
  ghost predicate PromptRun<S, M, R>(
      cfg: Config, beh: Behaviour<S, M, R>, c: Cluster<S, M>, steps: seq<Step<M>>, t: Cluster<S, M>)
    decreases |steps|
  {
    if steps == [] then c == t
    else
      && Enabled(cfg, c, steps[0]) && Undisturbed(c, steps[0]) && Prompt(beh, c, steps[0])
      && PromptRun(cfg, beh, Apply(cfg, beh, c, steps[0]), steps[1..], t)
  }

  // ---- logs and folds ----

  lemma FollowLog<S, M, R>(beh: Behaviour<S, M, R>, log: seq<Message<M>>, i: nat)
    requires LogOk(beh, log) && i < |log|
    ensures Follow(beh, Object(Fold(beh, log[..i]), i), log[i]) == Object(Fold(beh, log[..i + 1]), i + 1)
  {
    assert EntryOk(beh, log, i);
    assert log[..i + 1][..i] == log[..i];
  }

  lemma LogExtends<S(!new), M(!new), R(!new)>(
      beh: Behaviour<S, M, R>, log: seq<Message<M>>, o: Object<S>, m: Message<M>)
    requires Honest(beh) && LogOk(beh, log) && At(beh, log, o) && o.version == |log|
    requires Process(beh, o, m).1
    ensures LogOk(beh, log + [m]) && At(beh, log + [m], Process(beh, o, m).0)
    ensures Process(beh, o, m).0.version == |log| + 1
  {
    var log' := log + [m];
    assert log[..|log|] == log && log'[..|log|] == log && log'[..|log| + 1] == log';
    forall i | 0 <= i < |log'| ensures EntryOk(beh, log', i) {
      if i < |log| { assert EntryOk(beh, log, i) && log'[..i] == log[..i] && log'[i] == log[i]; }
    }
  }

  lemma LogPrefix<S, M, R>(beh: Behaviour<S, M, R>, log: seq<Message<M>>, n: nat)
    requires LogOk(beh, log) && n <= |log|
    ensures LogOk(beh, log[..n])
  {
    forall i | 0 <= i < n ensures EntryOk(beh, log[..n], i) {
      assert EntryOk(beh, log, i) && log[..n][..i] == log[..i] && log[..n][i] == log[i];
    }
  }

  predicate Buffers<M(==)>(log: seq<Message<M>>, start: nat, buffered: seq<Published<M>>) {
    && start + |buffered| <= |log|
    && forall i :: 0 <= i < |buffered| ==> buffered[i].msg == log[start + i] && buffered[i].tag <= start + i
  }

  /** Playing back from a snapshot inside the buffered range applies exactly the updates after it, each once, if those
      carry their true versions. */
  lemma {:induction false} PlaybackCatchesUp<S, M, R>(
      beh: Behaviour<S, M, R>, log: seq<Message<M>>, o: Object<S>, buffered: seq<Published<M>>, start: nat, k: nat)
    requires LogOk(beh, log) && At(beh, log, o) && start <= o.version
    requires k <= |buffered| && Buffers(log, start, buffered)
    requires forall i :: 0 <= i < |buffered| && start + i >= o.version ==> buffered[i].tag == start + i
    ensures var n := if start + k <= o.version then o.version else start + k;
      Playback(beh, o, buffered, k) == Object(Fold(beh, log[..n]), n)
  {
    if k > 0 {
      PlaybackCatchesUp(beh, log, o, buffered, start, k - 1);
      if start + k > o.version { FollowLog(beh, log, start + k - 1); }
    }
  }

  /** Playback never goes back, and never further than the messages reach. */
  lemma {:induction false} PlaybackBounds<S, M, R>(
      beh: Behaviour<S, M, R>, log: seq<Message<M>>, o: Object<S>, buffered: seq<Published<M>>, start: nat, k: nat)
    requires k <= |buffered| && Buffers(log, start, buffered)
    ensures o.version <= Playback(beh, o, buffered, k).version
    ensures Playback(beh, o, buffered, k).version <= if start + k <= o.version then o.version else start + k
  {
    if k > 0 { PlaybackBounds(beh, log, o, buffered, start, k - 1); }
  }

  /** One message past the snapshot with a tag that is too old is enough to fall short for good. */
  lemma {:induction false} PlaybackFallsShort<S, M, R>(
      beh: Behaviour<S, M, R>, log: seq<Message<M>>, o: Object<S>, buffered: seq<Published<M>>,
      start: nat, k: nat, i: nat)
    requires i < k <= |buffered| && Buffers(log, start, buffered)
    requires o.version <= start + i && buffered[i].tag < start + i
    ensures Playback(beh, o, buffered, k).version < start + k
  {
    if i == k - 1 {
      PlaybackBounds(beh, log, o, buffered, start, k - 1);
    } else {
      PlaybackFallsShort(beh, log, o, buffered, start, k - 1, i);
    }
  }

  // ---- one replica ----

  lemma DeliverKeeps<S, M, R>(beh: Behaviour<S, M, R>, log: seq<Message<M>>, p: Proc<S, M>)
    requires LogOk(beh, log) && p.Replica? && ReplicaOk(beh, log, p) && p.channel != [] && (p.waiting || p.installed)
    ensures ReplicaOk(beh, log, DeliverTo(beh, p))
  {
    if p.installed {
      FollowLog(beh, log, p.obj.version);
    } else {
      var q := DeliverTo(beh, p);
      assert q.buffered + q.channel == p.buffered + p.channel;
    }
  }

  /** What is buffered and what is on its way, separately. */
  lemma SplitMessages<M>(log: seq<Message<M>>, buffered: seq<Published<M>>, channel: seq<Published<M>>)
    requires Carries(log, |log| - |buffered| - |channel|, buffered + channel)
    ensures Buffers(log, |log| - |buffered| - |channel|, buffered) && Carries(log, |log| - |channel|, channel)
  {
    var all := buffered + channel;
    assert forall i :: 0 <= i < |buffered| ==> buffered[i] == all[i];
    assert forall i :: 0 <= i < |channel| ==> channel[i] == all[|buffered| + i];
  }

  lemma InstallKeeps<S, M, R>(beh: Behaviour<S, M, R>, log: seq<Message<M>>, p: Proc<S, M>)
    requires LogOk(beh, log) && p.Replica? && WaitingOk(beh, log, p) && p.snapshot.Some?
    requires p.behind == 0 && FreshBuffer(log, p)
    ensures FollowingOk(beh, log, InstallOn(beh, p))
  {
    SplitMessages(log, p.buffered, p.channel);
    PlaybackCatchesUp(beh, log, p.snapshot.value, p.buffered, Begins(log, p), |p.buffered|);
  }

  /** Installing a snapshot gives a prefix exactly when it has not overtaken anything and the buffer is fresh. */
  lemma InstallOnExactly<S, M, R>(beh: Behaviour<S, M, R>, log: seq<Message<M>>, p: Proc<S, M>)
    requires LogOk(beh, log) && p.Replica? && WaitingOk(beh, log, p) && p.snapshot.Some?
    ensures OnLog(beh, log, InstallOn(beh, p)) <==> p.behind == 0 && FreshBuffer(log, p)
  {
    SplitMessages(log, p.buffered, p.channel);
    var o, start, n := p.snapshot.value, Begins(log, p), |p.buffered|;
    PlaybackBounds(beh, log, o, p.buffered, start, n);
    if p.behind == 0 {
      if FreshBuffer(log, p) {
        InstallKeeps(beh, log, p);
      } else {
        var i :| 0 <= i < n && start + i >= o.version && p.buffered[i].tag != start + i;
        PlaybackFallsShort(beh, log, o, p.buffered, start, n, i);
      }
    }
  }

  lemma PublishKeeps<S, M, R>(beh: Behaviour<S, M, R>, log: seq<Message<M>>, p: Proc<S, M>, tag: nat, m: Message<M>)
    requires p.Replica? && ReplicaOk(beh, log, p) && tag <= |log|
    ensures ReplicaOk(beh, log + [m], p.(channel := p.channel + [Published(tag, m)]))
  {
    var log' := log + [m];
    var q := p.(channel := p.channel + [Published(tag, m)]);
    if p.installed {
      assert log'[..p.obj.version] == log[..p.obj.version];
    } else {
      assert q.buffered + q.channel == (p.buffered + p.channel) + [Published(tag, m)];
      if p.snapshot.Some? {
        assert log'[..p.snapshot.value.version] == log[..p.snapshot.value.version];
      }
    }
  }

  // ---- the cluster ----

  /** Replacing one process by one that is in order, with key and logs unchanged. */
  lemma ReplaceProc<S, M, R>(beh: Behaviour<S, M, R>, c: Cluster<S, M>, i: nat, p: Proc<S, M>)
    requires Inv(beh, c) && i < |c.procs| && ProcOk(beh, c.(procs := c.procs[i := p]), i)
    requires c.owner == Some(i) ==> p.Master? || (p.Replica? && p.elected)
    ensures Inv(beh, c.(procs := c.procs[i := p]))
  {
    var t := c.(procs := c.procs[i := p]);
    forall j | 0 <= j < |t.procs| ensures ProcOk(beh, t, j) { if j != i { assert ProcOk(beh, c, j); } }
  }

  lemma FinishKeeps<S(!new), M(!new), R(!new)>(beh: Behaviour<S, M, R>, c: Cluster<S, M>, k: nat)
    requires Honest(beh) && Inv(beh, c) && HasMaster(c) && k < |c.procs[c.owner.value].callbacks|
    ensures Inv(beh, FinishCallback(beh, c, k))
  {
    var i := c.owner.value;
    var m := c.procs[i];
    assert ProcOk(beh, c, i);
    var cb := m.callbacks[k];
    var (o, changed, reply) := Process(beh, m.obj, cb.msg);
    ProcessMeaning(beh, m.obj, cb.msg);
    var t := FinishCallback(beh, c, k);
    if changed {
      var e := |c.logs| - 1;
      LogExtends(beh, c.logs[e], m.obj, cb.msg);
      forall x | 0 <= x < |t.logs| ensures LogOk(beh, t.logs[x]) { if x != e { assert LogOk(beh, c.logs[x]); } }
      forall j | 0 <= j < |t.procs| ensures ProcOk(beh, t, j) {
        if j != i {
          assert ProcOk(beh, c, j);
          if c.procs[j].Replica? && c.procs[j].epoch == e { PublishKeeps(beh, c.logs[e], c.procs[j], cb.tag, cb.msg); }
        }
      }
    } else {
      ReplaceProc(beh, c, i, Master(o, Without(m.callbacks, k)));
    }
  }

  lemma AddProc<S, M, R>(beh: Behaviour<S, M, R>, c: Cluster<S, M>, p: Proc<S, M>)
    requires Inv(beh, c) && p.Replica? && !p.elected && p.epoch < |c.logs| && ReplicaOk(beh, c.logs[p.epoch], p)
    ensures Inv(beh, c.(procs := c.procs + [p]))
  {
    var t := c.(procs := c.procs + [p]);
    forall j | 0 <= j < |t.procs| ensures ProcOk(beh, t, j) { if j < |c.procs| { assert ProcOk(beh, c, j); } }
  }

  /** A new epoch begins at process `i`, which owns the key; nobody else did. */
  lemma NewEpoch<S, M, R>(
      beh: Behaviour<S, M, R>, c: Cluster<S, M>, t: Cluster<S, M>, i: nat, log: seq<Message<M>>, o: Object<S>)
    requires Inv(beh, c) && LogOk(beh, log) && At(beh, log, o) && o.version == |log|
    requires c.owner == None || c.owner == Some(i)
    requires i < |t.procs| && t.procs[i] == Master(o, []) && t.owner == Some(i) && t.logs == c.logs + [log]
    requires forall j :: 0 <= j < |t.procs| && j != i ==> j < |c.procs| && t.procs[j] == c.procs[j]
    requires i < |c.procs| ==> !c.procs[i].Master?
    ensures Inv(beh, t)
  {
    forall e | 0 <= e < |t.logs| ensures LogOk(beh, t.logs[e]) { if e < |c.logs| { assert LogOk(beh, c.logs[e]); } }
    forall j | 0 <= j < |t.procs| ensures ProcOk(beh, t, j) {
      var q := t.procs[j];
      if j != i { assert ProcOk(beh, c, j); }
    }
  }

  lemma CrashKeeps<S, M, R>(cfg: Config, beh: Behaviour<S, M, R>, c: Cluster<S, M>, i: nat)
    requires Inv(beh, c) && Enabled(cfg, c, Step<M>.Crash(i))
    ensures Inv(beh, Apply(cfg, beh, c, Crash(i)))
  {
    var t := Apply(cfg, beh, c, Crash(i));
    forall j | 0 <= j < |t.procs| ensures ProcOk(beh, t, j) { if j != i { assert ProcOk(beh, c, j); } }
  }

  lemma ArrivalKeeps<S, M, R>(cfg: Config, beh: Behaviour<S, M, R>, c: Cluster<S, M>, st: Step<M>)
    requires Inv(beh, c) && Enabled(cfg, c, st) && (st.StartMaster? || st.Join?)
    ensures Inv(beh, Apply(cfg, beh, c, st))
  {
    if st.Join? {
      var e := |c.logs| - 1;
      AddProc(beh, c, Fresh(beh, e));
    } else {
      var empty: seq<Message<M>> := [];
      assert empty[..0] == empty;
      NewEpoch(beh, c, Apply(cfg, beh, c, st), |c.procs|, empty, Object(beh.init, 0));
    }
  }

  lemma BeginKeeps<S, M, R>(cfg: Config, beh: Behaviour<S, M, R>, c: Cluster<S, M>, msg: Message<M>)
    requires Inv(beh, c) && Enabled(cfg, c, Begin(msg))
    ensures Inv(beh, Apply(cfg, beh, c, Begin(msg)))
  {
    var i := c.owner.value;
    assert ProcOk(beh, c, i);
    ReplaceProc(beh, c, i, c.procs[i].(callbacks := c.procs[i].callbacks + [Callback(msg, c.procs[i].obj.version)]));
  }

  lemma ServeKeeps<S, M, R>(cfg: Config, beh: Behaviour<S, M, R>, c: Cluster<S, M>, r: nat)
    requires Inv(beh, c) && Enabled(cfg, c, Step<M>.Serve(r))
    ensures Inv(beh, Apply(cfg, beh, c, Serve(r)))
  {
    assert ProcOk(beh, c, r) && ProcOk(beh, c, c.owner.value);
    ReplaceProc(beh, c, r, c.procs[r].(snapshot := Some(c.procs[c.owner.value].obj), behind := |c.procs[r].channel|));
  }

  lemma FollowerKeeps<S, M, R>(cfg: Config, beh: Behaviour<S, M, R>, c: Cluster<S, M>, st: Step<M>)
    requires Inv(beh, c) && Enabled(cfg, c, st) && Tidy(c, st) && (st.Install? || st.Deliver?)
    ensures Inv(beh, Apply(cfg, beh, c, st))
  {
    var p := c.procs[st.r];
    assert ProcOk(beh, c, st.r);
    if st.Install? {
      InstallKeeps(beh, c.logs[p.epoch], p);
      ReplaceProc(beh, c, st.r, InstallOn(beh, p));
    } else {
      DeliverKeeps(beh, c.logs[p.epoch], p);
      ReplaceProc(beh, c, st.r, DeliverTo(beh, p));
    }
  }

  /** What a client may send to a replica changes nothing. */
  lemma AskKeeps<S, M, R>(cfg: Config, beh: Behaviour<S, M, R>, c: Cluster<S, M>, st: Step<M>)
    requires Enabled(cfg, c, st) && st.Ask?
    ensures Apply(cfg, beh, c, st) == c
  {
    assert c.procs[st.r := c.procs[st.r]] == c.procs;
  }

  lemma ElectKeeps<S, M, R>(cfg: Config, beh: Behaviour<S, M, R>, c: Cluster<S, M>, r: nat)
    requires Inv(beh, c) && Enabled(cfg, c, Step<M>.Elect(r))
    ensures Inv(beh, Apply(cfg, beh, c, Elect(r)))
  {
    var t := Apply(cfg, beh, c, Elect(r));
    forall j | 0 <= j < |t.procs| ensures ProcOk(beh, t, j) { assert ProcOk(beh, c, j); }
  }

  lemma PromoteKeeps<S, M, R>(cfg: Config, beh: Behaviour<S, M, R>, c: Cluster<S, M>, r: nat)
    requires Inv(beh, c) && Enabled(cfg, c, Step<M>.Promote(r))
    ensures Inv(beh, Apply(cfg, beh, c, Promote(r)))
  {
    var p := c.procs[r];
    assert ProcOk(beh, c, r);
    var log := c.logs[p.epoch][..p.obj.version];
    LogPrefix(beh, c.logs[p.epoch], p.obj.version);
    assert log[..p.obj.version] == log;
    NewEpoch(beh, c, Apply(cfg, beh, c, Promote(r)), r, log, p.obj);
  }

  lemma ResubscribeKeeps<S, M, R>(cfg: Config, beh: Behaviour<S, M, R>, c: Cluster<S, M>, r: nat)
    requires Inv(beh, c) && Enabled(cfg, c, Step<M>.Resubscribe(r)) && Matched(c, r)
    ensures Inv(beh, Apply(cfg, beh, c, Resubscribe(r)))
  {
    assert ProcOk(beh, c, r) && ProcOk(beh, c, c.owner.value);
    ReplaceProc(beh, c, r, c.procs[r].(epoch := |c.logs| - 1, channel := [], behind := 0));
  }

  lemma ClearKeeps<S, M, R>(cfg: Config, beh: Behaviour<S, M, R>, c: Cluster<S, M>, r: nat)
    requires Inv(beh, c) && Enabled(cfg, c, Step<M>.ClearWaiting(r))
    ensures Inv(beh, Apply(cfg, beh, c, ClearWaiting(r)))
  {
    assert ProcOk(beh, c, r);
    ReplaceProc(beh, c, r, c.procs[r].(waiting := false));
  }

  /** Every tidy step keeps the invariant, whatever the number of threads. */
  lemma StepKeeps<S(!new), M(!new), R(!new)>(cfg: Config, beh: Behaviour<S, M, R>, c: Cluster<S, M>, st: Step<M>)
    requires Honest(beh) && Inv(beh, c) && Enabled(cfg, c, st) && Tidy(c, st)
    ensures Inv(beh, Apply(cfg, beh, c, st))
  {
    match st
    case StartMaster => ArrivalKeeps(cfg, beh, c, st);
    case Join => ArrivalKeeps(cfg, beh, c, st);
    case Begin(msg) => BeginKeeps(cfg, beh, c, msg);
    case Finish(k) => FinishKeeps(beh, c, k);
    case Serve(r) => ServeKeeps(cfg, beh, c, r);
    case ClearWaiting(r) => ClearKeeps(cfg, beh, c, r);
    case Install(r) => FollowerKeeps(cfg, beh, c, st);
    case Deliver(r) => FollowerKeeps(cfg, beh, c, st);
    case Ask(r, call, noReply, body) => AskKeeps(cfg, beh, c, st);
    case Crash(p) => CrashKeeps(cfg, beh, c, p);
    case Elect(r) => ElectKeeps(cfg, beh, c, r);
    case Promote(r) => PromoteKeeps(cfg, beh, c, r);
    case Resubscribe(r) => ResubscribeKeeps(cfg, beh, c, r);
  }

  lemma {:induction false} RunKeeps<S(!new), M(!new), R(!new)>(
      cfg: Config, beh: Behaviour<S, M, R>, c: Cluster<S, M>, steps: seq<Step<M>>, t: Cluster<S, M>)
    requires Honest(beh) && Inv(beh, c) && TidyRun(cfg, beh, c, steps, t)
    ensures Inv(beh, t)
    decreases |steps|
  {
    if steps != [] {
      StepKeeps(cfg, beh, c, steps[0]);
      RunKeeps(cfg, beh, Apply(cfg, beh, c, steps[0]), steps[1..], t);
    }
  }

  lemma InitHolds<S, M, R>(beh: Behaviour<S, M, R>)
    ensures Inv<S, M, R>(beh, Init(beh))
  {
    var empty: seq<Message<M>> := [];
    assert empty[..0] == empty;
  }

  lemma TidyRunInv<S(!new), M(!new), R(!new)>(
      cfg: Config, beh: Behaviour<S, M, R>, steps: seq<Step<M>>, t: Cluster<S, M>)
    requires Honest(beh) && TidyRun(cfg, beh, Init(beh), steps, t)
    ensures Inv(beh, t)
  {
    InitHolds(beh);
    RunKeeps(cfg, beh, Init(beh), steps, t);
  }

  // ---- tags ----

  /** Everything a replica has not digested carries its true version, and it never reported anything else. */
  predicate Tagged<S, M>(log: seq<Message<M>>, p: Proc<S, M>)
    requires p.Replica?
  {
    && !p.diverged
    && forall i :: 0 <= i < |p.buffered| + |p.channel| ==> (p.buffered + p.channel)[i].tag == Begins(log, p) + i
  }

  predicate TaggedAt<S, M>(c: Cluster<S, M>, i: nat) {
    i < |c.procs| && c.procs[i].Replica? && c.procs[i].epoch < |c.logs| ==> Tagged(c.logs[c.procs[i].epoch], c.procs[i])
  }

  predicate AllTagged<S, M>(c: Cluster<S, M>) { forall i :: 0 <= i < |c.procs| ==> TaggedAt(c, i) }

  /** With true tags every buffer is fresh. */
  lemma TaggedIsFresh<S, M>(log: seq<Message<M>>, p: Proc<S, M>)
    requires p.Replica? && p.snapshot.Some? && Tagged(log, p)
    ensures FreshBuffer(log, p)
  {
    assert forall i :: 0 <= i < |p.buffered| ==> p.buffered[i] == (p.buffered + p.channel)[i];
  }

  lemma DeliverKeepsTags<S, M, R>(beh: Behaviour<S, M, R>, log: seq<Message<M>>, p: Proc<S, M>)
    requires p.Replica? && ReplicaOk(beh, log, p) && LogOk(beh, log) && Tagged(log, p) && p.channel != []
    requires p.waiting || p.installed
    ensures Tagged(log, DeliverTo(beh, p))
  {
    var q := DeliverTo(beh, p);
    if p.installed {
      assert (p.buffered + p.channel)[0] == p.channel[0];
      assert forall i :: 0 <= i < |q.channel| ==> (q.buffered + q.channel)[i] == (p.buffered + p.channel)[i + 1];
    } else {
      assert q.buffered + q.channel == p.buffered + p.channel;
    }
  }

  lemma InstallKeepsTags<S, M, R>(beh: Behaviour<S, M, R>, log: seq<Message<M>>, p: Proc<S, M>)
    requires p.Replica? && p.snapshot.Some? && Tagged(log, p)
    ensures Tagged(log, InstallOn(beh, p))
  {
    var q := InstallOn(beh, p);
    assert forall i :: 0 <= i < |q.channel| ==>
      (q.buffered + q.channel)[i] == (p.buffered + p.channel)[|p.buffered| + i];
  }

  lemma PublishKeepsTags<S, M>(log: seq<Message<M>>, p: Proc<S, M>, m: Message<M>)
    requires p.Replica? && Tagged(log, p)
    ensures Tagged(log + [m], p.(channel := p.channel + [Published(|log|, m)]))
  {
    var q := p.(channel := p.channel + [Published(|log|, m)]);
    assert q.buffered + q.channel == (p.buffered + p.channel) + [Published(|log|, m)];
  }

  lemma FinishKeepsTags<S(!new), M(!new), R(!new)>(beh: Behaviour<S, M, R>, c: Cluster<S, M>, k: nat)
    requires Inv(beh, c) && AllTagged(c) && HasMaster(c) && k < |c.procs[c.owner.value].callbacks|
    requires Prompt(beh, c, Step<M>.Finish(k))
    ensures AllTagged(FinishCallback(beh, c, k))
  {
    var t := FinishCallback(beh, c, k);
    var m := c.procs[c.owner.value];
    assert ProcOk(beh, c, c.owner.value);
    var e := |c.logs| - 1;
    forall i | 0 <= i < |t.procs| ensures TaggedAt(t, i) {
      assert TaggedAt(c, i);
      if Process(beh, m.obj, m.callbacks[k].msg).1 && c.procs[i].Replica? && c.procs[i].epoch == e {
        PublishKeepsTags(c.logs[e], c.procs[i], m.callbacks[k].msg);
      }
    }
  }

  lemma FollowerKeepsTags<S, M, R>(cfg: Config, beh: Behaviour<S, M, R>, c: Cluster<S, M>, st: Step<M>)
    requires Inv(beh, c) && AllTagged(c) && Enabled(cfg, c, st) && Undisturbed(c, st) && (st.Install? || st.Deliver?)
    ensures AllTagged(Apply(cfg, beh, c, st))
  {
    var p, t := c.procs[st.r], Apply(cfg, beh, c, st);
    assert ProcOk(beh, c, st.r) && TaggedAt(c, st.r);
    if st.Install? {
      InstallKeepsTags(beh, c.logs[p.epoch], p);
    } else {
      DeliverKeepsTags(beh, c.logs[p.epoch], p);
    }
    forall i | 0 <= i < |t.procs| ensures TaggedAt(t, i) { assert TaggedAt(c, i); }
  }

  /** A prompt and undisturbed step is tidy, and keeps all tags true. */
  lemma PromptStep<S(!new), M(!new), R(!new)>(cfg: Config, beh: Behaviour<S, M, R>, c: Cluster<S, M>, st: Step<M>)
    requires Inv(beh, c) && AllTagged(c) && Enabled(cfg, c, st) && Undisturbed(c, st) && Prompt(beh, c, st)
    ensures Tidy(c, st) && AllTagged(Apply(cfg, beh, c, st))
  {
    if st.Install? {
      assert TaggedAt(c, st.r);
      if c.procs[st.r].epoch < |c.logs| { TaggedIsFresh(c.logs[c.procs[st.r].epoch], c.procs[st.r]); }
    }
    if st.Finish? {
      FinishKeepsTags(beh, c, st.k);
    } else if st.Install? || st.Deliver? {
      FollowerKeepsTags(cfg, beh, c, st);
    } else {
      OtherStepsKeepTags(cfg, beh, c, st);
    }
  }

  lemma OtherStepsKeepTags<S, M, R>(cfg: Config, beh: Behaviour<S, M, R>, c: Cluster<S, M>, st: Step<M>)
    requires Inv(beh, c) && AllTagged(c) && Enabled(cfg, c, st) && Undisturbed(c, st)
    requires !st.Finish? && !st.Install? && !st.Deliver?
    ensures AllTagged(Apply(cfg, beh, c, st))
  {
    var t := Apply(cfg, beh, c, st);
    forall i | 0 <= i < |t.procs| ensures TaggedAt(t, i) {
      if i < |c.procs| { assert TaggedAt(c, i) && ProcOk(beh, c, i); }
    }
  }

  lemma {:induction false} PromptRunIsTidy<S(!new), M(!new), R(!new)>(
      cfg: Config, beh: Behaviour<S, M, R>, c: Cluster<S, M>, steps: seq<Step<M>>, t: Cluster<S, M>)
    requires Honest(beh) && Inv(beh, c) && AllTagged(c) && PromptRun(cfg, beh, c, steps, t)
    ensures TidyRun(cfg, beh, c, steps, t) && AllTagged(t)
    decreases |steps|
  {
    if steps != [] {
      PromptStep(cfg, beh, c, steps[0]);
      StepKeeps(cfg, beh, c, steps[0]);
      PromptRunIsTidy(cfg, beh, Apply(cfg, beh, c, steps[0]), steps[1..], t);
    }
  }

  // ---- configurations that leave no choice ----

  /** One callback at a time, an uninterrupted end of the snapshot wait, no reply overtaking published messages, and no
      change to a master that differs. */
  predicate Good(cfg: Config) { cfg.pool == 1 && cfg.atomicHandover && cfg.orderedSockets && cfg.matchedTakeover }

  /** At most one callback is running, with the current version, and no handover is half done. */
  predicate Calm<S, M>(p: Proc<S, M>) {
    match p
    case Master(obj, callbacks) => |callbacks| <= 1 && (callbacks != [] ==> callbacks[0].tag == obj.version)
    case Replica(_, waiting, installed, _, _, _, _, _, _, _) => waiting || installed
    case Dead => true
  }

  predicate AllCalm<S, M>(c: Cluster<S, M>) { forall i :: 0 <= i < |c.procs| ==> Calm(c.procs[i]) }

  lemma CalmStep<S, M, R>(cfg: Config, beh: Behaviour<S, M, R>, c: Cluster<S, M>, st: Step<M>)
    requires Good(cfg) && AllCalm(c) && Enabled(cfg, c, st)
    ensures Undisturbed(c, st) && Prompt(beh, c, st) && AllCalm(Apply(cfg, beh, c, st))
  {
  }

  lemma {:induction false} GoodRunIsPrompt<S(!new), M(!new), R(!new)>(
      cfg: Config, beh: Behaviour<S, M, R>, c: Cluster<S, M>, steps: seq<Step<M>>, t: Cluster<S, M>)
    requires Good(cfg) && AllCalm(c) && Run(cfg, beh, c, steps, t)
    ensures PromptRun(cfg, beh, c, steps, t)
    decreases |steps|
  {
    if steps != [] {
      CalmStep(cfg, beh, c, steps[0]);
      GoodRunIsPrompt(cfg, beh, Apply(cfg, beh, c, steps[0]), steps[1..], t);
    }
  }

  // ---- the results ----

  /** Along every tidy run, with any number of threads, every replica past its snapshot holds exactly the first
      `version` changing updates of the log it follows, with precisely the later ones still to come. */
  lemma ReplicasHoldPrefixes<S(!new), M(!new), R(!new)>(
      cfg: Config, beh: Behaviour<S, M, R>, steps: seq<Step<M>>, t: Cluster<S, M>, r: nat)
    requires Honest(beh) && TidyRun(cfg, beh, Init(beh), steps, t) && IsReplica(t, r) && t.procs[r].installed
    ensures HoldsPrefix(beh, t, r)
  {
    TidyRunInv(cfg, beh, steps, t);
    assert ProcOk(beh, t, r);
  }

  /** After a tidy run, the end of a replica's wait gives a prefix if and only if its snapshot overtook nothing and the
      buffered messages it does not contain carry their true versions. */
  lemma InstallExactly<S(!new), M(!new), R(!new)>(
      cfg: Config, beh: Behaviour<S, M, R>, steps: seq<Step<M>>, t: Cluster<S, M>, r: nat)
    requires Honest(beh) && TidyRun(cfg, beh, Init(beh), steps, t) && Enabled(cfg, t, Install(r))
    ensures t.procs[r].epoch < |t.logs|
    ensures HoldsPrefix(beh, Apply(cfg, beh, t, Install(r)), r) <==>
      t.procs[r].behind == 0 && FreshBuffer(t.logs[t.procs[r].epoch], t.procs[r])
  {
    TidyRunInv(cfg, beh, steps, t);
    assert ProcOk(beh, t, r);
    InstallOnExactly(beh, t.logs[t.procs[r].epoch], t.procs[r]);
  }

  /** After a tidy run, a survivor that is re-subscribed holds a prefix of the new master's log if and only if it holds
      exactly what that master holds. */
  lemma ResubscribeExactly<S(!new), M(!new), R(!new)>(
      cfg: Config, beh: Behaviour<S, M, R>, steps: seq<Step<M>>, t: Cluster<S, M>, r: nat)
    requires Honest(beh) && TidyRun(cfg, beh, Init(beh), steps, t) && Enabled(cfg, t, Resubscribe(r))
    requires t.procs[r].installed
    ensures HoldsPrefix(beh, Apply(cfg, beh, t, Resubscribe(r)), r) <==> t.procs[r].obj == t.procs[t.owner.value].obj
  {
    TidyRunInv(cfg, beh, steps, t);
    var m := t.procs[t.owner.value];
    assert ProcOk(beh, t, t.owner.value);
    var log := t.logs[|t.logs| - 1];
    assert log[..|log|] == log;
  }

  /** Right after a promotion that means: if and only if the versions are equal. */
  lemma SurvivorsMatchByVersion<S(!new), M(!new), R(!new)>(
      cfg: Config, beh: Behaviour<S, M, R>, steps: seq<Step<M>>, c: Cluster<S, M>, r: nat, q: nat)
    requires Honest(beh) && TidyRun(cfg, beh, Init(beh), steps, c) && Enabled(cfg, c, Promote(r))
    requires IsReplica(c, q) && q != r && c.procs[q].installed && c.procs[q].epoch == c.procs[r].epoch
    ensures var t := Apply(cfg, beh, c, Promote(r));
      && HasMaster(t) && IsReplica(t, q) && t.procs[q].epoch != |t.logs| - 1
      && (Matched(t, q) <==> c.procs[q].obj.version == c.procs[r].obj.version)
  {
    TidyRunInv(cfg, beh, steps, c);
    assert ProcOk(beh, c, r) && ProcOk(beh, c, q);
  }

  // ---- survivors that were still waiting for their snapshot ----

  /** The end of the wait, in one step or in two. */
  function HandedOver<S, M, R>(beh: Behaviour<S, M, R>, c: Cluster<S, M>, r: nat): Cluster<S, M>
    requires IsReplica(c, r) && c.procs[r].snapshot.Some?
  {
    c.(procs := c.procs[r := InstallOn(beh, c.procs[r])])
  }

  lemma HandoverSteps<S, M, R>(cfg: Config, beh: Behaviour<S, M, R>, c: Cluster<S, M>, r: nat)
    requires IsReplica(c, r) && c.procs[r].snapshot.Some? && !c.procs[r].installed && c.procs[r].behind == 0
    requires c.procs[r].waiting
    ensures cfg.atomicHandover ==>
      Enabled(cfg, c, Install(r)) && Apply(cfg, beh, c, Install(r)) == HandedOver(beh, c, r)
    ensures !cfg.atomicHandover ==>
      && Enabled(cfg, c, ClearWaiting(r))
      && var u := Apply(cfg, beh, c, ClearWaiting(r));
         Enabled(cfg, u, Install(r)) && Apply(cfg, beh, u, Install(r)) == HandedOver(beh, c, r)
  {
  }

  /** A survivor that already has its snapshot goes on to hold a prefix of the new master's log if and only if snapshot
      and buffered messages add up to exactly what that master holds. */
  lemma SnapshotSurvivesExactly<S(!new), M(!new), R(!new)>(
      cfg: Config, beh: Behaviour<S, M, R>, steps: seq<Step<M>>, t: Cluster<S, M>, r: nat)
    requires Honest(beh) && TidyRun(cfg, beh, Init(beh), steps, t) && Enabled(cfg, t, Resubscribe(r))
    requires !t.procs[r].installed && t.procs[r].snapshot.Some?
    ensures HoldsPrefix(beh, HandedOver(beh, Apply(cfg, beh, t, Resubscribe(r)), r), r) <==>
      InstallOn(beh, t.procs[r]).obj == t.procs[t.owner.value].obj
  {
    TidyRunInv(cfg, beh, steps, t);
    assert ProcOk(beh, t, t.owner.value);
    var log := t.logs[|t.logs| - 1];
    assert log[..|log|] == log;
  }

  /** Right after a promotion, if its own wait was about to end well: if and only if it has received just as many
      updates as the promoted replica had applied. */
  lemma WaitingSurvivorsMatchByVersion<S(!new), M(!new), R(!new)>(
      cfg: Config, beh: Behaviour<S, M, R>, steps: seq<Step<M>>, c: Cluster<S, M>, r: nat, q: nat)
    requires Honest(beh) && TidyRun(cfg, beh, Init(beh), steps, c) && Enabled(cfg, c, Promote(r))
    requires IsReplica(c, q) && q != r && !c.procs[q].installed && c.procs[q].epoch == c.procs[r].epoch
    requires c.procs[q].snapshot.Some? && c.procs[q].behind == 0
    requires FreshBuffer(c.logs[c.procs[q].epoch], c.procs[q])
    ensures InstallOn(beh, c.procs[q]).obj == c.procs[r].obj <==>
      |c.logs[c.procs[q].epoch]| - |c.procs[q].channel| == c.procs[r].obj.version
  {
    TidyRunInv(cfg, beh, steps, c);
    assert ProcOk(beh, c, r) && ProcOk(beh, c, q);
    InstallKeeps(beh, c.logs[c.procs[q].epoch], c.procs[q]);
  }

  predicate Unmoved<S(==), M, R>(beh: Behaviour<S, M, R>, o: Object<S>, pub: Published<M>) {
    pub.tag < o.version || Follow(beh, o, pub.msg) == o
  }

  lemma {:induction false} PlaybackStays<S(!new), M(!new), R(!new)>(
      beh: Behaviour<S, M, R>, o: Object<S>, buffered: seq<Published<M>>, k: nat)
    requires Honest(beh) && k <= |buffered|
    ensures Playback(beh, o, buffered, k) == o <==> forall i :: 0 <= i < k ==> Unmoved(beh, o, buffered[i])
    ensures Playback(beh, o, buffered, k) == o || Playback(beh, o, buffered, k).version > o.version
  {
    if k > 0 {
      PlaybackStays(beh, o, buffered, k - 1);
      ProcessMeaning(beh, Playback(beh, o, buffered, k - 1), Silenced(buffered[k - 1].msg));
    }
  }

  /** A survivor without a snapshot asks the new master for one.  It goes on to hold a prefix if and only if every
      message it had buffered from the old master is older than the new one, or would not change it. */
  lemma NewSnapshotExactly<S(!new), M(!new), R(!new)>(
      cfg: Config, beh: Behaviour<S, M, R>, steps: seq<Step<M>>, t: Cluster<S, M>, r: nat)
    requires Honest(beh) && TidyRun(cfg, beh, Init(beh), steps, t) && Enabled(cfg, t, Resubscribe(r))
    requires !t.procs[r].installed && t.procs[r].snapshot.None? && t.procs[r].waiting
    ensures var u := Apply(cfg, beh, t, Resubscribe(r));
      && Enabled(cfg, u, Serve(r))
      && (HoldsPrefix(beh, HandedOver(beh, Apply(cfg, beh, u, Serve(r)), r), r) <==>
            forall i :: 0 <= i < |t.procs[r].buffered| ==>
              Unmoved(beh, t.procs[t.owner.value].obj, t.procs[r].buffered[i]))
  {
    TidyRunInv(cfg, beh, steps, t);
    var o, p := t.procs[t.owner.value].obj, t.procs[r];
    assert ProcOk(beh, t, t.owner.value);
    var log := t.logs[|t.logs| - 1];
    assert log[..|log|] == log;
    PlaybackStays(beh, o, p.buffered, |p.buffered|);
  }

  /** Along every undisturbed run whose changing callbacks finish with the version they read, replicas hold prefixes and
      report no divergence, with any number of threads. */
  lemma PromptRunsAgree<S(!new), M(!new), R(!new)>(
      cfg: Config, beh: Behaviour<S, M, R>, steps: seq<Step<M>>, t: Cluster<S, M>, r: nat)
    requires Honest(beh) && PromptRun(cfg, beh, Init(beh), steps, t) && IsReplica(t, r)
    ensures !t.procs[r].diverged && (t.procs[r].installed ==> Agrees(beh, t, r))
  {
    InitHolds(beh);
    PromptRunIsTidy(cfg, beh, Init(beh), steps, t);
    RunKeeps(cfg, beh, Init(beh), steps, t);
    assert ProcOk(beh, t, r) && TaggedAt(t, r);
  }

  /** With one thread, an uninterrupted handover, ordered sockets and matched takeovers every run is such a run. */
  lemma GoodConfigurationsAgree<S(!new), M(!new), R(!new)>(
      cfg: Config, beh: Behaviour<S, M, R>, t: Cluster<S, M>, r: nat)
    requires Good(cfg) && Honest(beh) && Reachable(cfg, beh, t) && IsReplica(t, r)
    ensures !t.procs[r].diverged && (t.procs[r].installed ==> Agrees(beh, t, r))
  {
    var steps :| Run(cfg, beh, Init(beh), steps, t);
    GoodRunIsPrompt(cfg, beh, Init(beh), steps, t);
    PromptRunsAgree(cfg, beh, steps, t, r);
  }

  /** A replica with nothing left to receive from the living master equals it. */
  lemma CaughtUpReplicaEqualsMaster<S(!new), M(!new), R(!new)>(
      cfg: Config, beh: Behaviour<S, M, R>, steps: seq<Step<M>>, t: Cluster<S, M>, r: nat)
    requires Honest(beh) && TidyRun(cfg, beh, Init(beh), steps, t) && HasMaster(t)
    requires IsReplica(t, r) && t.procs[r].installed && t.procs[r].epoch == |t.logs| - 1 && t.procs[r].channel == []
    ensures t.procs[r].obj == t.procs[t.owner.value].obj
  {
    TidyRunInv(cfg, beh, steps, t);
    assert ProcOk(beh, t, r) && ProcOk(beh, t, t.owner.value);
  }

  /** What a client gets from a replica: the answer of the object made of exactly the first `version` updates of the
      master it follows, under that version. */
  lemma ReplicaAnswers<S(!new), M(!new), R(!new)>(
      cfg: Config, beh: Behaviour<S, M, R>, steps: seq<Step<M>>, t: Cluster<S, M>, r: nat, id: nat, body: M)
    requires Honest(beh) && TidyRun(cfg, beh, Init(beh), steps, t) && IsReplica(t, r) && t.procs[r].installed
    ensures t.procs[r].epoch < |t.logs| && t.procs[r].obj.version <= |t.logs[t.procs[r].epoch]|
    ensures var log, v := t.logs[t.procs[r].epoch], t.procs[r].obj.version;
      Process(beh, t.procs[r].obj, Message(FlagsFor(CallQueryAny, false), id, body))
      == (t.procs[r].obj, false, Some(Reply(id, v, Answer(beh.query(Fold(beh, log[..v]), body)))))
  {
    ReplicasHoldPrefixes(cfg, beh, steps, t, r);
  }

  /** What a client gets from the master: a query is answered from all updates of its log, an update with what it
      returns on top of them, and its value is then that of the log with the update added. */
  lemma MasterAnswers<S(!new), M(!new), R(!new)>(
      cfg: Config, beh: Behaviour<S, M, R>, steps: seq<Step<M>>, t: Cluster<S, M>, id: nat, body: M)
    requires Honest(beh) && TidyRun(cfg, beh, Init(beh), steps, t) && HasMaster(t)
    ensures var log, o := t.logs[|t.logs| - 1], t.procs[t.owner.value].obj;
      && Process(beh, o, Message(FlagsFor(CallQuery, false), id, body))
         == (o, false, Some(Reply(id, |log|, Answer(beh.query(Fold(beh, log), body)))))
      && var (o', changed, reply) := Process(beh, o, Message(FlagsFor(CallUpdate, false), id, body));
         && changed == beh.update(Fold(beh, log), body).1
         && reply == Some(Reply(id, |log| + if changed then 1 else 0, Answer(beh.update(Fold(beh, log), body).2)))
         && (changed ==> o'.value == Fold(beh, log + [Message(FlagsFor(CallUpdate, false), id, body)]))
  {
    TidyRunInv(cfg, beh, steps, t);
    assert ProcOk(beh, t, t.owner.value);
    var log := t.logs[|t.logs| - 1];
    assert log[..|log|] == log;
    var longer := log + [Message(FlagsFor(CallUpdate, false), id, body)];
    assert longer[..|longer| - 1] == log;
  }

  /** Masters, and replicas about to become one, hold the key. */
  predicate KeyHeld<S, M>(c: Cluster<S, M>) {
    forall i :: 0 <= i < |c.procs| && (c.procs[i].Master? || (c.procs[i].Replica? && c.procs[i].elected)) ==>
      c.owner == Some(i)
  }

  lemma StepHoldsKey<S, M, R>(cfg: Config, beh: Behaviour<S, M, R>, c: Cluster<S, M>, st: Step<M>)
    requires KeyHeld(c) && Enabled(cfg, c, st)
    ensures KeyHeld(Apply(cfg, beh, c, st))
  {
  }

  lemma {:induction false} RunHoldsKey<S(!new), M(!new), R(!new)>(
      cfg: Config, beh: Behaviour<S, M, R>, c: Cluster<S, M>, steps: seq<Step<M>>, t: Cluster<S, M>)
    requires KeyHeld(c) && Run(cfg, beh, c, steps, t)
    ensures KeyHeld(t)
    decreases |steps|
  {
    if steps != [] {
      StepHoldsKey(cfg, beh, c, steps[0]);
      RunHoldsKey(cfg, beh, Apply(cfg, beh, c, steps[0]), steps[1..], t);
    }
  }

  /** At most one live process is master, and it holds the key, whatever the threads and sockets do. */
  lemma SingleMaster<S(!new), M(!new), R(!new)>(cfg: Config, beh: Behaviour<S, M, R>, t: Cluster<S, M>, i: nat, j: nat)
    requires Reachable(cfg, beh, t)
    requires i < |t.procs| && t.procs[i].Master? && j < |t.procs| && t.procs[j].Master?
    ensures i == j && t.owner == Some(i)
  {
    var steps :| Run(cfg, beh, Init(beh), steps, t);
    RunHoldsKey(cfg, beh, Init(beh), steps, t);
  }

  /** A promoted replica starts from exactly a prefix of the log of the master it followed. */
  lemma PromotionKeepsAPrefix<S(!new), M(!new), R(!new)>(
      cfg: Config, beh: Behaviour<S, M, R>, steps: seq<Step<M>>, c: Cluster<S, M>, r: nat)
    requires Honest(beh) && TidyRun(cfg, beh, Init(beh), steps, c) && Enabled(cfg, c, Promote(r))
    ensures
      var t := Apply(cfg, beh, c, Promote(r));
      var p := c.procs[r];
      && t.procs[r].Master? && t.procs[r].obj == p.obj && p.obj.version <= |c.logs[p.epoch]|
      && t.logs[|t.logs| - 1] == c.logs[p.epoch][..p.obj.version]
      && t.procs[r].obj.value == Fold(beh, t.logs[|t.logs| - 1])
      && forall i :: 0 <= i < |t.procs| && t.procs[i].Master? ==> i == r
  {
    TidyRunInv(cfg, beh, steps, c);
    assert ProcOk(beh, c, r);
    PromoteKeeps(cfg, beh, c, r);
    var t := Apply(cfg, beh, c, Promote(r));
    forall i | 0 <= i < |t.procs| && t.procs[i].Master? ensures i == r { assert ProcOk(beh, t, i); }
  }
}
