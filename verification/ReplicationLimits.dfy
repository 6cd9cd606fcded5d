/** Why each of the four conditions is needed: drop one and some replica silently stops being a prefix of its master. */
module ReplicationLimits {
  import opened Prelude
  import opened QueryObject
  import opened Replication
  import opened ReplicationSafety

  ghost predicate AlwaysHoldsPrefix<S(!new), M(!new), R(!new)>(cfg: Config, beh: Behaviour<S, M, R>) {
    forall t, r: nat :: Reachable(cfg, beh, t) && IsReplica(t, r) && t.procs[r].installed ==> HoldsPrefix(beh, t, r)
  }

  ghost predicate NeverReports<S(!new), M(!new), R(!new)>(cfg: Config, beh: Behaviour<S, M, R>) {
    forall t, r: nat :: Reachable(cfg, beh, t) && IsReplica(t, r) ==> !t.procs[r].diverged
  }

  /** An update that changes every object it meets. */
  ghost predicate Effective<S(!new), M(!new), R(!new)>(beh: Behaviour<S, M, R>, body: M) {
    forall s: S :: beh.update(s, body).1
  }

  lemma {:induction false} RunAppend<S(!new), M(!new), R(!new)>(
      cfg: Config, beh: Behaviour<S, M, R>, c: Cluster<S, M>, steps: seq<Step<M>>, t: Cluster<S, M>, st: Step<M>)
    requires Run(cfg, beh, c, steps, t) && Enabled(cfg, t, st)
    ensures Run(cfg, beh, c, steps + [st], Apply(cfg, beh, t, st))
    decreases |steps|
  {
    if steps == [] {
      assert steps + [st] == [st] && [st][1..] == [];
    } else {
      assert (steps + [st])[1..] == steps[1..] + [st];
      RunAppend(cfg, beh, Apply(cfg, beh, c, steps[0]), steps[1..], t, st);
    }
  }

  lemma ReachableStep<S(!new), M(!new), R(!new)>(cfg: Config, beh: Behaviour<S, M, R>, c: Cluster<S, M>, st: Step<M>)
    requires Reachable(cfg, beh, c) && Enabled(cfg, c, st)
    ensures Reachable(cfg, beh, Apply(cfg, beh, c, st))
  {
    var steps :| Run(cfg, beh, Init(beh), steps, c);
    RunAppend(cfg, beh, Init(beh), steps, c, st);
  }

  function Change<M>(body: M): Message<M> { Message(FlagsFor(CallUpdate, false), 0, body) }

  function Updated<S, M, R>(beh: Behaviour<S, M, R>, o: Object<S>, body: M): Object<S> {
    Object(beh.update(o.value, body).0, o.version + 1)
  }

  /** A cluster of one master and one replica of it. */
  function Pair<S, M>(m: Proc<S, M>, p: Proc<S, M>, log: seq<Message<M>>): Cluster<S, M> {
    Cluster([m, p], Some(0), [log])
  }

  function Start<S, M, R>(beh: Behaviour<S, M, R>): Object<S> { Object(beh.init, 0) }

  lemma Joined<S(!new), M(!new), R(!new)>(cfg: Config, beh: Behaviour<S, M, R>)
    ensures Reachable(cfg, beh, Pair(Master(Start(beh), []), Fresh(beh, 0), []))
  {
    assert Run(cfg, beh, Init(beh), [], Init(beh));
    ReachableStep(cfg, beh, Init(beh), Join);
    assert Apply(cfg, beh, Init(beh), Join) == Pair(Master(Start(beh), []), Fresh(beh, 0), []);
  }

  /** A callback reads the master's version. */
  lemma BeginOne<S(!new), M(!new), R(!new)>(
      cfg: Config, beh: Behaviour<S, M, R>, m: Proc<S, M>, m': Proc<S, M>, p: Proc<S, M>, log: seq<Message<M>>, body: M)
    requires m.Master? && Reachable(cfg, beh, Pair(m, p, log)) && |m.callbacks| < cfg.pool
    requires m' == Master(m.obj, m.callbacks + [Callback(Change(body), m.obj.version)])
    ensures Reachable(cfg, beh, Pair(m', p, log))
  {
    var c := Pair(m, p, log);
    ReachableStep(cfg, beh, c, Begin(Change(body)));
    assert Apply(cfg, beh, c, Begin(Change(body))) == Pair(m', p, log);
  }

  /** The first callback goes on to process its update and sends it to the follower. */
  lemma FinishOne<S(!new), M(!new), R(!new)>(
      cfg: Config, beh: Behaviour<S, M, R>, m: Proc<S, M>, m': Proc<S, M>, p: Proc<S, M>, p': Proc<S, M>,
      log: seq<Message<M>>, log': seq<Message<M>>, body: M)
    requires m.Master? && Reachable(cfg, beh, Pair(m, p, log)) && Effective(beh, body)
    requires m.callbacks != [] && m.callbacks[0].msg == Change(body) && p.Replica? && p.epoch == 0
    requires m' == Master(Updated(beh, m.obj, body), m.callbacks[1..])
    requires p' == p.(channel := p.channel + [Published(m.callbacks[0].tag, Change(body))])
    requires log' == log + [Change(body)]
    ensures Reachable(cfg, beh, Pair(m', p', log'))
  {
    var c := Pair(m, p, log);
    ReachableStep(cfg, beh, c, Finish(0));
    assert Without(m.callbacks, 0) == m.callbacks[1..];
    assert Apply(cfg, beh, c, Finish(0)) == Pair(m', p', log');
  }

  /** A whole update, started at a master with no other callback running. */
  lemma OneUpdate<S(!new), M(!new), R(!new)>(
      cfg: Config, beh: Behaviour<S, M, R>, p: Proc<S, M>, p': Proc<S, M>, body: M)
    requires cfg.pool >= 1 && Effective(beh, body) && p.Replica? && p.epoch == 0 && p.channel == []
    requires Reachable(cfg, beh, Pair(Master(Start(beh), []), p, []))
    requires p' == p.(channel := [Published(0, Change(body))])
    ensures Reachable(cfg, beh, Pair(Master(Updated(beh, Start(beh), body), []), p', [Change(body)]))
  {
    var m := Master(Start(beh), [Callback(Change(body), 0)]);
    BeginOne(cfg, beh, Master(Start(beh), []), m, p, [], body);
    FinishOne(cfg, beh, m, Master(Updated(beh, Start(beh), body), []), p, p', [], [Change(body)], body);
  }

  /** A step of the replica alone. */
  lemma ReplicaStep<S(!new), M(!new), R(!new)>(
      cfg: Config, beh: Behaviour<S, M, R>, c: Cluster<S, M>, st: Step<M>, p: Proc<S, M>)
    requires Reachable(cfg, beh, c) && |c.procs| == 2 && c.logs != []
    requires Enabled(cfg, c, st) && Apply(cfg, beh, c, st) == c.(procs := c.procs[1 := p])
    ensures Reachable(cfg, beh, Cluster([c.procs[0], p], c.owner, c.logs))
  {
    ReachableStep(cfg, beh, c, st);
    assert c.procs[1 := p] == [c.procs[0], p];
  }

  /** One more update by the master of a pair, with no other callback running. */
  lemma NextUpdate<S(!new), M(!new), R(!new)>(
      cfg: Config, beh: Behaviour<S, M, R>, o: Object<S>, p: Proc<S, M>, p': Proc<S, M>, body: M)
    requires cfg.pool >= 1 && Effective(beh, body) && p.Replica? && p.epoch == 0 && p.channel == []
    requires Reachable(cfg, beh, Pair(Master(o, []), p, [Change(body)]))
    requires p' == p.(channel := [Published(o.version, Change(body))])
    ensures Reachable(cfg, beh, Pair(Master(Updated(beh, o, body), []), p', [Change(body), Change(body)]))
  {
    var m := Master(o, [Callback(Change(body), o.version)]);
    BeginOne(cfg, beh, Master(o, []), m, p, [Change(body)], body);
    FinishOne(cfg, beh, m, Master(Updated(beh, o, body), []), p, p',
              [Change(body)], [Change(body), Change(body)], body);
  }

  /** A replica that receives a message with another tag than its version reports it. */
  lemma Reports<S(!new), M(!new), R(!new)>(cfg: Config, beh: Behaviour<S, M, R>, c: Cluster<S, M>, r: nat)
    requires Reachable(cfg, beh, c) && IsReplica(c, r) && !c.procs[r].waiting
    requires c.procs[r].channel != [] && c.procs[r].channel[0].tag != c.procs[r].obj.version
    ensures !NeverReports(cfg, beh)
  {
    ReachableStep(cfg, beh, c, Deliver(r));
    var t := Apply(cfg, beh, c, Deliver(r));
    assert IsReplica(t, r) && t.procs[r].diverged;
  }

  // ---- a handover that can be interrupted ----

  lemma ServedAndCleared<S(!new), M(!new), R(!new)>(cfg: Config, beh: Behaviour<S, M, R>) returns (p: Proc<S, M>)
    requires !cfg.atomicHandover
    ensures p == Replica(0, false, false, Some(Start(beh)), Start(beh), [], [], 0, false, false)
    ensures Reachable(cfg, beh, Pair(Master(Start(beh), []), p, []))
  {
    Joined(cfg, beh);
    var f: Proc<S, M> := Fresh(beh, 0);
    var served := f.(snapshot := Some(Start(beh)));
    ReplicaStep(cfg, beh, Pair(Master(Start(beh), []), f, []), Serve(1), served);
    p := served.(waiting := false);
    ReplicaStep(cfg, beh, Pair(Master(Start(beh), []), served, []), ClearWaiting(1), p);
  }

  /** A message handled between the two assignments is overwritten by the snapshot: the replica has received every
      update of the master, holds none of them, and has reported nothing. */
  lemma SplitHandoverLosesAnUpdate<S(!new), M(!new), R(!new)>(cfg: Config, beh: Behaviour<S, M, R>, body: M)
    returns (t: Cluster<S, M>)
    requires cfg.pool >= 1 && !cfg.atomicHandover && Effective(beh, body)
    ensures Reachable(cfg, beh, t) && HasMaster(t) && t.owner == Some(0) && IsReplica(t, 1)
    ensures t == Pair(t.procs[0], t.procs[1], [Change(body)])
    ensures t.procs[0] == Master(Updated(beh, Start(beh), body), [])
    ensures t.procs[1].installed && t.procs[1].channel == [] && t.procs[1].obj == Start(beh) && !t.procs[1].diverged
    ensures !t.procs[1].waiting && t.procs[1].epoch == 0 && !HoldsPrefix(beh, t, 1)
  {
    var cleared := ServedAndCleared(cfg, beh);
    var sent := cleared.(channel := [Published(0, Change(body))]);
    OneUpdate(cfg, beh, cleared, sent, body);
    var c := Pair(Master(Updated(beh, Start(beh), body), []), sent, [Change(body)]);
    var followed := DeliverTo(beh, sent);
    ReplicaStep(cfg, beh, c, Deliver(1), followed);
    var c1 := Cluster([c.procs[0], followed], c.owner, c.logs);
    var installed := InstallOn(beh, followed);
    ReplicaStep(cfg, beh, c1, Install(1), installed);
    t := Cluster([c.procs[0], installed], c.owner, c.logs);
  }

  lemma SplitHandoverReports<S(!new), M(!new), R(!new)>(cfg: Config, beh: Behaviour<S, M, R>, body: M)
    requires cfg.pool >= 1 && !cfg.atomicHandover && Effective(beh, body)
    ensures !NeverReports(cfg, beh)
  {
    var t := SplitHandoverLosesAnUpdate(cfg, beh, body);
    var o := Updated(beh, Start(beh), body);
    var p := t.procs[1].(channel := [Published(1, Change(body))]);
    NextUpdate(cfg, beh, o, t.procs[1], p, body);
    Reports(cfg, beh, Pair(Master(Updated(beh, o, body), []), p, [Change(body), Change(body)]), 1);
  }

  // ---- a snapshot that overtakes updates ----

  /** A snapshot overtakes an update it already contains; the update arrives once more and is applied a second time. */
  lemma OvertakingSnapshotRepeatsAnUpdate<S(!new), M(!new), R(!new)>(cfg: Config, beh: Behaviour<S, M, R>, body: M)
    returns (t: Cluster<S, M>)
    requires cfg.pool >= 1 && cfg.atomicHandover && !cfg.orderedSockets && Effective(beh, body)
    ensures Reachable(cfg, beh, t) && HasMaster(t) && t.owner == Some(0) && IsReplica(t, 1)
    ensures t.logs == [[Change(body)]] && t.procs[0].obj == Updated(beh, Start(beh), body)
    ensures t.procs[1].installed && t.procs[1].obj == Updated(beh, Updated(beh, Start(beh), body), body)
    ensures !HoldsPrefix(beh, t, 1) && t.procs[1].diverged
  {
    Joined(cfg, beh);
    var f: Proc<S, M> := Fresh(beh, 0);
    var sent := f.(channel := [Published(0, Change(body))]);
    OneUpdate(cfg, beh, f, sent, body);
    var c := Pair(Master(Updated(beh, Start(beh), body), []), sent, [Change(body)]);
    var served := sent.(snapshot := Some(c.procs[0].obj), behind := 1);
    ReplicaStep(cfg, beh, c, Serve(1), served);
    var c1 := Cluster([c.procs[0], served], c.owner, c.logs);
    var installed := InstallOn(beh, served);
    ReplicaStep(cfg, beh, c1, Install(1), installed);
    var c2 := Cluster([c.procs[0], installed], c.owner, c.logs);
    var twice := DeliverTo(beh, installed);
    ReplicaStep(cfg, beh, c2, Deliver(1), twice);
    t := Cluster([c.procs[0], twice], c.owner, c.logs);
  }

  // ---- several callback threads ----

  /** Two callbacks read version 0; the first finishes, and the master serves a snapshot before the second does. */
  lemma TwoBegun<S(!new), M(!new), R(!new)>(cfg: Config, beh: Behaviour<S, M, R>, p: Proc<S, M>, body: M)
    requires cfg.pool >= 2 && Effective(beh, body) && p.Replica? && p.epoch == 0 && p.channel == []
    requires Reachable(cfg, beh, Pair(Master(Start(beh), []), p, []))
    ensures Reachable(cfg, beh, Pair(Master(Updated(beh, Start(beh), body), [Callback(Change(body), 0)]),
                                     p.(channel := [Published(0, Change(body))]), [Change(body)]))
  {
    var o, cb, u := Start(beh), Callback(Change(body), 0), Change(body);
    BeginOne(cfg, beh, Master(o, []), Master(o, [cb]), p, [], body);
    BeginOne(cfg, beh, Master(o, [cb]), Master(o, [cb, cb]), p, [], body);
    FinishOne(cfg, beh, Master(o, [cb, cb]), Master(Updated(beh, o, body), [cb]),
              p, p.(channel := [Published(0, u)]), [], [u], body);
  }

  lemma SecondFinishes<S(!new), M(!new), R(!new)>(
      cfg: Config, beh: Behaviour<S, M, R>, o: Object<S>, p: Proc<S, M>, body: M)
    requires Effective(beh, body) && p.Replica? && p.epoch == 0
    requires Reachable(cfg, beh, Pair(Master(o, [Callback(Change(body), 0)]), p, [Change(body)]))
    ensures Reachable(cfg, beh, Pair(Master(Updated(beh, o, body), []),
                                     p.(channel := p.channel + [Published(0, Change(body))]),
                                     [Change(body), Change(body)]))
  {
    var u := Change(body);
    FinishOne(cfg, beh, Master(o, [Callback(u, 0)]), Master(Updated(beh, o, body), []),
              p, p.(channel := p.channel + [Published(0, u)]), [u], [u, u], body);
  }

  /** A replica with its snapshot of version 1 and both updates on its way, under one tag. */
  lemma SnapshotInBetween<S(!new), M(!new), R(!new)>(cfg: Config, beh: Behaviour<S, M, R>, body: M)
    requires cfg.pool >= 2 && Effective(beh, body)
    ensures var o1, pub := Updated(beh, Start(beh), body), Published(0, Change(body));
      Reachable(cfg, beh, Pair(Master(Updated(beh, o1, body), []),
                               Replica(0, true, false, Some(o1), Start(beh), [], [pub, pub], 1, false, false),
                               [Change(body), Change(body)]))
  {
    Joined(cfg, beh);
    var u, o1 := Change(body), Updated(beh, Start(beh), body);
    TwoBegun(cfg, beh, Fresh(beh, 0), body);
    var sent := Replica(0, true, false, None, Start(beh), [], [Published(0, u)], 0, false, false);
    var served := Replica(0, true, false, Some(o1), Start(beh), [], [Published(0, u)], 1, false, false);
    ReplicaStep(cfg, beh, Pair(Master(o1, [Callback(u, 0)]), sent, [u]), Serve(1), served);
    SecondFinishes(cfg, beh, o1, served, body);
    assert served.channel + [Published(0, u)] == [Published(0, u), Published(0, u)];
  }

  /** With two callback threads an update is lost without a word: the replica has received both updates, both under tag
      0, holds the first only, and has reported nothing. */
  lemma ConcurrentCallbacksLoseAnUpdate<S(!new), M(!new), R(!new)>(cfg: Config, beh: Behaviour<S, M, R>, body: M)
    returns (t: Cluster<S, M>)
    requires cfg.pool >= 2 && cfg.atomicHandover && Effective(beh, body)
    ensures Reachable(cfg, beh, t) && HasMaster(t) && t.owner == Some(0) && IsReplica(t, 1)
    ensures t.logs == [[Change(body), Change(body)]] && t.procs[0].obj.version == 2
    ensures t.procs[1].installed && t.procs[1].channel == [] && t.procs[1].obj == Updated(beh, Start(beh), body)
    ensures !t.procs[1].diverged && !HoldsPrefix(beh, t, 1)
  {
    SnapshotInBetween(cfg, beh, body);
    var u, o1, pub := Change(body), Updated(beh, Start(beh), body), Published(0, Change(body));
    var m := Master(Updated(beh, o1, body), []);
    var both := Replica(0, true, false, Some(o1), Start(beh), [], [pub, pub], 1, false, false);
    var first := Replica(0, true, false, Some(o1), Start(beh), [pub], [pub], 0, false, false);
    assert [pub, pub][1..] == [pub] && [] + [pub] == [pub] && [pub][1..] == [] && [pub] + [pub] == [pub, pub];
    BufferOne(cfg, beh, m, both, first, [u, u]);
    var second := Replica(0, true, false, Some(o1), Start(beh), [pub, pub], [], 0, false, false);
    BufferOne(cfg, beh, m, first, second, [u, u]);
    var installed := Replica(0, false, true, Some(o1), o1, [], [], 0, false, false);
    InstallOverStale(cfg, beh, m, second, installed, [u, u]);
    t := Pair(m, installed, [u, u]);
  }

  /** A waiting replica buffers the next message. */
  lemma BufferOne<S(!new), M(!new), R(!new)>(
      cfg: Config, beh: Behaviour<S, M, R>, m: Proc<S, M>, p: Proc<S, M>, p': Proc<S, M>, log: seq<Message<M>>)
    requires Reachable(cfg, beh, Pair(m, p, log)) && p.Replica? && p.waiting && p.channel != [] && p.behind <= 1
    requires p' == p.(channel := p.channel[1..], buffered := p.buffered + [p.channel[0]], behind := 0)
    ensures Reachable(cfg, beh, Pair(m, p', log))
  {
    ReplicaStep(cfg, beh, Pair(m, p, log), Deliver(1), p');
  }

  /** A snapshot newer than the tags of all that is buffered is installed as it is. */
  lemma InstallOverStale<S(!new), M(!new), R(!new)>(
      cfg: Config, beh: Behaviour<S, M, R>, m: Proc<S, M>, p: Proc<S, M>, p': Proc<S, M>, log: seq<Message<M>>)
    requires cfg.atomicHandover && Reachable(cfg, beh, Pair(m, p, log)) && p.Replica? && p.waiting && !p.installed
    requires p.snapshot.Some? && p.behind == 0 && |p.buffered| == 2
    requires p.buffered[0].tag < p.snapshot.value.version && p.buffered[1].tag < p.snapshot.value.version
    requires p' == Replica(p.epoch, false, true, p.snapshot, p.snapshot.value, [], p.channel, 0, p.diverged, p.elected)
    ensures Reachable(cfg, beh, Pair(m, p', log))
  {
    assert Playback(beh, p.snapshot.value, p.buffered, 1) == p.snapshot.value;
    assert InstallOn(beh, p) == p';
    ReplicaStep(cfg, beh, Pair(m, p, log), Install(1), p');
  }

  /** A replica installed at version 0. */
  lemma Follower<S(!new), M(!new), R(!new)>(cfg: Config, beh: Behaviour<S, M, R>) returns (p: Proc<S, M>)
    requires cfg.atomicHandover
    ensures p == Replica(0, false, true, Some(Start(beh)), Start(beh), [], [], 0, false, false)
    ensures Reachable(cfg, beh, Pair(Master(Start(beh), []), p, []))
  {
    Joined(cfg, beh);
    var f: Proc<S, M> := Fresh(beh, 0);
    var served := f.(snapshot := Some(Start(beh)));
    ReplicaStep(cfg, beh, Pair(Master(Start(beh), []), f, []), Serve(1), served);
    p := InstallOn(beh, served);
    ReplicaStep(cfg, beh, Pair(Master(Start(beh), []), served, []), Install(1), p);
  }

  /** Two callbacks read the version before either takes the lock: both updates are on the channel under one tag.  A
      replica already installed applies them both, and reports the second. */
  lemma ConcurrentCallbacksShareATag<S(!new), M(!new), R(!new)>(cfg: Config, beh: Behaviour<S, M, R>, body: M)
    returns (t: Cluster<S, M>)
    requires cfg.pool >= 2 && cfg.atomicHandover && Effective(beh, body)
    ensures Reachable(cfg, beh, t) && IsReplica(t, 1) && t.procs[1].installed
    ensures t.logs == [[Change(body), Change(body)]]
    ensures t.procs[1].channel == [Published(0, Change(body)), Published(0, Change(body))]
    ensures t.procs[1].obj == Start(beh) && HoldsPrefix(beh, t, 1) && !NeverReports(cfg, beh)
  {
    var q := Follower(cfg, beh);
    var u, o1 := Change(body), Updated(beh, Start(beh), body);
    TwoBegun(cfg, beh, q, body);
    SecondFinishes(cfg, beh, o1, q.(channel := [Published(0, u)]), body);
    var both := q.(channel := [Published(0, u), Published(0, u)]);
    assert [Published(0, u)] + [Published(0, u)] == both.channel;
    var m := Master(Updated(beh, o1, body), []);
    t := Pair(m, both, [u, u]);
    var q1 := DeliverTo(beh, both);
    ReplicaStep(cfg, beh, t, Deliver(1), q1);
    Reports(cfg, beh, Pair(m, q1, [u, u]), 1);
  }

  // ---- a takeover nobody compares ----

  /** A replica past its snapshot of the initial object. */
  function Following<S, M, R>(
      beh: Behaviour<S, M, R>, epoch: nat, o: Object<S>, channel: seq<Published<M>>): Proc<S, M>
  {
    Replica(epoch, false, true, Some(Start(beh)), o, [], channel, 0, false, false)
  }

  lemma StepTo<S(!new), M(!new), R(!new)>(
      cfg: Config, beh: Behaviour<S, M, R>, c: Cluster<S, M>, st: Step<M>, t: Cluster<S, M>)
    requires Reachable(cfg, beh, c) && Enabled(cfg, c, st)
    requires var a := Apply(cfg, beh, c, st); a.procs == t.procs && a.owner == t.owner && a.logs == t.logs
    ensures Reachable(cfg, beh, t)
  {
    ReachableStep(cfg, beh, c, st);
  }

  function StartWithTwo<S, M, R>(beh: Behaviour<S, M, R>): Cluster<S, M> {
    var f := Following<S, M, R>(beh, 0, Start(beh), []);
    Cluster([Master(Start(beh), []), f, f], Some(0), [[]])
  }

  /** A master with two replicas, both installed at version 0. */
  lemma TwoFollowers<S(!new), M(!new), R(!new)>(cfg: Config, beh: Behaviour<S, M, R>)
    requires cfg.atomicHandover
    ensures Reachable(cfg, beh, StartWithTwo(beh))
  {
    var p := Follower(cfg, beh);
    var m: Proc<S, M> := Master(Start(beh), []);
    var f: Proc<S, M> := Fresh(beh, 0);
    var served := f.(snapshot := Some(Start(beh)));
    StepTo(cfg, beh, Pair(m, p, []), Join, Cluster([m, p, f], Some(0), [[]]));
    StepTo(cfg, beh, Cluster([m, p, f], Some(0), [[]]), Serve(2), Cluster([m, p, served], Some(0), [[]]));
    StepTo(cfg, beh, Cluster([m, p, served], Some(0), [[]]), Install(2), Cluster([m, p, p], Some(0), [[]]));
  }

  /** A whole update by the master at `i`, with no other callback running; `procs` follow or do not. */
  lemma UpdateAt<S(!new), M(!new), R(!new)>(
      cfg: Config, beh: Behaviour<S, M, R>, c: Cluster<S, M>, body: M, procs: seq<Proc<S, M>>, log: seq<Message<M>>)
    requires cfg.pool >= 1 && Effective(beh, body) && Reachable(cfg, beh, c) && HasMaster(c)
    requires c.procs[c.owner.value].callbacks == [] && log == c.logs[|c.logs| - 1] + [Change(body)]
    requires var o := c.procs[c.owner.value].obj;
      procs == Publish(c.procs[c.owner.value := Master(Updated(beh, o, body), [])], |c.logs| - 1,
                       Published(o.version, Change(body)))
    ensures Reachable(cfg, beh, Cluster(procs, c.owner, c.logs[|c.logs| - 1 := log]))
  {
    var i, u := c.owner.value, Change(body);
    var o := c.procs[i].obj;
    var cb := Callback(u, o.version);
    assert [] + [cb] == [cb];
    var c1 := c.(procs := c.procs[i := Master(o, [cb])]);
    StepTo(cfg, beh, c, Begin(u), c1);
    assert Without([cb], 0) == [];
    assert c1.procs[i := Master(Updated(beh, o, body), [])] == c.procs[i := Master(Updated(beh, o, body), [])];
    StepTo(cfg, beh, c1, Finish(0), Cluster(procs, c.owner, c.logs[|c.logs| - 1 := log]));
  }

  /** One replica is ahead of the other by an update. */
  function OneAhead<S, M, R>(beh: Behaviour<S, M, R>, master: Proc<S, M>, owner: Option<nat>, body: M): Cluster<S, M> {
    Cluster([master, Following(beh, 0, Updated(beh, Start(beh), body), []),
             Following(beh, 0, Start(beh), [Published(0, Change(body))])], owner, [[Change(body)]])
  }

  /** The master updates once; the first replica receives it, the second has not yet. */
  lemma GetsAhead<S(!new), M(!new), R(!new)>(cfg: Config, beh: Behaviour<S, M, R>, body: M)
    requires cfg.pool >= 1 && cfg.atomicHandover && Effective(beh, body)
    ensures Reachable(cfg, beh, OneAhead(beh, Master(Updated(beh, Start(beh), body), []), Some(0), body))
  {
    TwoFollowers(cfg, beh);
    var o, o1, u := Start(beh), Updated(beh, Start(beh), body), Change(body);
    var sent: Proc<S, M> := Following(beh, 0, o, [Published(0, u)]);
    assert [] + [Published(0, u)] == [Published(0, u)];
    UpdateAt(cfg, beh, StartWithTwo(beh), body, [Master(o1, []), sent, sent], [u]);
    assert [[]][0 := [u]] == [[u]];
    var c2 := Cluster([Master(o1, []), sent, sent], Some(0), [[u]]);
    assert sent.channel[1..] == [];
    StepTo(cfg, beh, c2, Deliver(1), OneAhead(beh, Master(o1, []), Some(0), body));
  }

  /** The master dies and the replica ahead takes over. */
  lemma TakesOver<S(!new), M(!new), R(!new)>(cfg: Config, beh: Behaviour<S, M, R>, body: M)
    requires cfg.pool >= 1 && cfg.atomicHandover && Effective(beh, body)
    ensures Reachable(cfg, beh, Cluster([Dead, Master(Updated(beh, Start(beh), body), []),
                                         Following(beh, 0, Start(beh), [Published(0, Change(body))])],
                                        Some(1), [[Change(body)], [Change(body)]]))
  {
    GetsAhead(cfg, beh, body);
    var o1, u := Updated(beh, Start(beh), body), Change(body);
    var c1 := OneAhead(beh, Dead, None, body);
    StepTo(cfg, beh, OneAhead(beh, Master(o1, []), Some(0), body), Crash(0), c1);
    var late: Proc<S, M> := Following(beh, 0, Start(beh), [Published(0, u)]);
    var elected := Replica(0, false, true, Some(Start(beh)), o1, [], [], 0, false, true);
    var c2 := Cluster([Dead, elected, late], Some(1), [[u]]);
    StepTo(cfg, beh, c1, Elect(1), c2);
    assert UpTo([u], 1) == [u];
    StepTo(cfg, beh, c2, Promote(1), Cluster([Dead, Master(o1, []), late], Some(1), [[u], [u]]));
  }

  /** Then the other replica is re-subscribed: it has nothing left to receive, lacks an update its master holds, and has
      reported nothing. */
  lemma UnmatchedTakeoverLosesAnUpdate<S(!new), M(!new), R(!new)>(cfg: Config, beh: Behaviour<S, M, R>, body: M)
    returns (t: Cluster<S, M>)
    requires cfg.pool >= 1 && cfg.atomicHandover && !cfg.matchedTakeover && Effective(beh, body)
    ensures Reachable(cfg, beh, t) && HasMaster(t) && t.owner == Some(1) && IsReplica(t, 2)
    ensures t == Cluster([Dead, Master(Updated(beh, Start(beh), body), []), t.procs[2]], Some(1),
                         [[Change(body)], [Change(body)]])
    ensures t.procs[2] == Following(beh, 1, Start(beh), []) && !HoldsPrefix(beh, t, 2)
  {
    TakesOver(cfg, beh, body);
    var o1, u := Updated(beh, Start(beh), body), Change(body);
    var late: Proc<S, M> := Following(beh, 0, Start(beh), [Published(0, u)]);
    t := Cluster([Dead, Master(o1, []), Following(beh, 1, Start(beh), [])], Some(1), [[u], [u]]);
    StepTo(cfg, beh, Cluster([Dead, Master(o1, []), late], Some(1), [[u], [u]]), Resubscribe(2), t);
  }

  lemma UnmatchedTakeoverReports<S(!new), M(!new), R(!new)>(cfg: Config, beh: Behaviour<S, M, R>, body: M)
    requires cfg.pool >= 1 && cfg.atomicHandover && !cfg.matchedTakeover && Effective(beh, body)
    ensures !NeverReports(cfg, beh)
  {
    var t := UnmatchedTakeoverLosesAnUpdate(cfg, beh, body);
    var o1, u := Updated(beh, Start(beh), body), Change(body);
    var o2, p := Updated(beh, o1, body), t.procs[2];
    assert [] + [Published(1, u)] == [Published(1, u)] && [u] + [u] == [u, u];
    var late: Proc<S, M> := Following(beh, 1, Start(beh), [Published(1, u)]);
    UpdateAt(cfg, beh, t, body, [Dead, Master(o2, []), late], [u, u]);
    var t2 := Cluster([Dead, Master(o2, []), late], Some(1), [[u], [u]][1 := [u, u]]);
    Reports(cfg, beh, t2, 2);
  }

  // ---- exactly ----

  /** Replicas hold prefixes in every reachable state exactly under the four conditions. */
  lemma PrefixesExactly<S(!new), M(!new), R(!new)>(cfg: Config, beh: Behaviour<S, M, R>, body: M)
    requires cfg.pool >= 1 && Honest(beh) && Effective(beh, body)
    ensures AlwaysHoldsPrefix(cfg, beh) <==> Good(cfg)
  {
    if Good(cfg) {
      forall t, r: nat | Reachable(cfg, beh, t) && IsReplica(t, r) && t.procs[r].installed
        ensures HoldsPrefix(beh, t, r)
      {
        GoodConfigurationsAgree(cfg, beh, t, r);
      }
    } else if !cfg.atomicHandover {
      var t := SplitHandoverLosesAnUpdate(cfg, beh, body);
    } else if !cfg.orderedSockets {
      var t := OvertakingSnapshotRepeatsAnUpdate(cfg, beh, body);
    } else if cfg.pool >= 2 {
      var t := ConcurrentCallbacksLoseAnUpdate(cfg, beh, body);
    } else {
      var t := UnmatchedTakeoverLosesAnUpdate(cfg, beh, body);
    }
  }

  /** Divergence is never reported exactly under the same four conditions. */
  lemma ReportsExactly<S(!new), M(!new), R(!new)>(cfg: Config, beh: Behaviour<S, M, R>, body: M)
    requires cfg.pool >= 1 && Honest(beh) && Effective(beh, body)
    ensures NeverReports(cfg, beh) <==> Good(cfg)
  {
    if Good(cfg) {
      forall t, r: nat | Reachable(cfg, beh, t) && IsReplica(t, r) ensures !t.procs[r].diverged {
        GoodConfigurationsAgree(cfg, beh, t, r);
      }
    } else if !cfg.atomicHandover {
      SplitHandoverReports(cfg, beh, body);
    } else if !cfg.orderedSockets {
      var t := OvertakingSnapshotRepeatsAnUpdate(cfg, beh, body);
    } else if cfg.pool >= 2 {
      var t := ConcurrentCallbacksShareATag(cfg, beh, body);
    } else {
      UnmatchedTakeoverReports(cfg, beh, body);
    }
  }

  /** As built, none of the conditions holds: replicas can silently differ from their master, and can report it. */
  lemma AsBuilt<S(!new), M(!new), R(!new)>(beh: Behaviour<S, M, R>, body: M)
    requires Honest(beh) && Effective(beh, body)
    ensures !AlwaysHoldsPrefix(AS_BUILT, beh) && !NeverReports(AS_BUILT, beh)
  {
    PrefixesExactly(AS_BUILT, beh, body);
    ReportsExactly(AS_BUILT, beh, body);
  }
}
