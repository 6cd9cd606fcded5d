/**
  One object key served by a master, followed by replicas, and taken over by a replica when the master dies
  (src/fault/query_object_server_master.cpp, _replica.cpp, _process.cpp, src/fault/sockets/subscribe_socket.cpp).

  Published messages reach a subscriber in order and without loss.  Four things are left open, as the code leaves
  them: how many callbacks the reply socket runs at once, whether a message can be handled between the two
  assignments that end the snapshot wait, whether a snapshot reply can overtake messages published before it, and
  whether a survivor that is re-subscribed to a new master holds what that master holds.
 */
module Replication {
  import opened Prelude
  import opened QueryObject

  datatype Config = Config(pool: nat, atomicHandover: bool, orderedSockets: bool, matchedTakeover: bool)

  /** The reply socket's four threads; a poll thread beside the one that installs the snapshot; snapshot and updates
      on different sockets; and a reconnection that compares nothing. */
  const AS_BUILT := Config(4, false, false, false)

  /** A callback that has read the version and not yet taken the lock. */
  datatype Callback<M> = Callback(msg: Message<M>, tag: nat)

  /** A replica's `behind` counts messages published before its snapshot and not yet delivered; `diverged` records
      that the divergence message was printed; `elected` that it won the master key and is about to take over. */
  datatype Proc<S, M> =
    | Master(obj: Object<S>, callbacks: seq<Callback<M>>)
    | Replica(epoch: nat, waiting: bool, installed: bool, snapshot: Option<Object<S>>, obj: Object<S>,
              buffered: seq<Published<M>>, channel: seq<Published<M>>, behind: nat, diverged: bool, elected: bool)
    | Dead

  /** `owner` is the process holding the master key in the store.  `logs` records, for every master so far, the
      changing updates its object is made of. */
  datatype Cluster<S, M> = Cluster(procs: seq<Proc<S, M>>, owner: Option<nat>, logs: seq<seq<Message<M>>>)

  datatype Step<M> =
    | StartMaster
    | Join
    | Begin(msg: Message<M>)
    | Finish(k: nat)
    | Serve(r: nat)
    | ClearWaiting(r: nat)
    | Install(r: nat)
    | Deliver(r: nat)
    | Ask(r: nat, call: Call, noReply: bool, body: M)
    | Crash(p: nat)
    | Elect(r: nat)
    | Promote(r: nat)
    | Resubscribe(r: nat)

  function Init<S, M, R>(beh: Behaviour<S, M, R>): Cluster<S, M> {
    Cluster([Master(Object(beh.init, 0), [])], Some(0), [[]])
  }

  predicate HasMaster<S, M>(c: Cluster<S, M>) {
    c.owner.Some? && c.owner.value < |c.procs| && c.procs[c.owner.value].Master? && c.logs != []
  }

  predicate IsReplica<S, M>(c: Cluster<S, M>, r: nat) {
    r < |c.procs| && c.procs[r].Replica?
  }

  /** The replica holds what the master holds, or has nothing yet that a snapshot of the master would not replace. */
  ghost predicate Matched<S, M>(c: Cluster<S, M>, r: nat)
    requires HasMaster(c) && IsReplica(c, r)
  {
    var p := c.procs[r];
    if p.installed then p.obj == c.procs[c.owner.value].obj else p.buffered == [] && p.snapshot.None?
  }

  ghost predicate Enabled<S, M>(cfg: Config, c: Cluster<S, M>, st: Step<M>) {
    match st
    case StartMaster => c.owner.None?
    case Join => HasMaster(c)
    case Begin(msg) => HasMaster(c) && |c.procs[c.owner.value].callbacks| < cfg.pool
    case Finish(k) => HasMaster(c) && k < |c.procs[c.owner.value].callbacks|
    case Serve(r) =>
      HasMaster(c) && IsReplica(c, r) && c.procs[r].waiting && c.procs[r].snapshot.None?
      && c.procs[r].epoch == |c.logs| - 1
    case ClearWaiting(r) =>
      && !cfg.atomicHandover && IsReplica(c, r) && c.procs[r].waiting && c.procs[r].snapshot.Some?
      && (cfg.orderedSockets ==> c.procs[r].behind == 0)
    case Install(r) =>
      && IsReplica(c, r) && !c.procs[r].installed && c.procs[r].snapshot.Some?
      && (c.procs[r].waiting <==> cfg.atomicHandover)
      && (cfg.orderedSockets ==> c.procs[r].behind == 0)
    case Deliver(r) => IsReplica(c, r) && c.procs[r].channel != []
    case Ask(r, call, noReply, body) =>
      IsReplica(c, r) && c.procs[r].installed && MayReachReplica(FlagsFor(call, noReply))
    case Crash(p) => p < |c.procs| && !c.procs[p].Dead?
    case Elect(r) => IsReplica(c, r) && c.procs[r].installed && !c.procs[r].elected && c.owner.None?
    case Promote(r) => IsReplica(c, r) && c.procs[r].elected && c.procs[r].epoch < |c.logs|
    case Resubscribe(r) =>
      && HasMaster(c) && IsReplica(c, r) && c.procs[r].epoch != |c.logs| - 1
      && (cfg.matchedTakeover ==> Matched(c, r))
  }

  /** Put `pub` on the channel of everyone who follows the given epoch. */
  function Publish<S, M>(procs: seq<Proc<S, M>>, epoch: nat, pub: Published<M>): seq<Proc<S, M>> {
    seq(|procs|, i requires 0 <= i < |procs| =>
      var p := procs[i];
      if p.Replica? && p.epoch == epoch then p.(channel := p.channel + [pub]) else p)
  }

  function UpTo<T>(xs: seq<T>, n: nat): seq<T> { if n <= |xs| then xs[..n] else xs }

  function Fresh<S, M, R>(beh: Behaviour<S, M, R>, epoch: nat): Proc<S, M> {
    Replica(epoch, true, false, None, Object(beh.init, 0), [], [], 0, false, false)
  }

  function DeliverTo<S, M, R>(beh: Behaviour<S, M, R>, p: Proc<S, M>): Proc<S, M>
    requires p.Replica? && p.channel != []
  {
    var pub := p.channel[0];
    var p1 := p.(channel := p.channel[1..], behind := if p.behind > 0 then p.behind - 1 else 0);
    if p.waiting then p1.(buffered := p.buffered + [pub])
    else p1.(diverged := p.diverged || pub.tag != p.obj.version, obj := Follow(beh, p.obj, pub.msg))
  }

  function InstallOn<S, M, R>(beh: Behaviour<S, M, R>, p: Proc<S, M>): Proc<S, M>
    requires p.Replica? && p.snapshot.Some?
  {
    p.(waiting := false, installed := true,
       obj := Playback(beh, p.snapshot.value, p.buffered, |p.buffered|), buffered := [])
  }

  function FinishCallback<S, M, R>(beh: Behaviour<S, M, R>, c: Cluster<S, M>, k: nat): Cluster<S, M>
    requires HasMaster(c) && k < |c.procs[c.owner.value].callbacks|
  {
    var p := c.owner.value;
    var m := c.procs[p];
    var cb := m.callbacks[k];
    var (o, changed, reply) := Process(beh, m.obj, cb.msg);
    var procs := c.procs[p := Master(o, Without(m.callbacks, k))];
    var e := |c.logs| - 1;
    if changed then
      c.(procs := Publish(procs, e, Published(cb.tag, cb.msg)), logs := c.logs[e := c.logs[e] + [cb.msg]])
    else c.(procs := procs)
  }

  function Apply<S, M, R>(cfg: Config, beh: Behaviour<S, M, R>, c: Cluster<S, M>, st: Step<M>): Cluster<S, M>
    requires Enabled(cfg, c, st)
  {
    match st
    case StartMaster =>
      Cluster(c.procs + [Master(Object(beh.init, 0), [])], Some(|c.procs|), c.logs + [[]])
    case Join =>
      c.(procs := c.procs + [Fresh(beh, |c.logs| - 1)])
    case Begin(msg) =>
      var m := c.procs[c.owner.value];
      c.(procs := c.procs[c.owner.value := m.(callbacks := m.callbacks + [Callback(msg, m.obj.version)])])
    case Finish(k) => FinishCallback(beh, c, k)
    case Serve(r) =>
      c.(procs := c.procs[r := c.procs[r].(snapshot := Some(c.procs[c.owner.value].obj),
                                           behind := |c.procs[r].channel|)])
    case ClearWaiting(r) => c.(procs := c.procs[r := c.procs[r].(waiting := false)])
    case Install(r) => c.(procs := c.procs[r := InstallOn(beh, c.procs[r])])
    case Deliver(r) => c.(procs := c.procs[r := DeliverTo(beh, c.procs[r])])
    case Ask(r, call, noReply, body) =>
      c.(procs := c.procs[r := c.procs[r].(
        obj := Process(beh, c.procs[r].obj, Message(FlagsFor(call, noReply), 0, body)).0)])
    case Crash(p) =>
      c.(procs := c.procs[p := Dead], owner := if c.owner == Some(p) then None else c.owner)
    case Elect(r) => c.(procs := c.procs[r := c.procs[r].(elected := true)], owner := Some(r))
    case Promote(r) =>
      c.(procs := c.procs[r := Master(c.procs[r].obj, [])],
         logs := c.logs + [UpTo(c.logs[c.procs[r].epoch], c.procs[r].obj.version)])
    case Resubscribe(r) =>
      c.(procs := c.procs[r := c.procs[r].(epoch := |c.logs| - 1, channel := [], behind := 0)])
  }

  ghost predicate Run<S, M, R>(
      cfg: Config, beh: Behaviour<S, M, R>, c: Cluster<S, M>, steps: seq<Step<M>>, t: Cluster<S, M>)
    decreases |steps|
  {
    if steps == [] then c == t
    else Enabled(cfg, c, steps[0]) && Run(cfg, beh, Apply(cfg, beh, c, steps[0]), steps[1..], t)
  }

  ghost predicate Reachable<S(!new), M(!new), R(!new)>(cfg: Config, beh: Behaviour<S, M, R>, t: Cluster<S, M>) {
    exists steps :: Run(cfg, beh, Init(beh), steps, t)
  }

  /** The object after the given updates. */
  function Fold<S, M, R>(beh: Behaviour<S, M, R>, log: seq<Message<M>>): S {
    if log == [] then beh.init else beh.update(Fold(beh, log[..|log| - 1]), log[|log| - 1].body).0
  }

  /** The object is exactly the first `version` updates of the log. */
  ghost predicate At<S, M, R>(beh: Behaviour<S, M, R>, log: seq<Message<M>>, o: Object<S>) {
    o.version <= |log| && o.value == Fold(beh, log[..o.version])
  }

  /** The replica's object is exactly a prefix of the log, and just the later updates are still on its channel. */
  ghost predicate OnLog<S, M, R>(beh: Behaviour<S, M, R>, log: seq<Message<M>>, p: Proc<S, M>)
    requires p.Replica?
  {
    At(beh, log, p.obj) && p.obj.version + |p.channel| == |log|
  }

  ghost predicate HoldsPrefix<S, M, R>(beh: Behaviour<S, M, R>, c: Cluster<S, M>, r: nat)
    requires IsReplica(c, r)
  {
    c.procs[r].epoch < |c.logs| && OnLog(beh, c.logs[c.procs[r].epoch], c.procs[r])
  }

  /** A prefix, and no divergence was ever reported. */
  ghost predicate Agrees<S, M, R>(beh: Behaviour<S, M, R>, c: Cluster<S, M>, r: nat)
    requires IsReplica(c, r)
  {
    HoldsPrefix(beh, c, r) && !c.procs[r].diverged
  }
}
