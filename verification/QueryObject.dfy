/**
  A replicated object and what one message does to it (src/fault/query_object.cpp), the client's routing of messages
  (src/fault/query_object_client.cpp), and the master's and a replica's message handlers as objects.
 */
module QueryObject {
  import opened Prelude

  /** The bits of the message header. */
  datatype Flags = Flags(query: bool, update: bool, noReply: bool, anyTarget: bool, contents: bool)

  datatype Message<M> = Message(flags: Flags, id: nat, body: M)

  /** What an implementation of query_object supplies; `update` also says whether it changed the object. */
  datatype Behaviour<!S, !M, !R> = Behaviour(init: S, update: (S, M) -> (S, bool, R), query: (S, M) -> R)

  datatype Object<S> = Object(value: S, version: nat)

  datatype Body<S, R> = Contents(value: S) | Answer(answer: R)

  datatype Reply<S, R> = Reply(id: nat, version: nat, body: Body<S, R>)

  /** process_message: dispatch on the flags, count changes, build the reply. */
  function Process<S, M, R>(beh: Behaviour<S, M, R>, o: Object<S>, m: Message<M>)
      : (Object<S>, bool, Option<Reply<S, R>>)
  {
    var (o', changed, body) :=
      if m.flags.contents then (o, false, Contents(o.value))
      else if m.flags.update then
        var (v, ch, r) := beh.update(o.value, m.body);
        (Object(v, o.version + if ch then 1 else 0), ch, Answer(r))
      else (o, false, Answer(beh.query(o.value, m.body)));
    (o', changed, if m.flags.noReply then None else Some(Reply(m.id, o'.version, body)))
  }

  /** An update that reports no change leaves the object as it was. */
  ghost predicate Honest<S(!new), M(!new), R(!new)>(beh: Behaviour<S, M, R>) {
    forall s: S, m: M :: !beh.update(s, m).1 ==> beh.update(s, m).0 == s
  }

  /** Messages that can change the object. */
  predicate Updates<M>(m: Message<M>) { m.flags.update && !m.flags.contents }

  /** A message changes object and version together, only if it is an update, and then as the update says.  A contents
      request is answered with the value, a query with what the object says of its value, an update with what it
      returned, each under the version it belongs to. */
  lemma ProcessMeaning<S(!new), M(!new), R(!new)>(beh: Behaviour<S, M, R>, o: Object<S>, m: Message<M>)
    requires Honest(beh)
    ensures var (o', changed, reply) := Process(beh, o, m);
      && (!changed ==> o' == o)
      && (changed ==> Updates(m) && o'.version == o.version + 1)
      && (reply.None? <==> m.flags.noReply)
      && (reply.Some? ==> reply.value.id == m.id && reply.value.version == o'.version)
      && (Updates(m) ==> o'.value == beh.update(o.value, m.body).0 && (changed <==> beh.update(o.value, m.body).1))
      && (reply.Some? && m.flags.contents ==> o' == o && reply.value.body == Contents(o.value))
      && (reply.Some? && Updates(m) ==> reply.value.body == Answer(beh.update(o.value, m.body).2))
      && (reply.Some? && !m.flags.contents && !m.flags.update ==>
            o' == o && reply.value.body == Answer(beh.query(o.value, m.body)))
  {
  }

  /** A message published to replicas: the version before it, and the message. */
  datatype Published<M> = Published(tag: nat, msg: Message<M>)

  function Silenced<M>(m: Message<M>): Message<M> { m.(flags := m.flags.(noReply := true)) }

  /** What a replica does with a published message once it is applied. */
  function Follow<S, M, R>(beh: Behaviour<S, M, R>, o: Object<S>, m: Message<M>): Object<S> {
    Process(beh, o, Silenced(m)).0
  }

  /** playback_recorded_messages over the first `k` buffered messages. */
  function Playback<S, M, R>(beh: Behaviour<S, M, R>, o: Object<S>, buffered: seq<Published<M>>, k: nat): Object<S>
    requires k <= |buffered|
  {
    if k == 0 then o
    else
      var o1 := Playback(beh, o, buffered, k - 1);
      if buffered[k - 1].tag >= o1.version then Follow(beh, o1, buffered[k - 1].msg) else o1
  }

  // ---- the client ----

  /** The three calls a client can make. */
  datatype Call = CallUpdate | CallQuery | CallQueryAny

  function FlagsFor(call: Call, noReply: bool): Flags {
    match call
    case CallUpdate => Flags(false, true, noReply, false, false)
    case CallQuery => Flags(true, false, noReply, false, false)
    case CallQueryAny => Flags(true, false, noReply, true, false)
  }

  /** query_update_general: only messages marked so may go to a replica.  It takes any flags; the clients of
      `Replication` use the three calls above. */
  predicate MayReachReplica(f: Flags) { f.anyTarget }

  lemma ReplicasGetNoUpdates(call: Call, noReply: bool)
    ensures MayReachReplica(FlagsFor(call, noReply)) <==> call == CallQueryAny
    ensures MayReachReplica(FlagsFor(call, noReply)) ==> !FlagsFor(call, noReply).update
    ensures var f := FlagsFor(call, noReply);
      f.noReply == noReply && !f.contents && f.query == !f.update && f.update == (call == CallUpdate)
  {
  }

  /** With flags of its own choosing a client can change a replica behind its master's back exactly if it marks an
      update for any target. */
  lemma StrayUpdatesExactly<S(!new), M(!new), R(!new)>(beh: Behaviour<S, M, R>, o: Object<S>, m: Message<M>)
    requires Honest(beh) && beh.update(o.value, m.body).1
    ensures MayReachReplica(m.flags) && Process(beh, o, m).0 != o <==> m.flags.anyTarget && Updates(m)
  {
  }

  // ---- the servers' handlers, in place ----

  class Hosted<S, M, R> {
    const beh: Behaviour<S, M, R>
    var value: S
    var version: nat

    function State(): Object<S>
      reads this
    {
      Object(value, version)
    }

    constructor (beh: Behaviour<S, M, R>)
      ensures this.beh == beh && State() == Object(beh.init, 0)
    {
      this.beh := beh;
      value, version := beh.init, 0;
    }

    method ProcessMessage(m: Message<M>) returns (changed: bool, reply: Option<Reply<S, R>>)
      modifies this
      ensures (State(), changed, reply) == Process(beh, old(State()), m)
    {
      changed := false;
      reply := None;
      var body: Body<S, R>;
      if m.flags.contents {
        body := Contents(value);
      } else if m.flags.update {
        var oldVersion := version;
        var (v, ch, r) := beh.update(value, m.body);
        value := v;
        version := version + if ch then 1 else 0;
        body := Answer(r);
        changed := oldVersion != version;
      } else {
        body := Answer(beh.query(value, m.body));
      }
      if !m.flags.noReply {
        reply := Some(Reply(m.id, version, body));
      }
    }

    /** message_wrapper with the no-reply flag forced. */
    method Wrapped(m: Message<M>)
      modifies this
      ensures State() == Follow(beh, old(State()), m)
    {
      var changed, reply := ProcessMessage(m.(flags := m.flags.(noReply := true)));
    }
  }

  class MasterServer<S, M, R> {
    const qobj: Hosted<S, M, R>
    var published: seq<Published<M>>

    constructor (qobj: Hosted<S, M, R>)
      ensures this.qobj == qobj && published == []
    {
      this.qobj := qobj;
      published := [];
    }

    /** The head of master_reply_callback, before the lock. */
    method ReadVersion() returns (version: nat)
      ensures version == qobj.State().version
    {
      version := qobj.version;
    }

    /** The rest of it, under the lock; `version` may be older than the object by then. */
    method FinishCallback(recv: Message<M>, version: nat) returns (reply: Option<Reply<S, R>>)
      modifies this, qobj
      ensures var (o, changed, rep) := Process(qobj.beh, old(qobj.State()), recv);
        && qobj.State() == o && reply == rep
        && published == old(published) + if changed then [Published(version, recv)] else []
    {
      var changed, rep := qobj.ProcessMessage(recv);
      reply := rep;
      if changed {
        published := published + [Published(version, recv)];
      }
    }

    /** The whole callback with nothing in between: a change is published under the version before it. */
    method MasterReplyCallback(recv: Message<M>) returns (reply: Option<Reply<S, R>>)
      modifies this, qobj
      ensures var (o, changed, rep) := Process(qobj.beh, old(qobj.State()), recv);
        && qobj.State() == o && reply == rep
        && published == old(published) + if changed then [Published(old(qobj.State()).version, recv)] else []
    {
      var version := ReadVersion();
      reply := FinishCallback(recv, version);
    }
  }

  class ReplicaServer<S, M, R> {
    const qobj: Hosted<S, M, R>
    var waitingForSnapshot: bool
    var buffered: seq<Published<M>>
    var divergenceReported: bool

    constructor (qobj: Hosted<S, M, R>)
      ensures this.qobj == qobj && waitingForSnapshot && buffered == [] && !divergenceReported
    {
      this.qobj := qobj;
      waitingForSnapshot, buffered, divergenceReported := true, [], false;
    }

    method SubscribeCallback(recv: Published<M>)
      modifies this, qobj
      ensures waitingForSnapshot == old(waitingForSnapshot)
      ensures waitingForSnapshot ==>
        buffered == old(buffered) + [recv] && qobj.State() == old(qobj.State())
        && divergenceReported == old(divergenceReported)
      ensures !waitingForSnapshot ==>
        && buffered == old(buffered) && qobj.State() == Follow(qobj.beh, old(qobj.State()), recv.msg)
        && divergenceReported == (old(divergenceReported) || recv.tag != old(qobj.version))
    {
      if waitingForSnapshot {
        buffered := buffered + [recv];
      } else {
        if recv.tag != qobj.version { divergenceReported := true; }
        qobj.Wrapped(recv.msg);
      }
    }

    method PlaybackRecordedMessages()
      modifies this`buffered, qobj
      ensures buffered == [] && qobj.State() == Playback(qobj.beh, old(qobj.State()), old(buffered), |old(buffered)|)
    {
      ghost var o := qobj.State();
      for i := 0 to |buffered|
        invariant buffered == old(buffered)
        invariant qobj.State() == Playback(qobj.beh, o, buffered, i)
      {
        if buffered[i].tag >= qobj.version {
          qobj.Wrapped(buffered[i].msg);
        }
      }
      buffered := [];
    }

    /** start(), once the snapshot has arrived. */
    method InstallSnapshot(snapshot: Object<S>)
      modifies this, qobj
      ensures !waitingForSnapshot && buffered == [] && divergenceReported == old(divergenceReported)
      ensures qobj.State() == Playback(qobj.beh, snapshot, old(buffered), |old(buffered)|)
    {
      waitingForSnapshot := false;
      qobj.value := snapshot.value;
      qobj.version := snapshot.version;
      PlaybackRecordedMessages();
    }
  }
}
