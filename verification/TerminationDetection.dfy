/**
  All processes together: fibers that compute and send counted calls, calls in flight, the token, and the
  completion broadcast.  A run is any sequence of enabled steps from the constructors' state.
 */
module TerminationDetection {
  import opened Prelude
  import opened Sums
  import opened ConsensusNode

  datatype Config = Config(nprocs: nat, ncpus: nat) {
    predicate Ok() { 1 <= nprocs && 1 <= ncpus }
  }

  datatype TokenMsg = TokenMsg(to: nat, tok: Token)

  /** How the run ended, if it did: on a marker some process wrote, or on the constructor's preset marker
      while the last process had sent `sent` calls. */
  datatype Completion = Running | OnMarker | OnPreset(sent: int)

  /** `pos`, `preset` and `completion` only record history: where the token is or is heading, whether
      `last_change` still has its constructor value unwritten, and how completion was declared. */
  datatype System = System(
    nodes: seq<Node>,
    calls: seq<int>,
    tokens: seq<TokenMsg>,
    dones: seq<nat>,
    pos: nat,
    preset: bool,
    completion: Completion)

  datatype Wake = Everyone | Fiber(cpu: nat)

  datatype Step =
    | Send(p: nat, cpu: nat, to: nat)
    | Receive(p: nat, wake: Wake, sends: seq<nat>)
    | LocalWake(p: nat, cpu: nat, wake: Wake)
    | Finish(p: nat, cpu: nat)
    | Continue(p: nat, cpu: nat)
    | TakeToken(k: nat)
    | TakeDone(k: nat)

  ghost predicate Shaped(c: Config, s: System) {
    && |s.nodes| == |s.calls| == c.nprocs
    && (forall q :: 0 <= q < c.nprocs ==> s.nodes[q].Shaped(c.ncpus))
  }

  function Init(c: Config): System
    requires c.Ok()
  {
    System(seq(c.nprocs, q requires 0 <= q < c.nprocs => InitialNode(c.ncpus, c.nprocs, q)),
           seq(c.nprocs, q => 0), [], [], 0, true, Running)
  }

  predicate WakeOk(c: Config, w: Wake) {
    w.Fiber? ==> w.cpu < c.ncpus
  }

  predicate FiberIn(c: Config, s: System, p: nat, cpu: nat, ph: Phase) {
    p < |s.nodes| && cpu < |s.nodes[p].phase| && cpu < c.ncpus && s.nodes[p].phase[cpu] == ph
  }

  ghost predicate Enabled(c: Config, s: System, st: Step)
    requires Shaped(c, s)
  {
    match st
    case Send(p, cpu, to) => FiberIn(c, s, p, cpu, Working) && to < c.nprocs
    case Receive(p, wake, sends) =>
      p < c.nprocs && 0 < s.calls[p] && WakeOk(c, wake) && forall k :: 0 <= k < |sends| ==> sends[k] < c.nprocs
    case LocalWake(p, cpu, wake) => FiberIn(c, s, p, cpu, Working) && WakeOk(c, wake)
    case Finish(p, cpu) => FiberIn(c, s, p, cpu, Working)
    case Continue(p, cpu) => FiberIn(c, s, p, cpu, Woken)
    case TakeToken(k) => k < |s.tokens| && s.tokens[k].to < c.nprocs
    case TakeDone(k) => k < |s.dones| && s.dones[k] < c.nprocs
  }

  function DoWake(n: Node, ncpus: nat, w: Wake): Node
    requires n.Shaped(ncpus) && (w.Fiber? ==> w.cpu < ncpus)
  {
    match w
    case Everyone => Cancel(n, ncpus)
    case Fiber(cpu) => CancelOne(n, ncpus, cpu)
  }

  /** A counted call arrives: its handler counts it, may send calls of its own, and wakes fibers for the new work. */
  function Arrive(n: Node, ncpus: nat, w: Wake, sends: nat): Node
    requires n.Shaped(ncpus) && (w.Fiber? ==> w.cpu < ncpus)
  {
    DoWake(n.(callsReceived := n.callsReceived + 1, callsSent := n.callsSent + sends), ncpus, w)
  }

  function AddCalls(calls: seq<int>, sends: seq<nat>): (r: seq<int>)
    requires forall k :: 0 <= k < |sends| ==> sends[k] < |calls|
    ensures |r| == |calls|
    decreases |sends|
  {
    if sends == [] then calls
    else AddCalls(calls[sends[0] := calls[sends[0]] + 1], sends[1..])
  }

  function Emit(s: System, p: nat, n: Node, out: Out): System
    requires p < |s.nodes|
  {
    var s1 := s.(nodes := s.nodes[p := n]);
    match out
    case Silent => s1
    case PassTo(to, tok) =>
      s1.(tokens := s.tokens + [TokenMsg(to, tok)], pos := to, preset := s.preset && s.nodes[p].Recorded())
    case Broadcast(dests) =>
      s1.(dones := s.dones + dests,
          completion := if s.preset then OnPreset(s.nodes[|s.nodes| - 1].callsSent) else OnMarker)
  }

  ghost function Apply(c: Config, s: System, st: Step): System
    requires Shaped(c, s) && Enabled(c, s, st)
  {
    match st
    case Send(p, cpu, to) =>
      s.(nodes := s.nodes[p := s.nodes[p].(callsSent := s.nodes[p].callsSent + 1)],
         calls := s.calls[to := s.calls[to] + 1])
    case Receive(p, wake, sends) =>
      s.(nodes := s.nodes[p := Arrive(s.nodes[p], c.ncpus, wake, |sends|)],
         calls := AddCalls(s.calls[p := s.calls[p] - 1], sends))
    case LocalWake(p, cpu, wake) =>
      s.(nodes := s.nodes[p := DoWake(s.nodes[p], c.ncpus, wake)])
    case Finish(p, cpu) =>
      var (n, out) := TryFinish(s.nodes[p], c.ncpus, c.nprocs, p, cpu);
      Emit(s, p, n, out)
    case Continue(p, cpu) =>
      s.(nodes := s.nodes[p := Resume(s.nodes[p], c.ncpus, cpu)])
    case TakeToken(k) =>
      var p := s.tokens[k].to;
      var (n, out) := ReceiveToken(s.nodes[p], c.ncpus, c.nprocs, p, s.tokens[k].tok);
      Emit(s.(tokens := Without(s.tokens, k)), p, n, out)
    case TakeDone(k) =>
      var p := s.dones[k];
      s.(nodes := s.nodes[p := ForceDone(s.nodes[p], c.ncpus)], dones := Without(s.dones, k))
  }

  /** `t` is where the steps lead from `s`. */
  ghost predicate Run(c: Config, s: System, steps: seq<Step>, t: System)
    decreases |steps|
  {
    if steps == [] then s == t
    else Shaped(c, s) && Enabled(c, s, steps[0]) && Run(c, Apply(c, s, steps[0]), steps[1..], t)
  }

  ghost predicate Reachable(c: Config, t: System)
    requires c.Ok()
  {
    exists steps :: Run(c, Init(c), steps, t)
  }

  /** Nothing computes, nothing is about to compute, and no counted call is in flight. */
  ghost predicate Quiet(c: Config, s: System)
    requires Shaped(c, s)
  {
    && (forall q :: 0 <= q < c.nprocs ==> s.calls[q] == 0)
    && (forall q, i :: 0 <= q < c.nprocs && 0 <= i < c.ncpus ==> FiberQuiet(s.nodes[q], i))
  }

  ghost predicate FiberQuiet(n: Node, i: nat)
    requires i < |n.phase|
  {
    n.phase[i].Parked? || n.phase[i].Finished? || (n.phase[i].Woken? && n.done)
  }

  // ---- totals over the processes ----

  ghost function Sents(ns: seq<Node>): seq<int> { seq(|ns|, i requires 0 <= i < |ns| => ns[i].callsSent) }
  ghost function Receiveds(ns: seq<Node>): seq<int> { seq(|ns|, i requires 0 <= i < |ns| => ns[i].callsReceived) }
  ghost function LastSents(ns: seq<Node>): seq<int> { seq(|ns|, i requires 0 <= i < |ns| => ns[i].lastSent) }
  ghost function LastReceiveds(ns: seq<Node>): seq<int> { seq(|ns|, i requires 0 <= i < |ns| => ns[i].lastReceived) }

  lemma TotalsUpdate(ns: seq<Node>, p: nat, n: Node)
    requires p < |ns|
    ensures Sum(Sents(ns[p := n])) == Sum(Sents(ns)) - ns[p].callsSent + n.callsSent
    ensures Sum(Receiveds(ns[p := n])) == Sum(Receiveds(ns)) - ns[p].callsReceived + n.callsReceived
    ensures Sum(LastSents(ns[p := n])) == Sum(LastSents(ns)) - ns[p].lastSent + n.lastSent
    ensures Sum(LastReceiveds(ns[p := n])) == Sum(LastReceiveds(ns)) - ns[p].lastReceived + n.lastReceived
  {
    var m := ns[p := n];
    assert Sents(m) == Sents(ns)[p := n.callsSent];
    assert Receiveds(m) == Receiveds(ns)[p := n.callsReceived];
    assert LastSents(m) == LastSents(ns)[p := n.lastSent];
    assert LastReceiveds(m) == LastReceiveds(ns)[p := n.lastReceived];
    SumUpdate(Sents(ns), p, n.callsSent);
    SumUpdate(Receiveds(ns), p, n.callsReceived);
    SumUpdate(LastSents(ns), p, n.lastSent);
    SumUpdate(LastReceiveds(ns), p, n.lastReceived);
  }

  lemma {:induction false} AddCallsTotal(calls: seq<int>, sends: seq<nat>)
    requires forall k :: 0 <= k < |sends| ==> sends[k] < |calls|
    ensures Sum(AddCalls(calls, sends)) == Sum(calls) + |sends|
    ensures forall q :: 0 <= q < |calls| ==> calls[q] <= AddCalls(calls, sends)[q]
    decreases |sends|
  {
    if sends != [] {
      SumUpdate(calls, sends[0], calls[sends[0]] + 1);
      AddCallsTotal(calls[sends[0] := calls[sends[0]] + 1], sends[1..]);
    }
  }

  // ---- the invariant ----

  ghost predicate Basics(c: Config, s: System) {
    && Shaped(c, s)
    && (forall q {:trigger LocalInv(s.nodes[q], c.ncpus)} :: 0 <= q < c.nprocs ==> LocalInv(s.nodes[q], c.ncpus))
    && (forall q :: 0 <= q < c.nprocs ==> 0 <= s.calls[q])
    && Sum(Sents(s.nodes)) == Sum(Receiveds(s.nodes)) + Sum(s.calls)
  }

  /** The one token, wherever it is. */
  ghost function LiveToken(s: System): Token
    requires s.pos < |s.nodes|
  {
    if s.tokens == [] then s.nodes[s.pos].token else s.tokens[0].tok
  }

  /** Exactly one token, held at `pos` or on its way there, carrying the recorded totals. */
  ghost predicate OneToken(c: Config, s: System)
    requires Shaped(c, s)
  {
    && s.pos < c.nprocs
    && (if s.tokens == [] then s.nodes[s.pos].hasToken else |s.tokens| == 1 && s.tokens[0].to == s.pos)
    && (forall q :: 0 <= q < c.nprocs && s.nodes[q].hasToken ==> s.tokens == [] && q == s.pos)
    && LiveToken(s).sent == Sum(LastSents(s.nodes))
    && LiveToken(s).received == Sum(LastReceiveds(s.nodes))
    && LiveToken(s).lastChange < c.nprocs
  }

  /** Processes the token has passed since `marker` was written, when it now stands before `pos`. */
  predicate Visited(marker: nat, pos: nat, q: nat) {
    if marker < pos then marker <= q < pos else q >= marker || q < pos
  }

  ghost predicate NoCalls(s: System) {
    forall q :: 0 <= q < |s.calls| ==> s.calls[q] == 0
  }

  ghost predicate MarkerHyp(s: System)
    requires s.pos < |s.nodes|
  {
    var t := LiveToken(s);
    && t.sent == t.received
    && forall q :: 0 <= q < |s.nodes| && !Visited(t.lastChange, s.pos, q) ==> s.nodes[q].Recorded()
  }

  ghost predicate MarkerInv(s: System)
    requires s.pos < |s.nodes|
  {
    MarkerHyp(s) ==>
      && NoCalls(s)
      && forall q :: 0 <= q < |s.nodes| && Visited(LiveToken(s).lastChange, s.pos, q) ==>
           s.nodes[q].Idle() && s.nodes[q].Recorded()
  }

  ghost predicate PresetHyp(s: System) {
    forall q :: s.pos <= q < |s.nodes| ==> s.nodes[q].callsSent == 0
  }

  ghost predicate PresetInv(s: System)
    requires s.pos < |s.nodes|
  {
    && LiveToken(s) == Token(0, 0, |s.nodes| - 1)
    && (forall q :: 0 <= q < |s.nodes| ==> s.nodes[q].lastSent == 0 && s.nodes[q].lastReceived == 0)
    && (PresetHyp(s) ==>
          NoCalls(s) && forall q :: 0 <= q < s.pos ==> s.nodes[q].Idle() && s.nodes[q].callsSent == 0)
  }

  ghost predicate WhileRunning(c: Config, s: System)
    requires Shaped(c, s) && s.pos < c.nprocs
  {
    && s.dones == []
    && (forall q :: 0 <= q < c.nprocs ==> !s.nodes[q].done)
    && if s.preset then PresetInv(s) else MarkerInv(s)
  }

  /** After a sound completion: no call is in flight, no fiber works again, and every process still waiting has
      its completion message on the way. */
  ghost predicate Over(c: Config, s: System)
    requires Shaped(c, s)
  {
    && NoCalls(s)
    && (forall q :: 0 <= q < c.nprocs ==> s.nodes[q].done || s.nodes[q].Idle())
    && (forall q, i :: 0 <= q < c.nprocs && 0 <= i < c.ncpus ==> FiberQuiet(s.nodes[q], i))
    && (forall q :: 0 <= q < c.nprocs && !s.nodes[q].done ==> q in s.dones)
  }

  predicate Sound(k: Completion) {
    k.OnMarker? || (k.OnPreset? && k.sent == 0)
  }

  ghost predicate Inv(c: Config, s: System) {
    && Basics(c, s)
    && OneToken(c, s)
    && (s.completion.Running? ==> WhileRunning(c, s))
    && (!s.completion.Running? ==> s.tokens == [] && s.nodes[s.pos].done)
    && (Sound(s.completion) ==> Over(c, s))
  }
}
