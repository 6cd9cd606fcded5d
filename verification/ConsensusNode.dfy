/**
  One process's share of the termination detector (src/fiber/fiber_async_consensus.cpp).

  `Node` holds the object's fields, the two call counters it reads from the attached RPC object, and
  what the fiber scheduler does with each fiber that waits here.  The functions say what each critical
  section does to a `Node`; the class runs the same sections in place, loops included.
 */
module ConsensusNode {
  import opened Sums

  /** A fiber is out working, descheduled here, scheduled again but not yet back under the mutex, or gone for good. */
  datatype Phase = Working | Parked | Woken | Finished

  datatype Token = Token(sent: int, received: int, lastChange: nat)

  datatype Node = Node(
    numActive: int,
    tryingToSleep: int,
    critical: seq<bool>,
    sleeping: seq<bool>,
    cond: seq<bool>,
    phase: seq<Phase>,
    done: bool,
    hasToken: bool,
    token: Token,
    lastSent: int,
    lastReceived: int,
    callsSent: int,
    callsReceived: int)
  {
    /** The vectors all have one entry per fiber. */
    ghost predicate Shaped(ncpus: nat) {
      |critical| == |sleeping| == |cond| == |phase| == ncpus
    }

    predicate Recorded() {
      callsSent == lastSent && callsReceived == lastReceived
    }

    predicate Idle() { numActive == 0 }
  }

  /** What a critical section puts on the wire: nothing, the token, or a completion broadcast. */
  datatype Out = Silent | PassTo(to: nat, tok: Token) | Broadcast(dests: seq<nat>)

  function InitialNode(ncpus: nat, nprocs: nat, me: nat): Node
    requires me < nprocs
  {
    var f := seq(ncpus, i => false);
    Node(ncpus, 0, f, f, f, seq(ncpus, i => Working), false, me == 0, Token(0, 0, nprocs - 1), 0, 0, 0, 0)
  }

  function Others(nprocs: nat, me: nat): seq<nat> {
    if nprocs == 0 then []
    else Others(nprocs - 1, me) + if nprocs - 1 != me then [nprocs - 1] else []
  }

  /** fiber_control::schedule_tid as seen from here: it moves a descheduled fiber and ignores any other. */
  function Schedule(p: Phase): Phase {
    if p.Parked? then Woken else p
  }

  function WakeAt(n: Node, i: nat): Node
    requires i < |n.sleeping| && i < |n.cond| && i < |n.phase|
  {
    if n.sleeping[i] then
      n.(numActive := n.numActive + 1,
         sleeping := n.sleeping[i := false],
         phase := if n.cond[i] then n.phase[i := Schedule(n.phase[i])] else n.phase)
    else n
  }

  function WakeUpTo(n: Node, k: nat): (r: Node)
    requires k <= |n.sleeping| && k <= |n.cond| && k <= |n.phase|
    ensures |r.sleeping| == |n.sleeping| && |r.cond| == |n.cond| && |r.phase| == |n.phase|
  {
    if k == 0 then n else WakeAt(WakeUpTo(n, k - 1), k - 1)
  }

  /** The wake-all loop, which only runs when some fiber is asleep. */
  function WakeAll(n: Node, ncpus: nat): Node
    requires n.Shaped(ncpus)
  {
    if n.numActive < ncpus then WakeUpTo(n, ncpus) else n
  }

  function Cancel(n: Node, ncpus: nat): Node
    requires n.Shaped(ncpus)
  {
    if n.tryingToSleep > 0 || n.numActive < ncpus then WakeAll(n, ncpus) else n
  }

  function CancelOne(n: Node, ncpus: nat, cpu: nat): Node
    requires n.Shaped(ncpus) && cpu < ncpus
  {
    if n.critical[cpu] then WakeAt(n, cpu) else n
  }

  function ForceDone(n: Node, ncpus: nat): Node
    requires n.Shaped(ncpus)
  {
    Cancel(n.(done := true), ncpus)
  }

  predicate Completes(n: Node, me: nat) {
    n.token.lastChange == me && n.token.received == n.token.sent
  }

  function Stamped(n: Node, me: nat): Token {
    if n.Recorded() then n.token
    else Token(n.token.sent + (n.callsSent - n.lastSent),
               n.token.received + (n.callsReceived - n.lastReceived), me)
  }

  function PassToken(n: Node, ncpus: nat, nprocs: nat, me: nat): (Node, Out)
    requires n.Shaped(ncpus) && me < nprocs
  {
    if Completes(n, me) then
      (WakeAll(n.(done := true), ncpus), Broadcast(Others(nprocs, me)))
    else
      var tok := Stamped(n, me);
      (n.(token := tok, lastSent := n.callsSent, lastReceived := n.callsReceived, hasToken := false),
       PassTo((me + 1) % nprocs, tok))
  }

  function ReceiveToken(n: Node, ncpus: nat, nprocs: nat, me: nat, tok: Token): (Node, Out)
    requires n.Shaped(ncpus) && me < nprocs
  {
    var held := n.(hasToken := true, token := tok);
    if held.numActive == 0 then PassToken(held, ncpus, nprocs, me) else (held, Silent)
  }

  function Begin(n: Node, cpu: nat): Node
    requires cpu < |n.critical|
  {
    n.(tryingToSleep := n.tryingToSleep + 1, critical := n.critical[cpu := true])
  }

  /** The fiber returns from end_done_critical_section: back to work, or out for good when `done` is set. */
  function Leave(n: Node, cpu: nat): Node
    requires cpu < |n.critical| && cpu < |n.phase|
  {
    n.(critical := n.critical[cpu := false],
       tryingToSleep := n.tryingToSleep - 1,
       phase := n.phase[cpu := if n.done then Finished else Working])
  }

  /** The head of the wait loop: leave if woken or done, otherwise register and deschedule. */
  function LoopHead(n: Node, ncpus: nat, cpu: nat): Node
    requires n.Shaped(ncpus) && cpu < ncpus
  {
    if !n.sleeping[cpu] || n.done then Leave(n, cpu)
    else n.(cond := n.cond[cpu := true], phase := n.phase[cpu := Parked])
  }

  /** end_done_critical_section from the entry to the return or to the first deschedule. */
  function EndDone(n: Node, ncpus: nat, nprocs: nat, me: nat, cpu: nat): (Node, Out)
    requires n.Shaped(ncpus) && me < nprocs && cpu < ncpus
  {
    if n.done then (Leave(n, cpu), Silent)
    else
      var n1 := n.(numActive := n.numActive - 1);
      var (n2, out) := if n1.numActive == 0 && n1.hasToken then PassToken(n1, ncpus, nprocs, me) else (n1, Silent);
      WakeShape(n1.(done := true), ncpus);
      (LoopHead(n2.(sleeping := n2.sleeping[cpu := true]), ncpus, cpu), out)
  }

  /** A rescheduled fiber takes the mutex again inside the wait loop. */
  function Resume(n: Node, ncpus: nat, cpu: nat): Node
    requires n.Shaped(ncpus) && cpu < ncpus
  {
    LoopHead(n.(cond := n.cond[cpu := false]), ncpus, cpu)
  }

  // ---- what the wake loop does, in closed form ----

  /** `r` is `n` with the first `k` sleepers woken. */
  ghost predicate WokenUpTo(n: Node, r: Node, ncpus: nat, k: nat)
    requires n.Shaped(ncpus)
  {
    && r.Shaped(ncpus)
    && r == n.(numActive := r.numActive, sleeping := r.sleeping, phase := r.phase)
    && r.numActive + Count(r.sleeping) == n.numActive + Count(n.sleeping)
    && (forall i :: 0 <= i < ncpus ==> r.sleeping[i] == (n.sleeping[i] && k <= i))
    && (forall i :: 0 <= i < ncpus ==>
          r.phase[i] == if i < k && n.sleeping[i] && n.cond[i] then Schedule(n.phase[i]) else n.phase[i])
  }

  lemma WakeOneMore(n: Node, q: Node, ncpus: nat, k: nat)
    requires n.Shaped(ncpus) && k < ncpus && WokenUpTo(n, q, ncpus, k)
    ensures WokenUpTo(n, WakeAt(q, k), ncpus, k + 1)
  {
    CountUpdate(q.sleeping, k, false);
    assert q.sleeping[k] == n.sleeping[k] && q.phase[k] == n.phase[k];
  }

  lemma {:induction false} WakeUpToMeans(n: Node, ncpus: nat, k: nat)
    requires n.Shaped(ncpus) && k <= ncpus
    ensures WokenUpTo(n, WakeUpTo(n, k), ncpus, k)
  {
    if k > 0 {
      WakeUpToMeans(n, ncpus, k - 1);
      WakeOneMore(n, WakeUpTo(n, k - 1), ncpus, k - 1);
    }
  }

  lemma WakeShape(n: Node, ncpus: nat)
    requires n.Shaped(ncpus)
    ensures WakeAll(n, ncpus).Shaped(ncpus)
  {
    WakeUpToMeans(n, ncpus, ncpus);
  }

  // ---- what holds of a node whenever its mutex is free ----

  ghost predicate FibersOk(n: Node, ncpus: nat)
    requires n.Shaped(ncpus)
  {
    forall i :: 0 <= i < ncpus ==>
      && (n.sleeping[i] ==> (n.phase[i].Parked? && n.cond[i]) || (n.phase[i].Finished? && n.done))
      && (n.phase[i].Parked? ==> n.sleeping[i] && n.cond[i] && !n.done)
      && (n.phase[i].Finished? ==> n.done)
      && (n.critical[i] <==> n.phase[i].Parked? || n.phase[i].Woken?)
  }

  ghost predicate LocalInv(n: Node, ncpus: nat) {
    && n.Shaped(ncpus)
    && n.numActive + Count(n.sleeping) == ncpus
    && n.tryingToSleep == Count(n.critical)
    && FibersOk(n, ncpus)
    && (n.hasToken && !n.done ==> n.numActive > 0)
    && n.lastSent <= n.callsSent && n.lastReceived <= n.callsReceived
    && 0 <= n.lastSent && 0 <= n.lastReceived
  }

  /** Everybody asleep: the only fibers left are parked ones, or finished ones once `done` is set. */
  lemma IdleMeansAsleep(n: Node, ncpus: nat)
    requires LocalInv(n, ncpus) && n.Idle()
    ensures forall i :: 0 <= i < ncpus ==> n.sleeping[i]
    ensures !n.done ==> forall i :: 0 <= i < ncpus ==> n.phase[i].Parked?
  {
    CountBounds(n.sleeping);
  }

  lemma ActiveBounds(n: Node, ncpus: nat)
    requires LocalInv(n, ncpus)
    ensures 0 <= n.numActive <= ncpus
    ensures forall i :: 0 <= i < ncpus && !n.sleeping[i] ==> 0 < n.numActive
    ensures forall i :: 0 <= i < ncpus && n.critical[i] ==> 0 < n.tryingToSleep
  {
    CountBounds(n.sleeping);
    CountBounds(n.critical);
  }

  lemma WakeAtKeeps(n: Node, ncpus: nat, i: nat)
    requires LocalInv(n, ncpus) && i < ncpus
    ensures LocalInv(WakeAt(n, i), ncpus)
    ensures !WakeAt(n, i).phase[i].Parked?
  {
    CountUpdate(n.sleeping, i, false);
    CountBounds(n.sleeping);
  }

  lemma {:induction false} WakeUpToKeeps(n: Node, ncpus: nat, k: nat)
    requires LocalInv(n, ncpus) && k <= ncpus
    ensures LocalInv(WakeUpTo(n, k), ncpus)
  {
    if k > 0 {
      WakeUpToKeeps(n, ncpus, k - 1);
      WakeAtKeeps(WakeUpTo(n, k - 1), ncpus, k - 1);
      assert WakeUpTo(n, k) == WakeAt(WakeUpTo(n, k - 1), k - 1);
    }
  }

  /** cancel() leaves no fiber descheduled, whatever was asleep before: no wake-up is lost. */
  lemma CancelReleasesAll(n: Node, ncpus: nat)
    requires LocalInv(n, ncpus)
    ensures var r := Cancel(n, ncpus);
      && LocalInv(r, ncpus)
      && (forall i :: 0 <= i < ncpus ==> !r.phase[i].Parked? && (n.phase[i].Parked? ==> r.phase[i].Woken?))
      && (forall i :: 0 <= i < ncpus && !n.phase[i].Parked? ==> r.phase[i] == n.phase[i])
      && (0 < ncpus ==> 0 < r.numActive)
  {
    CountBounds(n.sleeping);
    if n.numActive < ncpus {
      WakeUpToKeeps(n, ncpus, ncpus);
      WakeUpToMeans(n, ncpus, ncpus);
      CountBounds(WakeUpTo(n, ncpus).sleeping);
    }
  }

  /** The same wake-all loop run with `done` just set: here too nobody stays descheduled. */
  lemma WakeAllDone(n: Node, ncpus: nat)
    requires n.Shaped(ncpus) && n.numActive + Count(n.sleeping) <= ncpus
    requires forall i :: 0 <= i < ncpus && n.phase[i].Parked? ==> n.sleeping[i] && n.cond[i]
    ensures var r := WakeAll(n.(done := true), ncpus);
      && r.Shaped(ncpus)
      && r == n.(done := true, numActive := r.numActive, sleeping := r.sleeping, phase := r.phase)
      && r.numActive + Count(r.sleeping) == n.numActive + Count(n.sleeping)
      && (forall i :: 0 <= i < ncpus ==> r.sleeping[i] ==> n.sleeping[i])
      && (forall i :: 0 <= i < ncpus ==> r.sleeping[i] ==> Count(n.sleeping) == 0)
      && (forall i :: 0 <= i < ncpus ==> r.phase[i] == Schedule(n.phase[i]))
  {
    CountBounds(n.sleeping);
    WakeUpToMeans(n.(done := true), ncpus, ncpus);
  }

  lemma CancelOneReleases(n: Node, ncpus: nat, cpu: nat)
    requires LocalInv(n, ncpus) && cpu < ncpus
    ensures var r := CancelOne(n, ncpus, cpu);
      && LocalInv(r, ncpus) && !r.phase[cpu].Parked?
      && (!n.done ==> 0 < r.numActive)
      && (forall i :: 0 <= i < ncpus && i != cpu ==> r.phase[i] == n.phase[i])
      && (n.phase[cpu].Parked? ==> r.phase[cpu].Woken?)
      && (!n.phase[cpu].Parked? ==> r.phase[cpu] == n.phase[cpu])
  {
    ActiveBounds(n, ncpus);
    if n.critical[cpu] {
      WakeAtKeeps(n, ncpus, cpu);
      ActiveBounds(WakeAt(n, cpu), ncpus);
    }
  }

  /** A completion request releases every parked fiber with `done` visible to it. */
  lemma ForceDoneReleasesAll(n: Node, ncpus: nat)
    requires LocalInv(n, ncpus)
    ensures var r := ForceDone(n, ncpus);
      && LocalInv(r, ncpus) && r.done
      && (forall i :: 0 <= i < ncpus ==> r.phase[i] == Schedule(n.phase[i]))
  {
    var d := n.(done := true);
    CountBounds(n.sleeping);
    CountBounds(n.critical);
    WakeAllDone(n, ncpus);
    var r := ForceDone(n, ncpus);
    if n.tryingToSleep > 0 || n.numActive < ncpus {
      assert r == WakeAll(d, ncpus);
    } else {
      assert forall i :: 0 <= i < ncpus ==> !n.sleeping[i];
    }
  }

  lemma PassTokenKeeps(n: Node, ncpus: nat, nprocs: nat, me: nat)
    requires LocalInv(n.(hasToken := false), ncpus) && n.hasToken && !n.done && me < nprocs
    ensures LocalInv(PassToken(n, ncpus, nprocs, me).0, ncpus)
  {
    if Completes(n, me) {
      WakeAllDone(n, ncpus);
      CountBounds(n.sleeping);
    }
  }

  lemma ReceiveTokenKeeps(n: Node, ncpus: nat, nprocs: nat, me: nat, tok: Token)
    requires LocalInv(n, ncpus) && !n.done && me < nprocs
    ensures LocalInv(ReceiveToken(n, ncpus, nprocs, me, tok).0, ncpus)
  {
    var held := n.(hasToken := true, token := tok);
    ActiveBounds(n, ncpus);
    if held.numActive == 0 { PassTokenKeeps(held, ncpus, nprocs, me); }
  }

  /** begin_done_critical_section followed by end_done_critical_section, up to the return or the deschedule. */
  function TryFinish(n: Node, ncpus: nat, nprocs: nat, me: nat, cpu: nat): (Node, Out)
    requires n.Shaped(ncpus) && me < nprocs && cpu < ncpus
  {
    EndDone(Begin(n, cpu), ncpus, nprocs, me, cpu)
  }

  /** What `TryFinish` comes to, case by case: already done, asleep, asleep with the token passed on, or complete. */
  ghost predicate Finishing(n: Node, r: Node, out: Out, ncpus: nat, cpu: nat)
    requires n.Shaped(ncpus) && r.Shaped(ncpus) && cpu < ncpus
  {
    && r.callsSent == n.callsSent && r.callsReceived == n.callsReceived
    && (out.Silent? ==> r.done == n.done && r.hasToken == n.hasToken && r.token == n.token
                        && r.lastSent == n.lastSent && r.lastReceived == n.lastReceived)
    && (!out.Silent? ==> !n.done && n.hasToken && r.done == out.Broadcast?)
    && (out.PassTo? ==> r.Idle())
    && (r.phase[cpu] == if r.done then Finished else Parked)
    && (forall i :: 0 <= i < ncpus && i != cpu ==>
          r.phase[i] == if out.Broadcast? then Schedule(n.phase[i]) else n.phase[i])
    && (!out.Silent? ==> forall i :: 0 <= i < ncpus && i != cpu ==> n.phase[i].Parked?)
  }

  lemma FinishWhenDone(n: Node, ncpus: nat, nprocs: nat, me: nat, cpu: nat)
    requires LocalInv(n, ncpus) && me < nprocs && cpu < ncpus && n.phase[cpu].Working? && n.done
    ensures var (r, out) := TryFinish(n, ncpus, nprocs, me, cpu);
      out == Silent && LocalInv(r, ncpus) && Finishing(n, r, out, ncpus, cpu)
  {
    CountUpdate(n.critical, cpu, true);
    CountUpdate(Begin(n, cpu).critical, cpu, false);
  }

  lemma FinishBySleeping(n: Node, ncpus: nat, nprocs: nat, me: nat, cpu: nat)
    requires LocalInv(n, ncpus) && me < nprocs && cpu < ncpus && n.phase[cpu].Working? && !n.done
    requires n.numActive != 1 || !n.hasToken
    ensures var (r, out) := TryFinish(n, ncpus, nprocs, me, cpu);
      out == Silent && LocalInv(r, ncpus) && Finishing(n, r, out, ncpus, cpu)
  {
    CountUpdate(n.critical, cpu, true);
    CountUpdate(n.sleeping, cpu, true);
    ActiveBounds(n, ncpus);
  }

  /** The last active fiber: everyone else is already parked. */
  lemma LastOneAwake(n: Node, ncpus: nat, cpu: nat)
    requires LocalInv(n, ncpus) && cpu < ncpus && n.phase[cpu].Working? && !n.done && n.numActive == 1
    ensures forall i :: 0 <= i < ncpus && i != cpu ==> n.phase[i].Parked? && n.sleeping[i] && n.cond[i]
  {
    var asleep := n.sleeping[cpu := true];
    CountUpdate(n.sleeping, cpu, true);
    CountBounds(asleep);
    assert forall i :: 0 <= i < ncpus ==> asleep[i];
    forall i | 0 <= i < ncpus && i != cpu ensures n.sleeping[i] { assert asleep[i]; }
  }

  lemma FinishByPassing(n: Node, ncpus: nat, nprocs: nat, me: nat, cpu: nat)
    requires LocalInv(n, ncpus) && me < nprocs && cpu < ncpus && n.phase[cpu].Working? && !n.done
    requires n.numActive == 1 && n.hasToken && !Completes(n, me)
    ensures var (r, out) := TryFinish(n, ncpus, nprocs, me, cpu);
      && LocalInv(r, ncpus) && Finishing(n, r, out, ncpus, cpu)
      && out == PassTo((me + 1) % nprocs, Stamped(n, me))
      && r.token == Stamped(n, me) && !r.hasToken && r.lastSent == n.callsSent && r.lastReceived == n.callsReceived
  {
    CountUpdate(n.critical, cpu, true);
    CountUpdate(n.sleeping, cpu, true);
    LastOneAwake(n, ncpus, cpu);
  }

  lemma FinishByCompleting(n: Node, ncpus: nat, nprocs: nat, me: nat, cpu: nat)
    requires LocalInv(n, ncpus) && me < nprocs && cpu < ncpus && n.phase[cpu].Working? && !n.done
    requires n.numActive == 1 && n.hasToken && Completes(n, me)
    ensures var (r, out) := TryFinish(n, ncpus, nprocs, me, cpu);
      && LocalInv(r, ncpus) && Finishing(n, r, out, ncpus, cpu)
      && out == Broadcast(Others(nprocs, me)) && r.hasToken && r.token == n.token
      && r.lastSent == n.lastSent && r.lastReceived == n.lastReceived
  {
    LastOneAwake(n, ncpus, cpu);
    CountBounds(n.sleeping);
    var b := Begin(n, cpu);
    var n1 := b.(numActive := b.numActive - 1);
    WakeAllDone(n1, ncpus);
    var n2 := WakeAll(n1.(done := true), ncpus);
    CountUpdate(n2.sleeping, cpu, true);
    CountUpdate(n.critical, cpu, true);
    CountUpdate(b.critical, cpu, false);
  }

  lemma ResumeKeeps(n: Node, ncpus: nat, cpu: nat)
    requires LocalInv(n, ncpus) && cpu < ncpus && n.phase[cpu].Woken?
    ensures var r := Resume(n, ncpus, cpu);
      && LocalInv(r, ncpus)
      && r == n.(cond := n.cond[cpu := false], critical := n.critical[cpu := false],
                 tryingToSleep := n.tryingToSleep - 1, phase := r.phase)
      && r.phase == n.phase[cpu := if n.done then Finished else Working]
  {
    CountUpdate(n.critical, cpu, false);
  }

  /** The token reaches an idle process that is not the marker: it is stamped and sent on at once. */
  lemma ArrivalPasses(n: Node, ncpus: nat, nprocs: nat, me: nat, tok: Token)
    requires LocalInv(n, ncpus) && !n.done && n.Idle() && me < nprocs && !Completes(n.(token := tok), me)
    ensures var (r, out) := ReceiveToken(n, ncpus, nprocs, me, tok);
      && LocalInv(r, ncpus)
      && out == PassTo((me + 1) % nprocs, Stamped(n.(token := tok), me))
      && r == n.(hasToken := false, token := Stamped(n.(token := tok), me),
                 lastSent := n.callsSent, lastReceived := n.callsReceived)
  {
    ReceiveTokenKeeps(n, ncpus, nprocs, me, tok);
  }

  /** The token reaches the idle marker process with equal totals: completion, and every fiber is released. */
  lemma ArrivalCompletes(n: Node, ncpus: nat, nprocs: nat, me: nat, tok: Token)
    requires LocalInv(n, ncpus) && !n.done && n.Idle() && me < nprocs && Completes(n.(token := tok), me)
    ensures var (r, out) := ReceiveToken(n, ncpus, nprocs, me, tok);
      && LocalInv(r, ncpus)
      && out == Broadcast(Others(nprocs, me))
      && r == n.(hasToken := true, token := tok, done := true,
                 numActive := r.numActive, sleeping := r.sleeping, phase := r.phase)
      && forall i :: 0 <= i < ncpus ==> r.phase[i].Woken?
  {
    ReceiveTokenKeeps(n, ncpus, nprocs, me, tok);
    IdleMeansAsleep(n, ncpus);
    WakeAllDone(n.(hasToken := true, token := tok), ncpus);
  }
}
