/**
  The user-mode fiber scheduler (src/fiber/fiber_control.cpp) as a state machine.  A context switch is two steps,
  the jump and the clean-up of the fiber that was left; waking a fiber is two steps as well, taking it and putting
  it on a queue.  Steps of different workers and outside threads interleave freely.
 */
module FiberScheduler {
  import opened Prelude

  /** Whoever can hold a mutex: a fiber, or a thread that is not a worker. */
  datatype Agent = ByFiber(id: nat) | ByThread(id: nat)

  /** `saved` says that the stored machine context can be jumped to; `guard` remembers the mutex of the fiber's
      last deschedule_self; `leaving` that it is inside deschedule_self or exit, on its way off the worker. */
  datatype Fiber = Fiber(
    affinity: set<nat>,
    affinityArray: seq<nat>,
    terminate: bool,
    descheduled: bool,
    scheduleable: bool,
    priority: bool,
    descheduleLock: Option<nat>,
    saved: bool,
    guard: Option<nat>,
    leaving: bool)

  /** The lock-free queue and the list already taken out of it. */
  datatype Queue = Queue(popped: seq<nat>, incoming: seq<nat>) {
    function All(): seq<nat> { popped + incoming }
  }

  datatype Worker = Worker(cur: Option<nat>, prev: Option<nat>, prio: Queue, aff: Queue) {
    /** All fibers waiting here, in the order in which they will be picked if nothing else arrives. */
    function Line(): seq<nat> { prio.All() + aff.All() }
  }

  datatype Sched = Sched(
    fibers: map<nat, Fiber>,
    nextId: nat,
    fibersActive: int,
    workers: seq<Worker>,
    hands: seq<nat>,
    mutexes: map<nat, Agent>)

  function Init(nworkers: nat): Sched {
    Sched(map[], 0, 0, seq(nworkers, i => Worker(None, None, Queue([], []), Queue([], []))), [], map[])
  }

  // ---- queues ----

  function TryPop(q: Queue): (Queue, Option<nat>) {
    var taken := if q.popped == [] then Queue(q.incoming, []) else q;
    if taken.popped == [] then (taken, None)
    else (taken.(popped := taken.popped[1..]), Some(taken.popped[0]))
  }

  function Remove(wk: Worker): (Worker, Option<nat>) {
    var (p, f) := TryPop(wk.prio);
    if f.Some? then (wk.(prio := p), f)
    else var (a, g) := TryPop(wk.aff); (wk.(prio := p, aff := a), g)
  }

  function Enqueue(s: Sched, w: nat, f: nat, head: bool): Sched
    requires w < |s.workers| && f in s.fibers
  {
    if !s.fibers[f].scheduleable then s
    else
      var wk := s.workers[w];
      var q := if head then wk.prio else wk.aff;
      var q' := q.(incoming := q.incoming + [f]);
      s.(workers := s.workers[w := if head then wk.(prio := q') else wk.(aff := q')])
  }

  // ---- the scheduler's operations ----

  /** The worker for a fiber: the caller's own if allowed, else the first or a random entry of the allowed ones. */
  function Pick(fib: Fiber, caller: Option<nat>, rand: nat): (nat, seq<nat>)
    requires 0 < |fib.affinityArray| && rand < |fib.affinityArray|
  {
    if caller.None? || caller.value !in fib.affinity then
      if |fib.affinityArray| == 1 then (fib.affinityArray[0], fib.affinityArray)
      else
        var a := fib.affinityArray[rand := fib.affinityArray[0]][0 := fib.affinityArray[rand]];
        (a[0], a)
    else (caller.value, fib.affinityArray)
  }

  /** The workers a launch may use, lowest first. */
  function Allowed(affinity: set<nat>, nworkers: nat): seq<nat> {
    if nworkers == 0 then []
    else Allowed(affinity, nworkers - 1) + if nworkers - 1 in affinity then [nworkers - 1] else []
  }

  function NewFiber(affinity: set<nat>, nworkers: nat): Fiber {
    Fiber(affinity, Allowed(affinity, nworkers), false, false, true, false, None, true, None, false)
  }

  predicate CanPick(fib: Fiber, caller: Option<nat>, rand: nat, nworkers: nat) {
    rand < |fib.affinityArray| && (caller.Some? ==> caller.value < nworkers)
    && Pick(fib, caller, rand).0 < nworkers
  }

  function Launch(s: Sched, affinity: set<nat>, caller: Option<nat>, rand: nat): Sched
    requires CanPick(NewFiber(affinity, |s.workers|), caller, rand, |s.workers|)
  {
    var fib := NewFiber(affinity, |s.workers|);
    var (w, arr) := Pick(fib, caller, rand);
    Enqueue(s.(fibers := s.fibers[s.nextId := fib.(affinityArray := arr)], nextId := s.nextId + 1,
               fibersActive := s.fibersActive + 1), w, s.nextId, false)
  }

  /** The jump: the running fiber's context is saved, the next one's is resumed. */
  function YieldTo(s: Sched, w: nat, next: Option<nat>): Sched
    requires w < |s.workers|
    requires s.workers[w].cur.Some? ==> s.workers[w].cur.value in s.fibers
    requires next.Some? ==> next.value in s.fibers
  {
    var wk := s.workers[w];
    if next.Some? then
      var left := if wk.cur.Some? then s.fibers[wk.cur.value := s.fibers[wk.cur.value].(saved := true)] else s.fibers;
      s.(workers := s.workers[w := wk.(prev := wk.cur, cur := next)],
         fibers := left[next.value := left[next.value].(saved := false, priority := false)])
    else if wk.cur.Some? && (s.fibers[wk.cur.value].terminate || s.fibers[wk.cur.value].descheduled) then
      s.(workers := s.workers[w := wk.(prev := wk.cur, cur := None)],
         fibers := s.fibers[wk.cur.value := s.fibers[wk.cur.value].(saved := true)])
    else s
  }

  /** yield, and the worker's root loop: take the next fiber off this worker's queues and jump to it. */
  function Switch(s: Sched, w: nat): Sched
    requires w < |s.workers|
    requires s.workers[w].cur.Some? ==> s.workers[w].cur.value in s.fibers
    requires forall f :: f in s.workers[w].Line() ==> f in s.fibers
  {
    var (wk, next) := Remove(s.workers[w]);
    RemoveTakesFirst(s.workers[w]);
    YieldTo(s.(workers := s.workers[w := wk]), w, next)
  }

  /** reschedule_fiber: requeue, finish a deschedule, or destroy. */
  function Reschedule(s: Sched, w: nat, f: nat): Sched
    requires w < |s.workers| && f in s.fibers
  {
    var fib := s.fibers[f];
    if !fib.terminate && !fib.descheduled then Enqueue(s, w, f, fib.priority)
    else if fib.descheduled then
      s.(fibers := s.fibers[f :=
           fib.(descheduled := false, scheduleable := false, descheduleLock := None, leaving := false)],
         mutexes := if fib.descheduleLock.Some? then s.mutexes - {fib.descheduleLock.value} else s.mutexes)
    else s.(fibers := s.fibers - {f}, fibersActive := s.fibersActive - 1)
  }

  /** The first thing run after a jump. */
  function CleanUp(s: Sched, w: nat): Sched
    requires w < |s.workers| && s.workers[w].prev.Some? && s.workers[w].prev.value in s.fibers
  {
    var s1 := Reschedule(s, w, s.workers[w].prev.value);
    s1.(workers := s1.workers[w := s1.workers[w].(prev := None)])
  }

  /** A fiber's record once deschedule_self has noted the mutex to release after the switch. */
  function Departing(fib: Fiber, lock: nat): Fiber {
    fib.(descheduleLock := Some(lock), descheduled := true, guard := Some(lock), leaving := true)
  }

  function Deschedule(s: Sched, f: nat, lock: nat): Sched
    requires f in s.fibers
  {
    s.(fibers := s.fibers[f := Departing(s.fibers[f], lock)])
  }

  /** schedule_tid up to the point where the fiber's own lock is dropped. */
  function Take(s: Sched, f: nat, priority: bool): Sched
    requires f in s.fibers
  {
    var fib := s.fibers[f].(descheduled := false);
    if !fib.scheduleable then
      s.(fibers := s.fibers[f := fib.(scheduleable := true, priority := priority)], hands := s.hands + [f])
    else s.(fibers := s.fibers[f := fib])
  }

  /** The rest of schedule_tid. */
  function Put(s: Sched, k: nat, caller: Option<nat>, rand: nat): Sched
    requires k < |s.hands| && s.hands[k] in s.fibers
    requires CanPick(s.fibers[s.hands[k]], caller, rand, |s.workers|)
  {
    var f := s.hands[k];
    var (w, arr) := Pick(s.fibers[f], caller, rand);
    var s1 := s.(fibers := s.fibers[f := s.fibers[f].(affinityArray := arr)]);
    Reschedule(s1.(hands := Without(s.hands, k)), w, f)
  }

  // ---- steps ----

  datatype Step =
    | DoLaunch(affinity: set<nat>, caller: Option<nat>, rand: nat)
    | DoSwitch(w: nat)
    | DoCleanUp(w: nat)
    | DoDeschedule(w: nat, lock: nat)
    | DoTake(agent: Agent, f: nat, priority: bool)
    | DoPut(k: nat, caller: Option<nat>, rand: nat)
    | DoExit(w: nat)
    | DoLock(agent: Agent, m: nat)
    | DoUnlock(agent: Agent, m: nat)

  /** `f` is running on `w` and is not inside deschedule_self or exit. */
  predicate RunsFreely(s: Sched, w: nat, f: nat) {
    && w < |s.workers| && s.workers[w].cur == Some(f) && s.workers[w].prev.None?
    && f in s.fibers && !s.fibers[f].leaving
  }

  ghost predicate CanAct(s: Sched, a: Agent) {
    match a
    case ByThread(_) => true
    case ByFiber(f) => exists w :: RunsFreely(s, w, f)
  }

  predicate Holds(s: Sched, a: Agent, m: nat) {
    m in s.mutexes && s.mutexes[m] == a
  }

  /** The documented protocol: a fiber is woken under the mutex it last passed to deschedule_self. */
  predicate WakeRule(s: Sched, a: Agent, f: nat)
    requires f in s.fibers
  {
    s.fibers[f].guard.Some? ==> Holds(s, a, s.fibers[f].guard.value)
  }

  ghost predicate Enabled(s: Sched, st: Step) {
    match st
    case DoLaunch(affinity, caller, rand) => CanPick(NewFiber(affinity, |s.workers|), caller, rand, |s.workers|)
    case DoSwitch(w) =>
      && w < |s.workers| && s.workers[w].prev.None?
      && (s.workers[w].cur.Some? ==> s.workers[w].cur.value in s.fibers)
      && (forall f :: f in s.workers[w].Line() ==> f in s.fibers)
    case DoCleanUp(w) => w < |s.workers| && s.workers[w].prev.Some? && s.workers[w].prev.value in s.fibers
    case DoDeschedule(w, lock) =>
      && w < |s.workers| && s.workers[w].cur.Some?
      && RunsFreely(s, w, s.workers[w].cur.value) && Holds(s, ByFiber(s.workers[w].cur.value), lock)
    case DoTake(agent, f, priority) => CanAct(s, agent) && f in s.fibers && WakeRule(s, agent, f)
    case DoPut(k, caller, rand) =>
      k < |s.hands| && s.hands[k] in s.fibers && CanPick(s.fibers[s.hands[k]], caller, rand, |s.workers|)
    case DoExit(w) => w < |s.workers| && s.workers[w].cur.Some? && RunsFreely(s, w, s.workers[w].cur.value)
    case DoLock(agent, m) => CanAct(s, agent) && m !in s.mutexes
    case DoUnlock(agent, m) => CanAct(s, agent) && Holds(s, agent, m)
  }

  ghost function Apply(s: Sched, st: Step): Sched
    requires Enabled(s, st)
  {
    match st
    case DoLaunch(affinity, caller, rand) => Launch(s, affinity, caller, rand)
    case DoSwitch(w) => Switch(s, w)
    case DoCleanUp(w) => CleanUp(s, w)
    case DoDeschedule(w, lock) => Deschedule(s, s.workers[w].cur.value, lock)
    case DoTake(agent, f, priority) => Take(s, f, priority)
    case DoPut(k, caller, rand) => Put(s, k, caller, rand)
    case DoExit(w) =>
      var f := s.workers[w].cur.value;
      s.(fibers := s.fibers[f := s.fibers[f].(terminate := true, leaving := true)])
    case DoLock(agent, m) => s.(mutexes := s.mutexes[m := agent])
    case DoUnlock(agent, m) => s.(mutexes := s.mutexes - {m})
  }

  ghost predicate Run(s: Sched, steps: seq<Step>, t: Sched)
    decreases |steps|
  {
    if steps == [] then s == t
    else Enabled(s, steps[0]) && Run(Apply(s, steps[0]), steps[1..], t)
  }

  ghost predicate Reachable(nworkers: nat, t: Sched) {
    exists steps :: Run(Init(nworkers), steps, t)
  }

  // ---- queue order ----

  lemma PopIsFifo(q: Queue)
    ensures var (r, f) := TryPop(q);
      && (f.None? <==> q.All() == [])
      && (f.None? ==> r.All() == [])
      && (f.Some? ==> q.All() == [f.value] + r.All())
  {
  }

  /** Priority fibers first, each queue first in first out. */
  lemma RemoveTakesFirst(wk: Worker)
    ensures var (r, f) := Remove(wk);
      && r.cur == wk.cur && r.prev == wk.prev
      && (f.None? <==> wk.Line() == [])
      && (f.None? ==> r.Line() == [])
      && (f.Some? ==> wk.Line() == [f.value] + r.Line())
  {
    PopIsFifo(wk.prio);
    PopIsFifo(wk.aff);
  }
}
