/** In which order fibers are served: who lands where on a worker's queues, and that each is first in, first out. */
module SchedulerOrder {
  import opened Prelude
  import opened FiberScheduler
  import opened SchedulerSafety

  // ---- fibers that run are in no hurry ----

  ghost predicate NoHurry(s: Sched, f: nat) { f in s.fibers ==> !s.fibers[f].priority }

  ghost predicate WorkerCalm(s: Sched, w: nat)
    requires w < |s.workers|
  {
    && (s.workers[w].cur.Some? ==> NoHurry(s, s.workers[w].cur.value))
    && (s.workers[w].prev.Some? ==> NoHurry(s, s.workers[w].prev.value))
  }

  /** A priority wake is used up when the fiber is switched in. */
  ghost predicate AllCalm(s: Sched) {
    forall w {:trigger WorkerCalm(s, w)} :: 0 <= w < |s.workers| ==> WorkerCalm(s, w)
  }

  /** Fibers on a worker are known, schedulable, and in no queue or hand. */
  lemma OnWorker(s: Sched, p: Places, w: nat, f: nat)
    requires Placed(s, p) && w < |s.workers| && (s.workers[w].cur == Some(f) || s.workers[w].prev == Some(f))
    ensures f in s.fibers && f < s.nextId && s.fibers[f].scheduleable && f !in s.hands
    ensures forall v :: 0 <= v < |s.workers| ==> f !in s.workers[v].Line()
  {
    assert WorkerOk(s, p, w);
    assert FiberOk(s, f, p[f]);
    HandMembers(s, p);
    forall v | 0 <= v < |s.workers| ensures f !in s.workers[v].Line() { LineMembers(s, p, v); }
  }

  /** Only a switch changes who runs; cleaning up forgets who ran before. */
  lemma EndsStay(s: Sched, st: Step, w: nat)
    requires Enabled(s, st) && !st.DoSwitch? && w < |s.workers|
    ensures |Apply(s, st).workers| == |s.workers| && Apply(s, st).workers[w].cur == s.workers[w].cur
    ensures Apply(s, st).workers[w].prev.Some? ==> Apply(s, st).workers[w].prev == s.workers[w].prev
  {
  }

  lemma PriorityStays(s: Sched, st: Step, g: nat)
    requires Enabled(s, st) && !st.DoSwitch? && g in s.fibers && g < s.nextId && s.fibers[g].scheduleable
    ensures g in Apply(s, st).fibers ==> Apply(s, st).fibers[g].priority == s.fibers[g].priority
  {
  }

  lemma CalmAt(s: Sched, p: Places, st: Step, w: nat)
    requires Placed(s, p) && w < |s.workers| && WorkerCalm(s, w) && Enabled(s, st) && !st.DoSwitch?
    ensures |Apply(s, st).workers| == |s.workers| && WorkerCalm(Apply(s, st), w)
  {
    var wk := s.workers[w];
    EndsStay(s, st, w);
    if wk.cur.Some? {
      OnWorker(s, p, w, wk.cur.value);
      PriorityStays(s, st, wk.cur.value);
    }
    if wk.prev.Some? {
      OnWorker(s, p, w, wk.prev.value);
      PriorityStays(s, st, wk.prev.value);
    }
  }

  lemma PriorityDrops(s: Sched, v: nat, g: nat)
    requires Enabled(s, DoSwitch(v))
    ensures g in Switch(s, v).fibers ==> g in s.fibers && (Switch(s, v).fibers[g].priority ==> s.fibers[g].priority)
  {
    RemoveTakesFirst(s.workers[v]);
    var (wk, next) := Remove(s.workers[v]);
    JumpDrops(s.(workers := s.workers[v := wk]), v, next, g);
  }

  lemma JumpDrops(s: Sched, v: nat, next: Option<nat>, g: nat)
    requires v < |s.workers| && (s.workers[v].cur.Some? ==> s.workers[v].cur.value in s.fibers)
    requires next.Some? ==> next.value in s.fibers
    ensures var t := YieldTo(s, v, next);
      g in t.fibers ==> g in s.fibers && (t.fibers[g].priority ==> s.fibers[g].priority)
  {
  }

  /** After a switch the first in line runs, whatever was running is left; with nobody in line a fiber on its way out
      is left, and any other goes on. */
  lemma SwitchMeaning(s: Sched, v: nat)
    requires Enabled(s, DoSwitch(v)) && (s.workers[v].cur.Some? ==> s.workers[v].cur.value in s.fibers)
    ensures var u, a := Switch(s, v), s.workers[v];
      && |u.workers| == |s.workers| && (forall w :: 0 <= w < |s.workers| && w != v ==> u.workers[w] == s.workers[w])
      && u.hands == s.hands && u.mutexes == s.mutexes && u.fibers.Keys == s.fibers.Keys
      && var b := u.workers[v];
         if a.Line() != [] then
           && b.cur == Some(a.Line()[0]) && b.prev == a.cur && b.Line() == a.Line()[1..]
           && !u.fibers[a.Line()[0]].priority
         else
           && b.Line() == []
           && if a.cur.Some? && (s.fibers[a.cur.value].terminate || s.fibers[a.cur.value].descheduled)
              then b.cur == None && b.prev == a.cur
              else b.cur == a.cur && b.prev == a.prev && u.fibers == s.fibers
  {
    RemoveTakesFirst(s.workers[v]);
    var (wk, next) := Remove(s.workers[v]);
    JumpMeaning(s.(workers := s.workers[v := wk]), v, next);
  }

  lemma JumpMeaning(s: Sched, v: nat, next: Option<nat>)
    requires v < |s.workers| && (s.workers[v].cur.Some? ==> s.workers[v].cur.value in s.fibers)
    requires next.Some? ==> next.value in s.fibers
    ensures var u, a := YieldTo(s, v, next), s.workers[v];
      && |u.workers| == |s.workers| && (forall w :: 0 <= w < |s.workers| && w != v ==> u.workers[w] == s.workers[w])
      && u.hands == s.hands && u.mutexes == s.mutexes && u.fibers.Keys == s.fibers.Keys
      && var b := u.workers[v];
         && b.Line() == a.Line()
         && if next.Some? then b.cur == next && b.prev == a.cur && !u.fibers[next.value].priority
            else if a.cur.Some? && (s.fibers[a.cur.value].terminate || s.fibers[a.cur.value].descheduled)
            then b.cur == None && b.prev == a.cur
            else b.cur == a.cur && b.prev == a.prev && u.fibers == s.fibers
  {
  }

  lemma CalmAfterSwitch(s: Sched, p: Places, v: nat, w: nat)
    requires Placed(s, p) && AllCalm(s) && Enabled(s, DoSwitch(v)) && w < |s.workers|
    ensures |Switch(s, v).workers| == |s.workers| && WorkerCalm(Switch(s, v), w)
  {
    assert WorkerCalm(s, w) && WorkerCalm(s, v);
    SwitchMeaning(s, v);
    var a := s.workers[w];
    if a.cur.Some? { PriorityDrops(s, v, a.cur.value); }
    if a.prev.Some? { PriorityDrops(s, v, a.prev.value); }
  }

  lemma StepCalm(s: Sched, p: Places, st: Step)
    requires Placed(s, p) && AllCalm(s) && Enabled(s, st)
    ensures AllCalm(Apply(s, st))
  {
    var t := Apply(s, st);
    forall w | 0 <= w < |t.workers| ensures WorkerCalm(t, w) {
      if st.DoSwitch? { CalmAfterSwitch(s, p, st.w, w); } else { CalmAt(s, p, st, w); }
    }
  }

  lemma {:induction false} RunCalm(s: Sched, p: Places, steps: seq<Step>, t: Sched) returns (q: Places)
    requires Placed(s, p) && AllCalm(s) && Run(s, steps, t)
    ensures Placed(t, q) && AllCalm(t)
    decreases |steps|
  {
    if steps == [] {
      q := p;
    } else {
      StepCalm(s, p, steps[0]);
      q := StepKeeps(s, p, steps[0]);
      q := RunCalm(Apply(s, steps[0]), q, steps[1..], t);
    }
  }

  lemma ReachableCalm(nworkers: nat, t: Sched) returns (q: Places)
    requires Reachable(nworkers, t)
    ensures Placed(t, q) && AllCalm(t)
  {
    var steps :| Run(Init(nworkers), steps, t);
    var p := InitPlaced(nworkers);
    q := RunCalm(Init(nworkers), p, steps, t);
  }

  lemma InitPlaced(nworkers: nat) returns (p: Places)
    ensures Placed(Init(nworkers), p) && AllCalm(Init(nworkers))
  {
    assert Run(Init(nworkers), [], Init(nworkers));
    p := ReachablePlaced(nworkers, Init(nworkers));
  }

  // ---- who lands where ----

  /** The fiber that a step puts on worker `w`'s priority queue or affinity queue. */
  ghost function Arriving(s: Sched, st: Step, w: nat, prio: bool): seq<nat>
    requires Enabled(s, st)
  {
    match st
    case DoLaunch(affinity, caller, rand) =>
      if !prio && Pick(NewFiber(affinity, |s.workers|), caller, rand).0 == w then [s.nextId] else []
    case DoPut(k, caller, rand) =>
      var fib := s.fibers[s.hands[k]];
      if prio == fib.priority && Pick(fib, caller, rand).0 == w then [s.hands[k]] else []
    case DoCleanUp(v) =>
      if !prio && v == w && !s.fibers[s.workers[v].prev.value].leaving then [s.workers[v].prev.value] else []
    case _ => []
  }

  function OnQueue(wk: Worker, prio: bool): seq<nat> { if prio then wk.prio.All() else wk.aff.All() }

  /** The fiber to be taken off one of a worker's queues: the first one, and of the affinity queue only if nobody has
      priority. */
  function Front(wk: Worker, prio: bool): seq<nat> {
    if OnQueue(wk, prio) == [] || (!prio && OnQueue(wk, true) != []) then [] else [OnQueue(wk, prio)[0]]
  }

  /** The fiber that a step takes off worker `w`'s priority queue or affinity queue. */
  ghost function Departing(s: Sched, st: Step, w: nat, prio: bool): seq<nat>
    requires w < |s.workers|
  {
    if st == DoSwitch(w) then Front(s.workers[w], prio) else []
  }

  function Waiting(s: Sched, w: nat, prio: bool): seq<nat>
    requires w < |s.workers|
  {
    OnQueue(s.workers[w], prio)
  }

  lemma EnqueueWaits(s: Sched, w: nat, f: nat, head: bool, v: nat, prio: bool)
    requires w < |s.workers| && v < |s.workers| && f in s.fibers && s.fibers[f].scheduleable
    ensures |Enqueue(s, w, f, head).workers| == |s.workers|
    ensures Waiting(Enqueue(s, w, f, head), v, prio) ==
      Waiting(s, v, prio) + if v == w && prio == head then [f] else []
  {
    var q := if head then s.workers[w].prio else s.workers[w].aff;
    assert q.popped + (q.incoming + [f]) == q.All() + [f];
    assert Waiting(s, v, prio) + [] == Waiting(s, v, prio);
  }

  lemma LaunchWaits(s: Sched, st: Step, w: nat, prio: bool)
    requires Enabled(s, st) && st.DoLaunch? && w < |s.workers|
    ensures |Apply(s, st).workers| == |s.workers|
    ensures Waiting(Apply(s, st), w, prio) == Waiting(s, w, prio) + Arriving(s, st, w, prio)
  {
    var fib := NewFiber(st.affinity, |s.workers|);
    var (v, arr) := Pick(fib, st.caller, st.rand);
    EnqueueWaits(s.(fibers := s.fibers[s.nextId := fib.(affinityArray := arr)], nextId := s.nextId + 1,
                    fibersActive := s.fibersActive + 1), v, s.nextId, false, w, prio);
  }

  lemma PutWaits(s: Sched, p: Places, st: Step, w: nat, prio: bool)
    requires Placed(s, p) && Enabled(s, st) && st.DoPut? && w < |s.workers|
    ensures |Apply(s, st).workers| == |s.workers|
    ensures Waiting(Apply(s, st), w, prio) == Waiting(s, w, prio) + Arriving(s, st, w, prio)
  {
    var f := s.hands[st.k];
    LiftHand(s, p, st.k);
    var (v, arr) := Pick(s.fibers[f], st.caller, st.rand);
    var s1 := s.(fibers := s.fibers[f := s.fibers[f].(affinityArray := arr)], hands := Without(s.hands, st.k));
    EnqueueWaits(s1, v, f, s.fibers[f].priority, w, prio);
  }

  lemma CleanUpWaits(s: Sched, p: Places, st: Step, w: nat, prio: bool)
    requires Placed(s, p) && AllCalm(s) && Enabled(s, st) && st.DoCleanUp? && w < |s.workers|
    ensures |Apply(s, st).workers| == |s.workers|
    ensures Waiting(Apply(s, st), w, prio) == Waiting(s, w, prio) + Arriving(s, st, w, prio)
  {
    var f := s.workers[st.w].prev.value;
    assert WorkerCalm(s, st.w) && WorkerOk(s, p, st.w) && FiberOk(s, f, p[f]);
    if !s.fibers[f].leaving { EnqueueWaits(s, st.w, f, false, w, prio); }
    assert Waiting(s, w, prio) + [] == Waiting(s, w, prio);
  }

  lemma RemoveTakesFront(wk: Worker, prio: bool)
    ensures Front(wk, prio) + OnQueue(Remove(wk).0, prio) == OnQueue(wk, prio)
  {
    PopIsFifo(wk.prio);
    PopIsFifo(wk.aff);
    assert [] + OnQueue(wk, prio) == OnQueue(wk, prio);
  }

  lemma SwitchWaitsHere(s: Sched, w: nat, prio: bool)
    requires Enabled(s, DoSwitch(w))
    ensures |Switch(s, w).workers| == |s.workers|
    ensures Front(s.workers[w], prio) + Waiting(Switch(s, w), w, prio) == Waiting(s, w, prio)
  {
    var (wk, next) := Remove(s.workers[w]);
    RemoveTakesFirst(s.workers[w]);
    QueuesStay(s.(workers := s.workers[w := wk]), w, next);
    assert OnQueue(Switch(s, w).workers[w], prio) == OnQueue(wk, prio);
    RemoveTakesFront(s.workers[w], prio);
  }

  lemma SwitchWaits(s: Sched, st: Step, w: nat, prio: bool)
    requires Enabled(s, st) && st.DoSwitch? && w < |s.workers|
    ensures |Apply(s, st).workers| == |s.workers|
    ensures Departing(s, st, w, prio) + Waiting(Apply(s, st), w, prio) == Waiting(s, w, prio)
  {
    if w == st.w {
      SwitchWaitsHere(s, w, prio);
    } else {
      SwitchMeaning(s, st.w);
      assert [] + Waiting(s, w, prio) == Waiting(s, w, prio);
    }
  }

  lemma QueuesStay(s: Sched, v: nat, next: Option<nat>)
    requires v < |s.workers| && (s.workers[v].cur.Some? ==> s.workers[v].cur.value in s.fibers)
    requires next.Some? ==> next.value in s.fibers
    ensures var t := YieldTo(s, v, next);
      |t.workers| == |s.workers| && t.workers[v].prio == s.workers[v].prio && t.workers[v].aff == s.workers[v].aff
  {
  }

  lemma OthersWait(s: Sched, st: Step, w: nat, prio: bool)
    requires Enabled(s, st) && w < |s.workers| && !st.DoLaunch? && !st.DoPut? && !st.DoCleanUp? && !st.DoSwitch?
    ensures Apply(s, st).workers == s.workers && Arriving(s, st, w, prio) == []
  {
  }

  lemma NothingAdded<T>(a: seq<T>, b: seq<T>, x: seq<T>)
    requires b == a + x
    ensures [] + b == a + x && (x == [] ==> b == a)
  {
  }

  /** What every step does to every queue: the fiber it takes is the first, the fiber it adds is the last. */
  lemma OneStep(s: Sched, p: Places, st: Step, w: nat, prio: bool)
    requires Placed(s, p) && AllCalm(s) && Enabled(s, st) && w < |s.workers|
    ensures |Apply(s, st).workers| == |s.workers|
    ensures Departing(s, st, w, prio) + Waiting(Apply(s, st), w, prio) == Waiting(s, w, prio) + Arriving(s, st, w, prio)
  {
    if st.DoSwitch? {
      SwitchWaits(s, st, w, prio);
      assert Waiting(s, w, prio) + [] == Waiting(s, w, prio);
    } else {
      EndsStay(s, st, w);
      NoSwitchWaits(s, p, st, w, prio);
      NothingAdded(Waiting(s, w, prio), Waiting(Apply(s, st), w, prio), Arriving(s, st, w, prio));
    }
  }

  lemma NoSwitchWaits(s: Sched, p: Places, st: Step, w: nat, prio: bool)
    requires Placed(s, p) && AllCalm(s) && Enabled(s, st) && w < |s.workers| && !st.DoSwitch?
    requires |Apply(s, st).workers| == |s.workers|
    ensures Waiting(Apply(s, st), w, prio) == Waiting(s, w, prio) + Arriving(s, st, w, prio)
  {
    if st.DoLaunch? {
      LaunchWaits(s, st, w, prio);
    } else if st.DoPut? {
      PutWaits(s, p, st, w, prio);
    } else if st.DoCleanUp? {
      CleanUpWaits(s, p, st, w, prio);
    } else {
      OthersWait(s, st, w, prio);
      assert Waiting(s, w, prio) + [] == Waiting(s, w, prio);
    }
  }

  // ---- over whole runs ----

  /** The fibers put on a queue along the run, in order. */
  ghost function Arrivals(s: Sched, steps: seq<Step>, w: nat, prio: bool): seq<nat>
    decreases |steps|
  {
    if steps == [] || !Enabled(s, steps[0]) then []
    else Arriving(s, steps[0], w, prio) + Arrivals(Apply(s, steps[0]), steps[1..], w, prio)
  }

  /** The fibers taken off it, in order. */
  ghost function Departures(s: Sched, steps: seq<Step>, w: nat, prio: bool): seq<nat>
    decreases |steps|
  {
    if steps == [] || !Enabled(s, steps[0]) || w >= |s.workers| then []
    else Departing(s, steps[0], w, prio) + Departures(Apply(s, steps[0]), steps[1..], w, prio)
  }

  lemma Chain(d: seq<nat>, ds: seq<nat>, rest: seq<nat>, mid: seq<nat>, here: seq<nat>, a: seq<nat>, more: seq<nat>)
    requires d + mid == here + a && ds + rest == mid + more
    ensures d + ds + rest == here + (a + more)
  {
    assert d + ds + rest == d + (ds + rest) == d + mid + more == here + a + more == here + (a + more);
  }

  lemma {:induction false} ServedFrom(s: Sched, p: Places, steps: seq<Step>, t: Sched, w: nat, prio: bool)
    requires Placed(s, p) && AllCalm(s) && Run(s, steps, t) && w < |s.workers|
    ensures |t.workers| == |s.workers|
    ensures Departures(s, steps, w, prio) + Waiting(t, w, prio) == Waiting(s, w, prio) + Arrivals(s, steps, w, prio)
    decreases |steps|
  {
    if steps == [] {
      assert [] + Waiting(t, w, prio) == Waiting(s, w, prio) + [];
    } else {
      var u := Apply(s, steps[0]);
      OneStep(s, p, steps[0], w, prio);
      StepCalm(s, p, steps[0]);
      var q := StepKeeps(s, p, steps[0]);
      ServedFrom(u, q, steps[1..], t, w, prio);
      Chain(Departing(s, steps[0], w, prio), Departures(u, steps[1..], w, prio), Waiting(t, w, prio),
            Waiting(u, w, prio), Waiting(s, w, prio), Arriving(s, steps[0], w, prio), Arrivals(u, steps[1..], w, prio));
    }
  }

  /** First in, first out: over every run, what has left a queue and what is still on it are, in this order, what was
      put on it. */
  lemma ServedInOrder(nworkers: nat, steps: seq<Step>, t: Sched, w: nat, prio: bool)
    requires Run(Init(nworkers), steps, t) && w < nworkers
    ensures |t.workers| == nworkers
    ensures Departures(Init(nworkers), steps, w, prio) + Waiting(t, w, prio) == Arrivals(Init(nworkers), steps, w, prio)
  {
    var p := InitPlaced(nworkers);
    ServedFrom(Init(nworkers), p, steps, t, w, prio);
    assert [] + Arrivals(Init(nworkers), steps, w, prio) == Arrivals(Init(nworkers), steps, w, prio);
  }

  // ---- priority ----

  /** The fiber is in a waker's hand from the first state to the last. */
  ghost predicate HeldThrough(s: Sched, steps: seq<Step>, f: nat)
    decreases |steps|
  {
    f in s.hands && (steps == [] || (Enabled(s, steps[0]) && HeldThrough(Apply(s, steps[0]), steps[1..], f)))
  }

  lemma InHandNotHere(s: Sched, p: Places, w: nat, f: nat)
    requires Placed(s, p) && w < |s.workers| && f in s.hands
    ensures f in s.fibers && f < s.nextId && s.fibers[f].scheduleable && !s.fibers[f].terminate
    ensures s.workers[w].cur != Some(f) && s.workers[w].prev != Some(f) && f !in s.workers[w].Line()
  {
    HandMembers(s, p);
    assert FiberOk(s, f, p[f]) && WorkerOk(s, p, w);
    LineMembers(s, p, w);
  }

  lemma JumpSpares(s: Sched, v: nat, next: Option<nat>, g: nat)
    requires v < |s.workers| && (s.workers[v].cur.Some? ==> s.workers[v].cur.value in s.fibers)
    requires (next.Some? ==> next.value in s.fibers) && next != Some(g) && s.workers[v].cur != Some(g) && g in s.fibers
    ensures g in YieldTo(s, v, next).fibers && YieldTo(s, v, next).fibers[g] == s.fibers[g]
  {
  }

  lemma SwitchSpares(s: Sched, p: Places, v: nat, f: nat)
    requires Placed(s, p) && Enabled(s, DoSwitch(v)) && f in s.hands
    ensures f in s.fibers && f in Switch(s, v).fibers && Switch(s, v).fibers[f] == s.fibers[f]
  {
    InHandNotHere(s, p, v, f);
    RemoveTakesFirst(s.workers[v]);
    var (wk, next) := Remove(s.workers[v]);
    JumpSpares(s.(workers := s.workers[v := wk]), v, next, f);
  }

  lemma HeldStep(s: Sched, p: Places, st: Step, f: nat)
    requires Placed(s, p) && Enabled(s, st) && f in s.hands && f in Apply(s, st).fibers
    ensures f in s.fibers && Apply(s, st).fibers[f].priority == s.fibers[f].priority
  {
    if st.DoSwitch? {
      SwitchSpares(s, p, st.w, f);
    } else {
      HandMembers(s, p);
      assert FiberOk(s, f, p[f]);
      PriorityStays(s, st, f);
    }
  }

  lemma {:induction false} HeldRun(s: Sched, p: Places, steps: seq<Step>, t: Sched, f: nat) returns (q: Places)
    requires Placed(s, p) && AllCalm(s) && Run(s, steps, t) && HeldThrough(s, steps, f)
    ensures Placed(t, q) && AllCalm(t) && f in s.fibers && f in t.fibers
    ensures t.fibers[f].priority == s.fibers[f].priority && |t.workers| == |s.workers|
    decreases |steps|
  {
    HandMembers(s, p);
    if steps == [] {
      q := p;
    } else {
      var u := Apply(s, steps[0]);
      q := StepKeeps(s, p, steps[0]);
      StepCalm(s, p, steps[0]);
      HandMembers(u, q);
      HeldStep(s, p, steps[0], f);
      SameWorkers(s, steps[0]);
      q := HeldRun(u, q, steps[1..], t, f);
    }
  }

  lemma SameWorkers(s: Sched, st: Step)
    requires Enabled(s, st)
    ensures |Apply(s, st).workers| == |s.workers|
  {
    if st.DoSwitch? { SwitchMeaning(s, st.w); }
  }

  /** Where a wake lands: whatever others do between taking the fiber and queueing it, it goes to the end of the
      priority queue if the wake was one with priority, and to the end of the affinity queue otherwise. */
  lemma WakeLands(nworkers: nat, t: Sched, a: Agent, f: nat, priority: bool, between: seq<Step>, u: Sched,
                  k: nat, caller: Option<nat>, rand: nat)
    requires Reachable(nworkers, t) && Enabled(t, DoTake(a, f, priority)) && IsAt(t, f, Parked)
    requires Run(Take(t, f, priority), between, u) && HeldThrough(Take(t, f, priority), between, f)
    requires Enabled(u, DoPut(k, caller, rand)) && u.hands[k] == f
    ensures var w, v := Pick(u.fibers[f], caller, rand).0, Put(u, k, caller, rand);
      && w < |u.workers| == |v.workers|
      && Waiting(v, w, priority) == Waiting(u, w, priority) + [f]
      && Waiting(v, w, !priority) == Waiting(u, w, !priority)
      && forall x :: 0 <= x < |u.workers| && x != w ==> v.workers[x] == u.workers[x]
  {
    var p := ReachableCalm(nworkers, t);
    var s := Take(t, f, priority);
    assert FiberOk(t, f, p[f]);
    StepCalm(t, p, DoTake(a, f, priority));
    var q := TakeKeeps(t, p, a, f, priority);
    q := HeldRun(s, q, between, u, f);
    var st := DoPut(k, caller, rand);
    var w := Pick(u.fibers[f], caller, rand).0;
    PutWaits(u, q, st, w, priority);
    PutWaits(u, q, st, w, !priority);
    assert Waiting(u, w, !priority) + [] == Waiting(u, w, !priority);
    LiftHand(u, q, k);
    PutElsewhere(u, k, caller, rand);
  }

  lemma PutElsewhere(u: Sched, k: nat, caller: Option<nat>, rand: nat)
    requires Enabled(u, DoPut(k, caller, rand))
    ensures var w, v := Pick(u.fibers[u.hands[k]], caller, rand).0, Put(u, k, caller, rand);
      |v.workers| == |u.workers| && forall x :: 0 <= x < |u.workers| && x != w ==> v.workers[x] == u.workers[x]
  {
  }

  // ---- leaving a worker ----

  /** The fiber a worker has just left: one that only gave way goes to the end of the affinity queue; one that
      descheduled itself is on no queue and its mutex, and no other, is free; one that ended is gone. */
  lemma CleanUpMeaning(nworkers: nat, t: Sched, w: nat)
    requires Reachable(nworkers, t) && Enabled(t, DoCleanUp(w))
    ensures var u, f := CleanUp(t, w), t.workers[w].prev.value;
      && |u.workers| == |t.workers| && u.workers[w].prev.None? && u.workers[w].cur == t.workers[w].cur
      && Waiting(u, w, true) == Waiting(t, w, true)
      && Waiting(u, w, false) == Waiting(t, w, false) + (if t.fibers[f].leaving then [] else [f])
      && (t.fibers[f].terminate ==> u.fibers == t.fibers - {f} && u.mutexes == t.mutexes)
      && (t.fibers[f].descheduled ==>
            && IsAt(u, f, Parked) && t.fibers[f].descheduleLock.Some?
            && u.mutexes == t.mutexes - {t.fibers[f].descheduleLock.value})
      && (!t.fibers[f].leaving ==> u.fibers == t.fibers && u.mutexes == t.mutexes)
  {
    var p := ReachableCalm(nworkers, t);
    var f := t.workers[w].prev.value;
    CleanUpWaits(t, p, DoCleanUp(w), w, true);
    CleanUpWaits(t, p, DoCleanUp(w), w, false);
    assert Waiting(t, w, true) + [] == Waiting(t, w, true);
    assert WorkerOk(t, p, w) && FiberOk(t, f, p[f]);
  }

  // ---- launching ----

  /** A new fiber may run on exactly the workers it was launched for, and can be sent to each of them. */
  lemma {:induction false} AllowedExactly(affinity: set<nat>, nworkers: nat)
    ensures forall w :: w in Allowed(affinity, nworkers) <==> w in affinity && w < nworkers
    ensures forall i, j :: 0 <= i < j < |Allowed(affinity, nworkers)| ==>
      Allowed(affinity, nworkers)[i] < Allowed(affinity, nworkers)[j]
  {
    if nworkers > 0 {
      AllowedExactly(affinity, nworkers - 1);
      var a := Allowed(affinity, nworkers - 1);
      assert forall i :: 0 <= i < |a| ==> a[i] in a;
    }
  }

  lemma PickExactly(fib: Fiber, caller: Option<nat>, rand: nat)
    requires rand < |fib.affinityArray|
    ensures Pick(fib, caller, rand).0 ==
      if caller.Some? && caller.value in fib.affinity then caller.value else fib.affinityArray[rand]
  {
  }

  /** A launched fiber goes to the end of the affinity queue of the worker picked for it, and nowhere else. */
  lemma LaunchLands(s: Sched, affinity: set<nat>, caller: Option<nat>, rand: nat)
    requires Enabled(s, DoLaunch(affinity, caller, rand))
    ensures var u, w := Launch(s, affinity, caller, rand), Pick(NewFiber(affinity, |s.workers|), caller, rand).0;
      && w < |s.workers| == |u.workers| && u.nextId == s.nextId + 1 && u.fibers.Keys == s.fibers.Keys + {s.nextId}
      && Waiting(u, w, false) == Waiting(s, w, false) + [s.nextId] && Waiting(u, w, true) == Waiting(s, w, true)
      && forall x :: 0 <= x < |s.workers| && x != w ==> u.workers[x] == s.workers[x]
  {
    var st := DoLaunch(affinity, caller, rand);
    var w := Pick(NewFiber(affinity, |s.workers|), caller, rand).0;
    LaunchWaits(s, st, w, false);
    LaunchWaits(s, st, w, true);
    assert Waiting(s, w, true) + [] == Waiting(s, w, true);
  }
}
