/**
  The scheduler as an object whose methods update its fields in place; each is tied to a function of
  `FiberScheduler`.
 */
module FiberControl {
  import opened Prelude
  import opened FiberScheduler

  class Control {
    var fibers: map<nat, Fiber>
    var nextId: nat
    var fibersActive: int
    var workers: seq<Worker>
    var hands: seq<nat>
    var mutexes: map<nat, Agent>

    function State(): Sched
      reads this
    {
      Sched(fibers, nextId, fibersActive, workers, hands, mutexes)
    }

    constructor (nworkers: nat)
      ensures State() == Init(nworkers)
    {
      fibers, nextId, fibersActive, hands, mutexes := map[], 0, 0, [], map[];
      workers := seq(nworkers, i => Worker(None, None, Queue([], []), Queue([], [])));
    }

    method ActiveQueueInsertTail(w: nat, f: nat)
      requires w < |workers| && f in fibers
      modifies this`workers
      ensures State() == Enqueue(old(State()), w, f, false)
    {
      if fibers[f].scheduleable {
        var q := workers[w].aff;
        workers := workers[w := workers[w].(aff := q.(incoming := q.incoming + [f]))];
      }
    }

    method ActiveQueueInsertHead(w: nat, f: nat)
      requires w < |workers| && f in fibers
      modifies this`workers
      ensures State() == Enqueue(old(State()), w, f, true)
    {
      if fibers[f].scheduleable {
        var q := workers[w].prio;
        workers := workers[w := workers[w].(prio := q.(incoming := q.incoming + [f]))];
      }
    }

    static method TryPopQueue(q: Queue) returns (rest: Queue, ret: Option<nat>)
      ensures (rest, ret) == TryPop(q)
      ensures ret.None? <==> q.All() == []
      ensures ret.Some? ==> q.All() == [ret.value] + rest.All()
    {
      rest, ret := q, None;
      if rest.popped == [] {
        rest := Queue(rest.incoming, []);
      }
      if rest.popped != [] {
        ret := Some(rest.popped[0]);
        rest := rest.(popped := rest.popped[1..]);
      }
    }

    method ActiveQueueRemove(w: nat) returns (ret: Option<nat>)
      requires w < |workers|
      modifies this`workers
      ensures State() == old(State()).(workers := old(workers)[w := Remove(old(workers)[w]).0])
      ensures ret == Remove(old(workers)[w]).1
      ensures ret.None? <==> old(workers)[w].Line() == []
      ensures ret.Some? ==> old(workers)[w].Line() == [ret.value] + workers[w].Line()
    {
      RemoveTakesFirst(workers[w]);
      var p, f := TryPopQueue(workers[w].prio);
      ret := f;
      if ret.None? {
        var a, g := TryPopQueue(workers[w].aff);
        workers := workers[w := workers[w].(prio := p, aff := a)];
        ret := g;
      } else {
        workers := workers[w := workers[w].(prio := p)];
      }
    }

    /** `rand` stands for the random draw. */
    method PickFiberWorker(f: nat, caller: Option<nat>, rand: nat) returns (choice: nat)
      requires f in fibers && CanPick(fibers[f], caller, rand, |workers|)
      modifies this`fibers
      ensures choice == Pick(old(fibers)[f], caller, rand).0
      ensures State() == old(State()).(fibers :=
        old(fibers)[f := old(fibers)[f].(affinityArray := Pick(old(fibers)[f], caller, rand).1)])
    {
      var fib := fibers[f];
      ghost var before := fibers;
      if caller.None? || caller.value !in fib.affinity {
        var arr := fib.affinityArray;
        if |arr| > 1 {
          arr := arr[rand := arr[0]][0 := arr[rand]];
        }
        fibers := fibers[f := fib.(affinityArray := arr)];
        choice := arr[0];
      } else {
        choice := caller.value;
        assert before[f := fib.(affinityArray := fib.affinityArray)] == before;
      }
    }

    method LaunchFiber(affinity: set<nat>, caller: Option<nat>, rand: nat) returns (id: nat)
      requires CanPick(NewFiber(affinity, |workers|), caller, rand, |workers|)
      modifies this
      ensures id == old(nextId) && State() == Launch(old(State()), affinity, caller, rand)
    {
      var arr: seq<nat> := [];
      for b := 0 to |workers|
        invariant arr == Allowed(affinity, b)
        invariant State() == old(State())
      {
        if b in affinity { arr := arr + [b]; }
      }
      id := nextId;
      nextId := nextId + 1;
      fibers := fibers[id := Fiber(affinity, arr, false, false, true, false, None, true, None, false)];
      ghost var fib := fibers[id];
      fibersActive := fibersActive + 1;
      var choice := PickFiberWorker(id, caller, rand);
      assert fibers == old(fibers)[id := fib.(affinityArray := Pick(fib, caller, rand).1)];
      ActiveQueueInsertTail(choice, id);
    }

    method YieldToFiber(w: nat, next: Option<nat>)
      requires w < |workers|
      requires workers[w].cur.Some? ==> workers[w].cur.value in fibers
      requires next.Some? ==> next.value in fibers
      modifies this`workers, this`fibers
      ensures State() == YieldTo(old(State()), w, next)
    {
      var cur := workers[w].cur;
      if next.Some? {
        workers := workers[w := workers[w].(prev := cur, cur := next)];
        if cur.Some? { fibers := fibers[cur.value := fibers[cur.value].(saved := true)]; }
        fibers := fibers[next.value := fibers[next.value].(saved := false, priority := false)];
      } else if cur.Some? && (fibers[cur.value].terminate || fibers[cur.value].descheduled) {
        workers := workers[w := workers[w].(prev := cur, cur := None)];
        fibers := fibers[cur.value := fibers[cur.value].(saved := true)];
      }
    }

    method Yield(w: nat)
      requires w < |workers|
      requires workers[w].cur.Some? ==> workers[w].cur.value in fibers
      requires forall f :: f in workers[w].Line() ==> f in fibers
      modifies this`workers, this`fibers
      ensures State() == Switch(old(State()), w)
    {
      ghost var line := workers[w].Line();
      RemoveTakesFirst(workers[w]);
      var next := ActiveQueueRemove(w);
      assert next.Some? ==> line[0] == next.value;
      YieldToFiber(w, next);
    }

    method RescheduleFiber(w: nat, f: nat)
      requires w < |workers| && f in fibers
      modifies this
      ensures State() == Reschedule(old(State()), w, f)
    {
      var fib := fibers[f];
      if !fib.terminate && !fib.descheduled {
        if !fib.priority { ActiveQueueInsertTail(w, f); } else { ActiveQueueInsertHead(w, f); }
      } else if fib.descheduled {
        fib := fib.(descheduled := false, scheduleable := false, leaving := false);
        if fib.descheduleLock.Some? { mutexes := mutexes - {fib.descheduleLock.value}; }
        fib := fib.(descheduleLock := None);
        fibers := fibers[f := fib];
      } else {
        fibers := fibers - {f};
        fibersActive := fibersActive - 1;
      }
    }

    /** The part of yield_to and of the trampoline that runs after the jump. */
    method AfterJump(w: nat)
      requires w < |workers| && workers[w].prev.Some? && workers[w].prev.value in fibers
      modifies this
      ensures State() == CleanUp(old(State()), w)
    {
      RescheduleFiber(w, workers[w].prev.value);
      workers := workers[w := workers[w].(prev := None)];
    }

    method DescheduleSelf(w: nat, lock: nat)
      requires w < |workers| && workers[w].cur.Some? && workers[w].cur.value in fibers
      modifies this`fibers
      ensures State() == Deschedule(old(State()), workers[w].cur.value, lock)
    {
      var f := workers[w].cur.value;
      fibers := fibers[f := fibers[f].(descheduleLock := Some(lock), guard := Some(lock))];
      fibers := fibers[f := fibers[f].(descheduled := true, leaving := true)];
      assert fibers == old(fibers)[f := Departing(old(fibers)[f], lock)];
    }

    /** schedule_tid with nothing else happening between its two halves. */
    method ScheduleTid(f: nat, priority: bool, caller: Option<nat>, rand: nat)
      requires f in fibers && CanPick(fibers[f], caller, rand, |workers|)
      requires !fibers[f].descheduled
      modifies this
      ensures old(fibers[f].scheduleable) ==> State() == old(State())
      ensures !old(fibers[f].scheduleable) ==>
        State() == Put(Take(old(State()), f, priority), |old(hands)|, caller, rand)
    {
      ghost var taken := Take(State(), f, priority);
      ghost var was := hands;
      if !fibers[f].scheduleable {
        fibers := fibers[f := fibers[f].(scheduleable := true, priority := priority)];
        assert taken.hands[..|was|] + taken.hands[|was| + 1..] == was;
        var choice := PickFiberWorker(f, caller, rand);
        RescheduleFiber(choice, f);
      }
    }
  }
}
