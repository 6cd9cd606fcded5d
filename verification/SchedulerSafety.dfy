/** In every run each live fiber is in exactly one place, and no wake-up is lost or doubled. */
module SchedulerSafety {
  import opened Prelude
  import opened FiberScheduler

  /** On a worker's queues, running there, just switched out there, taken by a waker, or descheduled. */
  datatype Place = Queued(w: nat) | Running(w: nat) | Leaving(w: nat) | InHand | Parked

  type Places = map<nat, Place>

  ghost function At(p: Places, pl: Place): set<nat> { set f | f in p && p[f] == pl }

  ghost predicate ArrayOk(fib: Fiber, nworkers: nat) {
    0 < |fib.affinityArray|
    && forall k :: 0 <= k < |fib.affinityArray| ==>
         fib.affinityArray[k] < nworkers && fib.affinityArray[k] in fib.affinity
  }

  ghost predicate FiberOk(s: Sched, f: nat, pl: Place)
    requires f in s.fibers
  {
    var fib := s.fibers[f];
    && ArrayOk(fib, |s.workers|)
    && (fib.scheduleable <==> !pl.Parked?)
    && (fib.saved <==> !pl.Running?)
    && (pl.Queued? || pl.InHand? || pl.Parked? ==> !fib.terminate && !fib.descheduled)
    && (fib.leaving <==> fib.terminate || fib.descheduled)
    && (pl.Queued? || pl.Running? || pl.Leaving? ==> pl.w < |s.workers| && pl.w in fib.affinity)
    && (pl.Running? ==> s.workers[pl.w].cur == Some(f))
    && (pl.Leaving? ==> s.workers[pl.w].prev == Some(f))
    && (fib.descheduled ==>
          !fib.terminate && fib.guard.Some? && fib.descheduleLock == fib.guard
          && Holds(s, ByFiber(f), fib.guard.value))
  }

  ghost predicate WorkerOk(s: Sched, p: Places, w: nat)
    requires w < |s.workers|
  {
    var wk := s.workers[w];
    && multiset(wk.Line()) == multiset(At(p, Queued(w)))
    && (wk.cur.Some? ==> wk.cur.value in p && p[wk.cur.value] == Running(w))
    && (wk.prev.Some? ==> wk.prev.value in p && p[wk.prev.value] == Leaving(w))
  }

  ghost predicate Placed(s: Sched, p: Places) {
    && p.Keys == s.fibers.Keys
    && (forall f :: f in s.fibers ==> f < s.nextId)
    && (forall f {:trigger FiberOk(s, f, p[f])} :: f in s.fibers ==> FiberOk(s, f, p[f]))
    && (forall w {:trigger WorkerOk(s, p, w)} :: 0 <= w < |s.workers| ==> WorkerOk(s, p, w))
    && multiset(s.hands) == multiset(At(p, InHand))
    && s.fibersActive == |s.fibers|
  }

  lemma LineMembers(s: Sched, p: Places, w: nat)
    requires Placed(s, p) && w < |s.workers|
    ensures forall f :: f in s.workers[w].Line() <==> f in p && p[f] == Queued(w)
  {
    assert WorkerOk(s, p, w);
    forall f ensures f in s.workers[w].Line() <==> f in p && p[f] == Queued(w) {
      assert f in s.workers[w].Line() <==> f in multiset(s.workers[w].Line());
      assert f in multiset(At(p, Queued(w))) <==> f in At(p, Queued(w));
    }
  }

  lemma HandMembers(s: Sched, p: Places)
    requires Placed(s, p)
    ensures forall f :: f in s.hands <==> f in p && p[f] == InHand
  {
    forall f ensures f in s.hands <==> f in p && p[f] == InHand {
      assert f in s.hands <==> f in multiset(s.hands);
      assert f in multiset(At(p, InHand)) <==> f in At(p, InHand);
    }
  }

  // ---- moving one fiber: lift it from where it is, then put it down ----

  /** Everything is placed except `f`, which is nowhere for the moment. */
  ghost predicate PlacedBut(s: Sched, p: Places, f: nat) {
    && f in s.fibers && f < s.nextId && p.Keys == s.fibers.Keys - {f}
    && (forall g :: g in p ==> g < s.nextId)
    && (forall g {:trigger FiberOk(s, g, p[g])} :: g in p ==> FiberOk(s, g, p[g]))
    && (forall w {:trigger WorkerOk(s, p, w)} :: 0 <= w < |s.workers| ==> WorkerOk(s, p, w))
    && multiset(s.hands) == multiset(At(p, InHand))
    && s.fibersActive == |s.fibers|
  }

  lemma AtWithout(p: Places, f: nat, pl: Place)
    ensures At(p - {f}, pl) == At(p, pl) - {f}
    ensures f in p && p[f] == pl ==> multiset(At(p - {f}, pl)) == multiset(At(p, pl)) - multiset{f}
    ensures !(f in p && p[f] == pl) ==> At(p - {f}, pl) == At(p, pl)
  {
  }

  lemma AtWith(p: Places, f: nat, to: Place, pl: Place)
    requires f !in p
    ensures pl == to ==> multiset(At(p[f := to], pl)) == multiset(At(p, pl)) + multiset{f}
    ensures pl != to ==> At(p[f := to], pl) == At(p, pl)
  {
    if pl == to { assert At(p[f := to], pl) == At(p, pl) + {f}; }
  }

  /** `b` is worker `v` of `a`'s state with `f` taken away from `pl`. */
  ghost predicate WorkerWithout(a: Worker, b: Worker, f: nat, pl: Place, v: nat) {
    && multiset(b.Line()) == (if pl == Queued(v) then multiset(a.Line()) - multiset{f} else multiset(a.Line()))
    && b.cur == (if pl == Running(v) then None else a.cur)
    && b.prev == (if pl == Leaving(v) then None else a.prev)
  }

  ghost predicate WithoutFiber(s: Sched, t: Sched, f: nat, pl: Place) {
    && t == s.(workers := t.workers, hands := t.hands) && |t.workers| == |s.workers|
    && multiset(t.hands) == (if pl.InHand? then multiset(s.hands) - multiset{f} else multiset(s.hands))
    && (forall v {:trigger WorkerWithout(s.workers[v], t.workers[v], f, pl, v)} ::
          0 <= v < |s.workers| ==> WorkerWithout(s.workers[v], t.workers[v], f, pl, v))
  }

  lemma LiftWorker(s: Sched, t: Sched, p: Places, f: nat, pl: Place, v: nat)
    requires f in p && p[f] == pl && v < |s.workers| && v < |t.workers| && WorkerOk(s, p, v)
    requires WorkerWithout(s.workers[v], t.workers[v], f, pl, v)
    ensures WorkerOk(t, p - {f}, v)
  {
    AtWithout(p, f, Queued(v));
  }

  lemma LiftFiber(s: Sched, t: Sched, p: Places, f: nat, pl: Place, g: nat)
    requires Placed(s, p) && f in p && p[f] == pl && WithoutFiber(s, t, f, pl) && g in p && g != f
    ensures FiberOk(t, g, p[g])
  {
    assert FiberOk(s, g, p[g]) && FiberOk(s, f, pl);
    if p[g].Running? || p[g].Leaving? {
      assert WorkerWithout(s.workers[p[g].w], t.workers[p[g].w], f, pl, p[g].w);
    }
  }

  lemma Lift(s: Sched, t: Sched, p: Places, f: nat, pl: Place)
    requires Placed(s, p) && f in p && p[f] == pl && WithoutFiber(s, t, f, pl)
    ensures PlacedBut(t, p - {f}, f)
  {
    forall v | 0 <= v < |t.workers| ensures WorkerOk(t, p - {f}, v) {
      assert WorkerOk(s, p, v) && WorkerWithout(s.workers[v], t.workers[v], f, pl, v);
      LiftWorker(s, t, p, f, pl, v);
    }
    forall g | g in p - {f} ensures FiberOk(t, g, p[g]) { LiftFiber(s, t, p, f, pl, g); }
    AtWithout(p, f, InHand);
  }

  /** While `f` is nowhere its own record may change, and so may mutexes that no descheduling fiber holds. */
  lemma ChangeLifted(s: Sched, p: Places, f: nat, fib: Fiber)
    requires PlacedBut(s, p, f)
    ensures PlacedBut(s.(fibers := s.fibers[f := fib]), p, f)
  {
    var t := s.(fibers := s.fibers[f := fib]);
    assert t.fibers.Keys == s.fibers.Keys;
    assert |t.fibers| == |t.fibers.Keys| && |s.fibers| == |s.fibers.Keys|;
    forall g | g in p ensures FiberOk(t, g, p[g]) { assert FiberOk(s, g, p[g]); }
    forall v | 0 <= v < |t.workers| ensures WorkerOk(t, p, v) { assert WorkerOk(s, p, v); }
  }

  lemma DropLine(a: Worker, b: Worker, p: Places, f: nat, pl: Place, v: nat)
    requires f !in p && multiset(a.Line()) == multiset(At(p, Queued(v)))
    requires multiset(a.Line()) == if pl == Queued(v) then multiset(b.Line()) - multiset{f} else multiset(b.Line())
    requires pl == Queued(v) ==> f in multiset(b.Line())
    ensures multiset(b.Line()) == multiset(At(p[f := pl], Queued(v)))
  {
    AtWith(p, f, pl, Queued(v));
    if pl == Queued(v) { assert multiset(b.Line()) == multiset(a.Line()) + multiset{f}; }
  }

  /** The fibers a worker runs and is leaving are placed there. */
  ghost predicate EndsOk(wk: Worker, p: Places, v: nat) {
    && (wk.cur.Some? ==> wk.cur.value in p && p[wk.cur.value] == Running(v))
    && (wk.prev.Some? ==> wk.prev.value in p && p[wk.prev.value] == Leaving(v))
  }

  lemma DropEnds(a: Worker, b: Worker, p: Places, f: nat, pl: Place, v: nat)
    requires f !in p && EndsOk(a, p, v)
    requires a.cur == (if pl == Running(v) then None else b.cur) && (pl == Running(v) ==> b.cur == Some(f))
    requires a.prev == (if pl == Leaving(v) then None else b.prev) && (pl == Leaving(v) ==> b.prev == Some(f))
    ensures EndsOk(b, p[f := pl], v)
  {
  }

  lemma DropWorker(s: Sched, t: Sched, p: Places, f: nat, pl: Place, v: nat)
    requires f !in p && v < |s.workers| == |t.workers| && WorkerOk(s, p, v)
    requires WorkerWithout(t.workers[v], s.workers[v], f, pl, v)
    requires pl == Queued(v) ==> f in multiset(t.workers[v].Line())
    requires pl == Running(v) ==> t.workers[v].cur == Some(f)
    requires pl == Leaving(v) ==> t.workers[v].prev == Some(f)
    ensures WorkerOk(t, p[f := pl], v)
  {
    DropLine(s.workers[v], t.workers[v], p, f, pl, v);
    DropEnds(s.workers[v], t.workers[v], p, f, pl, v);
  }

  lemma DropFiber(s: Sched, t: Sched, p: Places, f: nat, pl: Place, g: nat)
    requires PlacedBut(s, p, f) && WithoutFiber(t, s, f, pl) && g in p
    requires pl.Running? ==> pl.w < |s.workers| && t.workers[pl.w].cur == Some(f)
    requires pl.Leaving? ==> pl.w < |s.workers| && t.workers[pl.w].prev == Some(f)
    ensures FiberOk(t, g, p[g])
  {
    assert FiberOk(s, g, p[g]);
    if p[g].Running? || p[g].Leaving? {
      assert WorkerWithout(t.workers[p[g].w], s.workers[p[g].w], f, pl, p[g].w);
    }
  }

  lemma DropHands(s: Sched, t: Sched, p: Places, f: nat, pl: Place)
    requires f !in p && multiset(s.hands) == multiset(At(p, InHand))
    requires multiset(s.hands) == (if pl.InHand? then multiset(t.hands) - multiset{f} else multiset(t.hands))
    requires pl.InHand? ==> f in multiset(t.hands)
    ensures multiset(t.hands) == multiset(At(p[f := pl], InHand))
  {
    AtWith(p, f, pl, InHand);
  }

  /** Put `f` down at `pl`: `s` is `t` with `f` taken away from there. */
  lemma Drop(s: Sched, t: Sched, p: Places, f: nat, pl: Place)
    requires PlacedBut(s, p, f) && WithoutFiber(t, s, f, pl) && FiberOk(t, f, pl)
    requires pl.Queued? ==> f in multiset(t.workers[pl.w].Line())
    requires pl.InHand? ==> f in multiset(t.hands)
    ensures Placed(t, p[f := pl])
  {
    var q := p[f := pl];
    assert q.Keys == t.fibers.Keys;
    forall v | 0 <= v < |t.workers| ensures WorkerOk(t, q, v) {
      assert WorkerOk(s, p, v) && WorkerWithout(t.workers[v], s.workers[v], f, pl, v);
      DropWorker(s, t, p, f, pl, v);
    }
    forall g | g in t.fibers ensures g < t.nextId && FiberOk(t, g, q[g]) {
      if g != f { DropFiber(s, t, p, f, pl, g); }
    }
    DropHands(s, t, p, f, pl);
  }

  lemma Destroy(s: Sched, p: Places, f: nat)
    requires PlacedBut(s, p, f)
    ensures Placed(s.(fibers := s.fibers - {f}, fibersActive := s.fibersActive - 1), p)
  {
    var t := s.(fibers := s.fibers - {f}, fibersActive := s.fibersActive - 1);
    assert t.fibers.Keys == s.fibers.Keys - {f};
    assert |t.fibers.Keys| == |s.fibers.Keys| - 1;
    assert |t.fibers| == |t.fibers.Keys| && |s.fibers| == |s.fibers.Keys|;
    forall g | g in t.fibers ensures FiberOk(t, g, p[g]) { assert FiberOk(s, g, p[g]); }
    forall v | 0 <= v < |t.workers| ensures WorkerOk(t, p, v) { assert WorkerOk(s, p, v); }
  }

  /** A placed fiber's record changes where it stands. */
  lemma ChangeInPlace(s: Sched, p: Places, f: nat, fib: Fiber)
    requires Placed(s, p) && f in p && FiberOk(s.(fibers := s.fibers[f := fib]), f, p[f])
    ensures Placed(s.(fibers := s.fibers[f := fib]), p)
  {
    var t := s.(fibers := s.fibers[f := fib]);
    assert t.fibers.Keys == s.fibers.Keys;
    assert |t.fibers| == |t.fibers.Keys| && |s.fibers| == |s.fibers.Keys|;
    forall g | g in t.fibers ensures FiberOk(t, g, p[g]) { assert FiberOk(s, g, p[g]); }
    forall v | 0 <= v < |t.workers| ensures WorkerOk(t, p, v) { assert WorkerOk(s, p, v); }
  }

  // ---- each operation ----

  lemma {:induction false} AllowedOk(affinity: set<nat>, nworkers: nat)
    ensures forall k :: 0 <= k < |Allowed(affinity, nworkers)| ==>
      Allowed(affinity, nworkers)[k] < nworkers && Allowed(affinity, nworkers)[k] in affinity
    ensures (exists w :: w in affinity && w < nworkers) ==> 0 < |Allowed(affinity, nworkers)|
  {
    if nworkers > 0 { AllowedOk(affinity, nworkers - 1); }
  }

  /** The picked worker is always an allowed one, and the list of allowed workers stays what it was. */
  lemma PickIsAllowed(fib: Fiber, caller: Option<nat>, rand: nat, nworkers: nat)
    requires ArrayOk(fib, nworkers) && rand < |fib.affinityArray| && (caller.Some? ==> caller.value < nworkers)
    ensures var (w, arr) := Pick(fib, caller, rand);
      && w < nworkers && w in fib.affinity && ArrayOk(fib.(affinityArray := arr), nworkers)
      && multiset(arr) == multiset(fib.affinityArray)
    ensures CanPick(fib, caller, rand, nworkers)
    ensures caller.Some? && caller.value in fib.affinity ==> Pick(fib, caller, rand).0 == caller.value
  {
  }

  lemma EnqueueKeeps(s: Sched, p: Places, f: nat, w: nat, head: bool)
    requires PlacedBut(s, p, f) && w < |s.workers| && FiberOk(s, f, Queued(w))
    ensures Placed(Enqueue(s, w, f, head), p[f := Queued(w)])
  {
    var t := Enqueue(s, w, f, head);
    var wk := s.workers[w];
    EnqueueAdds(wk, f);
    forall v | 0 <= v < |t.workers| ensures WorkerWithout(t.workers[v], s.workers[v], f, Queued(w), v) {
      if v == w { assert multiset(t.workers[w].Line()) == multiset(wk.Line()) + multiset{f}; }
    }
    Drop(s, t, p, f, Queued(w));
  }

  lemma EnqueueAdds(wk: Worker, f: nat)
    ensures multiset(wk.(prio := wk.prio.(incoming := wk.prio.incoming + [f])).Line())
      == multiset(wk.Line()) + multiset{f}
    ensures multiset(wk.(aff := wk.aff.(incoming := wk.aff.incoming + [f])).Line()) == multiset(wk.Line()) + multiset{f}
  {
    var a := wk.(prio := wk.prio.(incoming := wk.prio.incoming + [f]));
    assert a.Line() == wk.prio.popped + wk.prio.incoming + [f] + wk.aff.All();
    assert wk.Line() == wk.prio.popped + wk.prio.incoming + wk.aff.All();
    var b := wk.(aff := wk.aff.(incoming := wk.aff.incoming + [f]));
    assert b.Line() == wk.Line() + [f];
  }

  /** A fiber's record, the workers and the mutexes are all that matters. */
  lemma SameFiber(s: Sched, t: Sched, g: nat, pl: Place)
    requires g in s.fibers && g in t.fibers && FiberOk(s, g, pl)
    requires t.fibers[g] == s.fibers[g] && t.workers == s.workers && t.mutexes == s.mutexes
    ensures FiberOk(t, g, pl)
  {
  }

  lemma OneMoreFiber(fibers: map<nat, Fiber>, f: nat, fib: Fiber)
    requires f !in fibers
    ensures fibers[f := fib].Keys == fibers.Keys + {f} && |fibers[f := fib]| == |fibers| + 1
    ensures fibers[f := fib].Keys - {f} == fibers.Keys
  {
    assert |fibers[f := fib]| == |fibers[f := fib].Keys| && |fibers| == |fibers.Keys|;
  }

  function WithNew(s: Sched, fib: Fiber): Sched {
    s.(fibers := s.fibers[s.nextId := fib], nextId := s.nextId + 1, fibersActive := s.fibersActive + 1)
  }

  lemma NewbornFibers(s: Sched, p: Places, fib: Fiber)
    requires Placed(s, p)
    ensures var t := WithNew(s, fib);
      forall g {:trigger FiberOk(t, g, p[g])} :: g in p ==> g in t.fibers && FiberOk(t, g, p[g])
  {
    var t := WithNew(s, fib);
    forall g | g in p ensures g in t.fibers && FiberOk(t, g, p[g]) {
      assert FiberOk(s, g, p[g]);
      SameFiber(s, t, g, p[g]);
    }
  }

  lemma NewbornCounts(s: Sched, p: Places, fib: Fiber)
    requires Placed(s, p)
    ensures var t := WithNew(s, fib);
      && s.nextId in t.fibers && p.Keys == t.fibers.Keys - {s.nextId} && t.fibersActive == |t.fibers|
      && forall g :: g in p ==> g < t.nextId
  {
    assert s.nextId !in s.fibers;
    OneMoreFiber(s.fibers, s.nextId, fib);
  }

  /** A fiber that has just been allocated is not anywhere yet. */
  lemma Newborn(s: Sched, p: Places, fib: Fiber)
    requires Placed(s, p)
    ensures PlacedBut(WithNew(s, fib), p, s.nextId)
  {
    NewbornFibers(s, p, fib);
    NewbornCounts(s, p, fib);
    var t := WithNew(s, fib);
    forall v | 0 <= v < |t.workers| ensures WorkerOk(t, p, v) { assert WorkerOk(s, p, v); }
  }

  /** Launching is queueing a fresh fiber on an allowed worker. */
  lemma LaunchIsEnqueue(s: Sched, affinity: set<nat>, caller: Option<nat>, rand: nat) returns (fib: Fiber, w: nat)
    requires CanPick(NewFiber(affinity, |s.workers|), caller, rand, |s.workers|)
    ensures w < |s.workers| && w in fib.affinity && ArrayOk(fib, |s.workers|)
    ensures fib.scheduleable && fib.saved && !fib.terminate && !fib.descheduled && !fib.leaving
    ensures Launch(s, affinity, caller, rand) ==
      Enqueue(WithNew(s, fib), w, s.nextId, false)
  {
    var born := NewFiber(affinity, |s.workers|);
    AllowedOk(affinity, |s.workers|);
    PickIsAllowed(born, caller, rand, |s.workers|);
    w := Pick(born, caller, rand).0;
    fib := born.(affinityArray := Pick(born, caller, rand).1);
  }

  /** A new fiber with its list of workers is queued on one of them. */
  lemma LaunchOn(s: Sched, p: Places, fib: Fiber, w: nat)
    requires Placed(s, p) && ArrayOk(fib, |s.workers|) && w < |s.workers| && w in fib.affinity
    requires fib.scheduleable && fib.saved && !fib.terminate && !fib.descheduled && !fib.leaving
    ensures Placed(Enqueue(WithNew(s, fib),
                           w, s.nextId, false), p[s.nextId := Queued(w)])
  {
    Newborn(s, p, fib);
    var s1 := WithNew(s, fib);
    EnqueueKeeps(s1, p, s.nextId, w, false);
  }

  lemma LaunchKeeps(s: Sched, p: Places, affinity: set<nat>, caller: Option<nat>, rand: nat) returns (q: Places)
    requires Placed(s, p) && Enabled(s, DoLaunch(affinity, caller, rand))
    ensures Placed(Launch(s, affinity, caller, rand), q)
  {
    var fib, w := LaunchIsEnqueue(s, affinity, caller, rand);
    LaunchOn(s, p, fib, w);
    q := p[s.nextId := Queued(w)];
  }

  lemma RescheduleKeeps(s: Sched, p: Places, f: nat, w: nat) returns (q: Places)
    requires PlacedBut(s, p, f) && w < |s.workers|
    requires FiberOk(s.(workers := s.workers[w := s.workers[w].(prev := Some(f))]), f, Leaving(w))
    ensures Placed(Reschedule(s, w, f), q)
    ensures !s.fibers[f].terminate && !s.fibers[f].descheduled ==> q == p[f := Queued(w)]
    ensures s.fibers[f].descheduled ==> q == p[f := Parked]
  {
    var fib := s.fibers[f];
    if !fib.terminate && !fib.descheduled {
      EnqueueKeeps(s, p, f, w, fib.priority);
      q := p[f := Queued(w)];
    } else if fib.descheduled {
      var gone := fib.(descheduled := false, scheduleable := false, descheduleLock := None, leaving := false);
      ChangeLifted(s, p, f, gone);
      var s1 := s.(fibers := s.fibers[f := gone]);
      var s2 := s1.(mutexes := s.mutexes - {fib.descheduleLock.value});
      forall g | g in p ensures FiberOk(s2, g, p[g]) { assert FiberOk(s1, g, p[g]); }
      forall v | 0 <= v < |s2.workers| ensures WorkerOk(s2, p, v) { assert WorkerOk(s1, p, v); }
      Drop(s2, s2, p, f, Parked);
      q := p[f := Parked];
    } else {
      Destroy(s, p, f);
      q := p;
    }
  }

  lemma CleanUpKeeps(s: Sched, p: Places, w: nat) returns (q: Places)
    requires Placed(s, p) && Enabled(s, DoCleanUp(w))
    ensures Placed(CleanUp(s, w), q)
  {
    var f := s.workers[w].prev.value;
    var s1 := s.(workers := s.workers[w := s.workers[w].(prev := None)]);
    assert WorkerOk(s, p, w) && FiberOk(s, f, p[f]);
    forall v | 0 <= v < |s.workers| ensures WorkerWithout(s.workers[v], s1.workers[v], f, Leaving(w), v) {
      assert s1.workers[v].Line() == s.workers[v].Line();
    }
    Lift(s, s1, p, f, Leaving(w));
    assert s1.(workers := s1.workers[w := s1.workers[w].(prev := Some(f))]) == s;
    q := RescheduleKeeps(s1, p - {f}, f, w);
    CleanUpOrder(s, w);
  }

  /** Clearing `prev_fiber` before or after rescheduling makes no difference to the outcome. */
  lemma CleanUpOrder(s: Sched, w: nat)
    requires w < |s.workers| && s.workers[w].prev.Some? && s.workers[w].prev.value in s.fibers
    ensures CleanUp(s, w)
      == Reschedule(s.(workers := s.workers[w := s.workers[w].(prev := None)]), w, s.workers[w].prev.value)
  {
    var f := s.workers[w].prev.value;
    var a := CleanUp(s, w);
    var b := Reschedule(s.(workers := s.workers[w := s.workers[w].(prev := None)]), w, f);
    assert a.workers == b.workers;
  }

  lemma LiftCurrent(s: Sched, p: Places, w: nat)
    requires Placed(s, p) && w < |s.workers| && s.workers[w].cur.Some?
    ensures var f := s.workers[w].cur.value;
      && f in s.fibers && f in p && p[f] == Running(w) && FiberOk(s, f, Running(w))
      && PlacedBut(s.(workers := s.workers[w := s.workers[w].(cur := None)]), p - {f}, f)
  {
    var f := s.workers[w].cur.value;
    assert WorkerOk(s, p, w) && FiberOk(s, f, p[f]);
    var s1 := s.(workers := s.workers[w := s.workers[w].(cur := None)]);
    forall v | 0 <= v < |s.workers| ensures WorkerWithout(s.workers[v], s1.workers[v], f, Running(w), v) {
      assert s1.workers[v].Line() == s.workers[v].Line();
    }
    Lift(s, s1, p, f, Running(w));
  }

  lemma DropLeaving(s: Sched, p: Places, f: nat, w: nat)
    requires PlacedBut(s, p, f) && w < |s.workers| && s.workers[w].prev.None?
    requires FiberOk(s.(workers := s.workers[w := s.workers[w].(prev := Some(f))]), f, Leaving(w))
    ensures Placed(s.(workers := s.workers[w := s.workers[w].(prev := Some(f))]), p[f := Leaving(w)])
  {
    var t := s.(workers := s.workers[w := s.workers[w].(prev := Some(f))]);
    forall v | 0 <= v < |t.workers| ensures WorkerWithout(t.workers[v], s.workers[v], f, Leaving(w), v) {
      assert t.workers[v].Line() == s.workers[v].Line();
    }
    Drop(s, t, p, f, Leaving(w));
  }

  lemma DropRunning(s: Sched, p: Places, f: nat, w: nat)
    requires PlacedBut(s, p, f) && w < |s.workers| && s.workers[w].cur.None?
    requires FiberOk(s.(workers := s.workers[w := s.workers[w].(cur := Some(f))]), f, Running(w))
    ensures Placed(s.(workers := s.workers[w := s.workers[w].(cur := Some(f))]), p[f := Running(w)])
  {
    var t := s.(workers := s.workers[w := s.workers[w].(cur := Some(f))]);
    forall v | 0 <= v < |t.workers| ensures WorkerWithout(t.workers[v], s.workers[v], f, Running(w), v) {
      assert t.workers[v].Line() == s.workers[v].Line();
    }
    Drop(s, t, p, f, Running(w));
  }

  lemma FirstOut(line: seq<nat>, rest: seq<nat>, f: nat)
    requires line == [f] + rest
    ensures multiset(rest) == multiset(line) - multiset{f}
  {
  }

  lemma LiftFirst(s: Sched, p: Places, w: nat, wk: Worker, g: nat)
    requires Placed(s, p) && w < |s.workers| && s.workers[w].Line() == [g] + wk.Line()
    requires wk.cur == s.workers[w].cur && wk.prev == s.workers[w].prev
    ensures g in s.fibers && g in p && p[g] == Queued(w) && FiberOk(s, g, Queued(w))
    ensures PlacedBut(s.(workers := s.workers[w := wk]), p - {g}, g)
  {
    LineMembers(s, p, w);
    assert g in s.workers[w].Line();
    assert FiberOk(s, g, p[g]);
    var s1 := s.(workers := s.workers[w := wk]);
    FirstOut(s.workers[w].Line(), wk.Line(), g);
    forall v | 0 <= v < |s.workers| ensures WorkerWithout(s.workers[v], s1.workers[v], g, Queued(w), v) {
      if v != w { assert s1.workers[v] == s.workers[v]; }
    }
    Lift(s, s1, p, g, Queued(w));
  }

  /** The running fiber is left behind: its context is saved, and it is not on any queue yet. */
  lemma LeaveKeeps(s: Sched, p: Places, w: nat)
    requires Placed(s, p) && w < |s.workers| && s.workers[w].cur.Some? && s.workers[w].prev.None?
    ensures var f := s.workers[w].cur.value;
      && f in s.fibers && f in p && p[f] == Running(w)
      && Placed(s.(workers := s.workers[w := s.workers[w].(prev := Some(f), cur := None)],
                   fibers := s.fibers[f := s.fibers[f].(saved := true)]), p[f := Leaving(w)])
  {
    LiftCurrent(s, p, w);
    var f := s.workers[w].cur.value;
    var s1 := s.(workers := s.workers[w := s.workers[w].(cur := None)]);
    var fib := s.fibers[f].(saved := true);
    ChangeLifted(s1, p - {f}, f, fib);
    var s2 := s1.(fibers := s1.fibers[f := fib]);
    DropLeaving(s2, p - {f}, f, w);
    assert (p - {f})[f := Leaving(w)] == p[f := Leaving(w)];
    assert s2.workers[w := s2.workers[w].(prev := Some(f))]
      == s.workers[w := s.workers[w].(prev := Some(f), cur := None)];
  }

  /** The first fiber of the line starts running. */
  lemma EnterKeeps(s: Sched, p: Places, w: nat, wk: Worker, g: nat)
    requires Placed(s, p) && w < |s.workers| && s.workers[w].cur.None? && s.workers[w].Line() == [g] + wk.Line()
    requires wk.cur == s.workers[w].cur && wk.prev == s.workers[w].prev
    ensures g in s.fibers && g in p && p[g] == Queued(w)
      && Placed(s.(workers := s.workers[w := wk.(cur := Some(g))],
                   fibers := s.fibers[g := s.fibers[g].(saved := false, priority := false)]), p[g := Running(w)])
  {
    LiftFirst(s, p, w, wk, g);
    var s1 := s.(workers := s.workers[w := wk]);
    var fib := s.fibers[g].(saved := false, priority := false);
    ChangeLifted(s1, p - {g}, g, fib);
    var s2 := s1.(fibers := s1.fibers[g := fib]);
    DropRunning(s2, p - {g}, g, w);
    assert (p - {g})[g := Running(w)] == p[g := Running(w)];
    assert s2.workers[w := s2.workers[w].(cur := Some(g))] == s.workers[w := wk.(cur := Some(g))];
  }

  lemma SwitchKeeps(s: Sched, p: Places, w: nat) returns (q: Places)
    requires Placed(s, p) && Enabled(s, DoSwitch(w))
    ensures Placed(Switch(s, w), q)
  {
    RemoveTakesFirst(s.workers[w]);
    var (wk, next) := Remove(s.workers[w]);
    var cur := s.workers[w].cur;
    if next.None? {
      var s1 := s.(workers := s.workers[w := wk]);
      SameLine(s, p, w, wk);
      if cur.Some? && (s.fibers[cur.value].terminate || s.fibers[cur.value].descheduled) {
        LeaveKeeps(s1, p, w);
        q := p[cur.value := Leaving(w)];
        assert s1.workers[w := wk.(prev := cur, cur := None)]
            == s.workers[w := wk][w := wk.(prev := cur, cur := None)];
      } else {
        q := p;
      }
    } else if cur.None? {
      EnterKeeps(s, p, w, wk, next.value);
      q := p[next.value := Running(w)];
      assert s.workers[w := wk][w := wk.(prev := cur, cur := next)] == s.workers[w := wk.(cur := next)];
    } else {
      q := SwapKeeps(s, p, w, wk, next.value);
    }
  }

  /** Taking the lock-free part of a queue over into the private list moves no fiber. */
  lemma SameLine(s: Sched, p: Places, w: nat, wk: Worker)
    requires Placed(s, p) && w < |s.workers| && wk.Line() == s.workers[w].Line()
    requires wk.cur == s.workers[w].cur && wk.prev == s.workers[w].prev
    ensures Placed(s.(workers := s.workers[w := wk]), p)
  {
    var t := s.(workers := s.workers[w := wk]);
    forall g | g in t.fibers ensures FiberOk(t, g, p[g]) { assert FiberOk(s, g, p[g]); }
    forall v | 0 <= v < |t.workers| ensures WorkerOk(t, p, v) { assert WorkerOk(s, p, v); }
  }

  lemma SwapKeeps(s: Sched, p: Places, w: nat, wk: Worker, g: nat) returns (q: Places)
    requires Placed(s, p) && w < |s.workers| && s.workers[w].cur.Some? && s.workers[w].prev.None?
    requires s.workers[w].cur.value in s.fibers && g in s.fibers
    requires s.workers[w].Line() == [g] + wk.Line() && wk.cur == s.workers[w].cur && wk.prev == s.workers[w].prev
    ensures Placed(YieldTo(s.(workers := s.workers[w := wk]), w, Some(g)), q)
  {
    var f := s.workers[w].cur.value;
    LeaveKeeps(s, p, w);
    var s1 := s.(workers := s.workers[w := s.workers[w].(prev := Some(f), cur := None)],
                 fibers := s.fibers[f := s.fibers[f].(saved := true)]);
    var wk1 := wk.(prev := Some(f), cur := None);
    assert s1.workers[w].Line() == s.workers[w].Line() && wk1.Line() == wk.Line();
    EnterKeeps(s1, p[f := Leaving(w)], w, wk1, g);
    q := p[f := Leaving(w)][g := Running(w)];
    var t := YieldTo(s.(workers := s.workers[w := wk]), w, Some(g));
    assert t.workers == s1.workers[w := wk1.(cur := Some(g))];
  }

  /** Under the wake rule the fiber is never in the middle of descheduling: the assertion in schedule_tid holds. */
  lemma WakeFindsNoHalfDescheduled(s: Sched, p: Places, a: Agent, f: nat)
    requires Placed(s, p) && CanAct(s, a) && f in s.fibers && WakeRule(s, a, f)
    ensures !s.fibers[f].descheduled
  {
    assert FiberOk(s, f, p[f]);
  }

  lemma DropInHand(s: Sched, p: Places, f: nat)
    requires PlacedBut(s, p, f) && FiberOk(s, f, InHand)
    ensures Placed(s.(hands := s.hands + [f]), p[f := InHand])
  {
    var t := s.(hands := s.hands + [f]);
    assert multiset(t.hands) == multiset(s.hands) + multiset{f};
    forall v | 0 <= v < |t.workers| ensures WorkerWithout(t.workers[v], s.workers[v], f, InHand, v) {}
    assert FiberOk(t, f, InHand);
    Drop(s, t, p, f, InHand);
  }

  lemma TakeParked(s: Sched, p: Places, f: nat, priority: bool)
    requires Placed(s, p) && f in s.fibers && p[f] == Parked
    ensures Placed(Take(s, f, priority), p[f := InHand])
  {
    assert FiberOk(s, f, p[f]);
    forall v | 0 <= v < |s.workers| ensures WorkerWithout(s.workers[v], s.workers[v], f, Parked, v) {}
    Lift(s, s, p, f, Parked);
    var fib := s.fibers[f].(descheduled := false, scheduleable := true, priority := priority);
    ChangeLifted(s, p - {f}, f, fib);
    DropInHand(s.(fibers := s.fibers[f := fib]), p - {f}, f);
    assert (p - {f})[f := InHand] == p[f := InHand];
  }

  lemma TakeKeeps(s: Sched, p: Places, a: Agent, f: nat, priority: bool) returns (q: Places)
    requires Placed(s, p) && Enabled(s, DoTake(a, f, priority))
    ensures Placed(Take(s, f, priority), q)
    ensures p[f] == Parked ==> q == p[f := InHand]
    ensures p[f] != Parked ==> q == p && Take(s, f, priority) == s
  {
    WakeFindsNoHalfDescheduled(s, p, a, f);
    assert FiberOk(s, f, p[f]);
    if p[f] == Parked {
      TakeParked(s, p, f, priority);
      q := p[f := InHand];
    } else {
      assert s.fibers[f := s.fibers[f].(descheduled := false)] == s.fibers;
      q := p;
    }
  }

  lemma LiftHand(s: Sched, p: Places, k: nat)
    requires Placed(s, p) && k < |s.hands|
    ensures var f := s.hands[k];
      && f in s.fibers && f in p && p[f] == InHand && FiberOk(s, f, InHand)
      && PlacedBut(s.(hands := Without(s.hands, k)), p - {f}, f)
  {
    HandMembers(s, p);
    var f := s.hands[k];
    assert f in s.hands;
    assert FiberOk(s, f, p[f]);
    var t := s.(hands := Without(s.hands, k));
    OneOut(s.hands, k);
    Lift(s, t, p, f, InHand);
  }

  lemma OneOut(xs: seq<nat>, k: nat)
    requires k < |xs|
    ensures multiset(xs[..k] + xs[k + 1..]) == multiset(xs) - multiset{xs[k]}
  {
    assert xs == xs[..k] + [xs[k]] + xs[k + 1..];
  }

  /** The fiber can be queued on worker `w` with its list of workers permuted to `arr`. */
  ghost predicate Queueable(fib: Fiber, nworkers: nat, arr: seq<nat>, w: nat) {
    && w < nworkers && w in fib.affinity && ArrayOk(fib.(affinityArray := arr), nworkers)
    && fib.scheduleable && fib.saved && !fib.terminate && !fib.descheduled && !fib.leaving
  }

  lemma TakenIsQueueable(s: Sched, f: nat, caller: Option<nat>, rand: nat)
    requires f in s.fibers && FiberOk(s, f, InHand) && CanPick(s.fibers[f], caller, rand, |s.workers|)
    ensures var (w, arr) := Pick(s.fibers[f], caller, rand); Queueable(s.fibers[f], |s.workers|, arr, w)
  {
    PickIsAllowed(s.fibers[f], caller, rand, |s.workers|);
  }

  /** A fiber that is nowhere gets its permuted list of workers and is queued on one of them. */
  lemma PutDownKeeps(s: Sched, p: Places, f: nat, arr: seq<nat>, w: nat) returns (q: Places)
    requires PlacedBut(s, p, f) && Queueable(s.fibers[f], |s.workers|, arr, w)
    ensures var s2 := s.(fibers := s.fibers[f := s.fibers[f].(affinityArray := arr)]);
      Placed(Reschedule(s2, w, f), q) && q == p[f := Queued(w)]
  {
    var fib := s.fibers[f].(affinityArray := arr);
    ChangeLifted(s, p, f, fib);
    var s2 := s.(fibers := s.fibers[f := fib]);
    q := RescheduleKeeps(s2, p, f, w);
  }

  lemma PutIs(s: Sched, k: nat, caller: Option<nat>, rand: nat)
    requires Enabled(s, DoPut(k, caller, rand))
    ensures var f, out := s.hands[k], s.(hands := Without(s.hands, k));
      var (w, arr) := Pick(s.fibers[f], caller, rand);
      Put(s, k, caller, rand) == Reschedule(out.(fibers := out.fibers[f := out.fibers[f].(affinityArray := arr)]), w, f)
  {
  }

  lemma PutKeeps(s: Sched, p: Places, k: nat, caller: Option<nat>, rand: nat) returns (q: Places)
    requires Placed(s, p) && Enabled(s, DoPut(k, caller, rand))
    ensures Placed(Put(s, k, caller, rand), q)
    ensures s.hands[k] in p && p[s.hands[k]] == InHand
    ensures q == p[s.hands[k] := Queued(Pick(s.fibers[s.hands[k]], caller, rand).0)]
  {
    var f := s.hands[k];
    LiftHand(s, p, k);
    TakenIsQueueable(s, f, caller, rand);
    var (w, arr) := Pick(s.fibers[f], caller, rand);
    q := PutDownKeeps(s.(hands := Without(s.hands, k)), p - {f}, f, arr, w);
    PutIs(s, k, caller, rand);
    assert (p - {f})[f := Queued(w)] == p[f := Queued(w)];
  }

  lemma MutexKeeps(s: Sched, p: Places, mutexes: map<nat, Agent>)
    requires Placed(s, p)
    requires forall f :: f in s.fibers && s.fibers[f].descheduled && s.fibers[f].guard.Some? ==>
      var m := s.fibers[f].guard.value; m in s.mutexes && m in mutexes && mutexes[m] == s.mutexes[m]
    ensures Placed(s.(mutexes := mutexes), p)
  {
    var t := s.(mutexes := mutexes);
    forall g | g in t.fibers ensures FiberOk(t, g, p[g]) { assert FiberOk(s, g, p[g]); }
    forall v | 0 <= v < |t.workers| ensures WorkerOk(t, p, v) { assert WorkerOk(s, p, v); }
  }

  lemma DescheduleKeeps(s: Sched, p: Places, w: nat, lock: nat)
    requires Placed(s, p) && Enabled(s, DoDeschedule(w, lock))
    ensures Placed(Apply(s, DoDeschedule(w, lock)), p)
  {
    var f := s.workers[w].cur.value;
    assert WorkerOk(s, p, w) && FiberOk(s, f, p[f]);
    ChangeInPlace(s, p, f, Departing(s.fibers[f], lock));
  }

  lemma ExitKeeps(s: Sched, p: Places, w: nat)
    requires Placed(s, p) && Enabled(s, DoExit(w))
    ensures Placed(Apply(s, DoExit(w)), p)
  {
    var f := s.workers[w].cur.value;
    assert WorkerOk(s, p, w) && FiberOk(s, f, p[f]);
    ChangeInPlace(s, p, f, s.fibers[f].(terminate := true, leaving := true));
  }

  lemma StepKeeps(s: Sched, p: Places, st: Step) returns (q: Places)
    requires Placed(s, p) && Enabled(s, st)
    ensures Placed(Apply(s, st), q)
  {
    match st
    case DoLaunch(affinity, caller, rand) => q := LaunchKeeps(s, p, affinity, caller, rand);
    case DoSwitch(w) => q := SwitchKeeps(s, p, w);
    case DoCleanUp(w) => q := CleanUpKeeps(s, p, w);
    case DoDeschedule(w, lock) => DescheduleKeeps(s, p, w, lock); q := p;
    case DoTake(agent, f, priority) => q := TakeKeeps(s, p, agent, f, priority);
    case DoPut(k, caller, rand) => q := PutKeeps(s, p, k, caller, rand);
    case DoExit(w) => ExitKeeps(s, p, w); q := p;
    case DoLock(agent, m) =>
      assert forall f :: f in s.fibers ==> FiberOk(s, f, p[f]);
      MutexKeeps(s, p, s.mutexes[m := agent]);
      q := p;
    case DoUnlock(agent, m) =>
      assert forall f :: f in s.fibers ==> FiberOk(s, f, p[f]);
      MutexKeeps(s, p, s.mutexes - {m});
      q := p;
  }

  lemma {:induction false} RunKeeps(s: Sched, p: Places, steps: seq<Step>, t: Sched) returns (q: Places)
    requires Placed(s, p) && Run(s, steps, t)
    ensures Placed(t, q)
    decreases |steps|
  {
    if steps == [] {
      q := p;
    } else {
      q := StepKeeps(s, p, steps[0]);
      q := RunKeeps(Apply(s, steps[0]), q, steps[1..], t);
    }
  }

  lemma ReachablePlaced(nworkers: nat, t: Sched) returns (q: Places)
    requires Reachable(nworkers, t)
    ensures Placed(t, q)
  {
    var steps :| Run(Init(nworkers), steps, t);
    var s, none := Init(nworkers), map[];
    assert At(none, InHand) == {};
    forall w | 0 <= w < nworkers ensures WorkerOk(s, none, w) { assert At(none, Queued(w)) == {}; }
    q := RunKeeps(s, none, steps, t);
  }

  // ---- what this means for the scheduler's users ----

  /** `f` is found at `pl` when one looks at the scheduler's own data. */
  ghost predicate IsAt(s: Sched, f: nat, pl: Place) {
    match pl
    case Queued(w) => w < |s.workers| && f in s.workers[w].Line()
    case Running(w) => w < |s.workers| && s.workers[w].cur == Some(f)
    case Leaving(w) => w < |s.workers| && s.workers[w].prev == Some(f)
    case InHand => f in s.hands
    case Parked => f in s.fibers && !s.fibers[f].scheduleable
  }

  /** Single placement: a live fiber is in exactly one place, once; a destroyed or unborn one is nowhere. */
  lemma SinglePlacement(nworkers: nat, t: Sched, f: nat)
    requires Reachable(nworkers, t)
    ensures f in t.fibers ==> exists pl :: IsAt(t, f, pl) && forall other :: IsAt(t, f, other) ==> other == pl
    ensures f !in t.fibers ==> forall pl :: !IsAt(t, f, pl)
    ensures forall w :: 0 <= w < |t.workers| ==> multiset(t.workers[w].Line())[f] <= 1
    ensures multiset(t.hands)[f] <= 1
  {
    var p := ReachablePlaced(nworkers, t);
    forall w | 0 <= w < |t.workers|
      ensures multiset(t.workers[w].Line())[f] <= 1
      ensures IsAt(t, f, Queued(w)) <==> f in p && p[f] == Queued(w)
    {
      assert WorkerOk(t, p, w);
      LineMembers(t, p, w);
    }
    HandMembers(t, p);
    forall pl ensures IsAt(t, f, pl) <==> f in p && p[f] == pl {
      if f in p { assert FiberOk(t, f, p[f]); }
      if (pl.Running? || pl.Leaving?) && pl.w < |t.workers| { assert WorkerOk(t, p, pl.w); }
    }
    if f in t.fibers { assert IsAt(t, f, p[f]); }
  }

  /** Affinity and saved contexts: a fiber waits, runs and is switched out only on workers it is bound to, its
      context is complete whenever it is not running, and whatever is queued can be resumed. */
  lemma QueuedFibersAreResumable(nworkers: nat, t: Sched, f: nat, w: nat)
    requires Reachable(nworkers, t) && w < |t.workers|
    ensures IsAt(t, f, Queued(w)) || IsAt(t, f, Running(w)) || IsAt(t, f, Leaving(w)) ==>
      f in t.fibers && w in t.fibers[f].affinity
    ensures IsAt(t, f, Queued(w)) ==>
      t.fibers[f].saved && t.fibers[f].scheduleable && !t.fibers[f].descheduled && !t.fibers[f].terminate
    ensures IsAt(t, f, Leaving(w)) || IsAt(t, f, Parked) || IsAt(t, f, InHand) ==> f in t.fibers && t.fibers[f].saved
  {
    var p := ReachablePlaced(nworkers, t);
    assert WorkerOk(t, p, w);
    LineMembers(t, p, w);
    HandMembers(t, p);
    if f in t.fibers { assert FiberOk(t, f, p[f]); }
  }

  /** join() waits for `fibers_active` to reach zero, which happens only when no fiber is left anywhere. */
  lemma JoinWaitsForAll(nworkers: nat, t: Sched)
    requires Reachable(nworkers, t)
    ensures t.fibersActive == |t.fibers|
    ensures t.fibersActive == 0 ==> t.fibers == map[] && forall f, pl :: !IsAt(t, f, pl)
  {
    var p := ReachablePlaced(nworkers, t);
    if t.fibersActive == 0 {
      assert t.fibers == map[];
      forall f, pl ensures !IsAt(t, f, pl) { SinglePlacement(nworkers, t, f); }
    }
  }

  /** The assertions of deschedule_self (both) and schedule_tid never fail when wakers follow the rule. */
  lemma AssertionsHold(nworkers: nat, t: Sched)
    requires Reachable(nworkers, t)
    ensures forall w: nat, lock: nat :: Enabled(t, DoDeschedule(w, lock)) ==>
      !t.fibers[t.workers[w].cur.value].descheduled && t.fibers[t.workers[w].cur.value].scheduleable
    ensures forall a, f, priority :: Enabled(t, DoTake(a, f, priority)) ==> !t.fibers[f].descheduled
  {
    var p := ReachablePlaced(nworkers, t);
    forall w: nat, lock: nat | Enabled(t, DoDeschedule(w, lock))
      ensures !t.fibers[t.workers[w].cur.value].descheduled && t.fibers[t.workers[w].cur.value].scheduleable
    {
      assert WorkerOk(t, p, w) && FiberOk(t, t.workers[w].cur.value, Running(w));
    }
    forall a, f, priority | Enabled(t, DoTake(a, f, priority)) ensures !t.fibers[f].descheduled {
      WakeFindsNoHalfDescheduled(t, p, a, f);
    }
  }

  /** No lost wake-up, first half: waking a descheduled fiber takes it, once; waking any other changes nothing. */
  lemma WakeTakesOnce(nworkers: nat, t: Sched, a: Agent, f: nat, priority: bool)
    requires Reachable(nworkers, t) && Enabled(t, DoTake(a, f, priority))
    ensures IsAt(t, f, Parked) ==>
      f !in t.hands && Take(t, f, priority).hands == t.hands + [f] && Take(t, f, priority).workers == t.workers
    ensures !IsAt(t, f, Parked) ==> Take(t, f, priority) == t
  {
    var p := ReachablePlaced(nworkers, t);
    var q := TakeKeeps(t, p, a, f, priority);
    assert FiberOk(t, f, p[f]);
    HandMembers(t, p);
  }

  /** No lost wake-up, second half: a taken fiber lands on the queues of one worker, once, and that worker is one it
      is bound to. */
  lemma TakenFiberIsQueuedOnce(nworkers: nat, t: Sched, k: nat, caller: Option<nat>, rand: nat)
    requires Reachable(nworkers, t) && Enabled(t, DoPut(k, caller, rand))
    ensures var f := t.hands[k];
      var w := Pick(t.fibers[f], caller, rand).0;
      var u := Put(t, k, caller, rand);
      && w in t.fibers[f].affinity && f !in t.workers[w].Line()
      && multiset(u.workers[w].Line()) == multiset(t.workers[w].Line()) + multiset{f}
      && (forall x :: 0 <= x < |t.workers| && x != w ==> u.workers[x] == t.workers[x])
      && multiset(u.hands) == multiset(t.hands) - multiset{f}
  {
    var p := ReachablePlaced(nworkers, t);
    LiftHand(t, p, k);
    PickIsAllowed(t.fibers[t.hands[k]], caller, rand, |t.workers|);
    LineMembers(t, p, Pick(t.fibers[t.hands[k]], caller, rand).0);
    PutEffect(t, k, caller, rand);
  }

  lemma PutEffect(t: Sched, k: nat, caller: Option<nat>, rand: nat)
    requires k < |t.hands| && t.hands[k] in t.fibers && CanPick(t.fibers[t.hands[k]], caller, rand, |t.workers|)
    requires var fib := t.fibers[t.hands[k]]; fib.scheduleable && !fib.terminate && !fib.descheduled
    ensures var f := t.hands[k];
      var w := Pick(t.fibers[f], caller, rand).0;
      var u := Put(t, k, caller, rand);
      && multiset(u.workers[w].Line()) == multiset(t.workers[w].Line()) + multiset{f}
      && (forall x :: 0 <= x < |t.workers| && x != w ==> u.workers[x] == t.workers[x])
      && multiset(u.hands) == multiset(t.hands) - multiset{f}
  {
    EnqueueAdds(t.workers[Pick(t.fibers[t.hands[k]], caller, rand).0], t.hands[k]);
    OneOut(t.hands, k);
  }

  /** The conditions under which the steps are defined never hold a run up: a worker that is not mid-switch can always
      switch, one that is can always clean up, and a taken fiber can always be put down. */
  lemma SchedulerIsNeverStuck(nworkers: nat, t: Sched)
    requires Reachable(nworkers, t)
    ensures forall w :: 0 <= w < |t.workers| ==>
      if t.workers[w].prev.None? then Enabled(t, DoSwitch(w)) else Enabled(t, DoCleanUp(w))
    ensures forall k, caller: Option<nat>, rand ::
      0 <= k < |t.hands| && (caller.Some? ==> caller.value < |t.workers|) ==>
      && t.hands[k] in t.fibers
      && (0 <= rand < |t.fibers[t.hands[k]].affinityArray| ==> Enabled(t, DoPut(k, caller, rand)))
  {
    var p := ReachablePlaced(nworkers, t);
    forall w | 0 <= w < |t.workers|
      ensures if t.workers[w].prev.None? then Enabled(t, DoSwitch(w)) else Enabled(t, DoCleanUp(w))
    {
      assert WorkerOk(t, p, w);
      LineMembers(t, p, w);
    }
    HandMembers(t, p);
    forall k, caller: Option<nat>, rand | 0 <= k < |t.hands| && (caller.Some? ==> caller.value < |t.workers|)
      ensures t.hands[k] in t.fibers
      ensures 0 <= rand < |t.fibers[t.hands[k]].affinityArray| ==> Enabled(t, DoPut(k, caller, rand))
    {
      assert t.hands[k] in t.hands;
      assert FiberOk(t, t.hands[k], InHand);
      if 0 <= rand < |t.fibers[t.hands[k]].affinityArray| {
        PickIsAllowed(t.fibers[t.hands[k]], caller, rand, |t.workers|);
      }
    }
  }

  lemma {:induction false} RunAppend(s: Sched, xs: seq<Step>, t: Sched, st: Step)
    requires Run(s, xs, t) && Enabled(t, st)
    ensures Run(s, xs + [st], Apply(t, st))
    decreases |xs|
  {
    if xs == [] {
      assert [st][1..] == [];
    } else {
      assert (xs + [st])[1..] == xs[1..] + [st];
      RunAppend(Apply(s, xs[0]), xs[1..], t, st);
    }
  }

  lemma ReachableStep(nworkers: nat, t: Sched, st: Step)
    requires Reachable(nworkers, t) && Enabled(t, st)
    ensures Reachable(nworkers, Apply(t, st))
  {
    var steps :| Run(Init(nworkers), steps, t);
    RunAppend(Init(nworkers), steps, t, st);
  }

  /** One worker and one fiber, waiting or running. */
  function Solo(fib: Fiber, cur: Option<nat>, line: seq<nat>, mutexes: map<nat, Agent>): Sched {
    Sched(map[0 := fib], 1, 1, [Worker(cur, None, Queue([], []), Queue([], line))], [], mutexes)
  }

  lemma SoloLaunched()
    ensures Reachable(1, Solo(NewFiber({0}, 1), None, [0], map[]))
  {
    var s, a := Init(1), DoLaunch({0}, None, 0);
    assert Run(s, [], s);
    assert Allowed({0}, 1) == [0] by { assert Allowed({0}, 0) == []; }
    var t := Solo(NewFiber({0}, 1), None, [0], map[]);
    assert s.workers == [Worker(None, None, Queue([], []), Queue([], []))];
    assert Apply(s, a).workers == t.workers;
    ReachableStep(1, s, a);
  }

  lemma SoloRunning()
    ensures Reachable(1, Solo(NewFiber({0}, 1).(saved := false), Some(0), [], map[]))
  {
    SoloLaunched();
    var s := Solo(NewFiber({0}, 1), None, [0], map[]);
    assert s.workers[0].Line() == [0];
    ReachableStep(1, s, DoSwitch(0));
    var t := Solo(NewFiber({0}, 1).(saved := false), Some(0), [], map[]);
    var line: seq<nat> := [0];
    assert line[1..] == [];
    assert TryPop(Queue([], line)) == (Queue([], []), Some(0));
    var u := Apply(s, DoSwitch(0));
    assert u.workers[0] == t.workers[0];
    assert u.workers == t.workers && u.fibers == t.fibers;
  }

  /** The wake rule is needed: an outside thread that ignores it can find a fiber half descheduled. */
  lemma WithoutTheRuleTheAssertionFails() returns (t: Sched)
    ensures Reachable(1, t)
    ensures 0 in t.fibers && t.fibers[0].descheduled && CanAct(t, ByThread(0)) && !WakeRule(t, ByThread(0), 0)
  {
    SoloRunning();
    var s := Solo(NewFiber({0}, 1).(saved := false), Some(0), [], map[]);
    assert RunsFreely(s, 0, 0);
    ReachableStep(1, s, DoLock(ByFiber(0), 7));
    var u := Apply(s, DoLock(ByFiber(0), 7));
    assert RunsFreely(u, 0, 0);
    ReachableStep(1, u, DoDeschedule(0, 7));
    t := Apply(u, DoDeschedule(0, 7));
  }
}
