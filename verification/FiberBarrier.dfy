/**
  The sense-reversing barrier of src/fiber/fiber_barrier.hpp, with its `needed` participants numbered from 0.
  A fiber waiting in it is descheduled or scheduled again but not yet back under the mutex; it may also be woken by
  someone else for no reason.  `entered`, `left` and `rounds` count history only.
 */
module FiberBarrier {
  datatype Place = Outside | Parked(listening: bool) | Woken(listening: bool)

  datatype Barrier = Barrier(
    called: nat,
    sense: bool,
    release: bool,
    handles: seq<nat>,
    place: seq<Place>,
    entered: seq<nat>,
    left: seq<nat>,
    rounds: nat)

  ghost predicate Shaped(needed: nat, b: Barrier) {
    |b.handles| == |b.place| == |b.entered| == |b.left| == needed && b.called < needed
    && forall k :: 0 <= k < needed ==> b.handles[k] < needed
  }

  function Init(needed: nat): Barrier {
    Barrier(0, false, true, seq(needed, i => 0), seq(needed, i => Outside), seq(needed, i => 0), seq(needed, i => 0), 0)
  }

  function Schedule(p: Place): Place {
    if p.Parked? then Woken(p.listening) else p
  }

  /** schedule_tid on the first `k` handles. */
  function Wake(place: seq<Place>, handles: seq<nat>, k: nat): (r: seq<Place>)
    requires k <= |handles| && forall i :: 0 <= i < |handles| ==> handles[i] < |place|
    ensures |r| == |place|
  {
    if k == 0 then place
    else var p := Wake(place, handles, k - 1); p[handles[k - 1] := Schedule(p[handles[k - 1]])]
  }

  /** wait() up to its return or its first deschedule. */
  function Enter(needed: nat, b: Barrier, f: nat): Barrier
    requires Shaped(needed, b) && f < needed
  {
    var handles := b.handles[b.called := f];
    var b1 := b.(handles := handles, called := b.called + 1, entered := b.entered[f := b.entered[f] + 1]);
    if b1.called == needed then
      b1.(called := 0, release := b.sense, sense := !b.sense, place := Wake(b.place, handles, needed - 1),
          left := b.left[f := b.left[f] + 1], rounds := b.rounds + 1)
    else if b.release != b.sense then b1.(place := b.place[f := Parked(b.sense)])
    else b1.(left := b.left[f := b.left[f] + 1])
  }

  /** A rescheduled waiter takes the mutex again and looks at the release flag. */
  function Resume(b: Barrier, f: nat): Barrier
    requires f < |b.place| && f < |b.left| && b.place[f].Woken?
  {
    if b.release != b.place[f].listening then b.(place := b.place[f := Parked(b.place[f].listening)])
    else b.(place := b.place[f := Outside], left := b.left[f := b.left[f] + 1])
  }

  datatype Step = DoEnter(f: nat) | DoResume(f: nat) | Spurious(f: nat)

  ghost predicate Enabled(needed: nat, b: Barrier, st: Step)
    requires Shaped(needed, b)
  {
    && st.f < needed
    && match st
       case DoEnter(f) => b.place[f].Outside?
       case DoResume(f) => b.place[f].Woken?
       case Spurious(f) => b.place[f].Parked?
  }

  ghost function Apply(needed: nat, b: Barrier, st: Step): Barrier
    requires Shaped(needed, b) && Enabled(needed, b, st)
  {
    match st
    case DoEnter(f) => Enter(needed, b, f)
    case DoResume(f) => Resume(b, f)
    case Spurious(f) => b.(place := b.place[f := Schedule(b.place[f])])
  }

  ghost predicate Run(needed: nat, b: Barrier, steps: seq<Step>, t: Barrier)
    decreases |steps|
  {
    if steps == [] then b == t
    else Shaped(needed, b) && Enabled(needed, b, steps[0]) && Run(needed, Apply(needed, b, steps[0]), steps[1..], t)
  }

  ghost predicate Reachable(needed: nat, t: Barrier) {
    exists steps :: Run(needed, Init(needed), steps, t)
  }

  // ---- the invariant ----

  /** Inside the current round, not yet released. */
  predicate Waiting(b: Barrier, f: nat)
    requires f < |b.place| && f < |b.entered| && f < |b.left|
  {
    b.entered[f] == b.rounds + 1 && b.left[f] == b.rounds && !b.place[f].Outside? && b.place[f].listening == b.sense
  }

  /** Released, but still on its way out of the previous round. */
  predicate Released(b: Barrier, f: nat)
    requires f < |b.place| && f < |b.entered| && f < |b.left|
  {
    b.entered[f] == b.rounds && b.left[f] + 1 == b.rounds && b.place[f].Woken? && b.place[f].listening != b.sense
  }

  /** Not in the barrier. */
  predicate Away(b: Barrier, f: nat)
    requires f < |b.place| && f < |b.entered| && f < |b.left|
  {
    b.entered[f] == b.rounds && b.left[f] == b.rounds && b.place[f].Outside?
  }

  ghost predicate Inv(needed: nat, b: Barrier) {
    && Shaped(needed, b)
    && b.release != b.sense
    && (forall f :: 0 <= f < needed ==> Waiting(b, f) || Released(b, f) || Away(b, f))
    && (forall k :: 0 <= k < b.called ==> Waiting(b, b.handles[k]))
    && (forall j, k :: 0 <= j < k < b.called ==> b.handles[j] != b.handles[k])
    && (forall f :: 0 <= f < needed && Waiting(b, f) ==> f in b.handles[..b.called])
  }

  lemma {:induction false} WakeMeans(place: seq<Place>, handles: seq<nat>, k: nat)
    requires k <= |handles| && forall i :: 0 <= i < |handles| ==> handles[i] < |place|
    ensures forall f :: 0 <= f < |place| ==>
      Wake(place, handles, k)[f] == if f in handles[..k] then Schedule(place[f]) else place[f]
  {
    if k > 0 {
      WakeMeans(place, handles, k - 1);
      assert handles[..k] == handles[..k - 1] + [handles[k - 1]];
    }
  }

  ghost function Below(n: nat): (r: set<nat>)
    ensures |r| == n && forall x: nat :: x in r <==> x < n
  {
    if n == 0 then {} else Below(n - 1) + {n - 1}
  }

  /** `n` different numbers below `n` are all of them. */
  lemma Pigeonhole(xs: seq<nat>, n: nat)
    requires |xs| == n && (forall k :: 0 <= k < n ==> xs[k] < n)
    requires forall j, k :: 0 <= j < k < n ==> xs[j] != xs[k]
    ensures forall f :: 0 <= f < n ==> f in xs
  {
    var s := set k | 0 <= k < n :: xs[k];
    DistinctCount(xs, n);
    forall f | 0 <= f < n ensures f in xs {
      if f !in xs { SubsetCount(s, Below(n) - {f}); }
    }
  }

  lemma {:induction false} SubsetCount(a: set<nat>, b: set<nat>)
    requires a <= b
    ensures |a| <= |b|
  {
    if a != {} {
      var x :| x in a;
      SubsetCount(a - {x}, b - {x});
    }
  }

  lemma {:induction false} DistinctCount(xs: seq<nat>, k: nat)
    requires k <= |xs| && forall i, j :: 0 <= i < j < |xs| ==> xs[i] != xs[j]
    ensures |set i | 0 <= i < k :: xs[i]| == k
  {
    if k > 0 {
      DistinctCount(xs, k - 1);
      assert (set i | 0 <= i < k :: xs[i]) == (set i | 0 <= i < k - 1 :: xs[i]) + {xs[k - 1]};
    }
  }

  /** The fibers the last one in wakes. */
  function ToWake(needed: nat, b: Barrier, f: nat): seq<nat>
    requires b.called < |b.handles| && 1 <= needed <= |b.handles|
  {
    b.handles[b.called := f][..needed - 1]
  }

  /** The last one in: everybody else is waiting in this same round, and the handles list exactly them. */
  lemma LastOneIn(needed: nat, b: Barrier, f: nat)
    requires Inv(needed, b) && f < needed && b.place[f].Outside? && b.called + 1 == needed
    ensures forall g :: 0 <= g < needed && g != f ==> Waiting(b, g)
    ensures forall g :: 0 <= g < needed ==> (g in ToWake(needed, b, f) <==> g != f)
  {
    var h := b.handles[b.called := f];
    assert !Waiting(b, f);
    Pigeonhole(h, needed);
    assert h == ToWake(needed, b, f) + [f] && ToWake(needed, b, f) == b.handles[..b.called];
    forall g | 0 <= g < needed && g != f ensures Waiting(b, g) && g in ToWake(needed, b, f) {
      assert g in h;
      var k :| 0 <= k < b.called && b.handles[k] == g;
    }
  }

  lemma ReleasedState(needed: nat, b: Barrier, f: nat, g: nat)
    requires Inv(needed, b) && Enabled(needed, b, DoEnter(f)) && b.called + 1 == needed && g < needed
    ensures var t := Enter(needed, b, f);
      if g == f then Away(b, g) && Away(t, g) else Waiting(b, g) && Released(t, g)
  {
    LastOneIn(needed, b, f);
    WakeMeans(b.place, b.handles[b.called := f], needed - 1);
    assert Waiting(b, f) || Released(b, f) || Away(b, f);
    assert g in ToWake(needed, b, f) <==> g != f;
  }

  lemma EnterReleases(needed: nat, b: Barrier, f: nat)
    requires Inv(needed, b) && Enabled(needed, b, DoEnter(f)) && b.called + 1 == needed
    ensures Inv(needed, Enter(needed, b, f))
  {
    var t := Enter(needed, b, f);
    forall g | 0 <= g < needed ensures (Released(t, g) || Away(t, g)) && !Waiting(t, g) {
      ReleasedState(needed, b, f, g);
    }
  }

  lemma EnterParks(needed: nat, b: Barrier, f: nat)
    requires Inv(needed, b) && Enabled(needed, b, DoEnter(f)) && b.called + 1 < needed
    ensures Inv(needed, Enter(needed, b, f))
  {
    var t := Enter(needed, b, f);
    assert t.handles[..t.called] == b.handles[..b.called] + [f];
    assert !Waiting(b, f);
    forall g | 0 <= g < needed && g != f
      ensures Waiting(t, g) == Waiting(b, g) && Released(t, g) == Released(b, g) && Away(t, g) == Away(b, g) {}
    forall k | 0 <= k < t.called ensures Waiting(t, t.handles[k]) {
      if k < b.called { assert Waiting(b, b.handles[k]); }
    }
  }

  lemma ResumeKeeps(needed: nat, b: Barrier, f: nat)
    requires Inv(needed, b) && Enabled(needed, b, DoResume(f))
    ensures Inv(needed, Resume(b, f))
  {
    var t := Resume(b, f);
    assert Waiting(b, f) || Released(b, f) || Away(b, f);
    forall g | 0 <= g < needed
      ensures Waiting(t, g) == Waiting(b, g) && (Waiting(t, g) || Released(t, g) || Away(t, g))
    {
      assert Waiting(b, g) || Released(b, g) || Away(b, g);
    }
    forall k | 0 <= k < t.called ensures Waiting(t, t.handles[k]) { assert Waiting(b, b.handles[k]); }
  }

  lemma SpuriousKeeps(needed: nat, b: Barrier, f: nat)
    requires Inv(needed, b) && Enabled(needed, b, Spurious(f))
    ensures Inv(needed, Apply(needed, b, Spurious(f)))
  {
    var t := Apply(needed, b, Spurious(f));
    forall g | 0 <= g < needed
      ensures Waiting(t, g) == Waiting(b, g) && (Waiting(t, g) || Released(t, g) || Away(t, g))
    {
      assert Waiting(b, g) || Released(b, g) || Away(b, g);
    }
    forall k | 0 <= k < t.called ensures Waiting(t, t.handles[k]) { assert Waiting(b, b.handles[k]); }
  }

  lemma StepKeeps(needed: nat, b: Barrier, st: Step)
    requires Inv(needed, b) && Enabled(needed, b, st)
    ensures Inv(needed, Apply(needed, b, st))
  {
    match st
    case DoEnter(f) =>
      if b.called + 1 == needed { EnterReleases(needed, b, f); } else { EnterParks(needed, b, f); }
    case DoResume(f) => ResumeKeeps(needed, b, f);
    case Spurious(f) => SpuriousKeeps(needed, b, f);
  }

  lemma {:induction false} RunKeeps(needed: nat, b: Barrier, steps: seq<Step>, t: Barrier)
    requires Inv(needed, b) && Run(needed, b, steps, t)
    ensures Inv(needed, t)
    decreases |steps|
  {
    if steps != [] {
      StepKeeps(needed, b, steps[0]);
      RunKeeps(needed, Apply(needed, b, steps[0]), steps[1..], t);
    }
  }

  lemma ReachableInv(needed: nat, t: Barrier)
    requires 1 <= needed && Reachable(needed, t)
    ensures Inv(needed, t)
  {
    var steps :| Run(needed, Init(needed), steps, t);
    RunKeeps(needed, Init(needed), steps, t);
  }

  // ---- what users rely on ----

  /** Nobody leaves its k-th wait before everybody has entered it. */
  lemma NobodyLeavesEarly(needed: nat, t: Barrier, f: nat, g: nat)
    requires 1 <= needed && Reachable(needed, t) && f < needed && g < needed
    ensures Shaped(needed, t) && t.left[f] <= t.entered[g]
  {
    ReachableInv(needed, t);
    assert Waiting(t, f) || Released(t, f) || Away(t, f);
    assert Waiting(t, g) || Released(t, g) || Away(t, g);
  }

  /** When a round is released, every participant has left the round before, everyone else is inside this one, the
      wake-ups go exactly to them, and afterwards nobody is descheduled. */
  lemma ReleaseIsClean(needed: nat, t: Barrier, f: nat)
    requires 1 <= needed && Reachable(needed, t) && Shaped(needed, t)
    requires Enabled(needed, t, DoEnter(f)) && t.called + 1 == needed
    ensures forall g :: 0 <= g < needed ==> t.left[g] == t.rounds
    ensures forall g :: 0 <= g < needed ==> (g in ToWake(needed, t, f) <==> g != f)
    ensures forall g :: 0 <= g < needed && g != f ==> !t.place[g].Outside? && t.entered[g] == t.rounds + 1
    ensures var u := Enter(needed, t, f);
      u.rounds == t.rounds + 1 && (forall g :: 0 <= g < needed ==> !u.place[g].Parked? && u.entered[g] == u.rounds)
  {
    ReachableInv(needed, t);
    LastOneIn(needed, t, f);
    var u := Enter(needed, t, f);
    forall g | 0 <= g < needed
      ensures !u.place[g].Parked? && u.entered[g] == u.rounds && t.left[g] == t.rounds
      ensures g != f ==> !t.place[g].Outside? && t.entered[g] == t.rounds + 1
    {
      ReleasedState(needed, t, f, g);
    }
  }

  /** No lost wake-up: a fiber stays descheduled only while some participant has yet to enter its round. */
  lemma ParkedMeansSomeoneMissing(needed: nat, t: Barrier, f: nat)
    requires 1 <= needed && Reachable(needed, t) && Shaped(needed, t) && f < needed && t.place[f].Parked?
    ensures exists g :: 0 <= g < needed && t.entered[g] < t.entered[f]
  {
    ReachableInv(needed, t);
    assert Waiting(t, f);
    if forall g :: 0 <= g < needed ==> t.entered[g] >= t.entered[f] {
      assert forall g :: 0 <= g < needed ==> Waiting(t, g);
      var waiting := t.handles[..t.called];
      var s := set k | 0 <= k < t.called :: waiting[k];
      forall g | g in Below(needed) ensures g in s { assert g in waiting; }
      DistinctCount(waiting, t.called);
      SubsetCount(Below(needed), s);
    }
  }

  // ---- the barrier as an object ----

  class SenseBarrier {
    var needed: nat
    var called: nat
    var sense: bool
    var release: bool
    var handles: seq<nat>
    var place: seq<Place>
    ghost var entered: seq<nat>
    ghost var left: seq<nat>
    ghost var rounds: nat

    ghost function State(): Barrier
      reads this
    {
      Barrier(called, sense, release, handles, place, entered, left, rounds)
    }

    ghost predicate Valid()
      reads this
    {
      Shaped(needed, State())
    }

    constructor (numThreads: nat)
      requires 1 <= numThreads
      ensures Valid() && needed == numThreads && State() == Init(numThreads)
    {
      needed := numThreads;
      called, sense, release := 0, false, true;
      handles := seq(numThreads, i => 0);
      place := seq(numThreads, i => Outside);
      entered, left, rounds := seq(numThreads, i => 0), seq(numThreads, i => 0), 0;
    }

    /** Returns whether the caller went straight through; otherwise it was descheduled. */
    method Wait(f: nat) returns (through: bool)
      requires Valid() && f < needed && place[f].Outside?
      modifies this
      ensures needed == old(needed) && State() == Enter(needed, old(State()), f)
      ensures through <==> left[f] == old(left[f]) + 1
    {
      handles := handles[called := f];
      called := called + 1;
      entered := entered[f := entered[f] + 1];
      var listeningOn := sense;
      if called == needed {
        Fall(f);
        through := true;
      } else if release != listeningOn {
        place := place[f := Parked(listeningOn)];
        through := false;
      } else {
        left := left[f := left[f] + 1];
        through := true;
      }
    }

    /** The last one in releases the others and goes through. */
    method Fall(f: nat)
      requires |handles| == |place| == needed && 1 <= needed && f < |left|
      requires forall i :: 0 <= i < |handles| ==> handles[i] < |place|
      modifies this
      ensures needed == old(needed)
      ensures State() == old(State()).(called := 0, release := old(sense), sense := !old(sense),
        rounds := old(rounds) + 1, place := Wake(old(place), old(handles), old(needed) - 1),
        left := old(left)[f := old(left[f]) + 1])
    {
      var toWake := handles;
      called := 0;
      release := sense;
      sense := !sense;
      rounds := rounds + 1;
      WakeAllBut(toWake);
      left := left[f := left[f] + 1];
    }

    /** Everyone but the last of those listed. */
    method WakeAllBut(toWake: seq<nat>)
      requires toWake != [] && forall i :: 0 <= i < |toWake| ==> toWake[i] < |place|
      modifies this`place
      ensures place == Wake(old(place), toWake, |toWake| - 1)
    {
      for i := 0 to |toWake| - 1
        invariant place == Wake(old(place), toWake, i)
      {
        place := place[toWake[i] := Schedule(place[toWake[i]])];
      }
    }

    method WakeUp(f: nat) returns (through: bool)
      requires Valid() && f < needed && place[f].Woken?
      modifies this
      ensures needed == old(needed) && State() == Resume(old(State()), f)
      ensures through <==> place[f].Outside?
    {
      var listeningOn := place[f].listening;
      if release != listeningOn {
        place := place[f := Parked(listeningOn)];
        through := false;
      } else {
        place := place[f := Outside];
        left := left[f := left[f] + 1];
        through := true;
      }
    }
  }
}
