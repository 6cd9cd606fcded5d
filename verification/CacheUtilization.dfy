/**
  The utilization counter under interleaving (src/fileio/fixed_size_cache_manager.cpp): growing a block reads the
  counter first and adds to it later, with no lock; creating an entry does the same under the manager's mutex.
 */
module CacheUtilization {
  import opened Prelude
  import opened Sums
  import opened CacheBlock

  /** A block's capacity in memory (0 when it has none) and how far it may grow. */
  datatype Cell = Cell(cap: nat, maxCap: nat)

  /** What a thread has decided to add to the counter and not yet added. */
  datatype Task = Idle | Growing(block: nat, delta: nat) | Creating(block: nat, delta: nat)

  datatype Sys = Sys(util: int, cells: seq<Cell>, threads: seq<Task>)

  /** `Release` is an eviction, a spill or a destruction. */
  datatype Step =
    | GrowRead(t: nat, b: nat, want: nat)
    | CreateNew(t: nat)
    | CreateOver(t: nat, b: nat)
    | CreateFromFile(t: nat, b: nat)
    | Commit(t: nat)
    | Release(b: nat)

  function Init(n: nat): Sys { Sys(0, [], seq(n, _ => Idle)) }

  predicate BusyOn(s: Sys, t: nat, b: nat) { t < |s.threads| && !s.threads[t].Idle? && s.threads[t].block == b }

  predicate Busy(s: Sys, b: nat) { exists t :: 0 <= t < |s.threads| && BusyOn(s, t, b) }

  predicate CreatingAt(s: Sys, t: nat) { t < |s.threads| && s.threads[t].Creating? }

  predicate MutexFree(s: Sys) { forall t :: 0 <= t < |s.threads| ==> !CreatingAt(s, t) }

  predicate IdleAt(s: Sys, t: nat) { t < |s.threads| && s.threads[t].Idle? }

  predicate FreeCell(s: Sys, b: nat) { b < |s.cells| && !Busy(s, b) }

  /** Streams on one block do not run concurrently; entries are created under the mutex. */
  predicate Enabled(s: Sys, st: Step) {
    match st
    case GrowRead(t, b, want) => IdleAt(s, t) && FreeCell(s, b) && s.cells[b].cap > 0
    case CreateNew(t) => IdleAt(s, t) && MutexFree(s)
    case CreateOver(t, b) => IdleAt(s, t) && MutexFree(s) && FreeCell(s, b)
    case CreateFromFile(t, b) => IdleAt(s, t) && MutexFree(s) && FreeCell(s, b) && s.cells[b].cap == 0
    case Commit(t) => t < |s.threads| && !s.threads[t].Idle? && s.threads[t].block < |s.cells|
    case Release(b) => FreeCell(s, b)
  }

  /** What extend_capacity decides to add, from the counter as it reads it. */
  function Growth(l: Limits, util: int, c: Cell, want: nat): int {
    Extend(l, Env(util, map[], 0), Block(c.maxCap, c.cap, Some([]), None, true), want).1.cap - c.cap
  }

  function Apply(l: Limits, s: Sys, st: Step): Sys
    requires Enabled(s, st)
  {
    match st
    case GrowRead(t, b, want) =>
      var d := Growth(l, s.util, s.cells[b], want);
      if d > 0 then s.(threads := s.threads[t := Growing(b, d)]) else s
    case CreateNew(t) =>
      var room := Room(l, s.util);
      s.(cells := s.cells + [Cell(0, room)],
         threads := s.threads[t := Creating(|s.cells|, Min(INITIAL_CAPACITY, room))])
    case CreateOver(t, b) =>
      var c := s.cells[b];
      Sys(s.util - c.cap, s.cells[b := Cell(0, c.maxCap)], s.threads[t := Creating(b, Min(INITIAL_CAPACITY, c.maxCap))])
    case CreateFromFile(t, b) =>
      var room := Room(l, s.util);
      s.(cells := s.cells[b := Cell(0, room)], threads := s.threads[t := Creating(b, Min(INITIAL_CAPACITY, room))])
    case Commit(t) =>
      var b, d := s.threads[t].block, s.threads[t].delta;
      Sys(s.util + d, s.cells[b := s.cells[b].(cap := s.cells[b].cap + d)], s.threads[t := Idle])
    case Release(b) => s.(util := s.util - s.cells[b].cap, cells := s.cells[b := Cell(0, 0)])
  }

  ghost predicate Run(l: Limits, s: Sys, steps: seq<Step>, t: Sys)
    decreases |steps|
  {
    if steps == [] then s == t else Enabled(s, steps[0]) && Run(l, Apply(l, s, steps[0]), steps[1..], t)
  }

  ghost predicate Reachable(l: Limits, n: nat, t: Sys) { exists steps :: Run(l, Init(n), steps, t) }

  function Caps(s: Sys): seq<int> { seq(|s.cells|, i requires 0 <= i < |s.cells| => s.cells[i].cap) }

  function Owed(k: Task): nat { if k.Idle? then 0 else k.delta }

  function Debts(s: Sys): seq<int> { seq(|s.threads|, i requires 0 <= i < |s.threads| => Owed(s.threads[i])) }

  /** No block can ever be larger than its first allocation, so none grows. */
  predicate NeverGrows(l: Limits) { l.max <= INITIAL_CAPACITY || l.perFile <= INITIAL_CAPACITY }

  function Excess(l: Limits, n: nat): nat
    requires n >= 1
  {
    if NeverGrows(l) then 0 else (n - 1) * l.perFile
  }

  // ---- the invariant ----

  predicate CellOk(l: Limits, c: Cell) {
    c.cap <= c.maxCap && c.maxCap <= l.perFile && c.maxCap <= l.max
    && (c.cap > 0 ==> Min(INITIAL_CAPACITY, c.maxCap) <= c.cap)
  }

  predicate TaskOk(cells: seq<Cell>, k: Task) {
    match k
    case Idle => true
    case Growing(b, d) => b < |cells| && cells[b].cap > 0 && d > 0 && cells[b].cap + d <= cells[b].maxCap
    case Creating(b, d) => b < |cells| && cells[b].cap == 0 && d == Min(INITIAL_CAPACITY, cells[b].maxCap)
  }

  /** Two busy threads are on different blocks, and at most one holds the mutex. */
  predicate Apart(k: Task, j: Task) {
    !k.Idle? && !j.Idle? ==> k.block != j.block && !(k.Creating? && j.Creating?)
  }

  /** A block without memory that could have some is being created. */
  predicate Settled(s: Sys, b: nat)
    requires b < |s.cells|
  {
    s.cells[b].cap == 0 && s.cells[b].maxCap > 0 ==> Busy(s, b)
  }

  ghost predicate Shape(l: Limits, s: Sys) {
    && |s.threads| >= 1
    && (forall b :: 0 <= b < |s.cells| ==> CellOk(l, s.cells[b]))
    && (forall b :: 0 <= b < |s.cells| ==> Settled(s, b))
    && (forall t :: 0 <= t < |s.threads| ==> TaskOk(s.cells, s.threads[t]))
    && (forall t, u :: 0 <= t < u < |s.threads| ==> Apart(s.threads[t], s.threads[u]))
  }

  ghost predicate Inv(l: Limits, s: Sys) {
    && Shape(l, s)
    && s.util == Sum(Caps(s))
    && s.util + Sum(Debts(s)) <= l.max + Excess(l, |s.threads|)
  }

  // ---- sums ----

  lemma CapsUpdate(s: Sys, b: nat, c: Cell)
    requires b < |s.cells|
    ensures Sum(Caps(s.(cells := s.cells[b := c]))) == Sum(Caps(s)) - s.cells[b].cap + c.cap
  {
    SumUpdate(Caps(s), b, c.cap);
    assert Caps(s.(cells := s.cells[b := c])) == Caps(s)[b := c.cap];
  }

  lemma DebtsUpdate(s: Sys, t: nat, k: Task)
    requires t < |s.threads|
    ensures Sum(Debts(s.(threads := s.threads[t := k]))) == Sum(Debts(s)) - Owed(s.threads[t]) + Owed(k)
  {
    SumUpdate(Debts(s), t, Owed(k));
    assert Debts(s.(threads := s.threads[t := k])) == Debts(s)[t := Owed(k)];
  }

  lemma UtilNotNegative(s: Sys)
    ensures Sum(Caps(s)) >= 0 && Sum(Debts(s)) >= 0
  {
    SumOfNats(Caps(s));
    SumOfNats(Debts(s));
  }

  /** One thread owes at most one block limit, and nothing when no block can grow and it is not creating. */
  lemma OwesLittle(l: Limits, s: Sys, t: nat)
    requires Shape(l, s) && t < |s.threads|
    ensures Owed(s.threads[t]) <= l.perFile
    ensures NeverGrows(l) && !CreatingAt(s, t) ==> Owed(s.threads[t]) == 0
  {
    assert TaskOk(s.cells, s.threads[t]) && !s.threads[t].Idle? ==> CellOk(l, s.cells[s.threads[t].block]);
  }

  /** What the other threads owe while thread `t` is idle: at most one limit each, and nothing at all when no block
      can grow and nobody else is creating. */
  lemma OthersOwe(l: Limits, s: Sys, t: nat)
    requires Shape(l, s) && IdleAt(s, t) && (NeverGrows(l) ==> MutexFree(s))
    ensures Sum(Debts(s)) <= Excess(l, |s.threads|)
  {
    var xs := Debts(s);
    forall i | 0 <= i < |xs| ensures xs[i] <= l.perFile && (NeverGrows(l) ==> xs[i] == 0) {
      OwesLittle(l, s, i);
      assert NeverGrows(l) ==> !CreatingAt(s, i);
    }
    if NeverGrows(l) { SumOfZeros(xs); } else { SumButOne(xs, t, l.perFile); }
  }

  lemma SumButOne(xs: seq<int>, t: nat, bound: nat)
    requires t < |xs| && xs[t] == 0 && forall i :: 0 <= i < |xs| ==> xs[i] <= bound
    ensures Sum(xs) <= (|xs| - 1) * bound
  {
    SumBounded(xs[t := bound], bound);
    SumUpdate(xs, t, bound);
    OneTimesLess(|xs|, bound);
  }

  lemma OneTimesLess(n: int, bound: int)
    ensures n * bound == (n - 1) * bound + bound
  {
  }

  // ---- the steps ----

  /** Thread `t` starts something on block `b`, which nobody else is on. */
  lemma StartShape(l: Limits, s: Sys, util: int, t: nat, b: nat, c: Cell, k: Task)
    requires Shape(l, s) && IdleAt(s, t) && FreeCell(s, b) && CellOk(l, c)
    requires !k.Idle? && k.block == b && TaskOk(s.cells[b := c], k) && (k.Creating? ==> MutexFree(s))
    ensures Shape(l, Sys(util, s.cells[b := c], s.threads[t := k]))
  {
    var s' := Sys(util, s.cells[b := c], s.threads[t := k]);
    forall u | 0 <= u < |s.threads| && u != t ensures TaskOk(s'.cells, s'.threads[u]) && Apart(s'.threads[u], k) {
      assert TaskOk(s.cells, s.threads[u]) && !BusyOn(s, u, b);
      assert k.Creating? ==> !CreatingAt(s, u);
    }
    forall a | 0 <= a < |s'.cells| ensures Settled(s', a) {
      assert BusyOn(s', t, b);
      assert Settled(s, a);
      if a != b && Busy(s, a) {
        var u :| 0 <= u < |s.threads| && BusyOn(s, u, a);
        assert BusyOn(s', u, a);
      }
    }
  }

  lemma AddCell(l: Limits, s: Sys)
    requires Inv(l, s)
    ensures var s' := s.(cells := s.cells + [Cell(0, 0)]);
      Inv(l, s') && FreeCell(s', |s.cells|)
  {
    var s' := s.(cells := s.cells + [Cell(0, 0)]);
    SumAppend(Caps(s), 0);
    assert Caps(s') == Caps(s) + [0] && Debts(s') == Debts(s);
    forall t | 0 <= t < |s.threads| ensures TaskOk(s'.cells, s'.threads[t]) && !BusyOn(s', t, |s.cells|) {
      assert TaskOk(s.cells, s.threads[t]);
    }
    forall a | 0 <= a < |s'.cells| ensures Settled(s', a) {
      if a < |s.cells| {
        assert Settled(s, a);
        if Busy(s, a) {
          var u :| 0 <= u < |s.threads| && BusyOn(s, u, a);
          assert BusyOn(s', u, a);
        }
      }
    }
  }

  lemma GrowReadKeeps(l: Limits, s: Sys, t: nat, b: nat, want: nat)
    requires Inv(l, s) && Enabled(s, GrowRead(t, b, want))
    ensures Inv(l, Apply(l, s, GrowRead(t, b, want)))
  {
    var c := s.cells[b];
    var d := Growth(l, s.util, c, want);
    assert CellOk(l, c);
    ExtendMeaning(l, Env(s.util, map[], 0), Block(c.maxCap, c.cap, Some([]), None, true), want);
    if d > 0 {
      assert s.cells[b := c] == s.cells;
      StartShape(l, s, s.util, t, b, c, Growing(b, d));
      OthersOweWhileGrowing(l, s, t, b);
      DebtsUpdate(s, t, Growing(b, d));
      assert Caps(Apply(l, s, GrowRead(t, b, want))) == Caps(s);
    }
  }

  /** If some block has memory beyond its first allocation to grow into, blocks can grow. */
  lemma OthersOweWhileGrowing(l: Limits, s: Sys, t: nat, b: nat)
    requires Shape(l, s) && IdleAt(s, t) && b < |s.cells| && 0 < s.cells[b].cap < s.cells[b].maxCap
    ensures Sum(Debts(s)) <= Excess(l, |s.threads|)
  {
    assert CellOk(l, s.cells[b]);
    assert !NeverGrows(l);
    OthersOwe(l, s, t);
  }

  /** Creating on block `b`, given room read from the counter. */
  lemma CreateOnKeeps(l: Limits, s: Sys, t: nat, b: nat)
    requires Inv(l, s) && IdleAt(s, t) && MutexFree(s) && FreeCell(s, b) && s.cells[b].cap == 0
    ensures var room := Room(l, s.util);
      Inv(l, s.(cells := s.cells[b := Cell(0, room)],
                threads := s.threads[t := Creating(b, Min(INITIAL_CAPACITY, room))]))
  {
    var room := Room(l, s.util);
    var k := Creating(b, Min(INITIAL_CAPACITY, room));
    UtilNotNegative(s);
    StartShape(l, s, s.util, t, b, Cell(0, room), k);
    OthersOwe(l, s, t);
    CapsUpdate(s, b, Cell(0, room));
    DebtsUpdate(s, t, k);
    var s' := s.(cells := s.cells[b := Cell(0, room)], threads := s.threads[t := k]);
    assert Caps(s') == Caps(s.(cells := s'.cells)) && Debts(s') == Debts(s.(threads := s'.threads));
  }

  lemma CreateNewKeeps(l: Limits, s: Sys, t: nat)
    requires Inv(l, s) && Enabled(s, CreateNew(t))
    ensures Inv(l, Apply(l, s, CreateNew(t)))
  {
    AddCell(l, s);
    var s1 := s.(cells := s.cells + [Cell(0, 0)]);
    forall u | 0 <= u < |s.threads| ensures !CreatingAt(s1, u) { assert !CreatingAt(s, u); }
    CreateOnKeeps(l, s1, t, |s.cells|);
    assert s1.cells[|s.cells| := Cell(0, Room(l, s.util))] == s.cells + [Cell(0, Room(l, s.util))];
  }

  lemma CreateOverKeeps(l: Limits, s: Sys, t: nat, b: nat)
    requires Inv(l, s) && Enabled(s, CreateOver(t, b))
    ensures Inv(l, Apply(l, s, CreateOver(t, b)))
  {
    var c := s.cells[b];
    var k := Creating(b, Min(INITIAL_CAPACITY, c.maxCap));
    assert CellOk(l, c) && Settled(s, b);
    StartShape(l, s, s.util - c.cap, t, b, Cell(0, c.maxCap), k);
    CapsUpdate(s, b, Cell(0, c.maxCap));
    DebtsUpdate(s, t, k);
    var s' := Apply(l, s, CreateOver(t, b));
    assert Caps(s') == Caps(s.(cells := s'.cells)) && Debts(s') == Debts(s.(threads := s'.threads));
  }

  lemma CommitShape(l: Limits, s: Sys, t: nat)
    requires Shape(l, s) && Enabled(s, Commit(t))
    ensures Shape(l, Apply(l, s, Commit(t)))
  {
    var s' := Apply(l, s, Commit(t));
    var b := s.threads[t].block;
    assert TaskOk(s.cells, s.threads[t]) && CellOk(l, s.cells[b]);
    forall u | 0 <= u < |s.threads| && u != t ensures TaskOk(s'.cells, s'.threads[u]) {
      assert TaskOk(s.cells, s.threads[u]);
      assert if u < t then Apart(s.threads[u], s.threads[t]) else Apart(s.threads[t], s.threads[u]);
    }
    forall a | 0 <= a < |s'.cells| ensures Settled(s', a) {
      assert Settled(s, a);
      if a != b && Busy(s, a) {
        var u :| 0 <= u < |s.threads| && BusyOn(s, u, a);
        assert BusyOn(s', u, a);
      }
    }
  }

  lemma CommitKeeps(l: Limits, s: Sys, t: nat)
    requires Inv(l, s) && Enabled(s, Commit(t))
    ensures Inv(l, Apply(l, s, Commit(t)))
  {
    var b := s.threads[t].block;
    var s' := Apply(l, s, Commit(t));
    CommitShape(l, s, t);
    CapsUpdate(s, b, s'.cells[b]);
    DebtsUpdate(s, t, Idle);
    assert Caps(s') == Caps(s.(cells := s'.cells)) && Debts(s') == Debts(s.(threads := s'.threads));
  }

  lemma ReleaseKeeps(l: Limits, s: Sys, b: nat)
    requires Inv(l, s) && Enabled(s, Release(b))
    ensures Inv(l, Apply(l, s, Release(b)))
  {
    var s' := Apply(l, s, Release(b));
    CapsUpdate(s, b, Cell(0, 0));
    assert Caps(s') == Caps(s.(cells := s'.cells)) && Debts(s') == Debts(s);
    forall u | 0 <= u < |s.threads| ensures TaskOk(s'.cells, s'.threads[u]) {
      assert TaskOk(s.cells, s.threads[u]) && !BusyOn(s, u, b);
    }
    forall a | 0 <= a < |s'.cells| ensures Settled(s', a) {
      assert Settled(s, a);
      if a != b && Busy(s, a) {
        var u :| 0 <= u < |s.threads| && BusyOn(s, u, a);
        assert BusyOn(s', u, a);
      }
    }
  }

  lemma StepKeeps(l: Limits, s: Sys, st: Step)
    requires Inv(l, s) && Enabled(s, st)
    ensures Inv(l, Apply(l, s, st)) && |Apply(l, s, st).threads| == |s.threads|
  {
    match st
    case GrowRead(t, b, want) => GrowReadKeeps(l, s, t, b, want);
    case CreateNew(t) => CreateNewKeeps(l, s, t);
    case CreateOver(t, b) => CreateOverKeeps(l, s, t, b);
    case CreateFromFile(t, b) => CreateOnKeeps(l, s, t, b);
    case Commit(t) => CommitKeeps(l, s, t);
    case Release(b) => ReleaseKeeps(l, s, b);
  }

  lemma {:induction false} RunKeeps(l: Limits, s: Sys, steps: seq<Step>, t: Sys)
    requires Inv(l, s) && Run(l, s, steps, t)
    ensures Inv(l, t) && |t.threads| == |s.threads|
    decreases |steps|
  {
    if steps != [] {
      StepKeeps(l, s, steps[0]);
      RunKeeps(l, Apply(l, s, steps[0]), steps[1..], t);
    }
  }

  lemma ReachableInv(l: Limits, n: nat, t: Sys)
    requires n >= 1 && Reachable(l, n, t)
    ensures Inv(l, t) && |t.threads| == n
  {
    var steps :| Run(l, Init(n), steps, t);
    SumOfZeros(Debts(Init(n)));
    assert Caps(Init(n)) == [];
    RunKeeps(l, Init(n), steps, t);
  }

  // ---- the results ----

  lemma ExcessBound(l: Limits, n: nat)
    requires n >= 1
    ensures Excess(l, n) <= (n - 1) * l.perFile
  {
  }

  /** In every reachable state the counter is the sum of the live capacities, and no more than one block limit per
      further thread above the cache limit. */
  lemma OvercommitBound(l: Limits, n: nat, t: Sys)
    requires n >= 1 && Reachable(l, n, t)
    ensures t.util == Sum(Caps(t)) && t.util <= l.max + (n - 1) * l.perFile
  {
    ReachableInv(l, n, t);
    UtilNotNegative(t);
    ExcessBound(l, n);
  }

  lemma OneThreadNeverOvercommits(l: Limits, t: Sys)
    requires Reachable(l, 1, t)
    ensures t.util <= l.max
  {
    OvercommitBound(l, 1, t);
  }

  // ---- when the limit can be exceeded ----

  lemma {:induction false} RunAppend(l: Limits, s: Sys, steps: seq<Step>, t: Sys, st: Step)
    requires Run(l, s, steps, t) && Enabled(t, st)
    ensures Run(l, s, steps + [st], Apply(l, t, st))
    decreases |steps|
  {
    if steps == [] {
      assert steps + [st] == [st] && [st][1..] == [];
    } else {
      assert (steps + [st])[1..] == steps[1..] + [st];
      RunAppend(l, Apply(l, s, steps[0]), steps[1..], t, st);
    }
  }

  lemma ReachableStep(l: Limits, n: nat, s: Sys, st: Step)
    requires Reachable(l, n, s) && Enabled(s, st)
    ensures Reachable(l, n, Apply(l, s, st))
  {
    var steps :| Run(l, Init(n), steps, s);
    RunAppend(l, Init(n), steps, s, st);
  }

  /** A whole creation by thread `t`, with nothing in between. */
  lemma CreateWhole(l: Limits, n: nat, s: Sys, t: nat) returns (s': Sys)
    requires Reachable(l, n, s) && Enabled(s, CreateNew(t))
    ensures Reachable(l, n, s') && s'.threads == s.threads
    ensures s'.cells == s.cells + [Cell(Min(INITIAL_CAPACITY, Room(l, s.util)), Room(l, s.util))]
    ensures s'.util == s.util + Min(INITIAL_CAPACITY, Room(l, s.util))
  {
    ReachableStep(l, n, s, CreateNew(t));
    var s1 := Apply(l, s, CreateNew(t));
    ReachableStep(l, n, s1, Commit(t));
    s' := Apply(l, s1, Commit(t));
    assert s'.threads == s.threads;
  }

  /** Thread 1 fills the cache to the brim while thread 0 holds on to its decision. */
  lemma {:induction false} Fill(l: Limits, n: nat, s: Sys) returns (s': Sys)
    requires Reachable(l, n, s) && n >= 2 && |s.threads| == n && MutexFree(s) && s.threads[1].Idle?
    requires !NeverGrows(l) && s.util <= l.max
    ensures Reachable(l, n, s') && s'.threads == s.threads && s'.util == l.max && |s'.cells| >= |s.cells|
    decreases l.max - s.util
  {
    if s.util == l.max { return s; }
    s' := CreateWhole(l, n, s, 1);
    forall u | 0 <= u < |s'.threads| ensures !CreatingAt(s', u) { assert !CreatingAt(s, u); }
    s' := Fill(l, n, s');
  }

  lemma ThreadsOvercommit(l: Limits, n: nat) returns (t: Sys)
    requires n >= 2 && !NeverGrows(l)
    ensures Reachable(l, n, t) && t.util > l.max
  {
    var s0 := Init(n);
    assert Run(l, s0, [], s0);
    var s1 := CreateWhole(l, n, s0, 0);
    var st := GrowRead(0, 0, INITIAL_CAPACITY + 1);
    ReachableStep(l, n, s1, st);
    var s2 := Apply(l, s1, st);
    var s3 := Fill(l, n, s2);
    ReachableStep(l, n, s3, Commit(0));
    t := Apply(l, s3, Commit(0));
  }

  ghost predicate CanOvercommit(l: Limits, n: nat) { exists t :: Reachable(l, n, t) && t.util > l.max }

  /** The cache limit can be exceeded exactly when there are two threads and blocks can grow at all. */
  lemma OvercommitExactly(l: Limits, n: nat)
    requires n >= 1
    ensures CanOvercommit(l, n) <==> n >= 2 && l.max > INITIAL_CAPACITY && l.perFile > INITIAL_CAPACITY
  {
    if n >= 2 && !NeverGrows(l) {
      var t := ThreadsOvercommit(l, n);
    } else {
      forall t | Reachable(l, n, t) ensures t.util <= l.max {
        ReachableInv(l, n, t);
        UtilNotNegative(t);
      }
    }
  }
}
