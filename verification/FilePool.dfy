/**
  File lifetimes: the pool of weak pointers to file handles, and what a handle does when its last reference goes
  (src/fileio/file_handle_pool.cpp, src/fileio/file_ownership_handle.hpp, delete_path in src/fileio/fs_utils.cpp).
 */
module FilePool {
  import opened Prelude

  /** The path's kind on disk. */
  datatype Kind = Missing | Regular | Directory

  /** `flag` is m_delete_on_destruction; `refs` counts the shared pointers. */
  datatype Handle = Handle(path: string, flag: bool, refs: nat)

  /** `handles` holds every handle ever made, dead ones with no references; `pool` maps paths to them. */
  datatype State = State(handles: seq<Handle>, pool: map<string, nat>, registers: nat, disk: map<string, Kind>)

  const SWEEP_PERIOD: nat := 16 * 1024

  const CACHE_PREFIX := "cache://"

  datatype Step =
    | Register(path: string)
    | Copy(h: nat)
    | Drop(h: nat)
    | DeletePath(path: string)
    | Put(path: string, kind: Kind)

  datatype Out = Handed(h: nat) | Answer(ok: bool) | Nothing

  function KindOf(s: State, path: string): Kind { if path in s.disk then s.disk[path] else Missing }

  predicate Live(s: State, h: nat) { h < |s.handles| && s.handles[h].refs > 0 }

  /** get_file_handle: an expired entry is erased on the way. */
  function Get(s: State, path: string): (State, Option<nat>) {
    if path !in s.pool then (s, None)
    else if Live(s, s.pool[path]) then (s, Some(s.pool[path]))
    else (s.(pool := s.pool - {path}), None)
  }

  function AddRef(s: State, h: nat, d: int): State
    requires h < |s.handles| && s.handles[h].refs + d >= 0
  {
    s.(handles := s.handles[h := s.handles[h].(refs := s.handles[h].refs + d)])
  }

  /** The entries whose handles are still alive. */
  function Swept(s: State): map<string, nat> { map p | p in s.pool && Live(s, s.pool[p]) :: s.pool[p] }

  /** register_file; `sweep` says whether this call goes on to sweep. */
  function RegisterWith(s: State, path: string, sweep: bool): (State, nat) {
    var (s1, found) := Get(s, path);
    var (s2, h) :=
      if found.Some? then (AddRef(s1, found.value, 1), found.value)
      else
        (s1.(handles := s1.handles + [Handle(path, CACHE_PREFIX <= path, 1)],
             pool := s1.pool[path := |s1.handles|]),
         |s1.handles|);
    var s3 := s2.(registers := s2.registers + 1);
    (if sweep then s3.(pool := Swept(s3)) else s3, h)
  }

  function Sweeps(s: State): bool { (s.registers + 1) % SWEEP_PERIOD == 0 }

  /** delete_path_impl on the disk. */
  function Erase(s: State, path: string): State { s.(disk := s.disk - {path}) }

  function DropRef(s: State, h: nat): State
    requires Live(s, h)
  {
    var s1 := AddRef(s, h, -1);
    var k := s.handles[h];
    if k.refs == 1 && k.flag && k.path != "" then Erase(s1, k.path) else s1
  }

  function Delete(s: State, path: string): (State, bool) {
    if KindOf(s, path) == Missing then (s, false)
    else if KindOf(s, path) == Regular then
      var (s1, found) := Get(s, path);
      if found.Some? && found.value < |s1.handles| then
        (s1.(handles := s1.handles[found.value := s1.handles[found.value].(flag := true)]), true)
      else (Erase(s1, path), true)
    else (Erase(s, path), true)
  }

  predicate Enabled(s: State, st: Step) {
    match st
    case Copy(h) => Live(s, h)
    case Drop(h) => Live(s, h)
    case _ => true
  }

  function ApplyWith(s: State, st: Step, sweep: bool): (State, Out)
    requires Enabled(s, st)
  {
    match st
    case Register(path) => var (t, h) := RegisterWith(s, path, sweep); (t, Handed(h))
    case Copy(h) => (AddRef(s, h, 1), Nothing)
    case Drop(h) => (DropRef(s, h), Nothing)
    case DeletePath(path) => var (t, ok) := Delete(s, path); (t, Answer(ok))
    case Put(path, kind) => (s.(disk := if kind == Missing then s.disk - {path} else s.disk[path := kind]), Nothing)
  }

  function Apply(s: State, st: Step): (State, Out)
    requires Enabled(s, st)
  {
    ApplyWith(s, st, Sweeps(s))
  }

  const EMPTY := State([], map[], 0, map[])

  ghost predicate Run(s: State, steps: seq<Step>, outs: seq<Out>, t: State)
    decreases |steps|
  {
    && |outs| == |steps|
    && if steps == [] then s == t
       else
         Enabled(s, steps[0]) && Apply(s, steps[0]).1 == outs[0] && Run(Apply(s, steps[0]).0, steps[1..], outs[1..], t)
  }

  // ---- the invariant ----

  predicate HandleOk(s: State, h: nat)
    requires h < |s.handles|
  {
    s.handles[h].refs > 0 ==> s.handles[h].path in s.pool && s.pool[s.handles[h].path] == h
  }

  ghost predicate Inv(s: State) {
    && (forall h :: 0 <= h < |s.handles| ==> HandleOk(s, h))
    && (forall p :: p in s.pool ==> s.pool[p] < |s.handles| && s.handles[s.pool[p]].path == p)
  }

  lemma GetMeaning(s: State, path: string)
    requires Inv(s)
    ensures var (s1, found) := Get(s, path);
      && Inv(s1) && s1 == s.(pool := s1.pool)
      && (found.Some? ==> Live(s, found.value) && s.handles[found.value].path == path && s1 == s)
      && (found.None? ==> path !in s1.pool && forall h: nat :: Live(s, h) ==> s.handles[h].path != path)
  {
    forall h | 0 <= h < |s.handles| ensures HandleOk(Get(s, path).0, h) { assert HandleOk(s, h); }
    forall h: nat | Live(s, h) && Get(s, path).1.None? ensures s.handles[h].path != path { assert HandleOk(s, h); }
  }

  lemma RegisterKeeps(s: State, path: string, sweep: bool)
    requires Inv(s)
    ensures Inv(RegisterWith(s, path, sweep).0)
  {
    GetMeaning(s, path);
    var s1 := Get(s, path).0;
    var t := RegisterWith(s, path, sweep).0;
    forall h | 0 <= h < |t.handles| ensures HandleOk(t, h) { assert h < |s.handles| ==> HandleOk(s1, h); }
  }

  lemma DropKeeps(s: State, h: nat)
    requires Inv(s) && Live(s, h)
    ensures Inv(DropRef(s, h))
  {
    var t := DropRef(s, h);
    forall k | 0 <= k < |t.handles| ensures HandleOk(t, k) { assert HandleOk(s, k); }
  }

  lemma DeleteKeeps(s: State, path: string)
    requires Inv(s)
    ensures Inv(Delete(s, path).0)
  {
    GetMeaning(s, path);
    var s1 := Get(s, path).0;
    var t := Delete(s, path).0;
    forall k | 0 <= k < |t.handles| ensures HandleOk(t, k) { assert HandleOk(s, k) && HandleOk(s1, k); }
  }

  lemma StepKeeps(s: State, st: Step, sweep: bool)
    requires Inv(s) && Enabled(s, st)
    ensures Inv(ApplyWith(s, st, sweep).0)
  {
    match st
    case Register(path) => RegisterKeeps(s, path, sweep);
    case Copy(h) =>
      var t := AddRef(s, h, 1);
      forall k | 0 <= k < |t.handles| ensures HandleOk(t, k) { assert HandleOk(s, k); }
    case Drop(h) => DropKeeps(s, h);
    case DeletePath(path) => DeleteKeeps(s, path);
    case Put(path, kind) =>
      var t := ApplyWith(s, st, sweep).0;
      forall k | 0 <= k < |t.handles| ensures HandleOk(t, k) { assert HandleOk(s, k); }
  }

  lemma {:induction false} RunKeeps(s: State, steps: seq<Step>, outs: seq<Out>, t: State)
    requires Inv(s) && Run(s, steps, outs, t)
    ensures Inv(t)
    decreases |steps|
  {
    if steps != [] {
      StepKeeps(s, steps[0], Sweeps(s));
      RunKeeps(Apply(s, steps[0]).0, steps[1..], outs[1..], t);
    }
  }

  // ---- the results ----

  /** In every run each path has at most one live handle. */
  lemma OneHandlePerPath(steps: seq<Step>, outs: seq<Out>, t: State, h: nat, k: nat)
    requires Run(EMPTY, steps, outs, t) && Live(t, h) && Live(t, k) && t.handles[h].path == t.handles[k].path
    ensures h == k
  {
    RunKeeps(EMPTY, steps, outs, t);
    assert HandleOk(t, h) && HandleOk(t, k);
  }

  function MarkedIf(k: Handle, path: string): Handle { if k.path == path then k.(flag := true) else k }

  /** delete_path takes a regular file off the disk exactly when no live handle is on it; otherwise it marks the one
      handle and leaves the file. */
  lemma DeleteSparesFilesInUse(steps: seq<Step>, outs: seq<Out>, t: State, path: string)
    requires Run(EMPTY, steps, outs, t) && KindOf(t, path) == Regular
    ensures var (t', ok) := Delete(t, path);
      && ok && (KindOf(t', path) == Missing <==> !exists h: nat :: Live(t, h) && t.handles[h].path == path)
      && |t'.handles| == |t.handles|
      && (forall h: nat :: Live(t, h) ==> Live(t', h) && t'.handles[h] == MarkedIf(t.handles[h], path))
  {
    RunKeeps(EMPTY, steps, outs, t);
    GetMeaning(t, path);
    forall h: nat | Live(t, h) ensures HandleOk(t, h) { }
  }

  /** A missing path is left alone and the answer is no; a directory is removed outright. */
  lemma DeleteOtherKinds(s: State, path: string)
    ensures KindOf(s, path) == Missing ==> Delete(s, path) == (s, false)
    ensures KindOf(s, path) == Directory ==> Delete(s, path) == (s.(disk := s.disk - {path}), true)
  {
  }

  /** The step asks for the file of handle `h` to be deleted while `h` is in use. */
  predicate Asks(s: State, st: Step, h: nat) {
    st.DeletePath? && KindOf(s, st.path) == Regular && Live(s, h) && s.handles[h].path == st.path
  }

  /** Some step of the run from `s` does. */
  predicate Asked(s: State, steps: seq<Step>, h: nat)
    decreases |steps|
  {
    && steps != [] && Enabled(s, steps[0])
    && (Asks(s, steps[0], h) || Asked(Apply(s, steps[0]).0, steps[1..], h))
  }

  function Flag(s: State, h: nat, path: string): bool {
    if h < |s.handles| then s.handles[h].flag else CACHE_PREFIX <= path
  }

  lemma StepFlags(s: State, st: Step, h: nat)
    requires Inv(s) && Enabled(s, st) && h < |Apply(s, st).0.handles|
    ensures var t := Apply(s, st).0;
      && (h < |s.handles| ==> t.handles[h].path == s.handles[h].path)
      && (t.handles[h].flag <==> Flag(s, h, t.handles[h].path) || Asks(s, st, h))
  {
    if st.DeletePath? { GetMeaning(s, st.path); }
    if st.Register? { GetMeaning(s, st.path); }
    if h < |s.handles| { assert HandleOk(s, h); }
  }

  lemma HandlesStay(s: State, st: Step)
    requires Enabled(s, st)
    ensures |s.handles| <= |Apply(s, st).0.handles|
  {
  }

  lemma {:induction false} RunFlags(s: State, steps: seq<Step>, outs: seq<Out>, t: State, h: nat)
    requires Inv(s) && Run(s, steps, outs, t) && h < |t.handles|
    ensures h < |s.handles| ==> t.handles[h].path == s.handles[h].path
    ensures t.handles[h].flag <==> Flag(s, h, t.handles[h].path) || Asked(s, steps, h)
    decreases |steps|
  {
    if steps != [] {
      var u := Apply(s, steps[0]).0;
      StepKeeps(s, steps[0], Sweeps(s));
      HandlesStay(s, steps[0]);
      RunFlags(u, steps[1..], outs[1..], t, h);
      if h < |u.handles| { StepFlags(s, steps[0], h); }
    }
  }

  /** A handle's file is to be deleted exactly if it is in the cache, or some delete_path in the run met this handle in
      use on a regular file. */
  lemma FlagTellsTheRun(steps: seq<Step>, outs: seq<Out>, t: State, h: nat)
    requires Run(EMPTY, steps, outs, t) && h < |t.handles|
    ensures t.handles[h].flag <==> CACHE_PREFIX <= t.handles[h].path || Asked(EMPTY, steps, h)
  {
    RunFlags(EMPTY, steps, outs, t, h);
  }

  /** The last reference to a handle takes its file off the disk exactly then; any other reference leaves the disk
      alone. */
  lemma LastDropDeletes(steps: seq<Step>, outs: seq<Out>, t: State, h: nat)
    requires Run(EMPTY, steps, outs, t) && Live(t, h)
    ensures var k := t.handles[h];
      var deletes := k.refs == 1 && k.path != "" && (CACHE_PREFIX <= k.path || Asked(EMPTY, steps, h));
      DropRef(t, h).disk == if deletes then t.disk - {k.path} else t.disk
  {
    FlagTellsTheRun(steps, outs, t, h);
  }

  /** What a step adds to the references on a handle. */
  function Adds(st: Step, out: Out, h: nat): int {
    if out == Handed(h) || st == Copy(h) then 1 else if st == Drop(h) then -1 else 0
  }

  function AddsAll(steps: seq<Step>, outs: seq<Out>, h: nat): int
    requires |steps| == |outs|
  {
    if steps == [] then 0 else Adds(steps[0], outs[0], h) + AddsAll(steps[1..], outs[1..], h)
  }

  function Refs(s: State, h: nat): nat { if h < |s.handles| then s.handles[h].refs else 0 }

  /** Registering hands out a handle on the path, the live one if there is one, else a new one. */
  lemma RegisterMeaning(s: State, path: string)
    requires Inv(s)
    ensures var (t, out) := Apply(s, Register(path));
      && out.Handed? && Live(t, out.h) && t.handles[out.h].path == path && t.disk == s.disk
      && (if out.h < |s.handles| then Live(s, out.h) && |t.handles| == |s.handles| else out.h == |s.handles|)
      && (forall k: nat :: k < |s.handles| && k != out.h ==> t.handles[k] == s.handles[k])
  {
    GetMeaning(s, path);
  }

  lemma StepRefs(s: State, st: Step, h: nat)
    requires Inv(s) && Enabled(s, st)
    ensures Refs(Apply(s, st).0, h) == Refs(s, h) + Adds(st, Apply(s, st).1, h)
  {
    if st.Register? { GetMeaning(s, st.path); }
    if st.DeletePath? { GetMeaning(s, st.path); }
  }

  lemma {:induction false} RunRefs(s: State, steps: seq<Step>, outs: seq<Out>, t: State, h: nat)
    requires Inv(s) && Run(s, steps, outs, t)
    ensures Refs(t, h) == Refs(s, h) + AddsAll(steps, outs, h)
    decreases |steps|
  {
    if steps != [] {
      StepRefs(s, steps[0], h);
      StepKeeps(s, steps[0], Sweeps(s));
      RunRefs(Apply(s, steps[0]).0, steps[1..], outs[1..], t, h);
    }
  }

  /** A handle has as many references as were handed out and copied, less those dropped. */
  lemma RefsTellTheRun(steps: seq<Step>, outs: seq<Out>, t: State, h: nat)
    requires Run(EMPTY, steps, outs, t)
    ensures Refs(t, h) == AddsAll(steps, outs, h)
  {
    RunRefs(EMPTY, steps, outs, t, h);
  }

  // ---- the sweep ----

  /** Every 16384th registration leaves only paths in the pool that are in use. */
  lemma SweepLeavesLive(s: State, path: string, p: string)
    requires Inv(s) && (s.registers + 1) % 16384 == 0
    ensures var t := Apply(s, Register(path)).0;
      p in t.pool <==> exists h: nat :: Live(t, h) && t.handles[h].path == p
  {
    RegisterKeeps(s, path, true);
    var t := Apply(s, Register(path)).0;
    forall h: nat | Live(t, h) ensures t.handles[h].path in t.pool { assert HandleOk(t, h); }
    if p in t.pool { SweptIsLive(s, path, p); }
  }

  lemma SweptIsLive(s: State, path: string, p: string)
    requires Inv(s) && p in RegisterWith(s, path, true).0.pool
    ensures var t := RegisterWith(s, path, true).0;
      Live(t, t.pool[p]) && t.handles[t.pool[p]].path == p
  {
    RegisterKeeps(s, path, true);
  }

  /** Equal but for expired entries of the pool. */
  ghost predicate SameButExpired(s: State, r: State) {
    && s.handles == r.handles && s.disk == r.disk && s.registers == r.registers
    && forall p :: (p in s.pool && Live(s, s.pool[p])) || (p in r.pool && Live(r, r.pool[p])) ==>
         p in s.pool && p in r.pool && s.pool[p] == r.pool[p]
  }

  lemma GetAlike(s: State, r: State, path: string)
    requires Inv(s) && Inv(r) && SameButExpired(s, r)
    ensures Get(s, path).1 == Get(r, path).1 && SameButExpired(Get(s, path).0, Get(r, path).0)
  {
  }

  lemma SweepAlike(s: State, r: State)
    requires SameButExpired(s, r)
    ensures SameButExpired(s.(pool := Swept(s)), r)
  {
  }

  /** Changing a handle alike on both sides; its entries stay in step as long as it is not revived. */
  lemma ChangeAlike(s: State, r: State, h: nat, k: Handle)
    requires SameButExpired(s, r) && Live(s, h)
    ensures SameButExpired(s.(handles := s.handles[h := k]), r.(handles := r.handles[h := k]))
  {
  }

  lemma RegisterKnownAlike(s: State, r: State, path: string)
    requires Inv(s) && Inv(r) && SameButExpired(s, r) && Get(s, path).1.Some?
    ensures RegisterWith(s, path, false).1 == RegisterWith(r, path, false).1
    ensures SameButExpired(RegisterWith(s, path, false).0, RegisterWith(r, path, false).0)
  {
    GetAlike(s, r, path);
    GetMeaning(s, path);
    var h := Get(s, path).1.value;
    ChangeAlike(s, r, h, s.handles[h].(refs := s.handles[h].refs + 1));
  }

  lemma RegisterNewAlike(s: State, r: State, path: string)
    requires Inv(s) && Inv(r) && SameButExpired(s, r) && Get(s, path).1.None?
    ensures RegisterWith(s, path, false).1 == RegisterWith(r, path, false).1
    ensures SameButExpired(RegisterWith(s, path, false).0, RegisterWith(r, path, false).0)
  {
    GetAlike(s, r, path);
    GetMeaning(s, path);
    GetMeaning(r, path);
    NewAlike(Get(s, path).0, Get(r, path).0, path);
  }

  lemma RegisterAlike(s: State, r: State, path: string, sweep: bool)
    requires Inv(s) && Inv(r) && SameButExpired(s, r)
    ensures RegisterWith(s, path, sweep).1 == RegisterWith(r, path, false).1
    ensures SameButExpired(RegisterWith(s, path, sweep).0, RegisterWith(r, path, false).0)
  {
    if Get(s, path).1.Some? { RegisterKnownAlike(s, r, path); } else { RegisterNewAlike(s, r, path); }
    if sweep { SweepAlike(RegisterWith(s, path, false).0, RegisterWith(r, path, false).0); }
  }

  lemma NewAlike(s: State, r: State, path: string)
    requires Inv(s) && Inv(r) && SameButExpired(s, r)
    ensures var k := Handle(path, CACHE_PREFIX <= path, 1);
      SameButExpired(s.(handles := s.handles + [k], pool := s.pool[path := |s.handles|]),
                     r.(handles := r.handles + [k], pool := r.pool[path := |r.handles|]))
  {
  }

  lemma MarkAlike(s: State, r: State, path: string)
    requires Inv(s) && Inv(r) && SameButExpired(s, r) && KindOf(s, path) == Regular && Get(s, path).1.Some?
    ensures Delete(s, path).1 == Delete(r, path).1 && SameButExpired(Delete(s, path).0, Delete(r, path).0)
  {
    GetAlike(s, r, path);
    GetMeaning(s, path);
    var h := Get(s, path).1.value;
    ChangeAlike(s, r, h, s.handles[h].(flag := true));
  }

  lemma DeleteAlike(s: State, r: State, path: string)
    requires Inv(s) && Inv(r) && SameButExpired(s, r)
    ensures Delete(s, path).1 == Delete(r, path).1 && SameButExpired(Delete(s, path).0, Delete(r, path).0)
  {
    GetAlike(s, r, path);
    if KindOf(s, path) == Regular && Get(s, path).1.Some? { MarkAlike(s, r, path); }
  }

  lemma DropAlike(s: State, r: State, h: nat)
    requires SameButExpired(s, r) && Live(s, h)
    ensures Live(r, h) && SameButExpired(DropRef(s, h), DropRef(r, h))
  {
    ChangeAlike(s, r, h, s.handles[h].(refs := s.handles[h].refs - 1));
  }

  lemma StepAlike(s: State, r: State, st: Step, sweep: bool)
    requires Inv(s) && Inv(r) && SameButExpired(s, r) && Enabled(s, st)
    ensures Enabled(r, st) && ApplyWith(s, st, sweep).1 == ApplyWith(r, st, false).1
    ensures SameButExpired(ApplyWith(s, st, sweep).0, ApplyWith(r, st, false).0)
  {
    match st
    case Register(path) => RegisterAlike(s, r, path, sweep);
    case DeletePath(path) => DeleteAlike(s, r, path);
    case Copy(h) => ChangeAlike(s, r, h, s.handles[h].(refs := s.handles[h].refs + 1));
    case Drop(h) => DropAlike(s, r, h);
    case Put(_, _) =>
  }

  /** The same pool without its sweep. */
  ghost predicate RunUnswept(s: State, steps: seq<Step>, outs: seq<Out>, t: State)
    decreases |steps|
  {
    && |outs| == |steps|
    && if steps == [] then s == t
       else
         && Enabled(s, steps[0]) && ApplyWith(s, steps[0], false).1 == outs[0]
         && RunUnswept(ApplyWith(s, steps[0], false).0, steps[1..], outs[1..], t)
  }

  lemma {:induction false} RunAlike(s: State, r: State, steps: seq<Step>, outs: seq<Out>, t: State) returns (u: State)
    requires Inv(s) && Inv(r) && SameButExpired(s, r) && Run(s, steps, outs, t)
    ensures RunUnswept(r, steps, outs, u) && SameButExpired(t, u)
    decreases |steps|
  {
    if steps == [] {
      u := r;
    } else {
      StepAlike(s, r, steps[0], Sweeps(s));
      StepKeeps(s, steps[0], Sweeps(s));
      StepKeeps(r, steps[0], false);
      u := RunAlike(Apply(s, steps[0]).0, ApplyWith(r, steps[0], false).0, steps[1..], outs[1..], t);
    }
  }

  /** Nobody can tell that the pool is swept: a pool that never is gives the same answers, handles and disk. */
  lemma SweepIsUnobservable(steps: seq<Step>, outs: seq<Out>, t: State) returns (u: State)
    requires Run(EMPTY, steps, outs, t)
    ensures RunUnswept(EMPTY, steps, outs, u) && u.handles == t.handles && u.disk == t.disk
  {
    u := RunAlike(EMPTY, EMPTY, steps, outs, t);
  }

  // ---- in place ----

  class Pool {
    var handles: seq<Handle>
    var pool: map<string, nat>
    var registers: nat
    var disk: map<string, Kind>

    function Contents(): State
      reads this
    {
      State(handles, pool, registers, disk)
    }

    constructor ()
      ensures Contents() == EMPTY
    {
      handles, pool, registers, disk := [], map[], 0, map[];
    }

    method GetFileHandle(path: string) returns (found: Option<nat>)
      modifies this`pool
      ensures (Contents(), found) == Get(old(Contents()), path)
    {
      found := None;
      if path !in pool { return; }
      if Live(Contents(), pool[path]) {
        found := Some(pool[path]);
      } else {
        pool := pool - {path};
      }
    }

    method RegisterFile(path: string) returns (h: nat)
      modifies this
      ensures (Contents(), Handed(h)) == Apply(old(Contents()), Register(path))
    {
      var found := GetFileHandle(path);
      if found.Some? {
        h := found.value;
        handles := handles[h := handles[h].(refs := handles[h].refs + 1)];
      } else {
        h := |handles|;
        handles := handles + [Handle(path, CACHE_PREFIX <= path, 1)];
        pool := pool[path := h];
      }
      registers := registers + 1;
      if registers % SWEEP_PERIOD == 0 {
        Sweep();
      }
    }

    /** Walk the map and erase the entries that have expired. */
    method Sweep()
      modifies this`pool
      ensures Contents() == old(Contents()).(pool := Swept(old(Contents())))
    {
      var left := pool.Keys;
      while left != {}
        invariant left <= old(pool).Keys && pool.Keys <= old(pool).Keys
        invariant forall p :: p in old(pool) ==> (p in pool <==> p in left || Live(old(Contents()), old(pool)[p]))
        invariant forall p :: p in pool ==> pool[p] == old(pool)[p]
        decreases |left|
      {
        var p :| p in left;
        left := left - {p};
        if !Live(Contents(), pool[p]) {
          pool := pool - {p};
        }
      }
    }

    method MarkFileForDelete(path: string) returns (marked: bool)
      requires forall p :: p in pool ==> pool[p] < |handles|
      modifies this`pool, this`handles
      ensures marked == Get(old(Contents()), path).1.Some?
      ensures marked ==> Contents() == old(Contents()).(handles :=
        old(handles)[old(pool)[path] := old(handles)[old(pool)[path]].(flag := true)])
      ensures !marked ==> Contents() == Get(old(Contents()), path).0
    {
      var found := GetFileHandle(path);
      marked := found.Some?;
      if marked {
        handles := handles[found.value := handles[found.value].(flag := true)];
      }
    }

    method RemovePath(path: string) returns (ok: bool)
      requires forall p :: p in pool ==> pool[p] < |handles|
      modifies this
      ensures (Contents(), Answer(ok)) == Apply(old(Contents()), DeletePath(path))
    {
      var kind := KindOf(Contents(), path);
      if kind == Missing { return false; }
      ok := true;
      if kind == Regular {
        var marked := MarkFileForDelete(path);
        if marked { return; }
      }
      disk := disk - {path};
    }

    /** The destructor, when the last reference goes. */
    method DropReference(h: nat)
      requires Live(Contents(), h)
      modifies this
      ensures Contents() == DropRef(old(Contents()), h)
    {
      handles := handles[h := handles[h].(refs := handles[h].refs - 1)];
      if handles[h].refs == 0 && handles[h].flag && handles[h].path != "" {
        disk := disk - {handles[h].path};
      }
    }
  }
}
