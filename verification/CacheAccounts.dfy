/**
  What the cache keeps and what it gives back: along every run the utilization counter is the memory of the blocks there
  are, every block is in the table or held by a stream, and every file is some block's.  And what evicting achieves.
 */
module CacheAccounts {
  import opened Prelude
  import opened CacheBlock
  import opened CacheStore
  import opened CacheRefinement

  /** The capacities of blocks 0 to `n` - 1. */
  function Capacities(heap: map<nat, Block>, n: nat): nat {
    if n == 0 then 0 else Capacities(heap, n - 1) + if n - 1 in heap then heap[n - 1].cap else 0
  }

  function CapAt(heap: map<nat, Block>, r: nat): nat { if r in heap then heap[r].cap else 0 }

  lemma {:induction false} CapacitiesUpdate(heap: map<nat, Block>, n: nat, r: nat, b: Block)
    ensures Capacities(heap[r := b], n) == Capacities(heap, n) + if r < n then b.cap - CapAt(heap, r) else 0
  {
    if n > 0 { CapacitiesUpdate(heap, n - 1, r, b); }
  }

  lemma {:induction false} CapacitiesRemove(heap: map<nat, Block>, n: nat, r: nat)
    ensures Capacities(heap - {r}, n) == Capacities(heap, n) - if r < n then CapAt(heap, r) else 0
  {
    if n > 0 { CapacitiesRemove(heap, n - 1, r); }
  }

  /** Somebody can still get at the block. */
  ghost predicate Reached(s: Cache, r: nat) { InTable(s, r) || Pinned(s, r) }

  ghost predicate Owned(heap: map<nat, Block>, f: nat) { exists r :: r in heap && heap[r].file == Some(f) }

  ghost predicate Accounted(s: Cache) {
    && s.env.util == Capacities(s.heap, s.next)
    && (forall r {:trigger Reached(s, r)} :: r in s.heap ==> Reached(s, r))
    && (forall f {:trigger Owned(s.heap, f)} :: f in s.env.files ==> Owned(s.heap, f))
  }

  // ---- one block changes ----

  lemma HeapBounds(s: Cache, p: Plain, r: nat)
    requires Related(s, p) && r in s.heap
    ensures r < s.next && BlockOk(s.env, s.heap[r])
  {
    assert Issued(s.heap, s.next, r) && BlockStands(s.env, s.heap, p.objs, r);
  }

  /** No files but the block's own come or go. */
  ghost predicate FilesFollow(e: Env, e': Env, before: Option<nat>, after: Option<nat>) {
    && (forall f :: f in e'.files ==> f in e.files || Some(f) == after)
    && (before.Some? && before != after ==> before.value !in e'.files)
  }

  lemma OwnersKept(e: Env, e': Env, heap: map<nat, Block>, r: nat, b: Block)
    requires forall f {:trigger Owned(heap, f)} :: f in e.files ==> Owned(heap, f)
    requires FilesFollow(e, e', FileOf(heap, r), b.file)
    ensures forall f {:trigger Owned(heap[r := b], f)} :: f in e'.files ==> Owned(heap[r := b], f)
  {
    var heap' := heap[r := b];
    forall f | f in e'.files ensures Owned(heap', f) {
      if Some(f) == b.file {
        assert heap'[r].file == Some(f);
      } else {
        assert Owned(heap, f);
        var q :| q in heap && heap[q].file == Some(f);
        assert q in heap' && heap'[q].file == Some(f);
      }
    }
  }

  lemma OwnersLeft(e: Env, e': Env, heap: map<nat, Block>, r: nat)
    requires forall f {:trigger Owned(heap, f)} :: f in e.files ==> Owned(heap, f)
    requires FilesFollow(e, e', FileOf(heap, r), None)
    ensures forall f {:trigger Owned(heap - {r}, f)} :: f in e'.files ==> Owned(heap - {r}, f)
  {
    forall f | f in e'.files ensures Owned(heap - {r}, f) {
      assert Owned(heap, f);
      var q :| q in heap && heap[q].file == Some(f);
      assert q in heap - {r};
    }
  }

  lemma EvictFiles(e: Env, b: Block)
    requires BlockOk(e, b) && b.file.None?
    ensures FilesFollow(e, WriteToFile(e, b).0, b.file, WriteToFile(e, b).1.file)
  {
  }

  lemma InitializeFiles(e: Env, b: Block, max: nat)
    requires BlockOk(e, b)
    ensures FilesFollow(e, InitializeMemory(e, b, max).0, b.file, InitializeMemory(e, b, max).1.file)
  {
  }

  lemma WriteFiles(l: Limits, e: Env, b: Block, bytes: seq<Byte>)
    requires BlockOk(e, b)
    ensures var (e', b', out) := StreamWrite(l, e, b, b.file, bytes); FilesFollow(e, e', b.file, b'.file)
  {
    if b.data.Some? { WriteMemoryMeaning(l, e, b, bytes); }
  }

  lemma ClearFiles(e: Env, b: Block)
    requires BlockOk(e, b)
    ensures FilesFollow(e, Clear(e, b).0, b.file, None)
  {
  }

  // ---- the steps ----

  /** The eviction before a creation. */
  lemma EvictAccounts(s: Cache, p: Plain, victim: Option<string>)
    requires Related(s, p) && Accounted(s)
    ensures Accounted(Evict(s, victim))
  {
    if victim.Some? && Evictable(s, victim.value) {
      var r := s.table[victim.value];
      HeapBounds(s, p, r);
      var (e, b) := WriteToFile(s.env, s.heap[r]);
      WriteToFileKeepsContent(s.env, s.heap[r]);
      CapacitiesUpdate(s.heap, s.next, r, b);
      EvictFiles(s.env, s.heap[r]);
      OwnersKept(s.env, e, s.heap, r, b);
      var t := Evict(s, victim);
      forall q | q in t.heap ensures Reached(t, q) { SameReach(s, t, q); }
    }
  }

  /** Tables and streams decide who is reached. */
  lemma SameReach(s: Cache, t: Cache, q: nat)
    requires Reached(s, q) && t.table == s.table && t.sinks == s.sinks && t.sources == s.sources
    ensures Reached(t, q)
  {
    if InTable(s, q) {
      var id :| id in s.table && s.table[id] == q;
      assert id in t.table;
    } else if h :| h in s.sinks && s.sinks[h].block == q {
      assert h in t.sinks;
    } else {
      var h :| h in s.sources && s.sources[h].block == q;
      assert h in t.sources;
    }
  }

  /** Tables and streams that only grow lose nobody. */
  lemma MoreReach(s: Cache, t: Cache, q: nat)
    requires Reached(s, q) && (forall id :: id in s.table ==> id in t.table && t.table[id] == s.table[id])
    requires forall h :: h in s.sinks ==> h in t.sinks && t.sinks[h].block == s.sinks[h].block
    requires forall h :: h in s.sources ==> h in t.sources && t.sources[h].block == s.sources[h].block
    ensures Reached(t, q)
  {
    if InTable(s, q) {
      var id :| id in s.table && s.table[id] == q;
      assert id in t.table && t.table[id] == q;
    } else if h :| h in s.sinks && s.sinks[h].block == q {
      assert h in t.sinks && t.sinks[h].block == q;
    } else {
      var h :| h in s.sources && s.sources[h].block == q;
      assert h in t.sources && t.sources[h].block == q;
    }
  }

  lemma CreateOnAccounts(l: Limits, s: Cache, p: Plain, id: string, h: nat)
    requires Related(s, p) && Accounted(s) && FreshHandle(s, h)
    ensures Accounted(CreateOn(l, s, id, h))
  {
    var r, was := RefFor(s, id), BlockAt(s, RefFor(s, id));
    var t := CreateOn(l, s, id, h);
    var b := t.heap[r];
    if id in s.table {
      assert EntryOk(s.heap, s.table, id);
      HeapBounds(s, p, r);
    } else {
      assert s.next !in s.heap by { assert s.next in s.heap ==> Issued(s.heap, s.next, s.next); }
    }
    InitializeMeaning(s.env, was, MaxFor(l, s, id));
    CapacitiesUpdate(s.heap, s.next, r, b);
    CapacitiesUpdate(s.heap, t.next, r, b);
    InitializeFiles(s.env, was, MaxFor(l, s, id));
    OwnersKept(s.env, t.env, s.heap, r, b);
    forall q | q in t.heap ensures Reached(t, q) {
      if q == r { assert t.table[id] == r; } else { MoreReach(s, t, q); }
    }
  }

  lemma WriteAccounts(l: Limits, s: Cache, p: Plain, h: nat, bytes: seq<Byte>)
    requires Related(s, p) && Accounted(s) && h in s.sinks
    ensures Accounted(Apply(l, s, Write(h, bytes)))
  {
    assert SinkOk(s.heap, s.sinks, h);
    var r := s.sinks[h].block;
    HeapBounds(s, p, r);
    var t := Apply(l, s, Write(h, bytes));
    StreamWriteAppends(l, s.env, s.heap[r], s.sinks[h].out, bytes);
    CapacitiesUpdate(s.heap, s.next, r, t.heap[r]);
    WriteFiles(l, s.env, s.heap[r], bytes);
    OwnersKept(s.env, t.env, s.heap, r, t.heap[r]);
    forall q | q in t.heap ensures Reached(t, q) { MoreReach(s, t, q); }
  }

  /** In order but for block `r`, which may be out of reach. */
  ghost predicate AccountedBut(s: Cache, r: nat) {
    && s.env.util == Capacities(s.heap, s.next)
    && (forall q {:trigger Reached(s, q)} :: q in s.heap && q != r ==> Reached(s, q))
    && (forall f {:trigger Owned(s.heap, f)} :: f in s.env.files ==> Owned(s.heap, f))
  }

  lemma DropAccounts(s: Cache, r: nat)
    requires AccountedBut(s, r) && (r in s.heap ==> r < s.next && BlockOk(s.env, s.heap[r]))
    ensures Accounted(Drop(s, r))
  {
    if r in s.heap && !InTable(s, r) && !Pinned(s, r) {
      ClearMeaning(s.env, s.heap[r]);
      CapacitiesRemove(s.heap, s.next, r);
      ClearFiles(s.env, s.heap[r]);
      OwnersLeft(s.env, Clear(s.env, s.heap[r]).0, s.heap, r);
      var t := Drop(s, r);
      forall q | q in t.heap ensures Reached(t, q) { SameReach(s, t, q); }
    }
  }

  lemma LessReach(s: Cache, t: Cache, q: nat, r: nat)
    requires Reached(s, q) && q != r
    requires forall id :: id in s.table && s.table[id] != r ==> id in t.table && t.table[id] == s.table[id]
    requires forall h :: h in s.sinks && s.sinks[h].block != r ==> h in t.sinks && t.sinks[h] == s.sinks[h]
    requires forall h :: h in s.sources && s.sources[h].block != r ==> h in t.sources && t.sources[h] == s.sources[h]
    ensures Reached(t, q)
  {
    if InTable(s, q) {
      var id :| id in s.table && s.table[id] == q;
      assert id in t.table && t.table[id] == q;
    } else if h :| h in s.sinks && s.sinks[h].block == q {
      assert h in t.sinks && t.sinks[h].block == q;
    } else {
      var h :| h in s.sources && s.sources[h].block == q;
      assert h in t.sources && t.sources[h].block == q;
    }
  }

  lemma CloseAccounts(l: Limits, s: Cache, p: Plain, st: Step)
    requires Related(s, p) && Accounted(s) && Enabled(l, s, st) && (st.CloseSink? || st.CloseSource? || st.Free?)
    ensures Accounted(Apply(l, s, st))
  {
    if st.Free? && st.id !in s.table { return; }
    var r := if st.CloseSink? then s.sinks[st.h].block else if st.CloseSource? then s.sources[st.h].block
             else s.table[st.id];
    var t := if st.CloseSink? then s.(sinks := s.sinks - {st.h})
             else if st.CloseSource? then s.(sources := s.sources - {st.h}) else s.(table := s.table - {st.id});
    forall q | q in t.heap && q != r ensures Reached(t, q) { LessReach(s, t, q, r); }
    if r in s.heap { HeapBounds(s, p, r); }
    DropAccounts(t, r);
  }

  lemma ReadAccounts(l: Limits, s: Cache, p: Plain, st: Step)
    requires Related(s, p) && Accounted(s) && Enabled(l, s, st) && (st.OpenSource? || st.Read?)
    ensures Accounted(Apply(l, s, st))
  {
    var t := Apply(l, s, st);
    assert t.env == s.env && t.heap == s.heap && t.next == s.next;
    forall q | q in t.heap ensures Reached(t, q) { MoreReach(s, t, q); }
  }

  lemma StepAccounts(l: Limits, s: Cache, p: Plain, st: Step)
    requires Related(s, p) && Accounted(s) && Enabled(l, s, st)
    ensures Accounted(Apply(l, s, st))
  {
    match st
    case Create(id, h, victim) =>
      EvictKeeps(s, p, victim);
      EvictAccounts(s, p, victim);
      CreateOnAccounts(l, Evict(s, victim), p, id, h);
    case Write(h, bytes) => WriteAccounts(l, s, p, h, bytes);
    case OpenSource(_, _) => ReadAccounts(l, s, p, st);
    case Read(_, _) => ReadAccounts(l, s, p, st);
    case _ => CloseAccounts(l, s, p, st);
  }

  lemma {:induction false} RunAccounts(l: Limits, s: Cache, p: Plain, steps: seq<Step>, outs: seq<Out>, t: Cache)
    requires Related(s, p) && Accounted(s) && Run(l, s, steps, outs, t)
    ensures Accounted(t)
    decreases |steps|
  {
    if steps != [] {
      StepRefines(l, s, p, steps[0]);
      StepAccounts(l, s, p, steps[0]);
      RunAccounts(l, Apply(l, s, steps[0]), PlainNext(p, steps[0]), steps[1..], outs[1..], t);
    }
  }

  // ---- the results ----

  /** Along every run the counter is the sum of all capacities, no block outlives the table and the streams, and no
      file outlives its block. */
  lemma NothingLeaks(l: Limits, steps: seq<Step>, outs: seq<Out>, t: Cache)
    requires Run(l, EMPTY, steps, outs, t)
    ensures t.env.util == Capacities(t.heap, t.next) && forall r :: r in t.heap ==> r < t.next
    ensures forall r :: r in t.heap <==> InTable(t, r) || Pinned(t, r)
    ensures forall f :: f in t.env.files <==> exists r :: r in t.heap && t.heap[r].file == Some(f)
  {
    RunRelated(l, steps, outs, t);
    RunAccounts(l, EMPTY, NOTHING, steps, outs, t);
    var p := PlainAfter(NOTHING, steps);
    forall r | r in t.heap ensures r < t.next && Reached(t, r) && BlockOk(t.env, t.heap[r]) { HeapBounds(t, p, r); }
    forall r | Pinned(t, r) ensures r in t.heap { PinnedIsLive(t, p, r); }
    forall r | InTable(t, r) ensures r in t.heap {
      var id :| id in t.table && t.table[id] == r;
      assert EntryOk(t.heap, t.table, id);
    }
    forall f | f in t.env.files ensures Owned(t.heap, f) { }
  }

  function Freed(s: Cache, victim: Option<string>): nat {
    if victim.Some? && victim.value in s.table then CapAt(s.heap, s.table[victim.value]) else 0
  }

  /** Creating an entry: the victim's memory is given back and its bytes go to a file of their own, and the new entry
      gets what room there is then. */
  lemma CreationEvicts(l: Limits, steps: seq<Step>, outs: seq<Out>, t: Cache, id: string, h: nat, v: string)
    requires Run(l, EMPTY, steps, outs, t) && Enabled(l, t, Create(id, h, Some(v))) && v != id
    ensures v in t.table && t.table[v] in t.heap
    ensures var u, r := Apply(l, t, Create(id, h, Some(v))), t.table[v];
      && u.table[v] == r && r in u.heap && u.heap[r].data.None? && u.heap[r].cap == 0
      && u.heap[r].file == Some(t.env.nextFile)
      && Content(u.env, u.heap[r]) == Content(t.env, t.heap[r]) == t.heap[r].data.value
  {
    RunRelated(l, steps, outs, t);
    var p := PlainAfter(NOTHING, steps);
    var r := t.table[v];
    HeapBounds(t, p, r);
    WriteToFileKeepsContent(t.env, t.heap[r]);
    EvictKeeps(t, p, Some(v));
    assert EntriesApart(t.table, id, v);
    CreateLeaves(l, Evict(t, Some(v)), p, id, h, r);
  }

  /** Creating an entry leaves the other blocks as they are, and what is in their files. */
  lemma CreateLeaves(l: Limits, s: Cache, p: Plain, id: string, h: nat, r: nat)
    requires Related(s, p) && r in s.heap && r != RefFor(s, id)
    ensures var u := CreateOn(l, s, id, h);
      r in u.heap && u.heap[r] == s.heap[r] && Content(u.env, u.heap[r]) == Content(s.env, s.heap[r])
  {
    var q := RefFor(s, id);
    HeapBounds(s, p, r);
    if q in s.heap { HeapBounds(s, p, q); }
    InitializeMeaning(s.env, BlockAt(s, q), MaxFor(l, s, id));
    assert FilesApart(s.heap, r, q);
  }

  /** How far an entry created when `used` is in use may grow; one that is overwritten in memory keeps its own limit. */
  function NewLimit(l: Limits, t: Cache, id: string, victim: Option<string>, used: int): nat {
    if id in t.table && t.table[id] in t.heap && t.heap[t.table[id]].file.None? && victim != Some(id) then
      t.heap[t.table[id]].maxCap
    else if used < l.max then Min(l.perFile, l.max - used)
    else 0
  }

  lemma Evicted(t: Cache, p: Plain, victim: Option<string>, id: string)
    requires Related(t, p) && IsVictim(t, victim)
    ensures var s := Evict(t, victim);
      && Related(s, p) && s.table == t.table && s.next == t.next && s.sinks == t.sinks && s.sources == t.sources
      && s.env.util == t.env.util - Freed(t, victim)
      && s.heap.Keys == t.heap.Keys
      && (id in t.table ==>
            && t.table[id] in t.heap
            && (victim == Some(id) ==> s.heap[t.table[id]].file.Some? && s.heap[t.table[id]].cap == 0)
            && (victim != Some(id) ==> s.heap[t.table[id]] == t.heap[t.table[id]]))
  {
    EvictKeeps(t, p, victim);
    if victim.Some? {
      var r := t.table[victim.value];
      HeapBounds(t, p, r);
      WriteToFileKeepsContent(t.env, t.heap[r]);
      assert EntriesApart(t.table, id, victim.value);
    }
    assert EntryOk(t.heap, t.table, id);
  }

  lemma CreatedOn(l: Limits, s: Cache, p: Plain, id: string, h: nat)
    requires Related(s, p) && FreshHandle(s, h)
    ensures var u, q := CreateOn(l, s, id, h), RefFor(s, id);
      && q in u.heap && u.table == s.table[id := q] && u.sinks == s.sinks[h := Sink(q, None)]
      && var b := u.heap[q];
         && b.maxCap == MaxFor(l, s, id) && b.cap == Min(1024, b.maxCap) && b.file.None?
         && b.data == (if b.maxCap > 0 then Some([]) else None)
         && u.env.util == s.env.util - CapAt(s.heap, q) + b.cap
  {
    var q := RefFor(s, id);
    if id in s.table {
      assert EntryOk(s.heap, s.table, id);
      HeapBounds(s, p, q);
    } else {
      assert s.next !in s.heap by { assert s.next in s.heap ==> Issued(s.heap, s.next, s.next); }
    }
    InitializeMeaning(s.env, BlockAt(s, q), MaxFor(l, s, id));
  }

  /** What a creation leaves: an empty entry with up to 1024 bytes of memory, or none at all exactly if nothing is left
      once the victim has given back its capacity; and the counter moves by just these amounts. */
  lemma CreationAccounts(
      l: Limits, steps: seq<Step>, outs: seq<Out>, t: Cache, id: string, h: nat, victim: Option<string>)
    requires Run(l, EMPTY, steps, outs, t) && Enabled(l, t, Create(id, h, victim))
    ensures var u, q := Apply(l, t, Create(id, h, victim)), RefFor(t, id);
      var used := t.env.util - Freed(t, victim);
      && q in u.heap && u.table == t.table[id := q] && u.sinks == t.sinks[h := Sink(q, None)]
      && var b := u.heap[q];
         && b.maxCap == NewLimit(l, t, id, victim, used) && b.cap == Min(1024, b.maxCap) && b.file.None?
         && b.data == (if b.maxCap > 0 then Some([]) else None)
         && u.env.util == used - (if victim == Some(id) then 0 else CapAt(t.heap, q)) + b.cap
  {
    RunRelated(l, steps, outs, t);
    var p := PlainAfter(NOTHING, steps);
    var s := Evict(t, victim);
    if t.env.util >= l.max { Evicted(t, p, victim, id); } else if id in t.table { assert EntryOk(t.heap, t.table, id); }
    CreatedOn(l, s, p, id, h);
    if id !in t.table { assert t.next !in t.heap by { assert t.next in t.heap ==> Issued(t.heap, t.next, t.next); } }
  }
}
