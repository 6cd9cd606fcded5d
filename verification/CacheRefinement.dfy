/** The cache behaves like the plain store, wherever spills and evictions fall. */
module CacheRefinement {
  import opened Prelude
  import opened CacheBlock
  import opened CacheStore

  // ---- the relation ----

  predicate Stands(e: Env, b: Block, o: Obj) {
    && BlockOk(e, b) && Content(e, b) == o.bytes
    && (Hollow(b) <==> !b.granted && o.writes == 0)
  }

  /** Block `r` of the heap holds what object `r` holds. */
  predicate BlockStands(e: Env, heap: map<nat, Block>, objs: map<nat, Obj>, r: nat) {
    r in heap ==> r in objs && Stands(e, heap[r], objs[r])
  }

  predicate FilesApart(heap: map<nat, Block>, r: nat, q: nat) {
    r in heap && q in heap && r != q && heap[r].file.Some? ==> heap[r].file != heap[q].file
  }

  /** Every block holds what its object holds, and no two blocks share a file. */
  predicate HeapOk(e: Env, heap: map<nat, Block>, objs: map<nat, Obj>) {
    && (forall r {:trigger BlockStands(e, heap, objs, r)} :: r in heap ==> BlockStands(e, heap, objs, r))
    && (forall r, q {:trigger FilesApart(heap, r, q)} :: r in heap && q in heap ==> FilesApart(heap, r, q))
  }

  predicate SinkOk(heap: map<nat, Block>, sinks: map<nat, Sink>, h: nat) {
    h in sinks ==> sinks[h].block in heap && sinks[h].out == heap[sinks[h].block].file
  }

  predicate SourceOk(e: Env, heap: map<nat, Block>, sources: map<nat, Source>, h: nat) {
    h in sources ==>
      var c := sources[h];
      && c.block in heap && c.pos <= |Content(e, heap[c.block])|
      && (if c.inMemory then heap[c.block].data.Some? && c.size == |heap[c.block].data.value|
          else heap[c.block].data.None? && c.file == heap[c.block].file)
  }

  predicate SinksApart(sinks: map<nat, Sink>, h: nat, k: nat) {
    h in sinks && k in sinks && h != k ==> sinks[h].block != sinks[k].block
  }

  predicate StreamsApart(sinks: map<nat, Sink>, sources: map<nat, Source>, h: nat, k: nat) {
    h in sinks && k in sources ==> sinks[h].block != sources[k].block
  }

  /** Streams point at live blocks as they are now; a block being written has one stream. */
  predicate StreamsOk(e: Env, heap: map<nat, Block>, sinks: map<nat, Sink>, sources: map<nat, Source>) {
    && (forall h {:trigger SinkOk(heap, sinks, h)} :: h in sinks ==> SinkOk(heap, sinks, h))
    && (forall h {:trigger SourceOk(e, heap, sources, h)} :: h in sources ==> SourceOk(e, heap, sources, h))
    && (forall h, k {:trigger SinksApart(sinks, h, k)} :: h in sinks && k in sinks ==> SinksApart(sinks, h, k))
    && (forall h, k {:trigger StreamsApart(sinks, sources, h, k)} ::
          h in sinks && k in sources ==> StreamsApart(sinks, sources, h, k))
  }

  predicate EntryOk(heap: map<nat, Block>, table: map<string, nat>, id: string) { id in table ==> table[id] in heap }

  predicate EntriesApart(table: map<string, nat>, i: string, j: string) {
    i in table && j in table && i != j ==> table[i] != table[j]
  }

  predicate Issued(heap: map<nat, Block>, next: nat, r: nat) { r in heap ==> r < next }

  predicate TableOk(heap: map<nat, Block>, next: nat, table: map<string, nat>) {
    && (forall id {:trigger EntryOk(heap, table, id)} :: id in table ==> EntryOk(heap, table, id))
    && (forall i, j {:trigger EntriesApart(table, i, j)} :: i in table && j in table ==> EntriesApart(table, i, j))
    && (forall r {:trigger Issued(heap, next, r)} :: r in heap ==> Issued(heap, next, r))
  }

  predicate SameStreams(s: Cache, p: Plain) {
    && s.sinks.Keys == p.sinks.Keys && s.sources.Keys == p.sources.Keys
    && (forall h :: h in s.sinks ==> p.sinks[h] == s.sinks[h].block)
    && (forall h :: h in s.sources ==> p.sources[h] == Cursor(s.sources[h].block, s.sources[h].pos))
  }

  predicate Related(s: Cache, p: Plain) {
    && HeapOk(s.env, s.heap, p.objs) && StreamsOk(s.env, s.heap, s.sinks, s.sources) && TableOk(s.heap, s.next, s.table)
    && SameStreams(s, p) && p.names == s.table && p.next == s.next
  }

  // ---- changing one block ----

  function FileOf(heap: map<nat, Block>, r: nat): Option<nat> { if r in heap then heap[r].file else None }

  lemma HeapUpdate(e: Env, e': Env, heap: map<nat, Block>, objs: map<nat, Obj>, r: nat, b: Block, o: Obj)
    requires HeapOk(e, heap, objs) && OthersKept(e, e', FileOf(heap, r)) && Stands(e', b, o)
    requires b.file.Some? ==> b.file == FileOf(heap, r) || b.file.value >= e.nextFile
    ensures HeapOk(e', heap[r := b], objs[r := o])
  {
    var heap', objs' := heap[r := b], objs[r := o];
    forall q | q in heap' ensures BlockStands(e', heap', objs', q) {
      assert q != r ==> BlockStands(e, heap, objs, q) && FilesApart(heap, q, r);
    }
    forall q, k | q in heap' && k in heap' ensures FilesApart(heap', q, k) {
      assert q != r ==> BlockStands(e, heap, objs, q);
      assert k != r ==> BlockStands(e, heap, objs, k);
      assert q != r && k != r ==> FilesApart(heap, q, k);
      assert FilesApart(heap, q, r) && FilesApart(heap, r, k);
    }
  }

  lemma HeapRemove(e: Env, e': Env, heap: map<nat, Block>, objs: map<nat, Obj>, r: nat)
    requires HeapOk(e, heap, objs) && OthersKept(e, e', FileOf(heap, r))
    ensures HeapOk(e', heap - {r}, objs)
  {
    forall q | q in heap - {r} ensures BlockStands(e', heap - {r}, objs, q) {
      assert BlockStands(e, heap, objs, q) && FilesApart(heap, q, r);
    }
    forall q, k | q in heap - {r} && k in heap - {r} ensures FilesApart(heap - {r}, q, k) {
      assert FilesApart(heap, q, k);
    }
  }

  /** Streams on other blocks do not notice. */
  lemma StreamsKept(e: Env, e': Env, heap: map<nat, Block>, objs: map<nat, Obj>, heap': map<nat, Block>, r: nat,
                    sinks: map<nat, Sink>, sources: map<nat, Source>)
    requires HeapOk(e, heap, objs) && StreamsOk(e, heap, sinks, sources) && OthersKept(e, e', FileOf(heap, r))
    requires forall q :: q in heap && q != r ==> q in heap' && heap'[q] == heap[q]
    requires forall h :: h in sinks ==> sinks[h].block != r
    requires forall h :: h in sources ==> sources[h].block != r
    ensures StreamsOk(e', heap', sinks, sources)
  {
    forall h | h in sinks ensures SinkOk(heap', sinks, h) { assert SinkOk(heap, sinks, h); }
    forall h | h in sources ensures SourceOk(e', heap', sources, h) {
      var q := sources[h].block;
      assert SourceOk(e, heap, sources, h) && BlockStands(e, heap, objs, q) && FilesApart(heap, q, r);
    }
  }

  lemma AddSink(e: Env, heap: map<nat, Block>, sinks: map<nat, Sink>, sources: map<nat, Source>, h: nat, k: Sink)
    requires StreamsOk(e, heap, sinks, sources) && SinkOk(heap, map[h := k], h)
    requires forall j :: j in sinks && j != h ==> sinks[j].block != k.block
    requires forall j :: j in sources ==> sources[j].block != k.block
    ensures StreamsOk(e, heap, sinks[h := k], sources)
  {
    var sinks' := sinks[h := k];
    forall i | i in sinks' ensures SinkOk(heap, sinks', i) { assert i != h ==> SinkOk(heap, sinks, i); }
    forall i, j | i in sinks' && j in sinks' ensures SinksApart(sinks', i, j) {
      assert i != h && j != h ==> SinksApart(sinks, i, j);
    }
    forall i, j | i in sinks' && j in sources ensures StreamsApart(sinks', sources, i, j) {
      assert i != h ==> StreamsApart(sinks, sources, i, j);
    }
  }

  lemma AddSource(e: Env, heap: map<nat, Block>, sinks: map<nat, Sink>, sources: map<nat, Source>, h: nat, c: Source)
    requires StreamsOk(e, heap, sinks, sources) && SourceOk(e, heap, map[h := c], h)
    requires forall j :: j in sinks ==> sinks[j].block != c.block
    ensures StreamsOk(e, heap, sinks, sources[h := c])
  {
    var sources' := sources[h := c];
    forall i | i in sources' ensures SourceOk(e, heap, sources', i) { assert i != h ==> SourceOk(e, heap, sources, i); }
    forall i, j | i in sinks && j in sources' ensures StreamsApart(sinks, sources', i, j) {
      assert j != h ==> StreamsApart(sinks, sources, i, j);
    }
  }

  lemma LessStreams(e: Env, heap: map<nat, Block>, sinks: map<nat, Sink>, sources: map<nat, Source>, h: nat)
    requires StreamsOk(e, heap, sinks, sources)
    ensures StreamsOk(e, heap, sinks - {h}, sources) && StreamsOk(e, heap, sinks, sources - {h})
  {
    forall i | i in sinks - {h} ensures SinkOk(heap, sinks - {h}, i) { assert SinkOk(heap, sinks, i); }
    forall i | i in sources - {h} ensures SourceOk(e, heap, sources - {h}, i) { assert SourceOk(e, heap, sources, i); }
    forall i, j | i in sinks - {h} && j in sinks - {h} ensures SinksApart(sinks - {h}, i, j) {
      assert SinksApart(sinks, i, j);
    }
    forall i, j | i in sinks && j in sources
      ensures StreamsApart(sinks - {h}, sources, i, j) && StreamsApart(sinks, sources - {h}, i, j)
    {
      assert StreamsApart(sinks, sources, i, j);
    }
  }

  // ---- the steps ----

  lemma TableKept(heap: map<nat, Block>, next: nat, table: map<string, nat>, r: nat, b: Block)
    requires TableOk(heap, next, table) && r in heap
    ensures TableOk(heap[r := b], next, table)
  {
    var heap' := heap[r := b];
    forall id | id in table ensures EntryOk(heap', table, id) { assert EntryOk(heap, table, id); }
    forall q | q in heap' ensures Issued(heap', next, q) { assert Issued(heap, next, q); }
  }

  /** No stream is on a block that is new or not pinned. */
  lemma Unheld(s: Cache, p: Plain, r: nat)
    requires Related(s, p) && (r !in s.heap || !Pinned(s, r))
    ensures forall h :: h in s.sinks ==> s.sinks[h].block != r
    ensures forall h :: h in s.sources ==> s.sources[h].block != r
  {
    forall h | h in s.sinks ensures s.sinks[h].block != r { assert SinkOk(s.heap, s.sinks, h); }
    forall h | h in s.sources ensures s.sources[h].block != r { assert SourceOk(s.env, s.heap, s.sources, h); }
  }

  lemma EvictKeeps(s: Cache, p: Plain, victim: Option<string>)
    requires Related(s, p) && (victim.Some? ==> SizeOf(s, victim.value) > 0)
    ensures Related(Evict(s, victim), p)
  {
    if victim.Some? && Evictable(s, victim.value) {
      var r := s.table[victim.value];
      assert BlockStands(s.env, s.heap, p.objs, r);
      WriteToFileKeepsContent(s.env, s.heap[r]);
      var (e, b) := WriteToFile(s.env, s.heap[r]);
      assert p.objs[r := p.objs[r]] == p.objs;
      HeapUpdate(s.env, e, s.heap, p.objs, r, b, p.objs[r]);
      Unheld(s, p, r);
      StreamsKept(s.env, e, s.heap, p.objs, s.heap[r := b], r, s.sinks, s.sources);
      TableKept(s.heap, s.next, s.table, r, b);
    }
  }

  lemma Recreate(s: Cache, p: Plain, r: nat, max: nat, h: nat)
    requires Related(s, p) && (r !in s.heap || !Pinned(s, r))
    ensures var (e, b) := InitializeMemory(s.env, BlockAt(s, r), max);
      && HeapOk(e, s.heap[r := b], p.objs[r := Obj([], 0)])
      && StreamsOk(e, s.heap[r := b], s.sinks[h := Sink(r, b.file)], s.sources)
  {
    var was := BlockAt(s, r);
    assert r in s.heap ==> BlockStands(s.env, s.heap, p.objs, r);
    InitializeMeaning(s.env, was, max);
    var (e, b) := InitializeMemory(s.env, was, max);
    HeapUpdate(s.env, e, s.heap, p.objs, r, b, Obj([], 0));
    Unheld(s, p, r);
    StreamsKept(s.env, e, s.heap, p.objs, s.heap[r := b], r, s.sinks, s.sources);
    AddSink(e, s.heap[r := b], s.sinks, s.sources, h, Sink(r, b.file));
  }

  lemma TableGrows(s: Cache, p: Plain, id: string, b: Block)
    requires Related(s, p)
    ensures var r := RefFor(s, id);
      TableOk(s.heap[r := b], if id in s.table then s.next else s.next + 1, s.table[id := r])
  {
    var r := RefFor(s, id);
    var heap, table, next := s.heap[r := b], s.table[id := r], if id in s.table then s.next else s.next + 1;
    forall i | i in table ensures EntryOk(heap, table, i) { assert i != id ==> EntryOk(s.heap, s.table, i); }
    forall i, j | i in table && j in table ensures EntriesApart(table, i, j) {
      assert EntriesApart(s.table, i, j);
      assert i in s.table ==> EntryOk(s.heap, s.table, i) && Issued(s.heap, s.next, s.table[i]);
      assert j in s.table ==> EntryOk(s.heap, s.table, j) && Issued(s.heap, s.next, s.table[j]);
    }
    forall q | q in heap ensures Issued(heap, next, q) {
      assert q in s.heap ==> Issued(s.heap, s.next, q);
      assert id in s.table ==> EntryOk(s.heap, s.table, id);
    }
  }

  lemma CreateOnKeeps(l: Limits, s: Cache, p: Plain, id: string, h: nat, victim: Option<string>)
    requires Related(s, p) && FreshHandle(s, h) && (id in s.table ==> !Pinned(s, s.table[id]))
    ensures Related(CreateOn(l, s, id, h), PlainNext(p, Create(id, h, victim)))
  {
    var t, q := CreateOn(l, s, id, h), PlainNext(p, Create(id, h, victim));
    assert s.next !in s.heap by { assert s.next in s.heap ==> Issued(s.heap, s.next, s.next); }
    Recreate(s, p, RefFor(s, id), MaxFor(l, s, id), h);
    TableGrows(s, p, id, t.heap[RefFor(s, id)]);
    assert SameStreams(t, q);
  }

  lemma CreateKeeps(l: Limits, s: Cache, p: Plain, st: Step)
    requires Related(s, p) && Enabled(l, s, st) && st.Create?
    ensures Related(Apply(l, s, st), PlainNext(p, st))
  {
    EvictKeeps(s, p, st.victim);
    CreateOnKeeps(l, Evict(s, st.victim), p, st.id, st.h, st.victim);
  }

  lemma WriteKeeps(l: Limits, s: Cache, p: Plain, st: Step)
    requires Related(s, p) && Enabled(l, s, st) && st.Write?
    ensures OutOf(s, st) == Done && Related(Apply(l, s, st), PlainNext(p, st))
  {
    var r := s.sinks[st.h].block;
    assert SinkOk(s.heap, s.sinks, st.h) && BlockStands(s.env, s.heap, p.objs, r);
    StreamWriteAppends(l, s.env, s.heap[r], s.sinks[st.h].out, st.bytes);
    var (e, b, out) := StreamWrite(l, s.env, s.heap[r], s.sinks[st.h].out, st.bytes);
    HeapUpdate(s.env, e, s.heap, p.objs, r, b, Obj(p.objs[r].bytes + st.bytes, p.objs[r].writes + 1));
    WriteStreams(s, p, st.h, e, b);
    TableKept(s.heap, s.next, s.table, r, b);
    assert Apply(l, s, st) == s.(env := e, heap := s.heap[r := b], sinks := s.sinks[st.h := Sink(r, b.file)]);
    assert SameStreams(Apply(l, s, st), PlainNext(p, st));
  }

  /** The streams after a write through sink `h`. */
  lemma WriteStreams(s: Cache, p: Plain, h: nat, e: Env, b: Block)
    requires Related(s, p) && h in s.sinks && s.sinks[h].block in s.heap
    requires OthersKept(s.env, e, s.heap[s.sinks[h].block].file)
    ensures var r := s.sinks[h].block; StreamsOk(e, s.heap[r := b], s.sinks[h := Sink(r, b.file)], s.sources)
  {
    var r := s.sinks[h].block;
    var others := s.sinks - {h};
    LessStreams(s.env, s.heap, s.sinks, s.sources, h);
    forall k | k in others ensures others[k].block != r { assert SinksApart(s.sinks, k, h); }
    forall k | k in s.sources ensures s.sources[k].block != r { assert StreamsApart(s.sinks, s.sources, h, k); }
    StreamsKept(s.env, e, s.heap, p.objs, s.heap[r := b], r, others, s.sources);
    AddSink(e, s.heap[r := b], others, s.sources, h, Sink(r, b.file));
    assert others[h := Sink(r, b.file)] == s.sinks[h := Sink(r, b.file)];
  }

  lemma DropKeeps(s: Cache, p: Plain, r: nat)
    requires Related(s, p)
    ensures Related(Drop(s, r), p)
  {
    if r in s.heap && !InTable(s, r) && !Pinned(s, r) {
      assert BlockStands(s.env, s.heap, p.objs, r);
      ClearMeaning(s.env, s.heap[r]);
      var e := Clear(s.env, s.heap[r]).0;
      HeapRemove(s.env, e, s.heap, p.objs, r);
      Unheld(s, p, r);
      StreamsKept(s.env, e, s.heap, p.objs, s.heap - {r}, r, s.sinks, s.sources);
      forall id | id in s.table ensures EntryOk(s.heap - {r}, s.table, id) { assert EntryOk(s.heap, s.table, id); }
      forall q | q in s.heap - {r} ensures Issued(s.heap - {r}, s.next, q) { assert Issued(s.heap, s.next, q); }
    }
  }

  lemma Unlist(heap: map<nat, Block>, next: nat, table: map<string, nat>, id: string)
    requires TableOk(heap, next, table)
    ensures TableOk(heap, next, table - {id})
  {
    forall i | i in table - {id} ensures EntryOk(heap, table - {id}, i) { assert EntryOk(heap, table, i); }
    forall i, j | i in table - {id} && j in table - {id} ensures EntriesApart(table - {id}, i, j) {
      assert EntriesApart(table, i, j);
    }
  }

  lemma CloseKeeps(l: Limits, s: Cache, p: Plain, st: Step)
    requires Related(s, p) && Enabled(l, s, st) && (st.CloseSink? || st.CloseSource? || st.Free?)
    ensures OutOf(s, st) == PlainOut(p, st) && Related(Apply(l, s, st), PlainNext(p, st))
  {
    match st
    case CloseSink(h) =>
      LessStreams(s.env, s.heap, s.sinks, s.sources, h);
      DropKeeps(s.(sinks := s.sinks - {h}), PlainNext(p, st), s.sinks[h].block);
    case CloseSource(h) =>
      LessStreams(s.env, s.heap, s.sinks, s.sources, h);
      DropKeeps(s.(sources := s.sources - {h}), PlainNext(p, st), s.sources[h].block);
    case Free(id) =>
      if id in s.table {
        Unlist(s.heap, s.next, s.table, id);
        DropKeeps(s.(table := s.table - {id}), PlainNext(p, st), s.table[id]);
      } else {
        assert p.names - {id} == p.names;
      }
  }

  lemma OpenKeeps(l: Limits, s: Cache, p: Plain, st: Step)
    requires Related(s, p) && Enabled(l, s, st) && st.OpenSource?
    ensures OutOf(s, st) == PlainOut(p, st) && Related(Apply(l, s, st), PlainNext(p, st))
  {
    if st.id in s.table {
      var r := s.table[st.id];
      assert EntryOk(s.heap, s.table, st.id) && BlockStands(s.env, s.heap, p.objs, r);
      AddSource(s.env, s.heap, s.sinks, s.sources, st.h, OpenOn(s, r, st.h).sources[st.h]);
    }
  }

  /** A read returns the object's bytes, or finds nothing to read from, exactly when the block is hollow. */
  lemma ReadMeaning(s: Cache, p: Plain, h: nat, n: nat)
    requires Related(s, p) && h in s.sources
    ensures s.sources[h].block in s.heap
    ensures ReadFrom(s, h, n) == if Hollow(s.heap[s.sources[h].block]) then Broken else Bytes(PlainRead(p, h, n))
    ensures Hollow(s.heap[s.sources[h].block]) ==> PlainRead(p, h, n) == []
  {
    var c := s.sources[h];
    assert SourceOk(s.env, s.heap, s.sources, h) && BlockStands(s.env, s.heap, p.objs, c.block);
    if c.inMemory {
      var d := s.heap[c.block].data.value;
      assert d[..c.size] == d;
    }
  }

  /** A source moves within its object. */
  lemma MoveKeeps(s: Cache, p: Plain, h: nat, pos: nat)
    requires Related(s, p) && h in s.sources && s.sources[h].block in s.heap
    requires pos <= |Content(s.env, s.heap[s.sources[h].block])|
    ensures Related(s.(sources := s.sources[h := s.sources[h].(pos := pos)]),
                    p.(sources := p.sources[h := Cursor(s.sources[h].block, pos)]))
  {
    var c := s.sources[h];
    assert SourceOk(s.env, s.heap, s.sources, h);
    forall k | k in s.sinks ensures s.sinks[k].block != c.block { assert StreamsApart(s.sinks, s.sources, k, h); }
    AddSource(s.env, s.heap, s.sinks, s.sources, h, c.(pos := pos));
  }

  /** How far a read moves. */
  lemma ReadStays(s: Cache, p: Plain, h: nat, n: nat)
    requires Related(s, p) && h in s.sources
    ensures s.sources[h].block in s.heap
    ensures s.sources[h].pos + |PlainRead(p, h, n)| <= |Content(s.env, s.heap[s.sources[h].block])|
  {
    assert SourceOk(s.env, s.heap, s.sources, h) && BlockStands(s.env, s.heap, p.objs, s.sources[h].block);
  }

  /** What a read does to the cache. */
  lemma ReadMoves(l: Limits, s: Cache, p: Plain, st: Step)
    requires Related(s, p) && Enabled(l, s, st) && st.Read?
    ensures var c := s.sources[st.h];
      Apply(l, s, st) == s.(sources := s.sources[st.h := c.(pos := c.pos + |PlainRead(p, st.h, st.n)|)])
  {
    ReadMeaning(s, p, st.h, st.n);
    assert s.sources[st.h := s.sources[st.h]] == s.sources;
  }

  lemma ReadKeeps(l: Limits, s: Cache, p: Plain, st: Step)
    requires Related(s, p) && Enabled(l, s, st) && st.Read?
    ensures Related(Apply(l, s, st), PlainNext(p, st))
  {
    ReadMoves(l, s, p, st);
    ReadStays(s, p, st.h, st.n);
    MoveKeeps(s, p, st.h, s.sources[st.h].pos + |PlainRead(p, st.h, st.n)|);
  }

  /** The two answers agree, except that the cache breaks where the plain store reads an empty object. */
  predicate Matches(st: Step, out: Out, plain: Out) {
    out == plain || (st.Read? && out == Broken && plain == Bytes([]))
  }

  lemma StepRefines(l: Limits, s: Cache, p: Plain, st: Step)
    requires Related(s, p) && Enabled(l, s, st)
    ensures Matches(st, OutOf(s, st), PlainOut(p, st)) && Related(Apply(l, s, st), PlainNext(p, st))
  {
    match st
    case Create(_, _, _) => CreateKeeps(l, s, p, st);
    case Write(_, _) => WriteKeeps(l, s, p, st);
    case OpenSource(_, _) => OpenKeeps(l, s, p, st);
    case Read(h, n) => ReadMeaning(s, p, h, n); ReadKeeps(l, s, p, st);
    case _ => CloseKeeps(l, s, p, st);
  }

  lemma {:induction false} RunRefines(l: Limits, s: Cache, p: Plain, steps: seq<Step>, outs: seq<Out>, t: Cache)
    requires Related(s, p) && Run(l, s, steps, outs, t)
    ensures |PlainOuts(p, steps)| == |steps| && Related(t, PlainAfter(p, steps))
    ensures forall i :: 0 <= i < |steps| ==> Matches(steps[i], outs[i], PlainOuts(p, steps)[i])
    decreases |steps|
  {
    if steps != [] {
      StepRefines(l, s, p, steps[0]);
      RunRefines(l, Apply(l, s, steps[0]), PlainNext(p, steps[0]), steps[1..], outs[1..], t);
    }
  }

  // ---- the results ----

  lemma RunRelated(l: Limits, steps: seq<Step>, outs: seq<Out>, t: Cache)
    requires Run(l, EMPTY, steps, outs, t)
    ensures Related(t, PlainAfter(NOTHING, steps))
  {
    RunRefines(l, EMPTY, NOTHING, steps, outs, t);
  }

  /** Along every run each answer of the cache is the plain store's. */
  lemma CacheIsAPlainStore(l: Limits, steps: seq<Step>, outs: seq<Out>, t: Cache)
    requires Run(l, EMPTY, steps, outs, t)
    ensures |PlainOuts(NOTHING, steps)| == |steps|
    ensures forall i :: 0 <= i < |steps| ==> Matches(steps[i], outs[i], PlainOuts(NOTHING, steps)[i])
  {
    RunRefines(l, EMPTY, NOTHING, steps, outs, t);
  }

  lemma ReadBreaksAt(s: Cache, p: Plain, h: nat, n: nat)
    requires Related(s, p) && h in s.sources
    ensures s.sources[h].block in s.heap
    ensures ReadFrom(s, h, n) == Broken <==>
      !s.heap[s.sources[h].block].granted && At(p, s.sources[h].block).writes == 0
  {
    ReadMeaning(s, p, h, n);
    assert BlockStands(s.env, s.heap, p.objs, s.sources[h].block);
  }

  /** A read breaks exactly on a stream that was given no memory and never written. */
  lemma ReadBreaksExactly(l: Limits, steps: seq<Step>, outs: seq<Out>, t: Cache, h: nat, n: nat)
    requires Run(l, EMPTY, steps, outs, t) && h in t.sources
    ensures t.sources[h].block in t.heap
    ensures OutOf(t, Read(h, n)) == Broken <==>
      !t.heap[t.sources[h].block].granted && At(PlainAfter(NOTHING, steps), t.sources[h].block).writes == 0
  {
    RunRelated(l, steps, outs, t);
    ReadBreaksAt(t, PlainAfter(NOTHING, steps), h, n);
  }

  lemma PinnedIsLive(s: Cache, p: Plain, r: nat)
    requires Related(s, p) && Pinned(s, r)
    ensures r in s.heap && r < s.next
  {
    forall h | h in s.sinks ensures s.sinks[h].block in s.heap { assert SinkOk(s.heap, s.sinks, h); }
    forall h | h in s.sources ensures s.sources[h].block in s.heap { assert SourceOk(s.env, s.heap, s.sources, h); }
    assert Issued(s.heap, s.next, r);
  }

  lemma CreateSpares(l: Limits, s: Cache, st: Step, r: nat)
    requires st.Create? && Enabled(l, s, st) && Pinned(s, r) && r in s.heap && r < s.next
    ensures r in Apply(l, s, st).heap && Apply(l, s, st).heap[r] == s.heap[r]
  {
  }

  /** Creating an entry never moves a block that a stream holds. */
  lemma EvictionSparesOpenBlocks(l: Limits, steps: seq<Step>, outs: seq<Out>, t: Cache, st: Step, r: nat)
    requires Run(l, EMPTY, steps, outs, t) && st.Create? && Enabled(l, t, st) && Pinned(t, r)
    ensures r in t.heap && r in Apply(l, t, st).heap && Apply(l, t, st).heap[r] == t.heap[r]
  {
    RunRelated(l, steps, outs, t);
    PinnedIsLive(t, PlainAfter(NOTHING, steps), r);
    CreateSpares(l, t, st, r);
  }
}
