/**
  The cache manager with its streams as a state machine, and the plain object store it stands for
  (src/fileio/fixed_size_cache_manager.cpp, cache_stream_sink.cpp, cache_stream_source.cpp).

  Each operation is one step.  A client opens a sink on an identifier only while no stream is open on its block, and
  a source only while no sink is; the rest is free.
 */
module CacheStore {
  import opened Prelude
  import opened CacheBlock

  /** `out` is the spill file, once there is one. */
  datatype Sink = Sink(block: nat, out: Option<nat>)

  /** A source reads either the block's buffer or its file, whichever there was when it was opened. */
  datatype Source = Source(block: nat, inMemory: bool, size: nat, file: Option<nat>, pos: nat)

  datatype Cache = Cache(env: Env, heap: map<nat, Block>, next: nat, table: map<string, nat>,
                         sinks: map<nat, Sink>, sources: map<nat, Source>)

  /** `victim` is the entry the eviction loop settles on, if it runs. */
  datatype Step =
    | Create(id: string, h: nat, victim: Option<string>)
    | Write(h: nat, bytes: seq<Byte>)
    | CloseSink(h: nat)
    | OpenSource(id: string, h: nat)
    | Read(h: nat, n: nat)
    | CloseSource(h: nat)
    | Free(id: string)

  /** `Missing` is the out_of_range exception; `Broken` a failed assertion or a read through a null pointer. */
  datatype Out = Done | Missing | Bytes(bytes: seq<Byte>) | Broken

  const EMPTY := Cache(Env(0, map[], 0), map[], 0, map[], map[], map[])

  /** Some stream holds a pointer to the block. */
  predicate Pinned(s: Cache, r: nat) {
    || (exists h :: h in s.sinks && s.sinks[h].block == r)
    || (exists h :: h in s.sources && s.sources[h].block == r)
  }

  predicate InTable(s: Cache, r: nat) { exists id :: id in s.table && s.table[id] == r }

  function Size(b: Block): nat { if b.data.Some? then |b.data.value| else 0 }

  predicate Evictable(s: Cache, id: string) {
    id in s.table && s.table[id] in s.heap && !Pinned(s, s.table[id]) && s.heap[s.table[id]].file.None?
  }

  function SizeOf(s: Cache, id: string): nat {
    if id in s.table && s.table[id] in s.heap then Size(s.heap[s.table[id]]) else 0
  }

  /** What try_cache_evict may choose: a largest evictable block with something in it, or none if there is none. */
  predicate IsVictim(s: Cache, victim: Option<string>) {
    match victim
    case None => forall id :: id in s.table && Evictable(s, id) ==> SizeOf(s, id) == 0
    case Some(v) =>
      && Evictable(s, v) && SizeOf(s, v) > 0
      && forall id :: id in s.table && Evictable(s, id) ==> SizeOf(s, id) <= SizeOf(s, v)
  }

  predicate FreshHandle(s: Cache, h: nat) { h !in s.sinks && h !in s.sources }

  /** What a client may do, and, for the eviction loop, what it can choose. */
  predicate Enabled(l: Limits, s: Cache, st: Step) {
    match st
    case Create(id, h, victim) =>
      && FreshHandle(s, h) && (id in s.table ==> !Pinned(s, s.table[id]))
      && (if s.env.util >= l.max then IsVictim(s, victim) else victim.None?)
    case Write(h, _) => h in s.sinks
    case CloseSink(h) => h in s.sinks
    case OpenSource(id, h) =>
      FreshHandle(s, h) && (id in s.table ==> forall k :: k in s.sinks ==> s.sinks[k].block != s.table[id])
    case Read(h, _) => h in s.sources
    case CloseSource(h) => h in s.sources
    case Free(_) => true
  }

  function Evict(s: Cache, victim: Option<string>): Cache {
    if victim.Some? && Evictable(s, victim.value) then
      var r := s.table[victim.value];
      var (e, b) := WriteToFile(s.env, s.heap[r]);
      s.(env := e, heap := s.heap[r := b])
    else s
  }

  function BlockAt(s: Cache, r: nat): Block { if r in s.heap then s.heap[r] else UNUSED }

  function RefFor(s: Cache, id: string): nat { if id in s.table then s.table[id] else s.next }

  /** How far the new entry may grow: what is left, or, for an entry still in memory, what it had. */
  function MaxFor(l: Limits, s: Cache, id: string): nat {
    if id in s.table && BlockAt(s, s.table[id]).file.None? then BlockAt(s, s.table[id]).maxCap
    else Room(l, s.env.util)
  }

  /** new_cache after the eviction, and the sink constructor. */
  function CreateOn(l: Limits, s: Cache, id: string, h: nat): Cache {
    var r := RefFor(s, id);
    var (e, b) := InitializeMemory(s.env, BlockAt(s, r), MaxFor(l, s, id));
    Cache(e, s.heap[r := b], if id in s.table then s.next else s.next + 1, s.table[id := r],
          s.sinks[h := Sink(r, b.file)], s.sources)
  }

  /** The last pointer to a block is gone: its destructor runs. */
  function Drop(s: Cache, r: nat): Cache {
    if r in s.heap && !InTable(s, r) && !Pinned(s, r) then
      s.(env := Clear(s.env, s.heap[r]).0, heap := s.heap - {r})
    else s
  }

  predicate WriteOk(s: Cache, h: nat) {
    && h in s.sinks && s.sinks[h].block in s.heap
    && (s.sinks[h].out.None? ==> s.heap[s.sinks[h].block].file.None?)
    && (s.sinks[h].out.Some? ==> s.sinks[h].out.value in s.env.files)
  }

  function OpenOn(s: Cache, r: nat, h: nat): Cache {
    var b := BlockAt(s, r);
    var src := if b.file.None? then Source(r, b.data.Some?, Size(b), None, 0) else Source(r, false, 0, b.file, 0);
    s.(sources := s.sources[h := src])
  }

  function Chunk(bytes: seq<Byte>, pos: nat, n: nat): seq<Byte> {
    if pos <= |bytes| then bytes[pos..pos + Min(n, |bytes| - pos)] else []
  }

  function ReadFrom(s: Cache, h: nat, n: nat): Out
    requires h in s.sources
  {
    var src := s.sources[h];
    if src.inMemory then
      if src.block in s.heap && s.heap[src.block].data.Some? && src.size <= |s.heap[src.block].data.value|
      then Bytes(Chunk(s.heap[src.block].data.value[..src.size], src.pos, n))
      else Broken
    else if src.file.Some? && src.file.value in s.env.files then Bytes(Chunk(s.env.files[src.file.value], src.pos, n))
    else Broken
  }

  function OutOf(s: Cache, st: Step): Out {
    match st
    case Write(h, _) => if WriteOk(s, h) then Done else Broken
    case OpenSource(id, _) => if id in s.table then Done else Missing
    case Read(h, n) => if h in s.sources then ReadFrom(s, h, n) else Broken
    case Free(id) => if id in s.table then Done else Missing
    case _ => Done
  }

  function Apply(l: Limits, s: Cache, st: Step): Cache
    requires Enabled(l, s, st)
  {
    match st
    case Create(id, h, victim) => CreateOn(l, Evict(s, victim), id, h)
    case Write(h, bytes) =>
      if !WriteOk(s, h) then s
      else
        var r := s.sinks[h].block;
        var (e, b, out) := StreamWrite(l, s.env, s.heap[r], s.sinks[h].out, bytes);
        s.(env := e, heap := s.heap[r := b], sinks := s.sinks[h := Sink(r, out)])
    case CloseSink(h) => Drop(s.(sinks := s.sinks - {h}), s.sinks[h].block)
    case OpenSource(id, h) => if id in s.table then OpenOn(s, s.table[id], h) else s
    case Read(h, n) =>
      var out := ReadFrom(s, h, n);
      if out.Bytes? then s.(sources := s.sources[h := s.sources[h].(pos := s.sources[h].pos + |out.bytes|)]) else s
    case CloseSource(h) => Drop(s.(sources := s.sources - {h}), s.sources[h].block)
    case Free(id) => if id in s.table then Drop(s.(table := s.table - {id}), s.table[id]) else s
  }

  ghost predicate Run(l: Limits, s: Cache, steps: seq<Step>, outs: seq<Out>, t: Cache)
    decreases |steps|
  {
    && |outs| == |steps|
    && if steps == [] then s == t
       else Enabled(l, s, steps[0]) && outs[0] == OutOf(s, steps[0]) &&
            Run(l, Apply(l, s, steps[0]), steps[1..], outs[1..], t)
  }

  // ---- the plain store ----

  datatype Obj = Obj(bytes: seq<Byte>, writes: nat)

  datatype Cursor = Cursor(obj: nat, pos: nat)

  /** Byte strings by object, no capacities, no files, no eviction. */
  datatype Plain = Plain(objs: map<nat, Obj>, next: nat, names: map<string, nat>,
                         sinks: map<nat, nat>, sources: map<nat, Cursor>)

  const NOTHING := Plain(map[], 0, map[], map[], map[])

  function At(p: Plain, r: nat): Obj { if r in p.objs then p.objs[r] else Obj([], 0) }

  function PlainRead(p: Plain, h: nat, n: nat): seq<Byte> {
    if h in p.sources then Chunk(At(p, p.sources[h].obj).bytes, p.sources[h].pos, n) else []
  }

  function PlainOut(p: Plain, st: Step): Out {
    match st
    case OpenSource(id, _) => if id in p.names then Done else Missing
    case Read(h, n) => Bytes(PlainRead(p, h, n))
    case Free(id) => if id in p.names then Done else Missing
    case _ => Done
  }

  function PlainNext(p: Plain, st: Step): Plain {
    match st
    case Create(id, h, _) =>
      var r := if id in p.names then p.names[id] else p.next;
      Plain(p.objs[r := Obj([], 0)], if id in p.names then p.next else p.next + 1, p.names[id := r],
            p.sinks[h := r], p.sources)
    case Write(h, bytes) =>
      if h !in p.sinks then p
      else
        var o := At(p, p.sinks[h]);
        p.(objs := p.objs[p.sinks[h] := Obj(o.bytes + bytes, o.writes + 1)])
    case CloseSink(h) => p.(sinks := p.sinks - {h})
    case OpenSource(id, h) => if id in p.names then p.(sources := p.sources[h := Cursor(p.names[id], 0)]) else p
    case Read(h, n) =>
      if h in p.sources then
        p.(sources := p.sources[h := Cursor(p.sources[h].obj, p.sources[h].pos + |PlainRead(p, h, n)|)])
      else p
    case CloseSource(h) => p.(sources := p.sources - {h})
    case Free(id) => p.(names := p.names - {id})
  }

  function PlainOuts(p: Plain, steps: seq<Step>): seq<Out>
    decreases |steps|
  {
    if steps == [] then [] else [PlainOut(p, steps[0])] + PlainOuts(PlainNext(p, steps[0]), steps[1..])
  }

  function PlainAfter(p: Plain, steps: seq<Step>): Plain
    decreases |steps|
  {
    if steps == [] then p else PlainAfter(PlainNext(p, steps[0]), steps[1..])
  }
}
