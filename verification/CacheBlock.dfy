/**
  One block of the memory cache: bytes in memory up to a capacity, or in a temporary file
  (src/fileio/fixed_size_cache_manager.cpp and .hpp, src/fileio/cache_stream_sink.cpp).
 */
module CacheBlock {
  import opened Prelude

  newtype Byte = b: int | 0 <= b < 256

  const INITIAL_CAPACITY: nat := 1024

  /** The two limits, both settable at run time: all blocks together, and one block. */
  datatype Limits = Limits(max: nat, perFile: nat)

  /** What all blocks share: the utilization counter and the temporary files. */
  datatype Env = Env(util: int, files: map<nat, seq<Byte>>, nextFile: nat)

  /** `data` holds the used part of the buffer.  `granted` records whether memory was given at creation. */
  datatype Block = Block(maxCap: nat, cap: nat, data: Option<seq<Byte>>, file: Option<nat>, granted: bool)

  const UNUSED := Block(0, 0, None, None, false)

  function Min(a: nat, b: nat): nat { if a <= b then a else b }

  function Max(a: nat, b: nat): nat { if a <= b then b else a }

  /** How far a new entry may grow, given the utilization. */
  function Room(l: Limits, util: int): nat { if util < l.max then Min(l.perFile, l.max - util) else 0 }

  /** extend_capacity: double if that fits, else take just what is asked, else refuse. */
  function Extend(l: Limits, e: Env, b: Block, want: nat): (Env, Block, bool) {
    if b.data.None? || want > b.maxCap then (e, b, false)
    else if want <= b.cap then (e, b, true)
    else
      var doubled := Min(Max(want, 2 * b.cap), b.maxCap);
      var cap := if e.util + (doubled - b.cap) > l.max then want else doubled;
      if e.util + (cap - b.cap) > l.max then (e, b, false)
      else (e.(util := e.util + (cap - b.cap)), b.(cap := cap), true)
  }

  function WriteMemory(l: Limits, e: Env, b: Block, bytes: seq<Byte>): (Env, Block, bool) {
    if b.data.None? then (e, b, false)
    else
      var size := |b.data.value| + |bytes|;
      var (e1, b1, ok) := if size <= b.cap then (e, b, true) else Extend(l, e, b, size);
      if ok then (e1, b1.(data := Some(b.data.value + bytes)), true) else (e, b, false)
  }

  function Release(e: Env, b: Block): (Env, Block) {
    (if b.data.Some? then e.(util := e.util - b.cap) else e, b.(data := None, cap := 0, maxCap := 0))
  }

  function Clear(e: Env, b: Block): (Env, Block) {
    if b.data.Some? then Release(e, b)
    else if b.file.Some? then (e.(files := e.files - {b.file.value}), b.(file := None))
    else (e, b)
  }

  function InitializeMemory(e: Env, b: Block, max: nat): (Env, Block) {
    var (e1, b1) := Clear(e, b);
    var cap := Min(INITIAL_CAPACITY, max);
    if cap > 0 then (e1.(util := e1.util + cap), b1.(maxCap := max, cap := cap, data := Some([]), granted := true))
    else (e1, b1.(maxCap := max, cap := 0, data := None, granted := false))
  }

  /** write_to_file: move what is in memory to a new file. */
  function WriteToFile(e: Env, b: Block): (Env, Block)
    requires b.file.None?
  {
    var bytes := if b.data.Some? then b.data.value else [];
    Release(e.(files := e.files[e.nextFile := bytes], nextFile := e.nextFile + 1), b.(file := Some(e.nextFile)))
  }

  /** One write through a stream whose spill file, if it has one, is `out`. */
  function StreamWrite(l: Limits, e: Env, b: Block, out: Option<nat>, bytes: seq<Byte>): (Env, Block, Option<nat>)
    requires out.None? ==> b.file.None?
    requires out.Some? ==> out.value in e.files
  {
    if out.Some? then (e.(files := e.files[out.value := e.files[out.value] + bytes]), b, out)
    else
      var (e1, b1, ok) := WriteMemory(l, e, b, bytes);
      if ok then (e1, b1, None)
      else
        var (e2, b2) := WriteToFile(e, b);
        (e2.(files := e2.files[e.nextFile := e2.files[e.nextFile] + bytes]), b2, Some(e.nextFile))
  }

  // ---- what a block means ----

  predicate BlockOk(e: Env, b: Block) {
    && (b.file.Some? ==> b.data.None? && b.file.value in e.files && b.file.value < e.nextFile)
    && (b.data.Some? ==> 0 < b.cap && |b.data.value| <= b.cap <= b.maxCap)
    && (b.data.None? ==> b.cap == 0)
  }

  function Content(e: Env, b: Block): seq<Byte> {
    if b.data.Some? then b.data.value
    else if b.file.Some? && b.file.value in e.files then e.files[b.file.value]
    else []
  }

  /** Neither memory nor a file: a stream opened on it has nothing to read from. */
  predicate Hollow(b: Block) { b.data.None? && b.file.None? }

  /** Only `mine` and names not yet issued may differ between the two file systems. */
  predicate OthersKept(e: Env, e': Env, mine: Option<nat>) {
    && e.nextFile <= e'.nextFile
    && forall f :: f in e.files && Some(f) != mine && f < e.nextFile ==> f in e'.files && e'.files[f] == e.files[f]
  }

  /** A capacity that holds what is wanted and is twice what there was, or all the block may have. */
  predicate Roomy(b: Block, want: nat, c: nat) { want <= c <= b.maxCap && (2 * b.cap <= c || c == b.maxCap) }

  /** Growing changes no byte; it succeeds exactly when the block may grow that far and the cache has the room, and
      then there is room for what was asked, within both limits.  It takes the least roomy capacity, or just what was
      asked if the cache has no room for a roomy one. */
  lemma ExtendMeaning(l: Limits, e: Env, b: Block, want: nat)
    requires BlockOk(e, b)
    ensures var (e', b', ok) := Extend(l, e, b, want);
      && BlockOk(e', b') && b' == b.(cap := b'.cap) && e' == e.(util := e.util + (b'.cap - b.cap))
      && (ok <==> b.data.Some? && want <= b.maxCap && (want <= b.cap || e.util + (want - b.cap) <= l.max))
      && (ok ==> want <= b'.cap) && (!ok ==> b' == b)
      && (b'.cap != b.cap ==> e'.util <= l.max)
      && (ok && b.cap < want ==>
            if exists c: nat :: Roomy(b, want, c) && e.util + (c - b.cap) <= l.max
            then Roomy(b, want, b'.cap) && forall c: nat :: Roomy(b, want, c) ==> b'.cap <= c
            else b'.cap == want)
  {
    if b.cap < want <= b.maxCap { assert Roomy(b, want, Min(Max(want, 2 * b.cap), b.maxCap)); }
  }

  /** The buffer is large enough for `size` bytes, or can grow to them within both limits. */
  predicate CanHold(l: Limits, e: Env, b: Block, size: nat) {
    size <= b.cap || (size <= b.maxCap && e.util + (size - b.cap) <= l.max)
  }

  lemma WriteMemoryMeaning(l: Limits, e: Env, b: Block, bytes: seq<Byte>)
    requires BlockOk(e, b) && b.data.Some?
    ensures var (e', b', ok) := WriteMemory(l, e, b, bytes);
      && (ok <==> CanHold(l, e, b, |b.data.value| + |bytes|))
      && (ok ==> BlockOk(e', b') && b' == b.(cap := b'.cap, data := Some(b.data.value + bytes)))
      && (!ok ==> b' == b) && e' == e.(util := e.util + (b'.cap - b.cap))
  {
    ExtendMeaning(l, e, b, |b.data.value| + |bytes|);
  }

  /** A write appends exactly its bytes, whether they land in memory, spill, or go to a file already spilled to, and
      touches no other block's file.  They stay in memory exactly if the block has room or can get it. */
  lemma StreamWriteAppends(l: Limits, e: Env, b: Block, out: Option<nat>, bytes: seq<Byte>)
    requires BlockOk(e, b) && out == b.file
    ensures var (e', b', out') := StreamWrite(l, e, b, out, bytes);
      && BlockOk(e', b') && out' == b'.file && !Hollow(b') && b'.granted == b.granted
      && Content(e', b') == Content(e, b) + bytes
      && OthersKept(e, e', b.file)
      && (b'.file != b.file ==> b'.file == Some(e.nextFile) && e'.nextFile == e.nextFile + 1)
      && (b'.data.Some? <==> b.data.Some? && CanHold(l, e, b, |b.data.value| + |bytes|))
      && e'.util == e.util + (b'.cap - b.cap)
  {
    if b.data.Some? { WriteMemoryMeaning(l, e, b, bytes); }
  }

  /** Evicting a block changes where its bytes are and nothing else, and gives back all its memory. */
  lemma WriteToFileKeepsContent(e: Env, b: Block)
    requires BlockOk(e, b) && b.file.None?
    ensures var (e', b') := WriteToFile(e, b);
      && BlockOk(e', b') && Content(e', b') == Content(e, b) && b'.data.None? && b'.granted == b.granted
      && b'.cap == 0 && e'.util == e.util - b.cap && OthersKept(e, e', None)
      && b'.file == Some(e.nextFile) && e'.nextFile == e.nextFile + 1
  {
  }

  /** A block just initialized is empty and in no file; it is hollow exactly when it was given no memory. */
  lemma InitializeMeaning(e: Env, b: Block, max: nat)
    requires BlockOk(e, b)
    ensures var (e', b') := InitializeMemory(e, b, max);
      && BlockOk(e', b') && Content(e', b') == [] && b'.file.None? && OthersKept(e, e', b.file)
      && (b'.granted <==> max > 0) && (Hollow(b') <==> !b'.granted)
      && b'.maxCap == max && b'.cap == Min(INITIAL_CAPACITY, max) && e'.util == e.util - b.cap + b'.cap
  {
  }

  /** Destroying a block gives back its memory or removes its file. */
  lemma ClearMeaning(e: Env, b: Block)
    requires BlockOk(e, b)
    ensures var (e', b') := Clear(e, b);
      && Hollow(b') && e'.util == e.util - b.cap && OthersKept(e, e', b.file)
      && (b.file.Some? ==> b.file.value !in e'.files)
  {
  }
}
