/** Cache blocks, their streams and the choice of what to evict, as the code has them: in place. */
module CacheObjects {
  import opened Prelude
  import opened CacheBlock
  import opened CacheStore

  class Shared {
    const limits: Limits
    var util: int
    var files: map<nat, seq<Byte>>
    var nextFile: nat

    constructor (limits: Limits)
      ensures this.limits == limits && Environment() == Env(0, map[], 0)
    {
      this.limits := limits;
      util, files, nextFile := 0, map[], 0;
    }

    function Environment(): Env
      reads this
    {
      Env(util, files, nextFile)
    }
  }

  class MemoryBlock {
    const shared: Shared
    var maxCap: nat
    var cap: nat
    var size: nat
    var data: array?<Byte>
    var file: Option<nat>
    var granted: bool

    predicate Valid()
      reads this, data
    {
      if data == null then size == 0 else data.Length == cap && size <= cap
    }

    function State(): Block
      requires Valid()
      reads this, data
    {
      Block(maxCap, cap, if data == null then None else Some(data[..size]), file, granted)
    }

    constructor (shared: Shared)
      ensures Valid() && this.shared == shared && State() == UNUSED && data == null
    {
      this.shared := shared;
      maxCap, cap, size, data, file, granted := 0, 0, 0, null, None, false;
    }

    method ExtendCapacity(want: nat) returns (ok: bool)
      requires Valid()
      modifies this, shared
      ensures Valid() && (data == old(data) || fresh(data))
      ensures (shared.Environment(), State(), ok)
        == Extend(shared.limits, old(shared.Environment()), old(State()), want)
      ensures ok ==> want <= cap
    {
      if data == null || want > maxCap { return false; }
      if want <= cap { return true; }
      var newCap := Min(Max(want, 2 * cap), maxCap);
      if shared.util + (newCap - cap) > shared.limits.max {
        newCap := want;
        if shared.util + (newCap - cap) > shared.limits.max { return false; }
      }
      var bigger := Reallocated(data, size, newCap);
      data := bigger;
      shared.util := shared.util + (newCap - cap);
      cap := newCap;
      ok := true;
    }

    static method Reallocated(from: array<Byte>, size: nat, length: nat) returns (to: array<Byte>)
      requires size <= from.Length && size <= length
      ensures fresh(to) && to.Length == length && to[..size] == from[..size]
    {
      to := new Byte[length];
      for i := 0 to size
        invariant to[..i] == from[..i]
      {
        to[i] := from[i];
      }
    }

    method WriteBytesToMemoryCache(bytes: seq<Byte>) returns (ok: bool)
      requires Valid()
      modifies this, shared, data
      ensures Valid() && (data == old(data) || fresh(data))
      ensures (shared.Environment(), State(), ok)
        == WriteMemory(shared.limits, old(shared.Environment()), old(State()), bytes)
    {
      if data == null { return false; }
      if size + |bytes| > cap {
        ok := ExtendCapacity(size + |bytes|);
        if !ok { return; }
      }
      Append(bytes);
      ok := true;
    }

    method Append(bytes: seq<Byte>)
      requires data != null && Valid() && size + |bytes| <= cap
      modifies this`size, data
      ensures Valid() && State() == old(State()).(data := Some(old(State()).data.value + bytes))
    {
      CopyIn(data, size, bytes);
      size := size + |bytes|;
    }

    /** memcpy to the end of the used part. */
    static method CopyIn(to: array<Byte>, size: nat, bytes: seq<Byte>)
      requires size + |bytes| <= to.Length
      modifies to
      ensures to[..size + |bytes|] == old(to[..size]) + bytes
    {
      for i := 0 to |bytes|
        invariant to[..size + i] == old(to[..size]) + bytes[..i]
      {
        to[size + i] := bytes[i];
      }
    }

    method ReleaseMemory()
      requires Valid()
      modifies this, shared
      ensures Valid() && data == null
      ensures (shared.Environment(), State()) == Release(old(shared.Environment()), old(State()))
    {
      if data != null {
        shared.util := shared.util - cap;
      }
      data := null;
      size, cap, maxCap := 0, 0, 0;
    }

    method ClearBlock()
      requires Valid()
      modifies this, shared
      ensures Valid() && data == null
      ensures (shared.Environment(), State()) == Clear(old(shared.Environment()), old(State()))
    {
      if data != null {
        ReleaseMemory();
      } else if file.Some? {
        shared.files := shared.files - {file.value};
        file := None;
      }
    }

    method Initialize(max: nat)
      requires Valid()
      modifies this, shared
      ensures Valid() && (data == null || fresh(data))
      ensures (shared.Environment(), State()) == InitializeMemory(old(shared.Environment()), old(State()), max)
    {
      ClearBlock();
      maxCap := max;
      cap := Min(INITIAL_CAPACITY, max);
      size := 0;
      granted := cap > 0;
      if cap > 0 {
        data := new Byte[cap];
        shared.util := shared.util + cap;
      } else {
        data := null;
      }
    }

    method Spill() returns (name: nat)
      requires Valid() && file.None?
      modifies this, shared
      ensures Valid() && data == null && file == Some(name) && name == old(shared.nextFile) && name in shared.files
      ensures (shared.Environment(), State()) == WriteToFile(old(shared.Environment()), old(State()))
    {
      name := shared.nextFile;
      file := Some(name);
      shared.nextFile := shared.nextFile + 1;
      shared.files := shared.files[name := if data == null then [] else data[..size]];
      ReleaseMemory();
    }
  }

  class StreamSink {
    const block: MemoryBlock
    var out: Option<nat>

    constructor (block: MemoryBlock)
      requires block.Valid()
      ensures this.block == block && out == block.file
    {
      this.block := block;
      out := block.file;
    }

    method WriteThrough(bytes: seq<Byte>)
      requires block.Valid() && out == block.file
      requires out.Some? ==> out.value in block.shared.files
      modifies this, block, block.shared, block.data
      ensures block.Valid()
      ensures (block.shared.Environment(), block.State(), out)
           == StreamWrite(block.shared.limits, old(block.shared.Environment()), old(block.State()), old(out), bytes)
    {
      if out.Some? {
        block.shared.files := block.shared.files[out.value := block.shared.files[out.value] + bytes];
      } else {
        var ok := block.WriteBytesToMemoryCache(bytes);
        if !ok {
          var name := block.Spill();
          out := Some(name);
          block.shared.files := block.shared.files[name := block.shared.files[name] + bytes];
        }
      }
    }
  }

  /** cache_stream_source::read on a buffer: copy out at most `n` bytes and move on. */
  class ArraySource {
    const bytes: array<Byte>
    const size: nat
    var pos: nat

    constructor (bytes: array<Byte>, size: nat)
      ensures this.bytes == bytes && this.size == size && pos == 0
    {
      this.bytes := bytes;
      this.size := size;
      pos := 0;
    }

    method ReadChunk(n: nat) returns (chunk: seq<Byte>)
      requires size <= bytes.Length && pos <= size
      modifies this
      ensures chunk == Chunk(bytes[..size], old(pos), n) && pos == old(pos) + |chunk| && pos <= size
    {
      var count := Min(n, size - pos);
      chunk := bytes[pos..pos + count];
      assert chunk == bytes[..size][pos..pos + count];
      pos := pos + count;
    }
  }

  /** The loop of try_cache_evict over the table's entries in the order met. */
  method PickVictim(s: Cache, order: seq<string>) returns (victim: Option<string>)
    requires forall id :: id in s.table <==> id in order
    requires forall id :: id in s.table ==> s.table[id] in s.heap
    ensures IsVictim(s, victim)
  {
    victim := None;
    var largest := 0;
    for i := 0 to |order|
      invariant if victim.None? then largest == 0
                  else Evictable(s, victim.value) && largest == SizeOf(s, victim.value) > 0
      invariant forall k :: 0 <= k < i && Evictable(s, order[k]) ==> SizeOf(s, order[k]) <= largest
    {
      var r := s.table[order[i]];
      if !Pinned(s, r) && s.heap[r].file.None? && Size(s.heap[r]) > largest {
        victim := Some(order[i]);
        largest := Size(s.heap[r]);
      }
    }
  }
}
