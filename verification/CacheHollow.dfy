/** Whatever the limits, some run fills the cache and then reads an entry that was given no memory. */
module CacheHollow {
  import opened Prelude
  import opened CacheBlock
  import opened CacheStore

  lemma {:induction false} RunAppend(l: Limits, s: Cache, steps: seq<Step>, outs: seq<Out>, t: Cache, st: Step)
    requires Run(l, s, steps, outs, t) && Enabled(l, t, st)
    ensures Run(l, s, steps + [st], outs + [OutOf(t, st)], Apply(l, t, st))
    decreases |steps|
  {
    var steps', outs' := steps + [st], outs + [OutOf(t, st)];
    if steps == [] {
      assert steps'[1..] == [] && outs'[1..] == [];
    } else {
      assert steps'[1..] == steps[1..] + [st] && outs'[1..] == outs[1..] + [OutOf(t, st)];
      RunAppend(l, Apply(l, s, steps[0]), steps[1..], outs[1..], t, st);
    }
  }

  ghost predicate Reachable(l: Limits, t: Cache) { exists steps, outs :: Run(l, EMPTY, steps, outs, t) }

  lemma ReachableStep(l: Limits, t: Cache, st: Step)
    requires Reachable(l, t) && Enabled(l, t, st)
    ensures Reachable(l, Apply(l, t, st))
  {
    var steps, outs :| Run(l, EMPTY, steps, outs, t);
    RunAppend(l, EMPTY, steps, outs, t, st);
  }

  /** An identifier for every number. */
  function Id(k: nat): string { seq(k, _ => 'a') }

  /** Fewer than `k` entries, each with its sink still open. */
  ghost predicate Busy(s: Cache, k: nat) {
    && s.sources == map[] && s.env.util >= 0
    && (forall r :: r in s.heap ==> r < s.next)
    && (forall h :: h in s.sinks ==> h < k && s.sinks[h].block < s.next)
    && (forall id :: id in s.table ==> |id| < k && Pinned(s, s.table[id]))
  }

  /** Nothing can be evicted then: creating one more entry takes what room there is. */
  lemma OneMore(l: Limits, s: Cache, k: nat)
    requires Busy(s, k)
    ensures var st := Create(Id(k), k, None);
      && Enabled(l, s, st) && Apply(l, s, st) == CreateOn(l, s, Id(k), k)
      && Apply(l, s, st).env.util == s.env.util + Min(INITIAL_CAPACITY, Room(l, s.env.util))
      && Busy(Apply(l, s, st), k + 1)
  {
    assert Id(k) !in s.table && s.next !in s.heap;
    var t := CreateOn(l, s, Id(k), k);
    forall id | id in t.table ensures |id| < k + 1 && Pinned(t, t.table[id]) {
      if id == Id(k) {
        assert t.sinks[k].block == t.table[id];
      } else {
        var h :| h in s.sinks && s.sinks[h].block == s.table[id];
        assert h in t.sinks && t.sinks[h].block == t.table[id];
      }
    }
  }

  /** Opening entry after entry takes at least one byte each, until there is no room. */
  lemma {:induction false} Fill(l: Limits, k: nat) returns (s: Cache)
    ensures Reachable(l, s) && Busy(s, k)
    ensures Room(l, s.env.util) == 0 || s.env.util >= k
  {
    if k == 0 {
      s := EMPTY;
      assert Run(l, EMPTY, [], [], EMPTY);
    } else {
      s := Fill(l, k - 1);
      if Room(l, s.env.util) > 0 {
        var st := Create(Id(k - 1), k - 1, None);
        OneMore(l, s, k - 1);
        ReachableStep(l, s, st);
        s := Apply(l, s, st);
      }
    }
  }

  /** An entry with neither memory nor file, on which one sink is open. */
  ghost predicate HollowEntry(s: Cache, id: string, h: nat) {
    && id in s.table && s.table[id] in s.heap && Hollow(s.heap[s.table[id]])
    && h in s.sinks && s.sinks[h].block == s.table[id] && s.sources == map[]
    && forall k :: k in s.sinks && k != h ==> s.sinks[k].block != s.table[id]
  }

  lemma HollowCreated(l: Limits, s: Cache, k: nat)
    requires Busy(s, k) && Room(l, s.env.util) == 0
    ensures HollowEntry(CreateOn(l, s, Id(k), k), Id(k), k)
  {
    assert Id(k) !in s.table && s.next !in s.heap;
  }

  lemma HollowClosed(l: Limits, s: Cache, id: string, h: nat)
    requires HollowEntry(s, id, h)
    ensures Apply(l, s, CloseSink(h)) == s.(sinks := s.sinks - {h})
  {
    assert InTable(s.(sinks := s.sinks - {h}), s.table[id]);
  }

  lemma HollowOpened(l: Limits, s: Cache, id: string, h: nat)
    requires HollowEntry(s, id, h)
    ensures var s2 := s.(sinks := s.sinks - {h});
      && Enabled(l, s2, OpenSource(id, h))
      && var t := Apply(l, s2, OpenSource(id, h)); h in t.sources && forall n :: OutOf(t, Read(h, n)) == Broken
  {
  }

  /** The entry created when there is no room left, closed and opened for reading. */
  lemma OpenHollow(l: Limits, s: Cache, k: nat) returns (t: Cache)
    requires Reachable(l, s) && Busy(s, k) && Room(l, s.env.util) == 0
    ensures Reachable(l, t) && k in t.sources && forall n :: OutOf(t, Read(k, n)) == Broken
  {
    OneMore(l, s, k);
    ReachableStep(l, s, Create(Id(k), k, None));
    var s1 := CreateOn(l, s, Id(k), k);
    HollowCreated(l, s, k);
    HollowClosed(l, s1, Id(k), k);
    ReachableStep(l, s1, CloseSink(k));
    HollowOpened(l, s1, Id(k), k);
    var s2 := s1.(sinks := s1.sinks - {k});
    ReachableStep(l, s2, OpenSource(Id(k), k));
    t := Apply(l, s2, OpenSource(Id(k), k));
  }

  /** For all limits there is a run after which every read through some open stream breaks. */
  lemma ReadsCanBreak(l: Limits) returns (steps: seq<Step>, outs: seq<Out>, t: Cache, h: nat)
    ensures Run(l, EMPTY, steps, outs, t) && h in t.sources && forall n :: OutOf(t, Read(h, n)) == Broken
  {
    var s := Fill(l, l.max);
    t := OpenHollow(l, s, l.max);
    h := l.max;
    steps, outs :| Run(l, EMPTY, steps, outs, t);
  }
}
