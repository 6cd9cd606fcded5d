/**
  Which flexible value stands for a C++ value, and which C++ value a flexible value is read as, told by the shapes of
  both rather than by the cases of the converter (src/flexible_type/flexible_type_converter.hpp).
 */
module FlexShapes {
  import opened Prelude
  import opened Division
  import opened Doubles
  import opened FlexConverter

  // ---- numbers ----

  predicate Congruent(a: int, b: int, modulus: nat)
    requires modulus > 0
  {
    (a - b) % modulus == 0
  }

  /** The number as flex_int: 64 bits of it. */
  predicate StoredInt(n: int, k: int) { InRange(Signed(B64), k) && Congruent(k, n, Span(B64)) }

  /** The number in an array of doubles: the nearest one. */
  predicate StoredDouble(x: Native, r: real) {
    (x.NReal? && r == x.r) || (x.NInt? && r == Rounded(x.n) as real)
  }

  /** The part before the decimal point. */
  predicate WholePart(r: real, z: int) {
    if r >= 0.0 then z as real <= r < z as real + 1.0 else z as real - 1.0 < r <= z as real
  }

  /** An integer of the type with the same low bits; for bool, whether there are any. */
  predicate WrapsTo(a: Arithmetic, n: int, k: int) {
    match a
    case Boolean => 0 <= k <= 1 && (k == 0 <==> n == 0)
    case Signed(b) => InRange(a, k) && Congruent(k, n, Span(b))
    case Unsigned(b) => InRange(a, k) && Congruent(k, n, Span(b))
    case Floating => false
  }

  ghost predicate ReadsDouble(a: Arithmetic, r: real, y: Native) {
    match a
    case Floating => y == NReal(r)
    case Boolean => y.NInt? && 0 <= y.n <= 1 && (y.n == 0 <==> r == 0.0)
    case _ => y.NInt? && exists z: int :: WholePart(r, z) && WrapsTo(a, z, y.n)
  }

  ghost predicate ReadsNumber(a: Arithmetic, f: Value, y: Native) {
    match f
    case Int(n) => if a.Floating? then y == NReal(Rounded(n) as real) else y.NInt? && WrapsTo(a, n, y.n)
    case Float(r) => ReadsDouble(a, r, y)
    case _ => false
  }

  lemma WrapsSigned(b: Bits, n: int, k: int)
    ensures WrapsTo(Signed(b), n, k) <==> k == FromInt(Signed(b), n)
  {
    var half := Span(b) / 2;
    assert Span(b) == 2 * half;
    if -half <= k < half { WrapIsUnique(n, half, Span(b), k); }
  }

  lemma WrapsUnsigned(b: Bits, n: int, k: int)
    ensures WrapsTo(Unsigned(b), n, k) <==> k == FromInt(Unsigned(b), n)
  {
    if 0 <= k < Span(b) { WrapIsUnique(n, 0, Span(b), k); }
  }

  lemma WrapsExactly(a: Arithmetic, n: int, k: int)
    requires !a.Floating?
    ensures WrapsTo(a, n, k) <==> k == FromInt(a, n)
  {
    match a
    case Boolean =>
    case Signed(b) => WrapsSigned(b, n, k);
    case Unsigned(b) => WrapsUnsigned(b, n, k);
  }

  lemma WholePartExactly(r: real, z: int)
    ensures WholePart(r, z) <==> z == Truncated(r)
  {
  }

  lemma ReadsDoubleExactly(a: Arithmetic, r: real, y: Native)
    ensures ReadsDouble(a, r, y) <==> y == FromDouble(a, r)
  {
    if a.Signed? || a.Unsigned? {
      WholePartExactly(r, Truncated(r));
      forall z: int ensures WholePart(r, z) <==> z == Truncated(r) { WholePartExactly(r, z); }
      if y.NInt? { WrapsExactly(a, Truncated(r), y.n); }
    }
  }

  lemma ReadsNumberExactly(a: Arithmetic, f: Value, y: Native)
    ensures ReadsNumber(a, f, y) <==> GetNumber(a, f) == Some(y)
  {
    if f.Float? { ReadsDoubleExactly(a, f.r, y); }
    if f.Int? && !a.Floating? && y.NInt? { WrapsExactly(a, f.n, y.n); }
  }

  // ---- what set builds ----

  const FLEX_PAIR := PairOf(Flexible, Flexible)

  /** Item `i` of a sequence is at position `i`, a pair's first before its second, and a map has one pair for each of
      its entries, in some order.  Sequences of numbers are arrays of doubles. */
  ghost predicate Represents(t: Ty, x: Native, f: Value)
    requires HasType(t, x)
    decreases t
  {
    match t
    case Flexible => f == x.f
    case Text => f == Str(x.s)
    case Time => f == DateTime(x.stamp, x.zone)
    case Number(a) => if a.Floating? then f == Float(x.r) else f.Int? && StoredInt(x.n, f.n)
    case Enum => f == Int(x.n)
    case Vector(e) =>
      if e.Number? then
        && f.Numbers? && |f.numbers| == |x.items|
        && forall i :: 0 <= i < |x.items| ==> StoredDouble(x.items[i], f.numbers[i])
      else if e == FLEX_PAIR then
        && f.Dict? && |f.pairs| == |x.items|
        && forall i :: 0 <= i < |x.items| ==>
             HasType(e, x.items[i]) && f.pairs[i] == (x.items[i].first.f, x.items[i].second.f)
      else
        f.List? && |f.items| == |x.items| && forall i :: 0 <= i < |x.items| ==> Represents(e, x.items[i], f.items[i])
    case OrderedMap(k, v) => f.Dict? && exists keys :: Listed(t, x, f.pairs, keys)
    case HashMap(k, v) => f.Dict? && exists keys :: Listed(t, x, f.pairs, keys)
    case PairOf(a, b) =>
      if a.Number? && b.Number? then
        f.Numbers? && |f.numbers| == 2 && StoredDouble(x.first, f.numbers[0]) && StoredDouble(x.second, f.numbers[1])
      else
        f.List? && |f.items| == 2 && Represents(a, x.first, f.items[0]) && Represents(b, x.second, f.items[1])
    case Tuple(parts) =>
      if AllNumbers(parts) then
        && f.Numbers? && |f.numbers| == |x.items|
        && forall i :: 0 <= i < |x.items| ==> StoredDouble(x.items[i], f.numbers[i])
      else
        && f.List? && |f.items| == |x.items|
        && forall i :: 0 <= i < |x.items| ==> Represents(parts[i], x.items[i], f.items[i])
    case Unsupported => false
  }

  /** The pairs are the entries of the map for the given keys, each key once. */
  ghost predicate Listed(t: Ty, x: Native, pairs: seq<(Value, Value)>, keys: seq<Native>)
    requires (t.OrderedMap? || t.HashMap?) && HasType(t, x)
    decreases t, 0
  {
    && Walks(keys, x.entries) && |pairs| == |keys|
    && forall i :: 0 <= i < |keys| ==>
         Represents(t.key, keys[i], pairs[i].0) && Represents(t.value, x.entries[keys[i]], pairs[i].1)
  }

  lemma StoredExactly(a: Arithmetic, n: int)
    requires InRange(a, n)
    ensures StoredInt(n, ToInt64(n))
  {
  }

  /** The members that are not numbers, flexible values or lists of them. */
  lemma MemberKinds(t: Ty)
    requires CaseOf(t) == C1a && Universe(t)
    ensures t == Text || t == Time || t == FLEX_VEC || t == FLEX_DICT
  {
  }

  lemma MemberRepresents(t: Ty, x: Native)
    requires HasType(t, x) && CaseOf(t) == C1a && Universe(t)
    ensures Represents(t, x, SetMember(t, x))
  {
    if t == FLEX_VEC { assert forall i :: 0 <= i < |x.items| ==> HasType(FLEX_FLOAT, x.items[i]); }
    if t == FLEX_DICT { assert forall i :: 0 <= i < |x.items| ==> HasType(FLEX_PAIR, x.items[i]); }
  }

  lemma NumbersRepresent(m: Machine, t: Ty, x: Native)
    requires HasType(t, x) && Universe(t) && (CaseOf(t) == C4 || CaseOf(t) == C9 || CaseOf(t) == C11)
    ensures Represents(t, x, Set(m, t, x))
  {
    if t.Vector? { assert forall i :: 0 <= i < |x.items| ==> HasType(t.elem, x.items[i]); }
    if t.Tuple? { assert forall i :: 0 <= i < |x.items| ==> HasType(t.parts[i], x.items[i]); }
  }

  /** What set builds represents what it is given, for every type of the universe. */
  lemma {:induction false} SetRepresents(m: Machine, t: Ty, x: Native)
    requires Universe(t) && HasType(t, x) && WalksMaps(m)
    ensures Represents(t, x, Set(m, t, x))
    decreases t, 1
  {
    match CaseOf(t)
    case C1a => MemberRepresents(t, x);
    case C1b => assert forall i :: 0 <= i < |x.items| ==> HasType(Flexible, x.items[i]);
    case C2 =>
    case C3 => if !t.a.Floating? { StoredExactly(t.a, x.n); }
    case C4 => NumbersRepresent(m, t, x);
    case C5 => PartsRepresent(m, t, x);
    case C6 => EntriesRepresent(m, t, x);
    case C7 => EntriesRepresent(m, t, x);
    case C8 => PartsRepresent(m, t, x);
    case C9 => NumbersRepresent(m, t, x);
    case C10 => PartsRepresent(m, t, x);
    case C11 => NumbersRepresent(m, t, x);
    case C12 =>
  }

  lemma {:induction false} PartsRepresent(m: Machine, t: Ty, x: Native)
    requires Universe(t) && HasType(t, x) && WalksMaps(m) && (CaseOf(t) == C5 || CaseOf(t) == C8 || CaseOf(t) == C10)
    ensures Represents(t, x, Set(m, t, x))
    decreases t, 0, 1
  {
    match t
    case Vector(e) => ItemsRepresent(m, t, x);
    case PairOf(a, b) =>
      SetRepresents(m, a, x.first);
      SetRepresents(m, b, x.second);
    case Tuple(parts) => MembersRepresent(m, t, x);
  }

  lemma {:induction false} ItemsRepresent(m: Machine, t: Ty, x: Native)
    requires Universe(t) && HasType(t, x) && WalksMaps(m) && CaseOf(t) == C5
    ensures Represents(t, x, Set(m, t, x))
    decreases t, 0, 0
  {
    forall i | 0 <= i < |x.items| { SetRepresents(m, t.elem, x.items[i]); }
  }

  lemma {:induction false} MembersRepresent(m: Machine, t: Ty, x: Native)
    requires Universe(t) && HasType(t, x) && WalksMaps(m) && CaseOf(t) == C10
    ensures Represents(t, x, Set(m, t, x))
    decreases t, 0, 0
  {
    forall i | 0 <= i < |x.items| { SetRepresents(m, t.parts[i], x.items[i]); }
  }

  lemma {:induction false} EntriesRepresent(m: Machine, t: Ty, x: Native)
    requires (t.OrderedMap? || t.HashMap?) && Universe(t) && HasType(t, x) && WalksMaps(m)
    ensures Represents(t, x, Set(m, t, x))
    decreases t, 0
  {
    var keys, pairs := m.order(x.entries), SetEntries(m, t, x);
    assert Walks(keys, x.entries);
    forall i | 0 <= i < |keys|
      ensures Represents(t.key, keys[i], pairs[i].0) && Represents(t.value, x.entries[keys[i]], pairs[i].1)
    {
      SetRepresents(m, t.key, keys[i]);
      SetRepresents(m, t.value, x.entries[keys[i]]);
    }
    assert Listed(t, x, pairs, keys);
  }

  // ---- what get reads ----

  /** Of equal keys the first one counts. */
  ghost predicate FirstWins(ks: seq<Native>, vs: seq<Native>, entries: map<Native, Native>)
    requires |ks| == |vs|
  {
    FirstWinsTo(ks, vs, |ks|, entries)
  }

  ghost predicate FirstWinsTo(ks: seq<Native>, vs: seq<Native>, n: nat, entries: map<Native, Native>)
    requires n <= |ks| == |vs|
  {
    && (forall k {:trigger Among(ks, n, k)} :: k in entries <==> Among(ks, n, k))
    && forall i {:trigger FirstAt(ks, i)} :: 0 <= i < n && FirstAt(ks, i) ==>
         ks[i] in entries && entries[ks[i]] == vs[i]
  }

  predicate Among(ks: seq<Native>, n: nat, k: Native)
    requires n <= |ks|
  {
    exists i :: 0 <= i < n && ks[i] == k
  }

  predicate FirstAt(ks: seq<Native>, i: nat)
    requires i < |ks|
  {
    forall j :: 0 <= j < i ==> ks[j] != ks[i]
  }

  /** The flexible value `f`, read as a value of type `t`, is `y`. */
  ghost predicate Reads(t: Ty, f: Value, y: Native)
    decreases t
  {
    match t
    case Flexible => y == NFlex(f)
    case Text => f.Str? && y == NText(f.s)
    case Time => f.DateTime? && y == NTime(f.stamp, f.zone)
    case Number(a) => ReadsNumber(a, f, y)
    case Enum => f.Int? && y == NInt(f.n)
    case Vector(e) =>
      && y.NSeq?
      && if e.Number? then
           f.Numbers? && |f.numbers| == |y.items|
           && forall i :: 0 <= i < |y.items| ==> ReadsDouble(e.a, f.numbers[i], y.items[i])
         else if e == FLEX_PAIR then
           f.Dict? && |f.pairs| == |y.items|
           && forall i :: 0 <= i < |y.items| ==> y.items[i] == NPair(NFlex(f.pairs[i].0), NFlex(f.pairs[i].1))
         else if e == Flexible && f.Numbers? then
           |f.numbers| == |y.items| && forall i :: 0 <= i < |y.items| ==> y.items[i] == NFlex(Float(f.numbers[i]))
         else
           f.List? && |f.items| == |y.items| && forall i :: 0 <= i < |y.items| ==> Reads(e, f.items[i], y.items[i])
    case OrderedMap(k, v) => f.Dict? && ReadsMap(t, f.pairs, y)
    case HashMap(k, v) => f.Dict? && ReadsMap(t, f.pairs, y)
    case PairOf(a, b) =>
      && y.NPair?
      && if a.Number? && b.Number? then
           f.Numbers? && |f.numbers| == 2
           && ReadsDouble(a.a, f.numbers[0], y.first) && ReadsDouble(b.a, f.numbers[1], y.second)
         else f.List? && |f.items| == 2 && Reads(a, f.items[0], y.first) && Reads(b, f.items[1], y.second)
    case Tuple(parts) =>
      && y.NSeq? && |y.items| == |parts|
      && if AllNumbers(parts) then
           f.Numbers? && |f.numbers| == |parts|
           && forall i :: 0 <= i < |parts| ==> ReadsDouble(parts[i].a, f.numbers[i], y.items[i])
         else
           && f.List? && |f.items| == |parts|
           && forall i :: 0 <= i < |parts| ==> Reads(parts[i], f.items[i], y.items[i])
    case Unsupported => false
  }

  /** Keys and values are read one by one. */
  ghost predicate ReadsMap(t: Ty, pairs: seq<(Value, Value)>, y: Native)
    requires t.OrderedMap? || t.HashMap?
    decreases t, 1
  {
    y.NMap? && exists ks, vs :: ReadsEntries(t, pairs, y.entries, ks, vs)
  }

  ghost predicate ReadsEntries(
      t: Ty, pairs: seq<(Value, Value)>, entries: map<Native, Native>, ks: seq<Native>, vs: seq<Native>)
    requires t.OrderedMap? || t.HashMap?
    decreases t, 0
  {
    && |ks| == |vs| == |pairs| && FirstWins(ks, vs, entries)
    && forall i :: 0 <= i < |pairs| ==> Reads(t.key, pairs[i].0, ks[i]) && Reads(t.value, pairs[i].1, vs[i])
  }

  /** A sequence is read item by item. */
  lemma SeqIs(xs: seq<Native>, y: Native)
    ensures Some(NSeq(xs)) == Some(y) <==>
      y.NSeq? && |y.items| == |xs| && forall i :: 0 <= i < |xs| ==> y.items[i] == xs[i]
  {
    if y.NSeq? && |y.items| == |xs| && forall i :: 0 <= i < |xs| ==> y.items[i] == xs[i] { assert y.items == xs; }
  }

  lemma GatherIs(ys: seq<Option<Native>>, y: Native)
    ensures Gather(ys) == Some(y) <==>
      y.NSeq? && |y.items| == |ys| && forall i :: 0 <= i < |ys| ==> ys[i] == Some(y.items[i])
  {
    if Gather(ys).Some? { SeqIs(seq(|ys|, i requires 0 <= i < |ys| => ys[i].value), y); }
  }

  lemma VecReads(f: Value, y: Native)
    ensures GetMember(FLEX_VEC, f) == Some(y) <==> Reads(FLEX_VEC, f, y)
  {
    if f.Numbers? { SeqIs(seq(|f.numbers|, i requires 0 <= i < |f.numbers| => NReal(f.numbers[i])), y); }
  }

  lemma DictReads(f: Value, y: Native)
    ensures GetMember(FLEX_DICT, f) == Some(y) <==> Reads(FLEX_DICT, f, y)
  {
    if f.Dict? {
      SeqIs(seq(|f.pairs|, i requires 0 <= i < |f.pairs| => NPair(NFlex(f.pairs[i].0), NFlex(f.pairs[i].1))), y);
    }
  }

  lemma PlainReads(t: Ty, f: Value, y: Native)
    requires t == Text || t == Time
    ensures GetMember(t, f) == Some(y) <==> Reads(t, f, y)
  {
  }

  lemma MemberReads(t: Ty, f: Value, y: Native)
    requires CaseOf(t) == C1a && Universe(t)
    ensures GetMember(t, f) == Some(y) <==> Reads(t, f, y)
  {
    MemberKinds(t);
    if t == FLEX_VEC { VecReads(f, y); } else if t == FLEX_DICT { DictReads(f, y); } else { PlainReads(t, f, y); }
  }

  lemma ListReads(m: Machine, f: Value, y: Native)
    ensures Get(m, FLEX_LIST, f) == Some(y) <==> Reads(FLEX_LIST, f, y)
  {
    if f.List? {
      ItemsRead(m, f, y);
    } else if f.Numbers? {
      SeqIs(seq(|f.numbers|, i requires 0 <= i < |f.numbers| => NFlex(Float(f.numbers[i]))), y);
    }
  }

  lemma ItemsRead(m: Machine, f: Value, y: Native)
    requires f.List?
    ensures Get(m, FLEX_LIST, f) == Some(y) <==> Reads(FLEX_LIST, f, y)
  {
    var xs := seq(|f.items|, i requires 0 <= i < |f.items| => NFlex(f.items[i]));
    assert Get(m, FLEX_LIST, f) == Some(NSeq(xs));
    SeqIs(xs, y);
  }

  lemma ArrayReads(m: Machine, t: Ty, f: Value, y: Native)
    requires CaseOf(t) == C4 && Universe(t)
    ensures Get(m, t, f) == Some(y) <==> Reads(t, f, y)
  {
    if f.Numbers? {
      var xs := seq(|f.numbers|, i requires 0 <= i < |f.numbers| => FromDouble(t.elem.a, f.numbers[i]));
      SeqIs(xs, y);
      if y.NSeq? && |y.items| == |xs| {
        forall i | 0 <= i < |xs| ensures ReadsDouble(t.elem.a, f.numbers[i], y.items[i]) <==> y.items[i] == xs[i] {
          ReadsDoubleExactly(t.elem.a, f.numbers[i], y.items[i]);
        }
      }
    }
  }

  lemma NumericTupleReads(m: Machine, t: Ty, f: Value, y: Native)
    requires CaseOf(t) == C11 && Universe(t)
    ensures Get(m, t, f) == Some(y) <==> Reads(t, f, y)
  {
    if f.Numbers? && |f.numbers| == |t.parts| {
      var xs := seq(|f.numbers|, i requires 0 <= i < |f.numbers| => FromDouble(t.parts[i].a, f.numbers[i]));
      SeqIs(xs, y);
      if y.NSeq? && |y.items| == |xs| {
        forall i | 0 <= i < |xs| ensures ReadsDouble(t.parts[i].a, f.numbers[i], y.items[i]) <==> y.items[i] == xs[i] {
          ReadsDoubleExactly(t.parts[i].a, f.numbers[i], y.items[i]);
        }
      }
    }
  }

  lemma NumericPairReads(m: Machine, t: Ty, f: Value, y: Native)
    requires CaseOf(t) == C9 && Universe(t)
    ensures Get(m, t, f) == Some(y) <==> Reads(t, f, y)
  {
    if f.Numbers? && |f.numbers| == 2 && y.NPair? {
      ReadsDoubleExactly(t.first.a, f.numbers[0], y.first);
      ReadsDoubleExactly(t.second.a, f.numbers[1], y.second);
    }
  }

  /** Get returns `y` exactly if the flexible value is read as `y`; where it is read as nothing, it throws. */
  lemma {:induction false} GetReads(m: Machine, t: Ty, f: Value, y: Native)
    requires Universe(t)
    ensures Get(m, t, f) == Some(y) <==> Reads(t, f, y)
    decreases t, 1
  {
    match CaseOf(t)
    case C1a => MemberReads(t, f, y);
    case C1b => ListReads(m, f, y);
    case C2 =>
    case C3 => ReadsNumberExactly(t.a, f, y);
    case C4 => ArrayReads(m, t, f, y);
    case C5 => VectorReads(m, t, f, y);
    case C6 => MapReads(m, t, f, y);
    case C7 => MapReads(m, t, f, y);
    case C8 => PairReads(m, t, f, y);
    case C9 => NumericPairReads(m, t, f, y);
    case C10 => TupleReads(m, t, f, y);
    case C11 => NumericTupleReads(m, t, f, y);
    case C12 =>
  }

  lemma {:induction false} PairReads(m: Machine, t: Ty, f: Value, y: Native)
    requires CaseOf(t) == C8 && Universe(t)
    ensures Get(m, t, f) == Some(y) <==> Reads(t, f, y)
    decreases t, 0
  {
    if f.List? && |f.items| == 2 && y.NPair? {
      GetReads(m, t.first, f.items[0], y.first);
      GetReads(m, t.second, f.items[1], y.second);
    }
  }

  lemma {:induction false} VectorReads(m: Machine, t: Ty, f: Value, y: Native)
    requires CaseOf(t) == C5 && Universe(t)
    ensures Get(m, t, f) == Some(y) <==> Reads(t, f, y)
    decreases t, 0
  {
    if f.List? {
      var ys := seq(|f.items|, i requires 0 <= i < |f.items| => Get(m, t.elem, f.items[i]));
      GatherIs(ys, y);
      if y.NSeq? && |y.items| == |ys| {
        forall i | 0 <= i < |ys| ensures Reads(t.elem, f.items[i], y.items[i]) <==> ys[i] == Some(y.items[i]) {
          GetReads(m, t.elem, f.items[i], y.items[i]);
        }
      }
    }
  }

  lemma {:induction false} TupleReads(m: Machine, t: Ty, f: Value, y: Native)
    requires CaseOf(t) == C10 && Universe(t)
    ensures Get(m, t, f) == Some(y) <==> Reads(t, f, y)
    decreases t, 0
  {
    if f.List? && |f.items| == |t.parts| {
      var ys := seq(|f.items|, i requires 0 <= i < |f.items| => Get(m, t.parts[i], f.items[i]));
      GatherIs(ys, y);
      if y.NSeq? && |y.items| == |ys| {
        forall i | 0 <= i < |ys| ensures Reads(t.parts[i], f.items[i], y.items[i]) <==> ys[i] == Some(y.items[i]) {
          GetReads(m, t.parts[i], f.items[i], y.items[i]);
        }
      }
    }
  }

  // ---- maps ----

  lemma FirstWinsIsUnique(ks: seq<Native>, vs: seq<Native>, a: map<Native, Native>, b: map<Native, Native>)
    requires |ks| == |vs| && FirstWins(ks, vs, a) && FirstWins(ks, vs, b)
    ensures a == b
  {
    forall k ensures k in a <==> k in b { assert Among(ks, |ks|, k) <==> k in a; }
    forall k | k in a ensures a[k] == b[k] {
      assert Among(ks, |ks|, k);
      var i := FirstIndex(ks, |ks|, k);
    }
  }

  lemma {:induction false} FirstIndex(ks: seq<Native>, n: nat, k: Native) returns (i: nat)
    requires n <= |ks| && Among(ks, n, k)
    ensures i < n && ks[i] == k && FirstAt(ks, i)
    decreases n
  {
    if Among(ks, n - 1, k) { i := FirstIndex(ks, n - 1, k); } else { i := n - 1; }
  }

  /** Inserting the pairs one after the other keeps the first of equal keys. */
  lemma {:induction false} InsertKeepsFirst(
      ks: seq<Option<Native>>, vs: seq<Option<Native>>, keys: seq<Native>, values: seq<Native>, n: nat)
    requires n <= |ks| == |vs| == |keys| == |values|
    requires forall i :: 0 <= i < |ks| ==> ks[i] == Some(keys[i]) && vs[i] == Some(values[i])
    ensures InsertAll(ks, vs, n).Some? && FirstWinsTo(keys, values, n, InsertAll(ks, vs, n).value.entries)
  {
    if n > 0 {
      InsertKeepsFirst(ks, vs, keys, values, n - 1);
      var e := InsertAll(ks, vs, n - 1).value.entries;
      InsertNext(ks, vs, n - 1, e);
      OneMoreWins(keys, values, n - 1, e);
    }
  }

  lemma OneMoreWins(ks: seq<Native>, vs: seq<Native>, n: nat, e: map<Native, Native>)
    requires n < |ks| == |vs| && FirstWinsTo(ks, vs, n, e)
    ensures FirstWinsTo(ks, vs, n + 1, if ks[n] in e then e else e[ks[n] := vs[n]])
  {
    var e' := if ks[n] in e then e else e[ks[n] := vs[n]];
    assert ks[n] in e <==> Among(ks, n, ks[n]);
    forall k ensures k in e' <==> Among(ks, n + 1, k) { assert k in e <==> Among(ks, n, k); }
    forall i | 0 <= i < n + 1 && FirstAt(ks, i) ensures e'[ks[i]] == vs[i] {
      if i < n { assert Among(ks, n, ks[i]); }
    }
  }

  lemma {:induction false} MapReads(m: Machine, t: Ty, f: Value, y: Native)
    requires (t.OrderedMap? || t.HashMap?) && Universe(t)
    ensures Get(m, t, f) == Some(y) <==> Reads(t, f, y)
    decreases t, 0, 2
  {
    if f.Dict? {
      GetOfDict(m, t, f.pairs);
      if Get(m, t, f) == Some(y) { EntriesAreRead(m, t, f.pairs, y); }
      if ReadsMap(t, f.pairs, y) { ReadEntriesAreGot(m, t, f.pairs, y); }
    }
  }

  /** The keys and values that went into a map. */
  lemma InsertedFirst(ks: seq<Option<Native>>, vs: seq<Option<Native>>)
    returns (keys: seq<Native>, values: seq<Native>)
    requires |ks| == |vs| && InsertAll(ks, vs, |ks|).Some?
    ensures |keys| == |values| == |ks| && FirstWins(keys, values, InsertAll(ks, vs, |ks|).value.entries)
    ensures forall i :: 0 <= i < |ks| ==> ks[i] == Some(keys[i]) && vs[i] == Some(values[i])
  {
    forall i | 0 <= i < |ks| ensures ks[i].Some? && vs[i].Some? {
      if ks[i].None? || vs[i].None? { InsertFails(ks, vs, i, |ks|); }
    }
    keys := seq(|ks|, i requires 0 <= i < |ks| => ks[i].value);
    values := seq(|ks|, i requires 0 <= i < |ks| => vs[i].value);
    InsertKeepsFirst(ks, vs, keys, values, |ks|);
  }

  lemma {:induction false} EntriesAreRead(m: Machine, t: Ty, pairs: seq<(Value, Value)>, y: Native)
    requires (t.OrderedMap? || t.HashMap?) && Universe(t) && GetEntries(m, t, pairs) == Some(y)
    ensures ReadsMap(t, pairs, y)
    decreases t, 0, 0
  {
    var ks := seq(|pairs|, i requires 0 <= i < |pairs| => Get(m, t.key, pairs[i].0));
    var vs := seq(|pairs|, i requires 0 <= i < |pairs| => Get(m, t.value, pairs[i].1));
    var keys, values := InsertedFirst(ks, vs);
    forall i | 0 <= i < |pairs| ensures Reads(t.key, pairs[i].0, keys[i]) && Reads(t.value, pairs[i].1, values[i]) {
      GetReads(m, t.key, pairs[i].0, keys[i]);
      GetReads(m, t.value, pairs[i].1, values[i]);
    }
    assert ReadsEntries(t, pairs, y.entries, keys, values);
  }

  lemma FirstIsInserted(ks: seq<Option<Native>>, vs: seq<Option<Native>>, keys: seq<Native>, values: seq<Native>,
                        entries: map<Native, Native>)
    requires |ks| == |vs| == |keys| == |values| && FirstWins(keys, values, entries)
    requires forall i :: 0 <= i < |ks| ==> ks[i] == Some(keys[i]) && vs[i] == Some(values[i])
    ensures InsertAll(ks, vs, |ks|) == Some(NMap(entries))
  {
    InsertKeepsFirst(ks, vs, keys, values, |ks|);
    FirstWinsIsUnique(keys, values, entries, InsertAll(ks, vs, |ks|).value.entries);
  }

  lemma {:induction false} EntryIsGot(
      m: Machine, t: Ty, pairs: seq<(Value, Value)>, keys: seq<Native>, values: seq<Native>,
      entries: map<Native, Native>, i: nat)
    requires (t.OrderedMap? || t.HashMap?) && Universe(t)
    requires ReadsEntries(t, pairs, entries, keys, values) && i < |pairs|
    ensures Get(m, t.key, pairs[i].0) == Some(keys[i]) && Get(m, t.value, pairs[i].1) == Some(values[i])
    decreases t, 0, 0
  {
    GetReads(m, t.key, pairs[i].0, keys[i]);
    GetReads(m, t.value, pairs[i].1, values[i]);
  }

  lemma {:induction false} ReadEntriesAreGot(m: Machine, t: Ty, pairs: seq<(Value, Value)>, y: Native)
    requires (t.OrderedMap? || t.HashMap?) && Universe(t) && ReadsMap(t, pairs, y)
    ensures GetEntries(m, t, pairs) == Some(y)
    decreases t, 0, 1
  {
    var keys, values :| ReadsEntries(t, pairs, y.entries, keys, values);
    var ks := seq(|pairs|, i requires 0 <= i < |pairs| => Get(m, t.key, pairs[i].0));
    var vs := seq(|pairs|, i requires 0 <= i < |pairs| => Get(m, t.value, pairs[i].1));
    forall i | 0 <= i < |pairs| ensures ks[i] == Some(keys[i]) && vs[i] == Some(values[i]) {
      EntryIsGot(m, t, pairs, keys, values, y.entries, i);
    }
    FirstIsInserted(ks, vs, keys, values, y.entries);
  }

  // ---- together ----

  lemma StoredIntIsRead(a: Arithmetic, n: int, k: int)
    requires !a.Floating? && InRange(a, n) && StoredInt(n, k)
    ensures WrapsTo(a, k, n)
  {
    assert k == ToInt64(n) by { StoredExactly(a, n); }
    IntRoundTrip(a, n);
    WrapsExactly(a, k, n);
  }

  lemma StoredDoubleIsRead(a: Arithmetic, x: Native, r: real)
    requires IsNumber(a, x) && StoredDouble(x, r) && Exact(x)
    ensures ReadsDouble(a, r, x)
  {
    ThroughDouble(a, x);
    ReadsDoubleExactly(a, r, x);
  }

  lemma VecIsRead(x: Native, f: Value)
    requires HasType(FLEX_VEC, x) && Represents(FLEX_VEC, x, f)
    ensures Reads(FLEX_VEC, f, x)
  {
    assert forall i :: 0 <= i < |x.items| ==> HasType(FLEX_FLOAT, x.items[i]);
  }

  lemma DictIsRead(x: Native, f: Value)
    requires HasType(FLEX_DICT, x) && Represents(FLEX_DICT, x, f)
    ensures Reads(FLEX_DICT, f, x)
  {
    assert forall i :: 0 <= i < |x.items| ==> HasType(FLEX_PAIR, x.items[i]);
  }

  lemma ListIsRead(x: Native, f: Value)
    requires HasType(FLEX_LIST, x) && Represents(FLEX_LIST, x, f)
    ensures Reads(FLEX_LIST, f, x)
  {
    assert forall i :: 0 <= i < |x.items| ==> HasType(Flexible, x.items[i]);
  }

  lemma PlainIsRead(t: Ty, x: Native, f: Value)
    requires (t == Text || t == Time) && HasType(t, x) && Represents(t, x, f)
    ensures Reads(t, f, x)
  {
  }

  lemma MemberIsRead(t: Ty, x: Native, f: Value)
    requires Universe(t) && CaseOf(t) == C1a && HasType(t, x) && Represents(t, x, f)
    ensures Reads(t, f, x)
  {
    MemberKinds(t);
    if t == FLEX_VEC { VecIsRead(x, f); } else if t == FLEX_DICT { DictIsRead(x, f); } else { PlainIsRead(t, x, f); }
  }

  lemma ArrayIsRead(t: Ty, x: Native, f: Value)
    requires CaseOf(t) == C4 && HasType(t, x) && Represents(t, x, f) && ExactIn(t, x)
    ensures Reads(t, f, x)
  {
    forall i | 0 <= i < |x.items| ensures ReadsDouble(t.elem.a, f.numbers[i], x.items[i]) {
      assert HasType(t.elem, x.items[i]);
      StoredDoubleIsRead(t.elem.a, x.items[i], f.numbers[i]);
    }
  }

  lemma NumericTupleIsRead(t: Ty, x: Native, f: Value)
    requires CaseOf(t) == C11 && HasType(t, x) && Represents(t, x, f) && ExactIn(t, x)
    ensures Reads(t, f, x)
  {
    forall i | 0 <= i < |x.items| ensures ReadsDouble(t.parts[i].a, f.numbers[i], x.items[i]) {
      assert HasType(t.parts[i], x.items[i]);
      StoredDoubleIsRead(t.parts[i].a, x.items[i], f.numbers[i]);
    }
  }

  lemma NumericPairIsRead(t: Ty, x: Native, f: Value)
    requires CaseOf(t) == C9 && HasType(t, x) && Represents(t, x, f) && ExactIn(t, x)
    ensures Reads(t, f, x)
  {
    StoredDoubleIsRead(t.first.a, x.first, f.numbers[0]);
    StoredDoubleIsRead(t.second.a, x.second, f.numbers[1]);
  }

  /** Whatever represents an exact value is read as that value, whichever order its maps are listed in. */
  lemma {:induction false} RepresentedIsRead(t: Ty, x: Native, f: Value)
    requires Universe(t) && HasType(t, x) && Represents(t, x, f) && ExactIn(t, x)
    ensures Reads(t, f, x)
    decreases t, 1
  {
    match CaseOf(t)
    case C1a => MemberIsRead(t, x, f);
    case C1b => ListIsRead(x, f);
    case C2 =>
    case C3 => if !t.a.Floating? { StoredIntIsRead(t.a, x.n, f.n); }
    case C4 => ArrayIsRead(t, x, f);
    case C5 => VectorIsRead(t, x, f);
    case C6 =>
      var keys :| Listed(t, x, f.pairs, keys);
      ListedIsRead(t, x, f.pairs, keys);
    case C7 =>
      var keys :| Listed(t, x, f.pairs, keys);
      ListedIsRead(t, x, f.pairs, keys);
    case C8 => PairIsRead(t, x, f);
    case C9 => NumericPairIsRead(t, x, f);
    case C10 => TupleIsRead(t, x, f);
    case C11 => NumericTupleIsRead(t, x, f);
    case C12 =>
  }

  lemma {:induction false} PairIsRead(t: Ty, x: Native, f: Value)
    requires CaseOf(t) == C8 && Universe(t) && HasType(t, x) && Represents(t, x, f) && ExactIn(t, x)
    ensures Reads(t, f, x)
    decreases t, 0
  {
    RepresentedIsRead(t.first, x.first, f.items[0]);
    RepresentedIsRead(t.second, x.second, f.items[1]);
  }

  lemma {:induction false} VectorIsRead(t: Ty, x: Native, f: Value)
    requires CaseOf(t) == C5 && Universe(t) && HasType(t, x) && Represents(t, x, f) && ExactIn(t, x)
    ensures Reads(t, f, x)
    decreases t, 0
  {
    forall i | 0 <= i < |x.items| ensures Reads(t.elem, f.items[i], x.items[i]) {
      RepresentedIsRead(t.elem, x.items[i], f.items[i]);
    }
  }

  lemma {:induction false} TupleIsRead(t: Ty, x: Native, f: Value)
    requires CaseOf(t) == C10 && Universe(t) && HasType(t, x) && Represents(t, x, f) && ExactIn(t, x)
    ensures Reads(t, f, x)
    decreases t, 0
  {
    forall i | 0 <= i < |x.items| ensures Reads(t.parts[i], f.items[i], x.items[i]) {
      RepresentedIsRead(t.parts[i], x.items[i], f.items[i]);
    }
  }

  lemma WalkWins(entries: map<Native, Native>, keys: seq<Native>, values: seq<Native>)
    requires Walks(keys, entries) && |values| == |keys|
    requires forall i :: 0 <= i < |keys| ==> values[i] == entries[keys[i]]
    ensures FirstWins(keys, values, entries)
  {
    forall k ensures k in entries <==> Among(keys, |keys|, k) { }
  }

  lemma {:induction false} EntryIsRead(t: Ty, x: Native, pairs: seq<(Value, Value)>, keys: seq<Native>, i: nat)
    requires (t.OrderedMap? || t.HashMap?) && Universe(t) && HasType(t, x) && ExactIn(t, x)
    requires Listed(t, x, pairs, keys) && i < |keys|
    ensures Reads(t.key, pairs[i].0, keys[i]) && Reads(t.value, pairs[i].1, x.entries[keys[i]])
    decreases t, 0, 0
  {
    RepresentedIsRead(t.key, keys[i], pairs[i].0);
    RepresentedIsRead(t.value, x.entries[keys[i]], pairs[i].1);
  }

  lemma {:induction false} ListedIsRead(t: Ty, x: Native, pairs: seq<(Value, Value)>, keys: seq<Native>)
    requires (t.OrderedMap? || t.HashMap?) && Universe(t) && HasType(t, x) && ExactIn(t, x)
    requires Listed(t, x, pairs, keys)
    ensures ReadsMap(t, pairs, x)
    decreases t, 0, 1
  {
    var values := seq(|keys|, i requires 0 <= i < |keys| => x.entries[keys[i]]);
    forall i | 0 <= i < |keys| ensures Reads(t.key, pairs[i].0, keys[i]) && Reads(t.value, pairs[i].1, values[i]) {
      EntryIsRead(t, x, pairs, keys, i);
    }
    WalkWins(x.entries, keys, values);
    assert ReadsEntries(t, pairs, x.entries, keys, values);
  }
}
