/**
  Conversion between C++ types and flexible values (src/flexible_type/flexible_type_converter.hpp): which template
  case a type matches, and what the `set` and `get` of each case do.
 */
module FlexConverter {
  import opened Prelude
  import opened Doubles

  datatype Bits = B8 | B16 | B32 | B64

  datatype Arithmetic = Boolean | Signed(bits: Bits) | Unsigned(bits: Bits) | Floating

  /** C++ types.  The flexible_type's own vector, list and dictionary are types like any other: see `IsMember`. */
  datatype Ty =
    | Flexible
    | Text
    | Time
    | Number(a: Arithmetic)
    | Enum
    | Vector(elem: Ty)
    | OrderedMap(key: Ty, value: Ty)
    | HashMap(key: Ty, value: Ty)
    | PairOf(first: Ty, second: Ty)
    | Tuple(parts: seq<Ty>)
    | Unsupported

  const FLEX_INT := Number(Signed(B64))
  const FLEX_FLOAT := Number(Floating)
  const FLEX_VEC := Vector(FLEX_FLOAT)
  const FLEX_LIST := Vector(Flexible)
  const FLEX_DICT := Vector(PairOf(Flexible, Flexible))

  // ---- which case a type matches ----

  datatype Case = C1a | C1b | C2 | C3 | C4 | C5 | C6 | C7 | C8 | C9 | C10 | C11 | C12

  predicate IsMember(t: Ty) { t in {FLEX_INT, FLEX_FLOAT, Text, Time, FLEX_VEC, FLEX_LIST, FLEX_DICT} }

  predicate AllNumbers(ts: seq<Ty>) { forall i :: 0 <= i < |ts| ==> ts[i].Number? }

  /** The guards, as the specializations state them. */
  predicate Guard(t: Ty, c: Case)
    decreases t, 0
  {
    match c
    case C1a => IsMember(t) && !t.Number? && t != FLEX_LIST
    case C1b => t == FLEX_LIST
    case C2 => t == Flexible
    case C3 => t.Number?
    case C4 => t.Vector? && t.elem.Number? && !IsMember(t)
    case C5 => t.Vector? && Convertible(t.elem) && !IsMember(t) && !t.elem.Number?
    case C6 => t.OrderedMap? && Convertible(t.key) && Convertible(t.value)
    case C7 => t.HashMap? && Convertible(t.key) && Convertible(t.value)
    case C8 => t.PairOf? && Convertible(t.first) && Convertible(t.second) && !(t.first.Number? && t.second.Number?)
    case C9 => t.PairOf? && t.first.Number? && t.second.Number?
    case C10 => t.Tuple? && (forall i :: 0 <= i < |t.parts| ==> Convertible(t.parts[i])) && !AllNumbers(t.parts)
    case C11 => t.Tuple? && AllNumbers(t.parts)
    case C12 => t.Enum?
  }

  predicate Convertible(t: Ty)
    decreases t, 1
  {
    exists c :: Guard(t, c)
  }

  /** The documented universe of types. */
  predicate Universe(t: Ty)
    decreases t
  {
    match t
    case Unsupported => false
    case Vector(e) => Universe(e)
    case OrderedMap(k, v) => Universe(k) && Universe(v)
    case HashMap(k, v) => Universe(k) && Universe(v)
    case PairOf(a, b) => Universe(a) && Universe(b)
    case Tuple(parts) => forall i :: 0 <= i < |parts| ==> Universe(parts[i])
    case _ => true
  }

  /** The case a type of the universe goes to. */
  function CaseOf(t: Ty): Case {
    match t
    case Flexible => C2
    case Number(_) => C3
    case Enum => C12
    case Vector(e) => if t == FLEX_LIST then C1b else if IsMember(t) then C1a else if e.Number? then C4 else C5
    case OrderedMap(_, _) => C6
    case HashMap(_, _) => C7
    case PairOf(a, b) => if a.Number? && b.Number? then C9 else C8
    case Tuple(parts) => if AllNumbers(parts) then C11 else C10
    case _ => C1a
  }

  predicate Settled(t: Ty) { Convertible(t) <==> Universe(t) }

  /** The components of a type are convertible exactly when they are in the universe. */
  predicate PartsSettled(t: Ty) {
    match t
    case Vector(e) => Settled(e)
    case OrderedMap(k, v) => Settled(k) && Settled(v)
    case HashMap(k, v) => Settled(k) && Settled(v)
    case PairOf(a, b) => Settled(a) && Settled(b)
    case Tuple(parts) => forall i :: 0 <= i < |parts| ==> Settled(parts[i])
    case _ => true
  }

  lemma OneGuard(t: Ty, c: Case)
    requires PartsSettled(t)
    ensures Guard(t, c) <==> Universe(t) && c == CaseOf(t)
  {
    if t.Tuple? { OneTupleGuard(t, c); }
  }

  lemma OneTupleGuard(t: Ty, c: Case)
    requires t.Tuple? && PartsSettled(t)
    ensures Guard(t, c) <==> Universe(t) && c == CaseOf(t)
  {
    assert forall i :: 0 <= i < |t.parts| ==> Settled(t.parts[i]);
    assert AllNumbers(t.parts) ==> forall i :: 0 <= i < |t.parts| ==> Universe(t.parts[i]);
  }

  /** Every type of the universe matches exactly one case, and no other type matches any. */
  lemma {:induction false} ExactlyOneCase(t: Ty)
    ensures Convertible(t) <==> Universe(t)
    ensures forall c :: Guard(t, c) <==> Universe(t) && c == CaseOf(t)
    decreases t
  {
    assert PartsSettled(t) by {
      match t
      case Vector(e) => ExactlyOneCase(e);
      case OrderedMap(k, v) =>
        ExactlyOneCase(k);
        ExactlyOneCase(v);
      case HashMap(k, v) =>
        ExactlyOneCase(k);
        ExactlyOneCase(v);
      case PairOf(a, b) =>
        ExactlyOneCase(a);
        ExactlyOneCase(b);
      case Tuple(parts) =>
        forall i | 0 <= i < |parts| ensures Settled(parts[i]) { ExactlyOneCase(parts[i]); }
      case _ =>
    }
    forall c ensures Guard(t, c) <==> Universe(t) && c == CaseOf(t) { OneGuard(t, c); }
    if Universe(t) { assert Guard(t, CaseOf(t)); }
  }

  // ---- values ----

  /** Flexible values; floating point as reals. */
  datatype Value =
    | Undefined
    | Int(n: int)
    | Float(r: real)
    | Str(s: string)
    | DateTime(stamp: int, zone: int)
    | Numbers(numbers: seq<real>)
    | List(items: seq<Value>)
    | Dict(pairs: seq<(Value, Value)>)

  /** C++ values: a vector or tuple is a sequence, a map of either kind a map. */
  datatype Native =
    | NFlex(f: Value)
    | NText(s: string)
    | NTime(stamp: int, zone: int)
    | NInt(n: int)
    | NReal(r: real)
    | NSeq(items: seq<Native>)
    | NPair(first: Native, second: Native)
    | NMap(entries: map<Native, Native>)

  /** What is left to the machine: the order in which a map is walked. */
  datatype Machine = Machine(order: map<Native, Native> -> seq<Native>)

  predicate Distinct<T(==)>(xs: seq<T>) { forall i, j :: 0 <= i < j < |xs| ==> xs[i] != xs[j] }

  /** A walk meets every key once. */
  predicate Walks(keys: seq<Native>, entries: map<Native, Native>) {
    Distinct(keys) && (forall i :: 0 <= i < |keys| ==> keys[i] in entries) && forall k :: k in entries ==> k in keys
  }

  ghost predicate WalksMaps(m: Machine) { forall entries :: Walks(m.order(entries), entries) }

  function Span(b: Bits): nat {
    match b
    case B8 => 0x100
    case B16 => 0x1_0000
    case B32 => 0x1_0000_0000
    case B64 => 0x1_0000_0000_0000_0000
  }

  predicate InRange(a: Arithmetic, n: int) {
    match a
    case Boolean => 0 <= n <= 1
    case Signed(b) => 0 <= 2 * n + Span(b) && 2 * n < Span(b)
    case Unsigned(b) => 0 <= n < Span(b)
    case Floating => false
  }

  predicate IsNumber(a: Arithmetic, x: Native) { if a.Floating? then x.NReal? else x.NInt? && InRange(a, x.n) }

  predicate HasType(t: Ty, x: Native)
    decreases t
  {
    match t
    case Flexible => x.NFlex?
    case Text => x.NText?
    case Time => x.NTime?
    case Number(a) => IsNumber(a, x)
    case Enum => x.NInt? && InRange(Signed(B64), x.n)
    case Vector(e) => x.NSeq? && forall i :: 0 <= i < |x.items| ==> HasType(e, x.items[i])
    case OrderedMap(k, v) => x.NMap? && forall y :: y in x.entries ==> HasType(k, y) && HasType(v, x.entries[y])
    case HashMap(k, v) => x.NMap? && forall y :: y in x.entries ==> HasType(k, y) && HasType(v, x.entries[y])
    case PairOf(a, b) => x.NPair? && HasType(a, x.first) && HasType(b, x.second)
    case Tuple(parts) =>
      x.NSeq? && |x.items| == |parts| && forall i :: 0 <= i < |parts| ==> HasType(parts[i], x.items[i])
    case Unsupported => false
  }

  // ---- numbers ----

  /** Conversion to flex_int: 64-bit two's complement. */
  function ToInt64(n: int): int { if n >= 0x8000_0000_0000_0000 then n - 0x1_0000_0000_0000_0000 else n }

  /** Conversion from flex_int. */
  function FromInt(a: Arithmetic, n: int): int {
    match a
    case Boolean => if n == 0 then 0 else 1
    case Signed(b) => (n + Span(b) / 2) % Span(b) - Span(b) / 2
    case Unsigned(b) => n % Span(b)
    case Floating => n
  }

  /** Rounding toward zero. */
  function Truncated(r: real): int { if r >= 0.0 then r.Floor else -((-r).Floor) }

  function SetNumber(x: Native): Value
    requires x.NInt? || x.NReal?
  {
    if x.NReal? then Float(x.r) else Int(ToInt64(x.n))
  }

  function GetNumber(a: Arithmetic, f: Value): Option<Native> {
    match f
    case Int(n) => Some(if a.Floating? then NReal(Rounded(n) as real) else NInt(FromInt(a, n)))
    case Float(r) => Some(FromDouble(a, r))
    case _ => None
  }

  function ToDouble(x: Native): real {
    if x.NReal? then x.r else if x.NInt? then Rounded(x.n) as real else 0.0
  }

  /** Outside the range of the type C++ leaves the result open; here it wraps, as it does for integers. */
  function FromDouble(a: Arithmetic, r: real): Native {
    match a
    case Floating => NReal(r)
    case Boolean => NInt(if r == 0.0 then 0 else 1)
    case _ => NInt(FromInt(a, Truncated(r)))
  }

  /** The number is a double: an integer is a multiple of the distance between doubles of its size. */
  predicate Exact(x: Native) { x.NInt? ==> Fits(x.n) }

  lemma IntRoundTrip(a: Arithmetic, n: int)
    requires InRange(a, n)
    ensures FromInt(a, ToInt64(n)) == n && FromInt(a, n) == n
  {
  }

  lemma NumberRoundTrip(a: Arithmetic, x: Native)
    requires IsNumber(a, x)
    ensures GetNumber(a, SetNumber(x)) == Some(x)
  {
    if x.NInt? { IntRoundTrip(a, x.n); }
  }

  /** Near an integer in range, wrapping to 64 bits gives it back only from itself. */
  lemma NearbyWraps(a: Arithmetic, n: int, r: int)
    requires a == Signed(B64) || a == Unsigned(B64)
    requires InRange(a, n) && n - 1024 <= r <= n + 1024
    ensures FromInt(a, r) == n <==> r == n
    ensures InRange(a, FromInt(a, r)) && (InRange(a, r) ==> FromInt(a, r) == r)
  {
    var whole := 0x1_0000_0000_0000_0000;
    var low := if a.Signed? then 0x8000_0000_0000_0000 else 0;
    assert FromInt(a, r) == (r + low) % whole - low;
    assert (r + low) % whole ==
      if r + low < 0 then r + low + whole else if r + low < whole then r + low else r + low - whole;
  }

  lemma WideNumber(a: Arithmetic, n: int)
    requires (a == Signed(B64) || a == Unsigned(B64)) && InRange(a, n)
    ensures var k := FromInt(a, Rounded(n)); InRange(a, k) && Fits(k) && (k == n <==> Fits(n))
  {
    var k := Rounded(n);
    RoundedExactly(n);
    RoundedNear(n);
    NearbyWraps(a, n, k);
    if !InRange(a, k) {
      OverTheTop(a, n);
      SmallFits(0);
    }
  }

  /** Only rounding up to just past the top leaves the range. */
  lemma OverTheTop(a: Arithmetic, n: int)
    requires (a == Signed(B64) || a == Unsigned(B64)) && InRange(a, n) && !InRange(a, Rounded(n))
    ensures a.Signed? ==> FromInt(a, Rounded(n)) == -Rounded(n)
    ensures a.Unsigned? ==> FromInt(a, Rounded(n)) == 0
  {
    RoundedNear(n);
    assert Rounded(n) == if a.Signed? then 0x8000_0000_0000_0000 else 0x1_0000_0000_0000_0000;
  }

  lemma NarrowNumber(a: Arithmetic, n: int)
    requires InRange(a, n) && a != Signed(B64) && a != Unsigned(B64)
    ensures Rounded(n) == n && Fits(n) && FromInt(a, n) == n
  {
    SmallFits(n);
    RoundedExactly(n);
    IntRoundTrip(a, n);
  }

  /** Through a double and back: the result is of the type and a double, and it is the number exactly if that is. */
  lemma ThroughDouble(a: Arithmetic, x: Native)
    requires IsNumber(a, x)
    ensures var y := FromDouble(a, ToDouble(x)); IsNumber(a, y) && Exact(y) && (y == x <==> Exact(x))
  {
    if x.NInt? {
      assert Truncated(Rounded(x.n) as real) == Rounded(x.n);
      if a == Signed(B64) || a == Unsigned(B64) { WideNumber(a, x.n); } else { NarrowNumber(a, x.n); }
    }
  }

  // ---- set ----

  function AsDoubles(xs: seq<Native>): seq<real> {
    seq(|xs|, i requires 0 <= i < |xs| => ToDouble(xs[i]))
  }

  function SetMember(t: Ty, x: Native): Value
    requires HasType(t, x) && CaseOf(t) == C1a && Universe(t)
  {
    match t
    case Text => Str(x.s)
    case Time => DateTime(x.stamp, x.zone)
    case Vector(e) =>
      if e == FLEX_FLOAT then Numbers(seq(|x.items|, i requires 0 <= i < |x.items| => x.items[i].r))
      else Dict(seq(|x.items|, i requires 0 <= i < |x.items| => (x.items[i].first.f, x.items[i].second.f)))
  }

  function Set(m: Machine, t: Ty, x: Native): Value
    requires HasType(t, x) && Universe(t)
    decreases t
  {
    match CaseOf(t)
    case C1a => SetMember(t, x)
    case C1b => List(seq(|x.items|, i requires 0 <= i < |x.items| => x.items[i].f))
    case C2 => x.f
    case C3 => SetNumber(x)
    case C4 => Numbers(AsDoubles(x.items))
    case C5 => List(seq(|x.items|, i requires 0 <= i < |x.items| => Set(m, t.elem, x.items[i])))
    case C6 => Dict(SetEntries(m, t, x))
    case C7 => Dict(SetEntries(m, t, x))
    case C8 => List([Set(m, t.first, x.first), Set(m, t.second, x.second)])
    case C9 => Numbers([ToDouble(x.first), ToDouble(x.second)])
    case C10 => List(seq(|x.items|, i requires 0 <= i < |x.items| => Set(m, t.parts[i], x.items[i])))
    case C11 => Numbers(AsDoubles(x.items))
    case C12 => Int(x.n)
  }

  /** A map's entries in the order they are met. */
  function SetEntries(m: Machine, t: Ty, x: Native): seq<(Value, Value)>
    requires (t.OrderedMap? || t.HashMap?) && HasType(t, x) && Universe(t)
    decreases t, 0
  {
    var keys := m.order(x.entries);
    seq(|keys|, i requires 0 <= i < |keys| =>
      if keys[i] in x.entries then (Set(m, t.key, keys[i]), Set(m, t.value, x.entries[keys[i]]))
      else (Undefined, Undefined))
  }

  // ---- get ----

  /** All of them, or an exception. */
  function Gather(xs: seq<Option<Native>>): Option<Native> {
    if forall i :: 0 <= i < |xs| ==> xs[i].Some? then Some(NSeq(seq(|xs|, i requires 0 <= i < |xs| => xs[i].value)))
    else None
  }

  function GetMember(t: Ty, f: Value): Option<Native> {
    if t == Text && f.Str? then Some(NText(f.s))
    else if t == Time && f.DateTime? then Some(NTime(f.stamp, f.zone))
    else if t == FLEX_VEC && f.Numbers? then
      Some(NSeq(seq(|f.numbers|, i requires 0 <= i < |f.numbers| => NReal(f.numbers[i]))))
    else if t == FLEX_DICT && f.Dict? then
      Some(NSeq(seq(|f.pairs|, i requires 0 <= i < |f.pairs| => NPair(NFlex(f.pairs[i].0), NFlex(f.pairs[i].1)))))
    else None
  }

  function Get(m: Machine, t: Ty, f: Value): Option<Native>
    decreases t, 1, 0
  {
    match CaseOf(t)
    case C1a => GetMember(t, f)
    case C1b =>
      if f.List? then Some(NSeq(seq(|f.items|, i requires 0 <= i < |f.items| => NFlex(f.items[i]))))
      else if f.Numbers? then
        Some(NSeq(seq(|f.numbers|, i requires 0 <= i < |f.numbers| => NFlex(Float(f.numbers[i])))))
      else None
    case C2 => Some(NFlex(f))
    case C3 => GetNumber(t.a, f)
    case C4 =>
      if f.Numbers? then
        Some(NSeq(seq(|f.numbers|, i requires 0 <= i < |f.numbers| => FromDouble(t.elem.a, f.numbers[i]))))
      else None
    case C5 =>
      if f.List? then Gather(seq(|f.items|, i requires 0 <= i < |f.items| => Get(m, t.elem, f.items[i]))) else None
    case C6 => if f.Dict? then GetEntries(m, t, f.pairs) else None
    case C7 => if f.Dict? then GetEntries(m, t, f.pairs) else None
    case C8 =>
      if f.List? && |f.items| == 2 then
        var a, b := Get(m, t.first, f.items[0]), Get(m, t.second, f.items[1]);
        if a.Some? && b.Some? then Some(NPair(a.value, b.value)) else None
      else None
    case C9 =>
      if f.Numbers? && |f.numbers| == 2 then
        Some(NPair(FromDouble(t.first.a, f.numbers[0]), FromDouble(t.second.a, f.numbers[1])))
      else None
    case C10 =>
      if f.List? && |f.items| == |t.parts| then
        Gather(seq(|f.items|, i requires 0 <= i < |f.items| => Get(m, t.parts[i], f.items[i])))
      else None
    case C11 =>
      if f.Numbers? && |f.numbers| == |t.parts| then
        Some(NSeq(seq(|f.numbers|, i requires 0 <= i < |f.numbers| => FromDouble(t.parts[i].a, f.numbers[i]))))
      else None
    case C12 => if f.Int? then Some(NInt(f.n)) else None
  }

  function GetEntries(m: Machine, t: Ty, pairs: seq<(Value, Value)>): Option<Native>
    requires t.OrderedMap? || t.HashMap?
    decreases t, 0, 0
  {
    InsertAll(seq(|pairs|, i requires 0 <= i < |pairs| => Get(m, t.key, pairs[i].0)),
              seq(|pairs|, i requires 0 <= i < |pairs| => Get(m, t.value, pairs[i].1)), |pairs|)
  }

  /** The first `n` keys with their values, inserted one after the other; a key already present keeps its value. */
  function InsertAll(ks: seq<Option<Native>>, vs: seq<Option<Native>>, n: nat): (r: Option<Native>)
    requires |ks| == |vs| && n <= |ks|
    ensures r.Some? ==> r.value.NMap?
  {
    if n == 0 then Some(NMap(map[]))
    else
      var before := InsertAll(ks, vs, n - 1);
      if before.None? || ks[n - 1].None? || vs[n - 1].None? then None
      else if ks[n - 1].value in before.value.entries then before
      else Some(NMap(before.value.entries[ks[n - 1].value := vs[n - 1].value]))
  }

  // ---- the round trip ----

  /** Numbers that pass through an array of doubles are doubles. */
  predicate ExactIn(t: Ty, x: Native)
    requires HasType(t, x)
    decreases t
  {
    match CaseOf(t)
    case C4 => forall i :: 0 <= i < |x.items| ==> Exact(x.items[i])
    case C5 => forall i :: 0 <= i < |x.items| ==> ExactIn(t.elem, x.items[i])
    case C6 => forall k :: k in x.entries ==> ExactIn(t.key, k) && ExactIn(t.value, x.entries[k])
    case C7 => forall k :: k in x.entries ==> ExactIn(t.key, k) && ExactIn(t.value, x.entries[k])
    case C8 => ExactIn(t.first, x.first) && ExactIn(t.second, x.second)
    case C9 => Exact(x.first) && Exact(x.second)
    case C10 => forall i :: 0 <= i < |x.items| ==> ExactIn(t.parts[i], x.items[i])
    case C11 => forall i :: 0 <= i < |x.items| ==> Exact(x.items[i])
    case _ => true
  }

  /** What comes back for `x`: a value of the type, exact, and `x` itself if that is exact. */
  predicate Lands(t: Ty, x: Native, y: Option<Native>)
    requires HasType(t, x)
  {
    y.Some? && HasType(t, y.value) && ExactIn(t, y.value) && (ExactIn(t, x) ==> y.value == x)
  }

  lemma GatherAll(ys: seq<Option<Native>>, xs: seq<Native>)
    requires |ys| == |xs| && forall i :: 0 <= i < |xs| ==> ys[i] == Some(xs[i])
    ensures Gather(ys) == Some(NSeq(xs))
  {
    assert seq(|ys|, i requires 0 <= i < |ys| => ys[i].value) == xs;
  }

  lemma MemberRoundTrip(t: Ty, x: Native)
    requires HasType(t, x) && CaseOf(t) == C1a && Universe(t)
    ensures GetMember(t, SetMember(t, x)) == Some(x)
  {
    if t == FLEX_VEC {
      var f := SetMember(t, x);
      assert forall i :: 0 <= i < |x.items| ==> HasType(FLEX_FLOAT, x.items[i]) && NReal(f.numbers[i]) == x.items[i];
      assert seq(|f.numbers|, i requires 0 <= i < |f.numbers| => NReal(f.numbers[i])) == x.items;
    } else if t == FLEX_DICT {
      DictRoundTrip(x);
    }
  }

  lemma DictRoundTrip(x: Native)
    requires HasType(FLEX_DICT, x)
    ensures GetMember(FLEX_DICT, SetMember(FLEX_DICT, x)) == Some(x)
  {
    var f := SetMember(FLEX_DICT, x);
    forall i | 0 <= i < |x.items| ensures NPair(NFlex(f.pairs[i].0), NFlex(f.pairs[i].1)) == x.items[i] {
      assert HasType(PairOf(Flexible, Flexible), x.items[i]);
    }
    assert seq(|f.pairs|, i requires 0 <= i < |f.pairs| => NPair(NFlex(f.pairs[i].0), NFlex(f.pairs[i].1))) == x.items;
  }

  lemma ListRoundTrip(m: Machine, x: Native)
    requires HasType(FLEX_LIST, x)
    ensures Get(m, FLEX_LIST, Set(m, FLEX_LIST, x)) == Some(x)
  {
    var f := Set(m, FLEX_LIST, x);
    assert forall i :: 0 <= i < |x.items| ==> HasType(Flexible, x.items[i]) && NFlex(f.items[i]) == x.items[i];
    assert seq(|f.items|, i requires 0 <= i < |f.items| => NFlex(f.items[i])) == x.items;
  }

  lemma NumbersLand(m: Machine, t: Ty, x: Native)
    requires t.Vector? && CaseOf(t) == C4 && HasType(t, x) && Universe(t)
    ensures Lands(t, x, Get(m, t, Set(m, t, x)))
  {
    var f := Set(m, t, x);
    var back := seq(|f.numbers|, i requires 0 <= i < |f.numbers| => FromDouble(t.elem.a, f.numbers[i]));
    forall i | 0 <= i < |x.items|
      ensures HasType(t.elem, back[i]) && Exact(back[i]) && (back[i] == x.items[i] <==> Exact(x.items[i]))
    {
      assert HasType(t.elem, x.items[i]);
      ThroughDouble(t.elem.a, x.items[i]);
    }
    assert ExactIn(t, x) ==> back == x.items;
  }

  lemma NumericTupleLands(m: Machine, t: Ty, x: Native)
    requires t.Tuple? && CaseOf(t) == C11 && HasType(t, x) && Universe(t)
    ensures Lands(t, x, Get(m, t, Set(m, t, x)))
  {
    var f := Set(m, t, x);
    var back := seq(|f.numbers|, i requires 0 <= i < |f.numbers| => FromDouble(t.parts[i].a, f.numbers[i]));
    forall i | 0 <= i < |x.items|
      ensures HasType(t.parts[i], back[i]) && Exact(back[i]) && (back[i] == x.items[i] <==> Exact(x.items[i]))
    {
      assert HasType(t.parts[i], x.items[i]);
      ThroughDouble(t.parts[i].a, x.items[i]);
    }
    assert ExactIn(t, x) ==> back == x.items;
  }

  lemma NumericPairLands(m: Machine, t: Ty, x: Native)
    requires t.PairOf? && CaseOf(t) == C9 && HasType(t, x) && Universe(t)
    ensures Lands(t, x, Get(m, t, Set(m, t, x)))
  {
    assert HasType(t.first, x.first) && HasType(t.second, x.second);
    ThroughDouble(t.first.a, x.first);
    ThroughDouble(t.second.a, x.second);
  }

  /** Getting back what was set, for every type of the universe at any depth. */
  lemma {:induction false} GetOfSet(m: Machine, t: Ty, x: Native)
    requires Universe(t) && HasType(t, x) && WalksMaps(m)
    ensures Lands(t, x, Get(m, t, Set(m, t, x)))
    decreases t, 1, 0
  {
    match CaseOf(t)
    case C1a => MemberRoundTrip(t, x);
    case C1b => ListRoundTrip(m, x);
    case C3 => NumberRoundTrip(t.a, x);
    case C4 => NumbersLand(m, t, x);
    case C5 => VectorLands(m, t, x);
    case C6 => MapLands(m, t, x);
    case C7 => MapLands(m, t, x);
    case C8 => PairLands(m, t, x);
    case C9 => NumericPairLands(m, t, x);
    case C10 => TupleLands(m, t, x);
    case C11 => NumericTupleLands(m, t, x);
    case _ =>
  }

  lemma {:induction false} PairLands(m: Machine, t: Ty, x: Native)
    requires Universe(t) && HasType(t, x) && WalksMaps(m) && CaseOf(t) == C8
    ensures Lands(t, x, Get(m, t, Set(m, t, x)))
    decreases t, 0, 0
  {
    GetOfSet(m, t.first, x.first);
    GetOfSet(m, t.second, x.second);
  }

  lemma {:induction false} VectorLands(m: Machine, t: Ty, x: Native)
    requires Universe(t) && HasType(t, x) && WalksMaps(m) && CaseOf(t) == C5
    ensures Lands(t, x, Get(m, t, Set(m, t, x)))
    decreases t, 0, 0
  {
    var f := Set(m, t, x);
    var ys := seq(|f.items|, i requires 0 <= i < |f.items| => Get(m, t.elem, f.items[i]));
    forall i | 0 <= i < |x.items| ensures Lands(t.elem, x.items[i], ys[i]) { GetOfSet(m, t.elem, x.items[i]); }
    VectorGathered(t, x, ys);
  }

  lemma VectorGathered(t: Ty, x: Native, ys: seq<Option<Native>>)
    requires CaseOf(t) == C5 && HasType(t, x) && |ys| == |x.items|
    requires forall i {:trigger ys[i]} :: 0 <= i < |ys| ==> Lands(t.elem, x.items[i], ys[i])
    ensures Lands(t, x, Gather(ys))
  {
    var back := seq(|ys|, i requires 0 <= i < |ys| => ys[i].value);
    GatherAll(ys, back);
    assert ExactIn(t, x) ==> back == x.items;
  }

  lemma TupleGathered(t: Ty, x: Native, ys: seq<Option<Native>>)
    requires CaseOf(t) == C10 && HasType(t, x) && |ys| == |x.items|
    requires forall i {:trigger ys[i]} :: 0 <= i < |ys| ==> Lands(t.parts[i], x.items[i], ys[i])
    ensures Lands(t, x, Gather(ys))
  {
    var back := seq(|ys|, i requires 0 <= i < |ys| => ys[i].value);
    GatherAll(ys, back);
    assert ExactIn(t, x) ==> back == x.items;
  }

  lemma {:induction false} TupleLands(m: Machine, t: Ty, x: Native)
    requires Universe(t) && HasType(t, x) && WalksMaps(m) && CaseOf(t) == C10
    ensures Lands(t, x, Get(m, t, Set(m, t, x)))
    decreases t, 0, 0
  {
    var f := Set(m, t, x);
    var ys := seq(|f.items|, i requires 0 <= i < |f.items| => Get(m, t.parts[i], f.items[i]));
    forall i | 0 <= i < |x.items| ensures Lands(t.parts[i], x.items[i], ys[i]) {
      GetOfSet(m, t.parts[i], x.items[i]);
    }
    TupleGathered(t, x, ys);
  }

  /** The entries for the first `n` keys of a walk, put in one by one. */
  function Built(entries: map<Native, Native>, keys: seq<Native>, n: nat): map<Native, Native>
    requires n <= |keys| && forall i :: 0 <= i < |keys| ==> keys[i] in entries
  {
    if n == 0 then map[] else Built(entries, keys, n - 1)[keys[n - 1] := entries[keys[n - 1]]]
  }

  lemma {:induction false} BuiltIsPart(entries: map<Native, Native>, keys: seq<Native>, n: nat)
    requires n <= |keys| && Walks(keys, entries)
    ensures forall k :: k in Built(entries, keys, n) <==> k in keys[..n]
    ensures forall k :: k in Built(entries, keys, n) ==> k in entries && Built(entries, keys, n)[k] == entries[k]
  {
    if n > 0 {
      BuiltIsPart(entries, keys, n - 1);
      assert keys[..n] == keys[..n - 1] + [keys[n - 1]];
    }
  }

  lemma BuiltIsAll(entries: map<Native, Native>, keys: seq<Native>)
    requires Walks(keys, entries)
    ensures Built(entries, keys, |keys|) == entries
    ensures forall i {:trigger NewAt(entries, keys, i)} :: 0 <= i < |keys| ==> NewAt(entries, keys, i)
  {
    BuiltIsPart(entries, keys, |keys|);
    assert keys[..|keys|] == keys;
    forall i | 0 <= i < |keys| ensures NewAt(entries, keys, i) { BuiltIsPart(entries, keys, i); }
  }

  /** Key `i` is not among those before it. */
  predicate NewAt(entries: map<Native, Native>, keys: seq<Native>, i: nat)
    requires i < |keys| && forall i :: 0 <= i < |keys| ==> keys[i] in entries
  {
    keys[i] !in Built(entries, keys, i)
  }

  /** Inserting key after key of a walk builds up the map. */
  lemma {:induction false} Collect(
      entries: map<Native, Native>, keys: seq<Native>, ks: seq<Option<Native>>, vs: seq<Option<Native>>, n: nat)
    requires |ks| == |vs| == |keys| && n <= |keys| && forall i :: 0 <= i < |keys| ==> keys[i] in entries
    requires forall i {:trigger NewAt(entries, keys, i)} :: 0 <= i < |keys| ==> NewAt(entries, keys, i)
    requires forall i :: 0 <= i < |keys| ==> ks[i] == Some(keys[i]) && vs[i] == Some(entries[keys[i]])
    ensures InsertAll(ks, vs, n) == Some(NMap(Built(entries, keys, n)))
  {
    if n > 0 {
      Collect(entries, keys, ks, vs, n - 1);
      assert NewAt(entries, keys, n - 1);
    }
  }

  /** Keys and values that all came back, in the order of the walk. */
  lemma Assemble(
      entries: map<Native, Native>, keys: seq<Native>, ks: seq<Option<Native>>, vs: seq<Option<Native>>)
    requires Walks(keys, entries) && |ks| == |vs| == |keys|
    requires forall i :: 0 <= i < |keys| ==> ks[i] == Some(keys[i]) && vs[i] == Some(entries[keys[i]])
    ensures InsertAll(ks, vs, |keys|) == Some(NMap(entries))
  {
    BuiltIsAll(entries, keys);
    Collect(entries, keys, ks, vs, |keys|);
  }

  /** Entry `k` of a map that was put together is some key and value that went in. */
  ghost predicate Inserted(ks: seq<Option<Native>>, vs: seq<Option<Native>>, n: nat, k: Native, v: Native)
    requires n <= |ks| == |vs|
  {
    exists i :: 0 <= i < n && ks[i] == Some(k) && vs[i] == Some(v)
  }

  lemma {:induction false} InsertOrigin(ks: seq<Option<Native>>, vs: seq<Option<Native>>, n: nat, k: Native)
    requires n <= |ks| == |vs| && InsertAll(ks, vs, n).Some? && k in InsertAll(ks, vs, n).value.entries
    ensures Inserted(ks, vs, n, k, InsertAll(ks, vs, n).value.entries[k])
  {
    if k in InsertAll(ks, vs, n - 1).value.entries { InsertOrigin(ks, vs, n - 1, k); }
  }

  lemma {:induction false} InsertSucceeds(ks: seq<Option<Native>>, vs: seq<Option<Native>>, n: nat)
    requires n <= |ks| == |vs| && forall i :: 0 <= i < n ==> ks[i].Some? && vs[i].Some?
    ensures InsertAll(ks, vs, n).Some?
  {
    if n > 0 { InsertSucceeds(ks, vs, n - 1); }
  }

  /** Key and value `k` of the map come back as they should. */
  predicate EntryLands(t: Ty, x: Native, k: Native, key: Option<Native>, value: Option<Native>)
    requires (t.OrderedMap? || t.HashMap?) && HasType(t, x) && k in x.entries
  {
    Lands(t.key, k, key) && Lands(t.value, x.entries[k], value)
  }

  /** Key and value are of the map's types, and exact. */
  predicate EntryExact(t: Ty, k: Native, v: Native)
    requires t.OrderedMap? || t.HashMap?
  {
    HasType(t.key, k) && ExactIn(t.key, k) && HasType(t.value, v) && ExactIn(t.value, v)
  }

  lemma EntriesExact(t: Ty, y: Native)
    requires (t.OrderedMap? || t.HashMap?) && y.NMap?
    requires forall k :: k in y.entries ==> EntryExact(t, k, y.entries[k])
    ensures HasType(t, y) && ExactIn(t, y)
  {
  }

  /** Every key and value that went into a walk of `x` came back as it should. */
  predicate AllLand(t: Ty, x: Native, keys: seq<Native>, ks: seq<Option<Native>>, vs: seq<Option<Native>>)
    requires (t.OrderedMap? || t.HashMap?) && HasType(t, x) && Walks(keys, x.entries) && |ks| == |vs| == |keys|
  {
    forall i {:trigger ks[i]} {:trigger vs[i]} :: 0 <= i < |keys| ==> EntryLands(t, x, keys[i], ks[i], vs[i])
  }

  lemma InsertedExact(
      t: Ty, x: Native, keys: seq<Native>, ks: seq<Option<Native>>, vs: seq<Option<Native>>, k: Native, v: Native)
    requires (t.OrderedMap? || t.HashMap?) && HasType(t, x) && Walks(keys, x.entries) && |ks| == |vs| == |keys|
    requires AllLand(t, x, keys, ks, vs) && Inserted(ks, vs, |keys|, k, v)
    ensures EntryExact(t, k, v)
  {
    var i :| 0 <= i < |keys| && ks[i] == Some(k) && vs[i] == Some(v);
    assert EntryLands(t, x, keys[i], ks[i], vs[i]);
  }

  lemma ExactEntries(t: Ty, x: Native, keys: seq<Native>, ks: seq<Option<Native>>, vs: seq<Option<Native>>)
    requires (t.OrderedMap? || t.HashMap?) && HasType(t, x) && Walks(keys, x.entries) && |ks| == |vs| == |keys|
    requires AllLand(t, x, keys, ks, vs) && ExactIn(t, x)
    ensures InsertAll(ks, vs, |keys|) == Some(x)
  {
    forall i | 0 <= i < |keys| ensures ks[i] == Some(keys[i]) && vs[i] == Some(x.entries[keys[i]]) {
      assert EntryLands(t, x, keys[i], ks[i], vs[i]);
    }
    Assemble(x.entries, keys, ks, vs);
  }

  lemma InsertedLands(t: Ty, x: Native, keys: seq<Native>, ks: seq<Option<Native>>, vs: seq<Option<Native>>)
    requires (t.OrderedMap? || t.HashMap?) && HasType(t, x) && Walks(keys, x.entries) && |ks| == |vs| == |keys|
    requires AllLand(t, x, keys, ks, vs)
    ensures Lands(t, x, InsertAll(ks, vs, |keys|))
  {
    InsertSucceeds(ks, vs, |keys|);
    var y := InsertAll(ks, vs, |keys|).value;
    forall k | k in y.entries ensures EntryExact(t, k, y.entries[k]) {
      InsertOrigin(ks, vs, |keys|, k);
      InsertedExact(t, x, keys, ks, vs, k, y.entries[k]);
    }
    EntriesExact(t, y);
    if ExactIn(t, x) { ExactEntries(t, x, keys, ks, vs); }
  }

  lemma GetOfDict(m: Machine, t: Ty, pairs: seq<(Value, Value)>)
    requires t.OrderedMap? || t.HashMap?
    ensures Get(m, t, Dict(pairs)) == GetEntries(m, t, pairs)
  {
  }

  lemma {:induction false} EntryGetOfSet(m: Machine, t: Ty, x: Native, k: Native)
    requires (t.OrderedMap? || t.HashMap?) && Universe(t) && HasType(t, x) && WalksMaps(m) && k in x.entries
    ensures EntryLands(t, x, k, Get(m, t.key, Set(m, t.key, k)), Get(m, t.value, Set(m, t.value, x.entries[k])))
    decreases t, 0, 0
  {
    GetOfSet(m, t.key, k);
    GetOfSet(m, t.value, x.entries[k]);
  }

  lemma EntriesAre(
      m: Machine, t: Ty, pairs: seq<(Value, Value)>, ks: seq<Option<Native>>, vs: seq<Option<Native>>)
    requires (t.OrderedMap? || t.HashMap?) && |ks| == |vs| == |pairs|
    requires forall i :: 0 <= i < |pairs| ==> ks[i] == Get(m, t.key, pairs[i].0) && vs[i] == Get(m, t.value, pairs[i].1)
    ensures GetEntries(m, t, pairs) == InsertAll(ks, vs, |pairs|)
  {
    assert ks == seq(|pairs|, i requires 0 <= i < |pairs| => Get(m, t.key, pairs[i].0));
    assert vs == seq(|pairs|, i requires 0 <= i < |pairs| => Get(m, t.value, pairs[i].1));
  }

  lemma SetOfMap(m: Machine, t: Ty, x: Native)
    requires (t.OrderedMap? || t.HashMap?) && Universe(t) && HasType(t, x)
    ensures Set(m, t, x) == Dict(SetEntries(m, t, x))
  {
  }

  lemma {:induction false} MapLands(m: Machine, t: Ty, x: Native)
    requires (t.OrderedMap? || t.HashMap?) && Universe(t) && HasType(t, x) && WalksMaps(m)
    ensures Lands(t, x, Get(m, t, Set(m, t, x)))
    decreases t, 0, 1
  {
    var keys, pairs := m.order(x.entries), SetEntries(m, t, x);
    assert Walks(keys, x.entries);
    var ks := seq(|pairs|, i requires 0 <= i < |pairs| => Get(m, t.key, pairs[i].0));
    var vs := seq(|pairs|, i requires 0 <= i < |pairs| => Get(m, t.value, pairs[i].1));
    forall i | 0 <= i < |keys| ensures EntryLands(t, x, keys[i], ks[i], vs[i]) { EntryGetOfSet(m, t, x, keys[i]); }
    InsertedLands(t, x, keys, ks, vs);
    EntriesAre(m, t, pairs, ks, vs);
    GetOfDict(m, t, pairs);
    SetOfMap(m, t, x);
  }

  /** A value comes back exactly when every integer in it that passes through an array of doubles is one: in vectors,
      pairs and tuples of numbers, however deep, map keys included. */
  lemma RoundTripExactly(m: Machine, t: Ty, x: Native)
    requires Universe(t) && HasType(t, x) && WalksMaps(m)
    ensures Get(m, t, Set(m, t, x)) == Some(x) <==> ExactIn(t, x)
  {
    GetOfSet(m, t, x);
  }

  /** What is lost is lost at once: converting back never throws, gives a value of the type, and converting that one
      changes nothing any more. */
  lemma SecondTripIsExact(m: Machine, t: Ty, x: Native)
    requires Universe(t) && HasType(t, x) && WalksMaps(m)
    ensures var y := Get(m, t, Set(m, t, x));
      y.Some? && HasType(t, y.value) && Get(m, t, Set(m, t, y.value)) == y
  {
    GetOfSet(m, t, x);
    GetOfSet(m, t, Get(m, t, Set(m, t, x)).value);
  }

  /** A vector of integers comes back exactly when each is a multiple of the distance between doubles of its size. */
  lemma IntegerArraysExactly(m: Machine, a: Arithmetic, x: Native)
    requires !a.Floating? && HasType(Vector(Number(a)), x) && WalksMaps(m)
    ensures Get(m, Vector(Number(a)), Set(m, Vector(Number(a)), x)) == Some(x) <==>
      forall i :: 0 <= i < |x.items| ==> x.items[i].NInt? && Size(x.items[i].n) % Gap(Size(x.items[i].n)) == 0
  {
    RoundTripExactly(m, Vector(Number(a)), x);
    ExactVector(a, x);
  }

  lemma ExactVector(a: Arithmetic, x: Native)
    requires !a.Floating? && HasType(Vector(Number(a)), x)
    ensures ExactIn(Vector(Number(a)), x) <==>
      forall i :: 0 <= i < |x.items| ==> x.items[i].NInt? && Size(x.items[i].n) % Gap(Size(x.items[i].n)) == 0
  {
    assert forall i :: 0 <= i < |x.items| ==> HasType(Number(a), x.items[i]);
    assert CaseOf(Vector(Number(a))) == C4;
  }

  /** The smallest positive integer that is lost: it comes back one less. */
  lemma FirstLostInteger(m: Machine)
    ensures var t, x := Vector(FLEX_INT), NSeq([NInt(0x20_0000_0000_0001)]);
      HasType(t, x) && Get(m, t, Set(m, t, x)) == Some(NSeq([NInt(0x20_0000_0000_0000)]))
    ensures forall n: int :: Size(n) <= 0x20_0000_0000_0000 ==> Fits(n)
  {
    var t, x := Vector(FLEX_INT), NSeq([NInt(0x20_0000_0000_0001)]);
    assert Gap(0x20_0000_0000_0001) == 2;
    assert Rounded(0x20_0000_0000_0001) == 0x20_0000_0000_0000;
    var f := Set(m, t, x);
    assert f.numbers == [0x20_0000_0000_0000 as real];
    var back := seq(|f.numbers|, i requires 0 <= i < |f.numbers| => FromDouble(Signed(B64), f.numbers[i]));
    assert back == [NInt(0x20_0000_0000_0000)];
    forall n: int | Size(n) <= 0x20_0000_0000_0000 ensures Fits(n) { SmallFits(n); }
  }

  // ---- the loops of cases 4 to 7 ----

  method SetArray(m: Machine, a: Arithmetic, x: Native) returns (f: Value)
    requires !a.Floating? && HasType(Vector(Number(a)), x)
    ensures f == Set(m, Vector(Number(a)), x)
  {
    var numbers: seq<real> := [];
    for i := 0 to |x.items|
      invariant numbers == AsDoubles(x.items[..i])
    {
      numbers := numbers + [ToDouble(x.items[i])];
      assert x.items[..i + 1] == x.items[..i] + [x.items[i]];
    }
    assert x.items[..|x.items|] == x.items;
    f := Numbers(numbers);
  }

  method GetVector(m: Machine, t: Ty, f: Value) returns (r: Option<Native>)
    requires CaseOf(t) == C5
    ensures r == Get(m, t, f)
  {
    if !f.List? { return None; }
    ghost var all := seq(|f.items|, i requires 0 <= i < |f.items| => Get(m, t.elem, f.items[i]));
    var items: seq<Native> := [];
    for i := 0 to |f.items|
      invariant |items| == i && forall k :: 0 <= k < i ==> all[k] == Some(items[k])
    {
      var item := Get(m, t.elem, f.items[i]);
      assert item == all[i];
      if item.None? { return None; }
      items := items + [item.value];
    }
    GatherAll(all, items);
    r := Some(NSeq(items));
  }

  method GetMap(m: Machine, t: Ty, f: Value) returns (r: Option<Native>)
    requires t.OrderedMap? || t.HashMap?
    ensures r == Get(m, t, f)
  {
    if !f.Dict? { return None; }
    GetOfDict(m, t, f.pairs);
    ghost var ks := seq(|f.pairs|, i requires 0 <= i < |f.pairs| => Get(m, t.key, f.pairs[i].0));
    ghost var vs := seq(|f.pairs|, i requires 0 <= i < |f.pairs| => Get(m, t.value, f.pairs[i].1));
    var entries: map<Native, Native> := map[];
    for i := 0 to |f.pairs|
      invariant InsertAll(ks, vs, i) == Some(NMap(entries))
    {
      var k, v := Get(m, t.key, f.pairs[i].0), Get(m, t.value, f.pairs[i].1);
      assert k == ks[i] && v == vs[i];
      if k.None? || v.None? {
        InsertFails(ks, vs, i, |ks|);
        return None;
      }
      InsertNext(ks, vs, i, entries);
      if k.value !in entries {
        entries := entries[k.value := v.value];
      }
    }
    r := Some(NMap(entries));
  }

  lemma InsertNext(ks: seq<Option<Native>>, vs: seq<Option<Native>>, i: nat, entries: map<Native, Native>)
    requires |ks| == |vs| && i < |ks| && ks[i].Some? && vs[i].Some? && InsertAll(ks, vs, i) == Some(NMap(entries))
    ensures InsertAll(ks, vs, i + 1) ==
      Some(NMap(if ks[i].value in entries then entries else entries[ks[i].value := vs[i].value]))
  {
  }

  lemma {:induction false} InsertFails(ks: seq<Option<Native>>, vs: seq<Option<Native>>, i: nat, n: nat)
    requires |ks| == |vs| && i < n <= |ks| && (ks[i].None? || vs[i].None?)
    ensures InsertAll(ks, vs, n).None?
  {
    if i < n - 1 { InsertFails(ks, vs, i, n - 1); }
  }
}
