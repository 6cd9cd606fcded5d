/**
  Flexible values without floating point, their approximate equality and their 64-bit hash
  (src/flexible_type/flexible_type.cpp, src/flexible_type/flexible_type_detail.hpp).
 */
module FlexValues {
  /** A date-time is a time stamp and a time zone. */
  datatype Flex =
    | Undefined
    | Int(n: int)
    | DateTime(stamp: int, zone: int)
    | Str(text: string)
    | List(items: seq<Flex>)
    | Dict(pairs: seq<Pair>)

  datatype Pair = Pair(key: Flex, value: Flex)

  /** The mixing functions of the hash library, of which nothing is assumed. */
  datatype Hasher = Hasher(num: int -> bv64, text: string -> bv64, mix: bv64 -> bv64, combine: (bv64, bv64) -> bv64)

  // ---- the hash ----

  function Hash(h: Hasher, x: Flex): bv64
    decreases x, 1, 0
  {
    match x
    case Undefined => 0
    case Int(n) => h.num(n)
    case DateTime(stamp, _) => h.num(stamp)
    case Str(s) => h.text(s)
    case List(items) => h.mix(HashItems(h, x, |items|))
    case Dict(pairs) => h.combine(HashKeys(h, x, |pairs|), HashKeys(h, x, |pairs|))
  }

  /** The first `k` items, combined in order. */
  function HashItems(h: Hasher, x: Flex, k: nat): bv64
    requires x.List? && k <= |x.items|
    decreases x, 0, k
  {
    if k == 0 then 0 else h.combine(HashItems(h, x, k - 1), Hash(h, x.items[k - 1]))
  }

  function Or(a: bv64, b: bv64): bv64 { a | b }

  /** The keys of the first `k` pairs, or-ed together.  The code hashes the key a second time where the name of its
      variable suggests the value. */
  function HashKeys(h: Hasher, x: Flex, k: nat): bv64
    requires x.Dict? && k <= |x.pairs|
    decreases x, 0, k
  {
    if k == 0 then 0 else Or(HashKeys(h, x, k - 1), Hash(h, x.pairs[k - 1].key))
  }

  // ---- approximate equality ----

  function Bigger(a: nat, b: nat): nat { if a <= b then b else a }

  function Depth(x: Flex): nat
    decreases x, 1, 0
  {
    match x
    case List(items) => 1 + DepthItems(x, |items|)
    case Dict(pairs) => 1 + DepthPairs(x, |pairs|)
    case _ => 0
  }

  function DepthItems(x: Flex, k: nat): (d: nat)
    requires x.List? && k <= |x.items|
    ensures forall i :: 0 <= i < k ==> Depth(x.items[i]) <= d
    decreases x, 0, k
  {
    if k == 0 then 0 else Bigger(DepthItems(x, k - 1), Depth(x.items[k - 1]))
  }

  function DepthPairs(x: Flex, k: nat): (d: nat)
    requires x.Dict? && k <= |x.pairs|
    ensures forall i :: 0 <= i < k ==> Depth(x.pairs[i].key) <= d && Depth(x.pairs[i].value) <= d
    decreases x, 0, k
  {
    if k == 0 then 0
    else Bigger(DepthPairs(x, k - 1), Bigger(Depth(x.pairs[k - 1].key), Depth(x.pairs[k - 1].value)))
  }

  predicate Under(x: Flex, d: nat) { Depth(x) < d }

  /** Dictionaries are compared as unordered_multimaps keyed by hash and equality: for every key of the first, the
      groups found under it have the same size and are permutations of each other. */
  predicate Approx(h: Hasher, x: Flex, y: Flex)
    decreases Bigger(Depth(x), Depth(y)), 2, 0
  {
    match (x, y)
    case (Undefined, Undefined) => true
    case (Int(m), Int(n)) => m == n
    case (Int(m), DateTime(n, _)) => m == n
    case (DateTime(m, _), Int(n)) => m == n
    case (DateTime(m, _), DateTime(n, _)) => m == n
    case (Str(s), Str(t)) => s == t
    case (List(a), List(b)) => |a| == |b| && forall i :: 0 <= i < |a| ==> Approx(h, a[i], b[i])
    case (Dict(p), Dict(q)) =>
      && |p| == |q|
      && forall i :: 0 <= i < |p| ==> SameGroup(h, Bigger(Depth(x), Depth(y)), x, y, p[i].key)
    case _ => false
  }

  /** The equal ranges of `key` in the two dictionaries have equal length and are permutations. */
  predicate SameGroup(h: Hasher, d: nat, x: Flex, y: Flex, key: Flex)
    requires x.Dict? && y.Dict? && Depth(x) <= d && Depth(y) <= d && Under(key, d)
    decreases d, 1, 0
  {
    && GroupCount(h, d, x, key, |x.pairs|) == GroupCount(h, d, y, key, |y.pairs|)
    && forall j :: 0 <= j < |x.pairs| && Finds(h, x.pairs[j].key, key) ==>
         PairCount(h, d, x, key, x.pairs[j], |x.pairs|) == PairCount(h, d, y, key, x.pairs[j], |y.pairs|)
  }

  /** Looking `key` up stops at `k`: same hash and equal. */
  predicate Finds(h: Hasher, k: Flex, key: Flex)
    decreases Bigger(Depth(k), Depth(key)), 3, 0
  {
    Hash(h, k) == Hash(h, key) && Approx(h, k, key)
  }

  function GroupCount(h: Hasher, d: nat, x: Flex, key: Flex, k: nat): nat
    requires x.Dict? && k <= |x.pairs| && Depth(x) <= d && Under(key, d)
    decreases d, 0, k
  {
    if k == 0 then 0 else GroupCount(h, d, x, key, k - 1) + if Finds(h, x.pairs[k - 1].key, key) then 1 else 0
  }

  function PairCount(h: Hasher, d: nat, x: Flex, key: Flex, p: Pair, k: nat): nat
    requires x.Dict? && k <= |x.pairs| && Depth(x) <= d && Under(key, d) && Under(p.key, d) && Under(p.value, d)
    decreases d, 0, k
  {
    if k == 0 then 0
    else
      var q := x.pairs[k - 1];
      PairCount(h, d, x, key, p, k - 1)
      + if Finds(h, q.key, key) && Approx(h, q.key, p.key) && Approx(h, q.value, p.value) then 1 else 0
  }
}
