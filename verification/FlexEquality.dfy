/** What approximate equality means, and that equal values hash alike. */
module FlexEquality {
  import opened FlexValues
  import opened Prelude

  /** A value with everything approximate equality ignores removed: time zones, the difference between a time stamp
      and a number, and the order of a dictionary's pairs. */
  datatype Canon =
    | NoValue
    | Number(n: int)
    | Text(text: string)
    | Sequence(items: seq<Canon>)
    | Bag(pairs: multiset<(Canon, Canon)>)

  function Meaning(x: Flex): Canon
    decreases x
  {
    match x
    case Undefined => NoValue
    case Int(n) => Number(n)
    case DateTime(stamp, _) => Number(stamp)
    case Str(s) => Text(s)
    case List(items) => Sequence(seq(|items|, i requires 0 <= i < |items| => Meaning(items[i])))
    case Dict(pairs) =>
      Bag(multiset(seq(|pairs|, i requires 0 <= i < |pairs| => (Meaning(pairs[i].key), Meaning(pairs[i].value)))))
  }

  function PairMeaning(p: Pair): (Canon, Canon) { (Meaning(p.key), Meaning(p.value)) }

  function PairMeanings(x: Flex): seq<(Canon, Canon)>
    requires x.Dict?
  {
    seq(|x.pairs|, i requires 0 <= i < |x.pairs| => PairMeaning(x.pairs[i]))
  }

  lemma DictMeaning(x: Flex)
    requires x.Dict?
    ensures Meaning(x) == Bag(multiset(PairMeanings(x)))
  {
    assert PairMeanings(x)
      == seq(|x.pairs|, i requires 0 <= i < |x.pairs| => (Meaning(x.pairs[i].key), Meaning(x.pairs[i].value)));
  }

  // ---- the hash depends on the meaning only ----

  predicate Covers(a: bv64, b: bv64) { a | b == b }

  lemma OrAssociative(a: bv64, b: bv64, c: bv64)
    ensures (a | b) | c == a | (b | c)
  {
  }

  lemma OrSymmetric(a: bv64, b: bv64)
    ensures a | b == b | a && a | a == a
  {
  }

  lemma CoveredByOr(a: bv64, b: bv64)
    ensures Covers(a, a | b) && Covers(b, a | b)
  {
    OrAssociative(a, a, b);
    OrAssociative(b, b, a);
    OrSymmetric(a, b);
    OrSymmetric(b, b);
  }

  lemma OrCovered(a: bv64, b: bv64, c: bv64)
    requires Covers(a, c) && Covers(b, c)
    ensures Covers(a | b, c)
  {
    OrAssociative(a, b, c);
  }

  lemma CoversTransitive(a: bv64, b: bv64, c: bv64)
    requires Covers(a, b) && Covers(b, c)
    ensures Covers(a, c)
  {
    OrAssociative(a, b, c);
  }

  /** The or of the keys' hashes covers each of them. */
  lemma {:induction false} HashKeysCover(h: Hasher, x: Flex, k: nat, i: nat)
    requires x.Dict? && i < k <= |x.pairs|
    ensures Covers(Hash(h, x.pairs[i].key), HashKeys(h, x, k))
    decreases k
  {
    var rest, last := HashKeys(h, x, k - 1), Hash(h, x.pairs[k - 1].key);
    CoveredByOr(rest, last);
    if i < k - 1 {
      HashKeysCover(h, x, k - 1, i);
      CoversTransitive(Hash(h, x.pairs[i].key), rest, rest | last);
    }
  }

  /** Whatever covers each of the first `k` keys' hashes covers their or. */
  lemma {:induction false} HashKeysLeast(h: Hasher, x: Flex, k: nat, z: bv64)
    requires x.Dict? && k <= |x.pairs|
    requires forall i :: 0 <= i < k ==> Covers(Hash(h, x.pairs[i].key), z)
    ensures Covers(HashKeys(h, x, k), z)
    decreases k
  {
    if k > 0 {
      HashKeysLeast(h, x, k - 1, z);
      OrCovered(HashKeys(h, x, k - 1), Hash(h, x.pairs[k - 1].key), z);
    }
  }

  /** A pair of one dictionary has a counterpart in any other with the same meaning. */
  lemma Counterpart(x: Flex, y: Flex, i: nat) returns (j: nat)
    requires x.Dict? && y.Dict? && Meaning(x) == Meaning(y) && i < |x.pairs|
    ensures j < |y.pairs| && PairMeaning(x.pairs[i]) == PairMeaning(y.pairs[j])
  {
    DictMeaning(x);
    DictMeaning(y);
    var m := PairMeanings(x)[i];
    assert m in multiset(PairMeanings(x));
    assert m in PairMeanings(y);
    j :| j < |y.pairs| && PairMeanings(y)[j] == m;
  }

  lemma {:induction false} SameMeaningSameHash(h: Hasher, x: Flex, y: Flex)
    requires Meaning(x) == Meaning(y)
    ensures Hash(h, x) == Hash(h, y)
    decreases x, 1, 0
  {
    match x
    case List(items) =>
      SameItems(x, y);
      SameItemsHash(h, x, y, |items|);
    case Dict(_) =>
      KeysCovered(h, x, y);
      OrSymmetric(HashKeys(h, x, |x.pairs|), HashKeys(h, y, |y.pairs|));
    case _ =>
  }

  lemma SameItems(x: Flex, y: Flex)
    requires x.List? && y.List? && Meaning(x) == Meaning(y)
    ensures |x.items| == |y.items| && forall i :: 0 <= i < |x.items| ==> Meaning(x.items[i]) == Meaning(y.items[i])
  {
    assert |Meaning(x).items| == |x.items| && |Meaning(y).items| == |y.items|;
    forall i | 0 <= i < |x.items| ensures Meaning(x.items[i]) == Meaning(y.items[i]) {
      assert Meaning(x).items[i] == Meaning(y).items[i];
    }
  }

  lemma {:induction false} SameItemsHash(h: Hasher, x: Flex, y: Flex, k: nat)
    requires x.List? && y.List? && k <= |x.items| == |y.items|
    requires forall i :: 0 <= i < |x.items| ==> Meaning(x.items[i]) == Meaning(y.items[i])
    ensures HashItems(h, x, k) == HashItems(h, y, k)
    decreases x, 0, k
  {
    if k > 0 {
      SameItemsHash(h, x, y, k - 1);
      SameMeaningSameHash(h, x.items[k - 1], y.items[k - 1]);
    }
  }

  lemma {:induction false} KeysCovered(h: Hasher, x: Flex, y: Flex)
    requires x.Dict? && y.Dict? && Meaning(x) == Meaning(y)
    ensures Covers(HashKeys(h, x, |x.pairs|), HashKeys(h, y, |y.pairs|))
    ensures Covers(HashKeys(h, y, |y.pairs|), HashKeys(h, x, |x.pairs|))
    decreases x, 0, 0
  {
    forall i | 0 <= i < |x.pairs| ensures Covers(Hash(h, x.pairs[i].key), HashKeys(h, y, |y.pairs|)) {
      var j := Counterpart(x, y, i);
      SameMeaningSameHash(h, x.pairs[i].key, y.pairs[j].key);
      HashKeysCover(h, y, |y.pairs|, j);
    }
    HashKeysLeast(h, x, |x.pairs|, HashKeys(h, y, |y.pairs|));
    forall j | 0 <= j < |y.pairs| ensures Covers(Hash(h, y.pairs[j].key), HashKeys(h, x, |x.pairs|)) {
      var i := Counterpart(y, x, j);
      SameMeaningSameHash(h, x.pairs[i].key, y.pairs[j].key);
      HashKeysCover(h, x, |x.pairs|, i);
    }
    HashKeysLeast(h, y, |y.pairs|, HashKeys(h, x, |x.pairs|));
  }

  // ---- equality is equality of meaning ----

  function KeyTally(s: seq<(Canon, Canon)>, key: Canon): nat {
    if s == [] then 0 else KeyTally(s[..|s| - 1], key) + if s[|s| - 1].0 == key then 1 else 0
  }

  lemma {:induction false} TallyWithout(s: seq<(Canon, Canon)>, j: nat, key: Canon)
    requires j < |s|
    ensures KeyTally(s, key) == KeyTally(Without(s, j), key) + if s[j].0 == key then 1 else 0
  {
    var rest := Without(s, j);
    if j == |s| - 1 {
      assert rest == s[..|s| - 1];
    } else {
      var front := s[..|s| - 1];
      TallyWithout(front, j, key);
      assert rest[..|rest| - 1] == Without(front, j);
    }
  }

  lemma TakenOut<T>(t: seq<T>, j: nat)
    requires j < |t|
    ensures multiset(t) == multiset(Without(t, j)) + multiset{t[j]}
  {
    assert t == t[..j] + [t[j]] + t[j + 1..];
  }

  lemma CancelOne<T>(a: multiset<T>, b: multiset<T>, x: T)
    requires a + multiset{x} == b + multiset{x}
    ensures a == b
  {
    assert a == (a + multiset{x}) - multiset{x} && b == (b + multiset{x}) - multiset{x};
  }

  /** Where the last element of one sequence is in a permutation of it; the rests are permutations again. */
  lemma LastElsewhere<T>(s: seq<T>, t: seq<T>) returns (j: nat)
    requires s != [] && multiset(s) == multiset(t)
    ensures j < |t| && t[j] == s[|s| - 1] && multiset(s[..|s| - 1]) == multiset(Without(t, j))
  {
    var last := s[|s| - 1];
    assert last in multiset(t);
    j :| j < |t| && t[j] == last;
    TakenOut(t, j);
    TakenOut(s, |s| - 1);
    assert Without(s, |s| - 1) == s[..|s| - 1];
    CancelOne(multiset(s[..|s| - 1]), multiset(Without(t, j)), last);
  }

  /** The tally depends on the pairs, not on their order. */
  lemma {:induction false} TallyOfBag(s: seq<(Canon, Canon)>, t: seq<(Canon, Canon)>, key: Canon)
    requires multiset(s) == multiset(t)
    ensures KeyTally(s, key) == KeyTally(t, key)
    decreases |s|
  {
    if s == [] {
      assert |multiset(t)| == 0;
    } else {
      var j := LastElsewhere(s, t);
      TallyOfBag(s[..|s| - 1], Without(t, j), key);
      TallyWithout(t, j, key);
    }
  }

  /** Two bags of the same size that agree on everything in the first are the same. */
  lemma BagsEqual<T>(a: multiset<T>, b: multiset<T>)
    requires |a| == |b| && forall m :: m in a ==> a[m] == b[m]
    ensures a == b
  {
    assert a <= b;
    var extra := b - a;
    assert b == a + extra;
    assert |extra| == 0;
  }

  lemma {:induction false} ApproxIsSameMeaning(h: Hasher, x: Flex, y: Flex)
    ensures Approx(h, x, y) <==> Meaning(x) == Meaning(y)
    decreases Bigger(Depth(x), Depth(y)), 4, 0
  {
    if x.List? && y.List? {
      assert |Meaning(x).items| == |x.items| && |Meaning(y).items| == |y.items|;
      if |x.items| == |y.items| {
        forall i | 0 <= i < |x.items|
          ensures Approx(h, x.items[i], y.items[i]) <==> Meaning(x).items[i] == Meaning(y).items[i]
        {
          ApproxIsSameMeaning(h, x.items[i], y.items[i]);
        }
        assert Meaning(x) == Meaning(y) <==> Meaning(x).items == Meaning(y).items;
      }
    } else if x.Dict? && y.Dict? {
      DictMeaning(x);
      DictMeaning(y);
      if |x.pairs| == |y.pairs| {
        DictApprox(h, Bigger(Depth(x), Depth(y)), x, y);
      } else {
        assert |multiset(PairMeanings(x))| == |x.pairs| && |multiset(PairMeanings(y))| == |y.pairs|;
      }
    }
  }

  lemma {:induction false} FindsIsSameMeaning(h: Hasher, k: Flex, key: Flex)
    ensures Finds(h, k, key) <==> Meaning(k) == Meaning(key)
    decreases Bigger(Depth(k), Depth(key)), 5, 0
  {
    ApproxIsSameMeaning(h, k, key);
    if Meaning(k) == Meaning(key) { SameMeaningSameHash(h, k, key); }
  }

  lemma {:induction false} GroupCountIsTally(h: Hasher, d: nat, x: Flex, key: Flex, k: nat)
    requires x.Dict? && k <= |x.pairs| && Depth(x) <= d && Under(key, d)
    ensures GroupCount(h, d, x, key, k) == KeyTally(PairMeanings(x)[..k], Meaning(key))
    decreases d, 0, k
  {
    if k == 0 {
      assert PairMeanings(x)[..k] == [];
    } else {
      GroupCountIsTally(h, d, x, key, k - 1);
      GroupCountStep(h, d, x, key, k);
      TallyStep(x, Meaning(key), k);
    }
  }

  lemma {:induction false} GroupCountStep(h: Hasher, d: nat, x: Flex, key: Flex, k: nat)
    requires x.Dict? && 0 < k <= |x.pairs| && Depth(x) <= d && Under(key, d)
    ensures GroupCount(h, d, x, key, k) ==
      GroupCount(h, d, x, key, k - 1) + if Meaning(x.pairs[k - 1].key) == Meaning(key) then 1 else 0
    decreases d, 0, 0
  {
    FindsIsSameMeaning(h, x.pairs[k - 1].key, key);
  }

  lemma TallyStep(x: Flex, key: Canon, k: nat)
    requires x.Dict? && 0 < k <= |x.pairs|
    ensures KeyTally(PairMeanings(x)[..k], key) ==
      KeyTally(PairMeanings(x)[..k - 1], key) + if Meaning(x.pairs[k - 1].key) == key then 1 else 0
  {
    assert PairMeanings(x)[..k][..k - 1] == PairMeanings(x)[..k - 1];
  }

  /** A pair is counted exactly when it means what `p` means. */
  lemma {:induction false} CountedIsSamePair(h: Hasher, d: nat, key: Flex, p: Pair, q: Pair)
    requires Under(key, d) && Under(p.key, d) && Under(p.value, d) && Under(q.key, d) && Under(q.value, d)
    requires Meaning(p.key) == Meaning(key)
    ensures Finds(h, q.key, key) && Approx(h, q.key, p.key) && Approx(h, q.value, p.value) <==>
      PairMeaning(q) == PairMeaning(p)
    decreases d, 0, 0
  {
    FindsIsSameMeaning(h, q.key, key);
    ApproxIsSameMeaning(h, q.key, p.key);
    ApproxIsSameMeaning(h, q.value, p.value);
  }

  lemma MultiplicitySnoc<T>(s: seq<T>, k: nat, x: T)
    requires 0 < k <= |s|
    ensures multiset(s[..k])[x] == multiset(s[..k - 1])[x] + if s[k - 1] == x then 1 else 0
  {
    assert s[..k] == s[..k - 1] + [s[k - 1]];
  }

  lemma {:induction false} PairCountStep(h: Hasher, d: nat, x: Flex, key: Flex, p: Pair, k: nat)
    requires x.Dict? && 0 < k <= |x.pairs| && Depth(x) <= d && Under(key, d) && Under(p.key, d) && Under(p.value, d)
    requires Meaning(p.key) == Meaning(key)
    ensures PairCount(h, d, x, key, p, k) ==
      PairCount(h, d, x, key, p, k - 1) + if PairMeaning(x.pairs[k - 1]) == PairMeaning(p) then 1 else 0
    decreases d, 0, 1
  {
    CountedIsSamePair(h, d, key, p, x.pairs[k - 1]);
  }

  lemma PairMultiplicity(x: Flex, m: (Canon, Canon), k: nat)
    requires x.Dict? && 0 < k <= |x.pairs|
    ensures multiset(PairMeanings(x)[..k])[m]
      == multiset(PairMeanings(x)[..k - 1])[m] + if PairMeaning(x.pairs[k - 1]) == m then 1 else 0
  {
    MultiplicitySnoc(PairMeanings(x), k, m);
  }

  lemma {:induction false} PairCountIsMultiplicity(h: Hasher, d: nat, x: Flex, key: Flex, p: Pair, k: nat)
    requires x.Dict? && k <= |x.pairs| && Depth(x) <= d && Under(key, d) && Under(p.key, d) && Under(p.value, d)
    requires Meaning(p.key) == Meaning(key)
    ensures PairCount(h, d, x, key, p, k) == multiset(PairMeanings(x)[..k])[PairMeaning(p)]
    decreases d, 1, k
  {
    if k > 0 {
      PairCountIsMultiplicity(h, d, x, key, p, k - 1);
      PairCountStep(h, d, x, key, p, k);
      PairMultiplicity(x, PairMeaning(p), k);
    }
  }

  /** What the two counting loops find for pair `j` of `x`, looked up under `key`. */
  lemma {:induction false} GroupCounts(h: Hasher, d: nat, x: Flex, y: Flex, key: Flex, j: nat)
    requires x.Dict? && y.Dict? && Depth(x) <= d && Depth(y) <= d && Under(key, d) && j < |x.pairs|
    ensures Finds(h, x.pairs[j].key, key) <==> Meaning(x.pairs[j].key) == Meaning(key)
    ensures Meaning(x.pairs[j].key) == Meaning(key) ==>
      && PairCount(h, d, x, key, x.pairs[j], |x.pairs|) == multiset(PairMeanings(x))[PairMeaning(x.pairs[j])]
      && PairCount(h, d, y, key, x.pairs[j], |y.pairs|) == multiset(PairMeanings(y))[PairMeaning(x.pairs[j])]
    decreases d, 2, 0
  {
    FindsIsSameMeaning(h, x.pairs[j].key, key);
    if Meaning(x.pairs[j].key) == Meaning(key) {
      PairCountIsMultiplicity(h, d, x, key, x.pairs[j], |x.pairs|);
      PairCountIsMultiplicity(h, d, y, key, x.pairs[j], |y.pairs|);
      assert PairMeanings(x)[..|x.pairs|] == PairMeanings(x) && PairMeanings(y)[..|y.pairs|] == PairMeanings(y);
    }
  }

  lemma {:induction false} SameGroupIsSameBag(h: Hasher, d: nat, x: Flex, y: Flex, key: Flex)
    requires x.Dict? && y.Dict? && Depth(x) <= d && Depth(y) <= d && Under(key, d)
    ensures multiset(PairMeanings(x)) == multiset(PairMeanings(y)) ==> SameGroup(h, d, x, y, key)
    ensures SameGroup(h, d, x, y, key) ==>
      forall j :: 0 <= j < |x.pairs| && Meaning(x.pairs[j].key) == Meaning(key) ==>
        multiset(PairMeanings(x))[PairMeaning(x.pairs[j])] == multiset(PairMeanings(y))[PairMeaning(x.pairs[j])]
    decreases d, 2, 1
  {
    var a, b := PairMeanings(x), PairMeanings(y);
    assert a[..|x.pairs|] == a && b[..|y.pairs|] == b;
    GroupCountIsTally(h, d, x, key, |x.pairs|);
    GroupCountIsTally(h, d, y, key, |y.pairs|);
    if multiset(a) == multiset(b) { TallyOfBag(a, b, Meaning(key)); }
    forall j | 0 <= j < |x.pairs|
      ensures Finds(h, x.pairs[j].key, key) <==> Meaning(x.pairs[j].key) == Meaning(key)
      ensures Meaning(x.pairs[j].key) == Meaning(key) ==>
        && PairCount(h, d, x, key, x.pairs[j], |x.pairs|) == multiset(a)[PairMeaning(x.pairs[j])]
        && PairCount(h, d, y, key, x.pairs[j], |y.pairs|) == multiset(b)[PairMeaning(x.pairs[j])]
    {
      GroupCounts(h, d, x, y, key, j);
    }
  }

  lemma {:induction false} DictApprox(h: Hasher, d: nat, x: Flex, y: Flex)
    requires x.Dict? && y.Dict? && d == Bigger(Depth(x), Depth(y)) && |x.pairs| == |y.pairs|
    ensures Approx(h, x, y) <==> multiset(PairMeanings(x)) == multiset(PairMeanings(y))
    decreases d, 3, 0
  {
    var a, b := PairMeanings(x), PairMeanings(y);
    forall i | 0 <= i < |x.pairs|
      ensures multiset(a) == multiset(b) ==> SameGroup(h, d, x, y, x.pairs[i].key)
      ensures SameGroup(h, d, x, y, x.pairs[i].key) ==> multiset(a)[a[i]] == multiset(b)[a[i]]
    {
      SameGroupIsSameBag(h, d, x, y, x.pairs[i].key);
      assert a[i] == PairMeaning(x.pairs[i]);
    }
    if Approx(h, x, y) {
      forall m | m in multiset(a) ensures multiset(a)[m] == multiset(b)[m] {
        var i :| 0 <= i < |a| && a[i] == m;
        assert SameGroup(h, d, x, y, x.pairs[i].key);
      }
      BagsEqual(multiset(a), multiset(b));
    }
  }

  // ---- the results ----

  /** Approximate equality is an equivalence, whatever the hash. */
  lemma ApproxIsEquivalence(h: Hasher, x: Flex, y: Flex, z: Flex)
    ensures Approx(h, x, x)
    ensures Approx(h, x, y) <==> Approx(h, y, x)
    ensures Approx(h, x, y) && Approx(h, y, z) ==> Approx(h, x, z)
  {
    ApproxIsSameMeaning(h, x, x);
    ApproxIsSameMeaning(h, x, y);
    ApproxIsSameMeaning(h, y, x);
    ApproxIsSameMeaning(h, y, z);
    ApproxIsSameMeaning(h, x, z);
  }

  /** Equal values have equal hashes, so looking a key up by hash first never misses an equal key. */
  lemma EqualValuesHashAlike(h: Hasher, x: Flex, y: Flex)
    requires Approx(h, x, y)
    ensures Hash(h, x) == Hash(h, y) && Finds(h, x, y)
  {
    ApproxIsSameMeaning(h, x, y);
    SameMeaningSameHash(h, x, y);
  }

  /** Reordering a dictionary's pairs changes neither what it equals nor its hash. */
  lemma PairOrderIsIrrelevant(h: Hasher, p: seq<Pair>, q: seq<Pair>)
    requires multiset(p) == multiset(q)
    ensures Approx(h, Dict(p), Dict(q)) && Hash(h, Dict(p)) == Hash(h, Dict(q))
  {
    var x, y := Dict(p), Dict(q);
    MeaningsOfPermutation(p, q);
    DictMeaning(x);
    DictMeaning(y);
    ApproxIsSameMeaning(h, x, y);
    SameMeaningSameHash(h, x, y);
  }

  lemma {:induction false} MeaningsOfPermutation(p: seq<Pair>, q: seq<Pair>)
    requires multiset(p) == multiset(q)
    ensures multiset(PairMeanings(Dict(p))) == multiset(PairMeanings(Dict(q)))
    decreases |p|
  {
    var a, b := PairMeanings(Dict(p)), PairMeanings(Dict(q));
    if p == [] {
      assert |multiset(q)| == 0;
    } else {
      var j := LastElsewhere(p, q);
      var last, front, rest := p[|p| - 1], p[..|p| - 1], Without(q, j);
      MeaningsOfPermutation(front, rest);
      var c := PairMeanings(Dict(rest));
      assert a == PairMeanings(Dict(front)) + [PairMeaning(last)];
      assert b == c[..j] + [PairMeaning(last)] + c[j..];
      assert c == c[..j] + c[j..];
    }
  }

  // ---- the loops ----

  method ListsEqual(h: Hasher, x: Flex, y: Flex) returns (equal: bool)
    requires x.List? && y.List?
    ensures equal <==> Meaning(x) == Meaning(y)
  {
    ApproxIsSameMeaning(h, x, y);
    if |x.items| != |y.items| { return false; }
    for i := 0 to |x.items|
      invariant forall k :: 0 <= k < i ==> Approx(h, x.items[k], y.items[k])
    {
      if !Approx(h, x.items[i], y.items[i]) { return false; }
    }
    return true;
  }

  // ---- what the hash is ----

  /** `combine` over the hashes, from the left. */
  function Folded(h: Hasher, acc: bv64, hashes: seq<bv64>): bv64
    decreases |hashes|
  {
    if hashes == [] then acc else Folded(h, h.combine(acc, hashes[0]), hashes[1..])
  }

  lemma {:induction false} FoldedSnoc(h: Hasher, acc: bv64, hashes: seq<bv64>, last: bv64)
    ensures Folded(h, acc, hashes + [last]) == h.combine(Folded(h, acc, hashes), last)
    decreases |hashes|
  {
    if hashes == [] {
      assert [last][1..] == [];
      assert hashes + [last] == [last];
    } else {
      assert (hashes + [last])[1..] == hashes[1..] + [last];
      FoldedSnoc(h, h.combine(acc, hashes[0]), hashes[1..], last);
    }
  }

  lemma {:induction false} ItemsFolded(h: Hasher, x: Flex, hashes: seq<bv64>, k: nat)
    requires x.List? && k <= |x.items| == |hashes|
    requires forall i :: 0 <= i < |hashes| ==> hashes[i] == Hash(h, x.items[i])
    ensures HashItems(h, x, k) == Folded(h, 0, hashes[..k])
    decreases k
  {
    if k > 0 {
      ItemsFolded(h, x, hashes, k - 1);
      assert hashes[..k] == hashes[..k - 1] + [hashes[k - 1]];
      FoldedSnoc(h, 0, hashes[..k - 1], hashes[k - 1]);
    }
  }

  /** A list's hash mixes the left fold of its items' hashes once more. */
  lemma HashOfList(h: Hasher, x: Flex, hashes: seq<bv64>)
    requires x.List? && |hashes| == |x.items| && forall i :: 0 <= i < |hashes| ==> hashes[i] == Hash(h, x.items[i])
    ensures Hash(h, x) == h.mix(Folded(h, 0, hashes))
  {
    ItemsFolded(h, x, hashes, |hashes|);
    assert hashes[..|hashes|] == hashes;
  }

  /** A dictionary's hash combines with itself the smallest set of bits that holds every key's hash. */
  lemma HashOfDict(h: Hasher, x: Flex, bits: bv64)
    requires x.Dict? && forall i :: 0 <= i < |x.pairs| ==> Covers(Hash(h, x.pairs[i].key), bits)
    requires forall z: bv64 ::
      (forall i :: 0 <= i < |x.pairs| ==> Covers(Hash(h, x.pairs[i].key), z)) ==> Covers(bits, z)
    ensures Hash(h, x) == h.combine(bits, bits)
  {
    var k := HashKeys(h, x, |x.pairs|);
    forall i | 0 <= i < |x.pairs| ensures Covers(Hash(h, x.pairs[i].key), k) { HashKeysCover(h, x, |x.pairs|, i); }
    HashKeysLeast(h, x, |x.pairs|, bits);
    assert Covers(bits, k) && Covers(k, bits);
    OrSymmetric(k, bits);
  }

  method HashList(h: Hasher, x: Flex) returns (r: bv64)
    requires x.List?
    ensures r == Hash(h, x)
  {
    r := 0;
    for i := 0 to |x.items|
      invariant r == HashItems(h, x, i)
    {
      r := h.combine(r, Hash(h, x.items[i]));
    }
    r := h.mix(r);
  }

  method HashDict(h: Hasher, x: Flex) returns (r: bv64)
    requires x.Dict?
    ensures r == Hash(h, x)
  {
    var keyHash: bv64 := 0;
    var valueHash: bv64 := 0;
    for i := 0 to |x.pairs|
      invariant keyHash == HashKeys(h, x, i)
      invariant valueHash == keyHash
    {
      keyHash := Or(keyHash, Hash(h, x.pairs[i].key));
      valueHash := Or(valueHash, Hash(h, x.pairs[i].key));
    }
    r := h.combine(keyHash, valueHash);
  }
}
