/**
  The orderings `<` and `>` of flexible values, written as two separate operators
  (src/flexible_type/flexible_type_detail.hpp, lt_operator and gt_operator).
 */
module FlexOrder {
  import opened FlexValues
  import opened FlexEquality
  import opened Texts

  /** `Fails` is the type assertion that comparing unrelated kinds raises. */
  datatype Verdict = Yes | No | Fails

  function Decide(b: bool): Verdict { if b then Yes else No }

  predicate Numeric(x: Flex) { x.Int? || x.DateTime? }

  function Amount(x: Flex): int
    requires Numeric(x)
  {
    if x.Int? then x.n else x.stamp
  }

  function Less(x: Flex, y: Flex): Verdict
    decreases x, 1, 0
  {
    if Numeric(x) && Numeric(y) then Decide(Amount(x) < Amount(y))
    else if x.Str? && y.Str? then Decide(TextLess(x.text, y.text))
    else if x.List? && y.List? then LessFrom(x, y, 0)
    else Fails
  }

  function Greater(x: Flex, y: Flex): Verdict
    decreases x, 1, 0
  {
    if Numeric(x) && Numeric(y) then Decide(Amount(x) > Amount(y))
    else if x.Str? && y.Str? then Decide(TextLess(y.text, x.text))
    else if x.List? && y.List? then GreaterFrom(x, y, 0)
    else Fails
  }

  /** lt_operator's loop from index `i` on. */
  function LessFrom(x: Flex, y: Flex, i: nat): Verdict
    requires x.List? && y.List? && i <= |x.items|
    decreases x, 0, |x.items| - i
  {
    if i == |x.items| then Decide(|x.items| < |y.items|)
    else if |y.items| <= i then No
    else
      match Greater(x.items[i], y.items[i])
      case Fails => Fails
      case Yes => No
      case No =>
        match Less(x.items[i], y.items[i])
        case Fails => Fails
        case Yes => Yes
        case No => LessFrom(x, y, i + 1)
  }

  /** gt_operator's loop from index `i` on. */
  function GreaterFrom(x: Flex, y: Flex, i: nat): Verdict
    requires x.List? && y.List? && i <= |x.items|
    decreases x, 0, |x.items| - i
  {
    if i == |x.items| then Decide(|x.items| > |y.items|)
    else if |y.items| <= i then Yes
    else
      match Greater(x.items[i], y.items[i])
      case Fails => Fails
      case Yes => Yes
      case No =>
        match Less(x.items[i], y.items[i])
        case Fails => Fails
        case Yes => No
        case No => GreaterFrom(x, y, i + 1)
  }

  // ---- the two operators on one pair ----

  /** What the two operators say of the same pair: both fail, or at most one says yes. */
  predicate Opposed(lt: Verdict, gt: Verdict) { (lt == Fails <==> gt == Fails) && !(lt == Yes && gt == Yes) }

  lemma {:induction false} NeverBoth(x: Flex, y: Flex)
    ensures Opposed(Less(x, y), Greater(x, y))
    decreases x, 1, 0
  {
    if x.Str? && y.Str? {
      TextTrichotomy(x.text, y.text);
    } else if x.List? && y.List? {
      NeverBothFrom(x, y, 0);
    }
  }

  lemma {:induction false} NeverBothFrom(x: Flex, y: Flex, i: nat)
    requires x.List? && y.List? && i <= |x.items|
    ensures Opposed(LessFrom(x, y, i), GreaterFrom(x, y, i))
    decreases x, 0, |x.items| - i
  {
    if i < |x.items| && i < |y.items| {
      NeverBoth(x.items[i], y.items[i]);
      NeverBothFrom(x, y, i + 1);
    }
  }

  /** `>` is `<` with its arguments exchanged, failures included. */
  lemma {:induction false} GreaterIsLessReversed(x: Flex, y: Flex)
    ensures Greater(x, y) == Less(y, x) && Less(x, y) == Greater(y, x)
    decreases x, 1, 0
  {
    if x.List? && y.List? { ReversedFrom(x, y, 0); }
  }

  lemma {:induction false} ReversedFrom(x: Flex, y: Flex, i: nat)
    requires x.List? && y.List? && i <= |x.items| && i <= |y.items|
    ensures GreaterFrom(x, y, i) == LessFrom(y, x, i) && LessFrom(x, y, i) == GreaterFrom(y, x, i)
    decreases x, 0, |x.items| - i
  {
    if i < |x.items| && i < |y.items| {
      GreaterIsLessReversed(x.items[i], y.items[i]);
      NeverBoth(x.items[i], y.items[i]);
      NeverBoth(y.items[i], x.items[i]);
      ReversedFrom(x, y, i + 1);
    }
  }

  // ---- trichotomy ----

  /** The answers as the meanings dictate them: where the comparison does not fail, neither says yes exactly when the
      two values mean the same. */
  lemma {:induction false} Trichotomy(x: Flex, y: Flex)
    requires Less(x, y) != Fails
    ensures Less(x, y) == No && Greater(x, y) == No <==> Meaning(x) == Meaning(y)
    decreases x, 1, 0
  {
    if x.Str? && y.Str? {
      TextTrichotomy(x.text, y.text);
    } else if x.List? && y.List? {
      assert |Meaning(x).items| == |x.items| && |Meaning(y).items| == |y.items|;
      assert forall k :: 0 <= k < |x.items| ==> Meaning(x).items[k] == Meaning(x.items[k]);
      assert forall k :: 0 <= k < |y.items| ==> Meaning(y).items[k] == Meaning(y.items[k]);
      TrichotomyFrom(x, y, 0);
      assert Meaning(x) == Meaning(y) <==> Meaning(x).items == Meaning(y).items;
    }
  }

  lemma {:induction false} TrichotomyFrom(x: Flex, y: Flex, i: nat)
    requires x.List? && y.List? && i <= |x.items| && i <= |y.items| && LessFrom(x, y, i) != Fails
    ensures LessFrom(x, y, i) == No && GreaterFrom(x, y, i) == No <==>
      |x.items| == |y.items| && forall k :: i <= k < |x.items| ==> Meaning(x.items[k]) == Meaning(y.items[k])
    decreases x, 0, |x.items| - i
  {
    if i < |x.items| && i < |y.items| {
      NeverBoth(x.items[i], y.items[i]);
      if Greater(x.items[i], y.items[i]) == No && Less(x.items[i], y.items[i]) == No {
        Trichotomy(x.items[i], y.items[i]);
        TrichotomyFrom(x, y, i + 1);
      } else {
        Trichotomy(x.items[i], y.items[i]);
      }
    }
  }

  // ---- only meanings matter ----

  lemma {:induction false} LessOfSame(x: Flex, x': Flex, y: Flex)
    requires Meaning(x) == Meaning(x')
    ensures Less(x, y) == Less(x', y) && Greater(x, y) == Greater(x', y)
    decreases x, 1, 0
  {
    if x.List? {
      assert |Meaning(x).items| == |x.items| && |Meaning(x').items| == |x'.items|;
      if y.List? { LessFromOfSame(x, x', y, 0); }
    }
  }

  lemma {:induction false} LessFromOfSame(x: Flex, x': Flex, y: Flex, i: nat)
    requires x.List? && x'.List? && y.List? && |x.items| == |x'.items| && i <= |x.items| && Meaning(x) == Meaning(x')
    ensures LessFrom(x, y, i) == LessFrom(x', y, i) && GreaterFrom(x, y, i) == GreaterFrom(x', y, i)
    decreases x, 0, |x.items| - i
  {
    if i < |x.items| && i < |y.items| {
      assert Meaning(x).items[i] == Meaning(x').items[i];
      LessOfSame(x.items[i], x'.items[i], y.items[i]);
      LessFromOfSame(x, x', y, i + 1);
    }
  }

  // ---- transitivity ----

  lemma {:induction false} Transitive(x: Flex, y: Flex, z: Flex)
    requires Less(x, y) == Yes && Less(y, z) == Yes
    ensures Less(x, z) == Yes
    decreases x, 1, 0
  {
    if x.Str? {
      TextTransitive(x.text, y.text, z.text);
    } else if x.List? {
      TransitiveFrom(x, y, z, 0);
    }
  }

  /** One position of the three lists: nobody failed, and what `x` and `z` say follows from the others. */
  lemma {:induction false} Through(a: Flex, b: Flex, c: Flex)
    requires Less(a, b) != Fails && Less(b, c) != Fails && Greater(a, b) == No && Greater(b, c) == No
    requires Less(a, b) == Yes && Less(b, c) == Yes ==> Less(a, c) == Yes
    ensures Greater(a, c) == No
    ensures Less(a, c) == if Less(a, b) == Yes || Less(b, c) == Yes then Yes else No
  {
    NeverBoth(a, c);
    if Less(a, b) == No {
      Trichotomy(a, b);
      LessOfSame(a, b, c);
    } else if Less(b, c) == No {
      Trichotomy(b, c);
      GreaterIsLessReversed(a, b);
      GreaterIsLessReversed(a, c);
      LessOfSame(b, c, a);
    }
  }

  lemma {:induction false} TransitiveFrom(x: Flex, y: Flex, z: Flex, i: nat)
    requires x.List? && y.List? && z.List? && i <= |x.items| && i <= |y.items|
    requires LessFrom(x, y, i) == Yes && LessFrom(y, z, i) == Yes
    ensures LessFrom(x, z, i) == Yes
    decreases x, 0, |x.items| - i
  {
    if i < |x.items| {
      var a, b, c := x.items[i], y.items[i], z.items[i];
      NeverBoth(a, b);
      NeverBoth(b, c);
      if Less(a, b) == Yes && Less(b, c) == Yes { Transitive(a, b, c); }
      Through(a, b, c);
      if Less(a, c) == No { TransitiveFrom(x, y, z, i + 1); }
    }
  }

  // ---- when the comparison is defined ----

  /** The first `n` elements of the two lists mean the same. */
  predicate SameUpTo(x: Flex, y: Flex, n: nat)
    requires x.List? && y.List? && n <= |x.items| && n <= |y.items|
  {
    forall k :: 0 <= k < n ==> Meaning(x.items[k]) == Meaning(y.items[k])
  }

  /** Kinds that can be compared; lists whose elements can be, up to and including the first that differ. */
  predicate Comparable(x: Flex, y: Flex)
    decreases x
  {
    || (Numeric(x) && Numeric(y))
    || (x.Str? && y.Str?)
    || (x.List? && y.List?
        && forall i :: 0 <= i < |x.items| && i < |y.items| && SameUpTo(x, y, i) ==> Comparable(x.items[i], y.items[i]))
  }

  lemma {:induction false} FailsExactly(x: Flex, y: Flex)
    ensures Less(x, y) != Fails <==> Comparable(x, y)
    decreases x, 1, 0
  {
    if x.List? && y.List? { FailsFrom(x, y, 0); }
  }

  lemma {:induction false} FailsFrom(x: Flex, y: Flex, i: nat)
    requires x.List? && y.List? && i <= |x.items| && i <= |y.items| && SameUpTo(x, y, i)
    ensures LessFrom(x, y, i) != Fails <==>
      forall j :: i <= j < |x.items| && j < |y.items| && SameUpTo(x, y, j) ==> Comparable(x.items[j], y.items[j])
    decreases x, 0, |x.items| - i
  {
    if i < |x.items| && i < |y.items| {
      var a, b := x.items[i], y.items[i];
      FailsExactly(a, b);
      NeverBoth(a, b);
      if Less(a, b) != Fails {
        Trichotomy(a, b);
        if Meaning(a) == Meaning(b) { FailsFrom(x, y, i + 1); }
      }
    }
  }

  // ---- the results ----

  /** `<` is a strict order on all values, and on comparable ones exactly one of less, greater and equal holds. */
  lemma StrictTotalOrder(h: Hasher, x: Flex, y: Flex, z: Flex)
    ensures Less(x, x) != Yes
    ensures Less(x, y) == Yes && Less(y, z) == Yes ==> Less(x, z) == Yes
    ensures Comparable(x, y) ==>
      && Less(x, y) != Fails && Greater(x, y) != Fails && !(Less(x, y) == Yes && Greater(x, y) == Yes)
      && (Approx(h, x, y) <==> Less(x, y) == No && Greater(x, y) == No)
  {
    if Less(x, x) == Yes { Trichotomy(x, x); }
    if Less(x, y) == Yes && Less(y, z) == Yes { Transitive(x, y, z); }
    NeverBoth(x, y);
    if Comparable(x, y) {
      FailsExactly(x, y);
      Trichotomy(x, y);
      ApproxIsSameMeaning(h, x, y);
    }
  }

  // ---- which order it is ----

  /** The order of meanings: numbers by value, texts by their first difference, sequences by the first position where
      they differ, a proper beginning coming first. */
  ghost predicate Below(a: Canon, b: Canon)
    decreases a, 1
  {
    match (a, b)
    case (Number(m), Number(n)) => m < n
    case (Text(s), Text(t)) => exists k: nat :: TextDiffers(s, t, k)
    case (Sequence(xs), Sequence(ys)) => exists k: nat :: BelowAt(a, b, k)
    case _ => false
  }

  ghost predicate BelowAt(a: Canon, b: Canon, k: nat)
    requires a.Sequence? && b.Sequence?
    decreases a, 0
  {
    && k <= |a.items| && k < |b.items| && (forall j :: 0 <= j < k ==> a.items[j] == b.items[j])
    && (k == |a.items| || Below(a.items[k], b.items[k]))
  }

  lemma {:induction false} BelowIrreflexive(a: Canon)
    ensures !Below(a, a)
    decreases a
  {
    if a.Sequence? {
      forall k: nat | k < |a.items| ensures !Below(a.items[k], a.items[k]) { BelowIrreflexive(a.items[k]); }
    }
  }

  lemma ItemMeanings(x: Flex)
    requires x.List?
    ensures Meaning(x).Sequence? && |Meaning(x).items| == |x.items|
    ensures forall k :: 0 <= k < |x.items| ==> Meaning(x).items[k] == Meaning(x.items[k])
  {
  }

  lemma BelowFound(a: Canon, b: Canon, k: nat)
    requires a.Sequence? && b.Sequence? && BelowAt(a, b, k)
    ensures Below(a, b)
  {
  }

  lemma BelowFind(a: Canon, b: Canon) returns (k: nat)
    requires a.Sequence? && b.Sequence? && Below(a, b)
    ensures BelowAt(a, b, k)
  {
    k :| BelowAt(a, b, k);
  }

  /** Less says yes exactly for comparable values the first of which comes before the second. */
  lemma {:induction false} LessExactly(x: Flex, y: Flex)
    ensures Less(x, y) == Yes <==> Comparable(x, y) && Below(Meaning(x), Meaning(y))
    decreases x, 1, 0
  {
    FailsExactly(x, y);
    if x.Str? && y.Str? {
      TextLessExactly(x.text, y.text);
    } else if x.List? && y.List? {
      LessFromExactly(x, y, 0);
    }
  }

  lemma {:induction false} LessFromExactly(x: Flex, y: Flex, i: nat)
    requires x.List? && y.List? && i <= |x.items| && i <= |y.items| && SameUpTo(x, y, i)
    ensures LessFrom(x, y, i) == Yes <==> LessFrom(x, y, i) != Fails && Below(Meaning(x), Meaning(y))
    decreases x, 0, |x.items| - i
  {
    if i < |x.items| && i < |y.items| && LessFrom(x, y, i) != Fails {
      var c, d := x.items[i], y.items[i];
      NeverBoth(c, d);
      LessExactly(c, d);
      FailsExactly(c, d);
      Trichotomy(c, d);
      if Meaning(c) == Meaning(d) {
        LessFromExactly(x, y, i + 1);
      } else {
        DecidedAt(x, y, i);
      }
    } else if LessFrom(x, y, i) != Fails {
      DecidedAt(x, y, i);
    }
  }

  /** The first position where the two do not mean the same, or one of them ends, decides. */
  lemma DecidedAt(x: Flex, y: Flex, i: nat)
    requires x.List? && y.List? && i <= |x.items| && i <= |y.items| && SameUpTo(x, y, i)
    requires i < |x.items| && i < |y.items| ==> Meaning(x.items[i]) != Meaning(y.items[i])
    ensures Below(Meaning(x), Meaning(y)) <==>
      i < |y.items| && (i == |x.items| || Below(Meaning(x.items[i]), Meaning(y.items[i])))
  {
    var a, b := Meaning(x), Meaning(y);
    ItemMeanings(x);
    ItemMeanings(y);
    if Below(a, b) {
      var k := BelowFind(a, b);
      if k < i { BelowIrreflexive(a.items[k]); }
    }
    if i < |y.items| && (i == |x.items| || Below(Meaning(x.items[i]), Meaning(y.items[i]))) { BelowFound(a, b, i); }
  }

  /** And so does greater, the other way round. */
  lemma GreaterExactly(x: Flex, y: Flex)
    ensures Greater(x, y) == Yes <==> Comparable(x, y) && Below(Meaning(y), Meaning(x))
  {
    GreaterIsLessReversed(x, y);
    LessExactly(y, x);
    NeverBoth(x, y);
    FailsExactly(x, y);
    FailsExactly(y, x);
  }

  // ---- the loops ----

  method ListLess(x: Flex, y: Flex) returns (v: Verdict)
    requires x.List? && y.List?
    ensures v == Less(x, y)
  {
    var i := 0;
    while i < |x.items|
      invariant i <= |x.items| && LessFrom(x, y, i) == Less(x, y)
    {
      if |y.items| <= i { return No; }
      var greater := Greater(x.items[i], y.items[i]);
      if greater != No { return if greater == Yes then No else Fails; }
      var less := Less(x.items[i], y.items[i]);
      if less != No { return less; }
      i := i + 1;
    }
    return Decide(|x.items| < |y.items|);
  }

  method ListGreater(x: Flex, y: Flex) returns (v: Verdict)
    requires x.List? && y.List?
    ensures v == Greater(x, y)
  {
    var i := 0;
    while i < |x.items|
      invariant i <= |x.items| && GreaterFrom(x, y, i) == Greater(x, y)
    {
      if |y.items| <= i { return Yes; }
      var greater := Greater(x.items[i], y.items[i]);
      if greater != No { return greater; }
      var less := Less(x.items[i], y.items[i]);
      if less != No { return if less == Yes then No else Fails; }
      i := i + 1;
    }
    return Decide(|x.items| > |y.items|);
  }
}
