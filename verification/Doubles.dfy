/** Integers as IEEE 754 double precision numbers: a significand of 53 bits, rounding to nearest, ties to even. */
module Doubles {
  import opened Division

  const SIGNIFICANDS: nat := 0x20_0000_0000_0000

  function Pow2(e: nat): (p: nat)
    ensures p >= 1
  {
    if e == 0 then 1 else 2 * Pow2(e - 1)
  }

  predicate Scaled(v: nat, m: nat, e: nat) { m < SIGNIFICANDS && v == m * Pow2(e) }

  /** The integer is a double: dropping zero bits from its end leaves at most 53. */
  predicate IsDouble(v: nat) { v < SIGNIFICANDS || (v % 2 == 0 && IsDouble(v / 2)) }

  /** That is, a significand times a power of two. */
  lemma {:induction false} DoubleMeaning(v: nat)
    ensures IsDouble(v) <==> exists m: nat, e: nat :: Scaled(v, m, e)
  {
    if IsDouble(v) { var m, e := SplitDouble(v); }
    forall m: nat, e: nat | Scaled(v, m, e) ensures IsDouble(v) { JoinDouble(v, m, e); }
  }

  lemma {:induction false} SplitDouble(v: nat) returns (m: nat, e: nat)
    requires IsDouble(v)
    ensures Scaled(v, m, e)
  {
    if v < SIGNIFICANDS {
      m, e := v, 0;
    } else {
      m, e := SplitDouble(v / 2);
      assert m * Pow2(e + 1) == 2 * (m * Pow2(e));
      e := e + 1;
    }
  }

  lemma {:induction false} JoinDouble(v: nat, m: nat, e: nat)
    requires Scaled(v, m, e)
    ensures IsDouble(v)
    decreases e
  {
    if e > 0 {
      assert v == 2 * (m * Pow2(e - 1));
      JoinDouble(v / 2, m, e - 1);
    }
  }

  // ---- rounding ----

  /** The distance between doubles from `a` on. */
  function Gap(a: nat): (g: nat)
    ensures g >= 1
  {
    if a < SIGNIFICANDS then 1 else 2 * Gap(a / 2)
  }

  /** The nearest multiple of the gap, the one with an even significand if there are two. */
  function RoundNat(a: nat): nat {
    var g := Gap(a);
    var low := a - a % g;
    if 2 * (a % g) < g || (2 * (a % g) == g && (a / g) % 2 == 0) then low else low + g
  }

  function Low(a: nat): nat { a - a % Gap(a) }

  lemma LowHalves(a: nat)
    requires a >= SIGNIFICANDS
    ensures Low(a) == 2 * Low(a / 2)
  {
    Halves(a / 2, a % 2, Gap(a / 2));
  }

  lemma {:induction false} LowIsLarge(a: nat)
    requires 2 * a >= SIGNIFICANDS
    ensures 2 * Low(a) >= SIGNIFICANDS
  {
    if a >= SIGNIFICANDS {
      LowHalves(a);
      LowIsLarge(a / 2);
    }
  }

  lemma TwiceIsDouble(v: nat)
    requires IsDouble(v)
    ensures IsDouble(2 * v)
  {
    assert (2 * v) % 2 == 0 && (2 * v) / 2 == v;
  }

  lemma UpToSignificands(v: nat)
    requires v <= SIGNIFICANDS
    ensures IsDouble(v)
  {
    if v == SIGNIFICANDS { TwiceIsDouble(0x10_0000_0000_0000); }
  }

  /** The multiples of the gap on either side are doubles, and there are none between them. */
  lemma {:induction false} Neighbours(a: nat)
    ensures IsDouble(Low(a)) && IsDouble(Low(a) + Gap(a))
  {
    if a < SIGNIFICANDS {
      UpToSignificands(a);
      UpToSignificands(a + 1);
    } else {
      LowHalves(a);
      Neighbours(a / 2);
      TwiceIsDouble(Low(a / 2));
      TwiceIsDouble(Low(a / 2) + Gap(a / 2));
    }
  }

  lemma {:induction false} NoneBetween(a: nat, v: nat)
    requires IsDouble(v) && Low(a) <= v <= Low(a) + Gap(a)
    ensures v == Low(a) || v == Low(a) + Gap(a)
    decreases a
  {
    if a >= SIGNIFICANDS {
      LowHalves(a);
      LowIsLarge(a / 2);
      NoneBetween(a / 2, v / 2);
    }
  }

  function Distance(a: nat, b: nat): nat { if a <= b then b - a else a - b }

  /** What rounding gives is a double, and none is nearer. */
  lemma RoundsToNearest(a: nat, v: nat)
    requires IsDouble(v)
    ensures IsDouble(RoundNat(a)) && Distance(a, RoundNat(a)) <= Distance(a, v)
  {
    Neighbours(a);
    if Low(a) <= v <= Low(a) + Gap(a) { NoneBetween(a, v); }
  }

  /** Of two that are equally near it is the one that is an even multiple of the gap. */
  lemma TiesToEven(a: nat)
    requires 2 * (a % Gap(a)) == Gap(a)
    ensures (RoundNat(a) / Gap(a)) % 2 == 0
  {
    var g := Gap(a);
    Multiples(a, g);
    if (a / g) % 2 == 0 {
      assert RoundNat(a) == a - a % g;
    } else {
      assert RoundNat(a) == a - a % g + g;
    }
  }

  /** Rounding leaves exactly the doubles alone, and these are the multiples of their own gap. */
  lemma RoundsExactly(a: nat)
    ensures RoundNat(a) == a <==> IsDouble(a)
    ensures RoundNat(a) == a <==> a % Gap(a) == 0
  {
    RoundsToNearest(a, 0);
    if IsDouble(a) { RoundsToNearest(a, a); }
  }

  lemma RoundsOnce(a: nat)
    ensures RoundNat(RoundNat(a)) == RoundNat(a)
  {
    RoundsToNearest(a, 0);
    RoundsExactly(RoundNat(a));
  }

  lemma {:induction false} GapBound(a: nat, k: nat)
    requires a < SIGNIFICANDS * Pow2(k)
    ensures Gap(a) <= Pow2(k)
    decreases k
  {
    if k > 0 && a >= SIGNIFICANDS {
      assert SIGNIFICANDS * Pow2(k) == 2 * (SIGNIFICANDS * Pow2(k - 1));
      GapBound(a / 2, k - 1);
    }
  }

  lemma {:induction false} PowerIsDouble(k: nat)
    ensures IsDouble(SIGNIFICANDS * Pow2(k))
  {
    if k == 0 {
      UpToSignificands(SIGNIFICANDS);
    } else {
      PowerIsDouble(k - 1);
      assert SIGNIFICANDS * Pow2(k) == 2 * (SIGNIFICANDS * Pow2(k - 1));
      TwiceIsDouble(SIGNIFICANDS * Pow2(k - 1));
    }
  }

  lemma Powers()
    ensures Pow2(10) == 1024 && Pow2(11) == 2048
  {
    assert Pow2(1) == 2 && Pow2(2) == 4 && Pow2(3) == 8 && Pow2(4) == 16 && Pow2(5) == 32;
    assert Pow2(6) == 64 && Pow2(7) == 128 && Pow2(8) == 256 && Pow2(9) == 512;
  }

  // ---- integers with a sign ----

  function Size(n: int): nat { if n < 0 then -n else n }

  /** An integer as the nearest double. */
  function Rounded(n: int): int { if n < 0 then 0 - RoundNat(-n) else RoundNat(n) }

  /** The integer is a multiple of the distance between doubles of its size. */
  predicate Fits(n: int) { Size(n) % Gap(Size(n)) == 0 }

  lemma RoundedExactly(n: int)
    ensures Rounded(n) == n <==> Fits(n)
    ensures Rounded(n) == n <==> IsDouble(Size(n))
    ensures Fits(Rounded(n))
  {
    RoundsExactly(Size(n));
    RoundsOnce(Size(n));
    RoundsExactly(RoundNat(Size(n)));
  }

  lemma SmallFits(n: int)
    requires Size(n) <= SIGNIFICANDS
    ensures Fits(n)
  {
    RoundsExactly(Size(n));
  }

  lemma NotPast(a: nat, v: nat)
    requires IsDouble(v) && a <= v
    ensures RoundNat(a) <= v
  {
    RoundsToNearest(a, v);
  }

  lemma HalfAGap(a: nat)
    ensures 2 * Distance(a, RoundNat(a)) <= Gap(a)
  {
  }

  /** Rounding a 64-bit integer moves it by no more than 1024, and not past a power of two. */
  lemma RoundedNear(n: int)
    requires Size(n) < 0x1_0000_0000_0000_0000
    ensures n - 1024 <= Rounded(n) <= n + 1024
    ensures Size(Rounded(n)) <= 0x1_0000_0000_0000_0000
    ensures Size(n) <= 0x8000_0000_0000_0000 ==> Size(Rounded(n)) <= 0x8000_0000_0000_0000
  {
    Powers();
    GapBound(Size(n), 11);
    HalfAGap(Size(n));
    PowerIsDouble(10);
    PowerIsDouble(11);
    NotPast(Size(n), 0x1_0000_0000_0000_0000);
    if Size(n) <= 0x8000_0000_0000_0000 { NotPast(Size(n), 0x8000_0000_0000_0000); }
  }
}
