/** Quotients and remainders. */
module Division {
  lemma AtLeast(d: int, k: int)
    requires d >= 1 && k >= 0
    ensures d * k >= k
  {
  }

  lemma SmallMultiple(d: int, r: int, k: int)
    requires -k < r < k && d * k == r
    ensures d == 0 && r == 0
  {
    if d >= 1 { AtLeast(d, k); }
    if d <= -1 { AtLeast(-d, k); }
  }

  lemma Distributes(a: int, b: int, k: int)
    ensures (a + b) * k == a * k + b * k && (a - b) * k == a * k - b * k
  {
  }

  lemma Divides(a: int, k: nat)
    requires k > 0
    ensures a == (a / k) * k + a % k
  {
  }

  /** Quotient and remainder are unique. */
  lemma Remainder(a: nat, k: nat, q: nat, r: nat)
    requires r < k && a == q * k + r
    ensures a % k == r && a / k == q
  {
    Divides(a, k);
    Distributes(q, a / k, k);
    SmallMultiple(q - a / k, a % k - r, k);
  }

  lemma Halves(b: nat, c: nat, h: nat)
    requires h >= 1 && c < 2
    ensures (2 * b + c) % (2 * h) == 2 * (b % h) + c
  {
    Divides(b, h);
    assert (b / h) * (2 * h) == 2 * ((b / h) * h);
    Remainder(2 * b + c, 2 * h, b / h, 2 * (b % h) + c);
  }

  /** The multiples of `g` on either side of `a`. */
  lemma Multiples(a: nat, g: nat)
    requires g > 0
    ensures (a - a % g) / g == a / g && (a - a % g + g) / g == a / g + 1
  {
    Divides(a, g);
    Distributes(a / g, 1, g);
    Remainder(a - a % g, g, a / g, 0);
    Remainder(a - a % g + g, g, a / g + 1, 0);
  }

  lemma SameRemainder(x: nat, y: nat, k: nat)
    requires k > 0 && y % k == 0
    ensures x % k == (x + y) % k
  {
    Divides(x, k);
    Divides(y, k);
    Distributes(x / k, y / k, k);
    Remainder(x + y, k, x / k + y / k, x % k);
  }

  lemma MultipleLeavesNothing(q: int, k: nat)
    requires k > 0
    ensures (q * k) % k == 0
  {
    Divides(q * k, k);
    Distributes(q, (q * k) / k, k);
    SmallMultiple(q - (q * k) / k, (q * k) % k, k);
  }

  /** In an interval as long as the modulus there is exactly one number of each remainder. */
  lemma WrapIsUnique(n: int, low: int, k: nat, m: int)
    requires k > 0 && -low <= m < k - low
    ensures (m - n) % k == 0 <==> m == (n + low) % k - low
  {
    var q, r := (n + low) / k, (n + low) % k;
    Divides(n + low, k);
    assert r - low - n == (-q) * k;
    if m == r - low { MultipleLeavesNothing(-q, k); }
    if (m - n) % k == 0 {
      Divides(m - n, k);
      var p := (m - n) / k;
      Distributes(p, q, k);
      SmallMultiple(p + q, m - (r - low), k);
    }
  }
}
