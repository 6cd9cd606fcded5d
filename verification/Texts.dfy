/** Byte-wise order of strings, as std::string has it, and prefixes. */
module Texts {
  predicate TextLess(s: string, t: string) {
    t != "" && (s == "" || (if s[0] == t[0] then TextLess(s[1..], t[1..]) else s[0] < t[0]))
  }

  lemma {:induction false} TextTrichotomy(s: string, t: string)
    ensures s == t ==> !TextLess(s, t)
    ensures s != t ==> (TextLess(s, t) <==> !TextLess(t, s))
  {
    if s != "" && t != "" && s[0] == t[0] {
      TextTrichotomy(s[1..], t[1..]);
      assert s == [s[0]] + s[1..] && t == [t[0]] + t[1..];
    }
  }

  lemma {:induction false} TextTransitive(s: string, t: string, u: string)
    requires TextLess(s, t) && TextLess(t, u)
    ensures TextLess(s, u)
  {
    if s != "" && s[0] == t[0] == u[0] { TextTransitive(s[1..], t[1..], u[1..]); }
  }

  /** A proper prefix comes first. */
  lemma {:induction false} PrefixIsLess(p: string, s: string)
    requires p <= s && p != s
    ensures TextLess(p, s)
  {
    if p != "" {
      assert p[1..] <= s[1..];
      assert p == [p[0]] + p[1..] && s == [s[0]] + s[1..];
      PrefixIsLess(p[1..], s[1..]);
    }
  }

  /** Whatever lies between a prefix of `s` and `s` has that prefix too. */
  lemma {:induction false} Between(p: string, q: string, s: string)
    requires p <= s && !TextLess(q, p) && !TextLess(s, q)
    ensures p <= q
  {
    if p != "" {
      assert q != "" && q[0] == p[0];
      Between(p[1..], q[1..], s[1..]);
      assert p == [p[0]] + p[1..] && q == [q[0]] + q[1..];
    }
  }

  /** Equal up to position `k`, where `s` ends or has the smaller character. */
  predicate TextDiffers(s: string, t: string, k: nat) {
    k <= |s| && k < |t| && s[..k] == t[..k] && (k == |s| || s[k] < t[k])
  }

  lemma SameStart(s: string, t: string, k: nat)
    requires TextDiffers(s, t, k) && k > 0
    ensures s[0] == t[0]
  {
    assert s[..k][0] == t[..k][0];
  }

  /** The order of texts is decided by their first difference. */
  lemma {:induction false} TextLessExactly(s: string, t: string)
    ensures TextLess(s, t) <==> exists k: nat :: TextDiffers(s, t, k)
    decreases |s|
  {
    if t != "" {
      if s == "" {
        assert TextDiffers(s, t, 0);
      } else if s[0] != t[0] {
        assert s[0] < t[0] ==> TextDiffers(s, t, 0);
        if k: nat :| TextDiffers(s, t, k) && k > 0 { SameStart(s, t, k); }
      } else {
        TextLessExactly(s[1..], t[1..]);
        forall k: nat | TextDiffers(s[1..], t[1..], k) ensures TextDiffers(s, t, k + 1) {
          assert s[..k + 1] == [s[0]] + s[1..][..k] && t[..k + 1] == [t[0]] + t[1..][..k];
        }
        forall k: nat | TextDiffers(s, t, k) ensures k > 0 && TextDiffers(s[1..], t[1..], k - 1) {
          assert s[1..][..k - 1] == s[..k][1..] && t[1..][..k - 1] == t[..k][1..];
        }
      }
    }
  }
}
