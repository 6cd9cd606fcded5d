/**
  The names under which one object key is registered in the key-value store
  (src/fault/query_object_server_common.cpp).
 */
module ObjectKeys {
  import opened Decimals

  /** Serving process `n` (0 is the master), or the address the master publishes on. */
  datatype Role = Server(n: nat) | Publisher

  function NameOf(key: string, role: Role): string {
    match role
    case Server(n) => if n == 0 then key else key + "." + Decimal(n)
    case Publisher => key + ".PUB"
  }

  /** Everything after the first dot, dot included. */
  function Suffix(role: Role): string {
    match role
    case Server(n) => if n == 0 then "" else "." + Decimal(n)
    case Publisher => ".PUB"
  }

  lemma SuffixInjective(r: Role, q: Role)
    requires Suffix(r) == Suffix(q)
    ensures r == q
  {
    assert ".PUB"[1] == 'P';
    if r.Server? && q.Server? && r.n != 0 && q.n != 0 {
      assert Decimal(r.n) == Suffix(r)[1..] == Suffix(q)[1..] == Decimal(q.n);
      DecimalInjective(r.n, q.n);
    }
  }

  /** Two dotless keys followed by suffixes that are empty or start with a dot can only agree part by part. */
  lemma SplitAtDot(k: string, l: string, s: string, t: string)
    requires '.' !in k && '.' !in l && k + s == l + t
    requires s == "" || s[0] == '.'
    requires t == "" || t[0] == '.'
    ensures k == l && s == t
  {
    var whole := k + s;
    assert forall i :: 0 <= i < |k| ==> whole[i] == k[i];
    assert forall i :: 0 <= i < |l| ==> whole[i] == l[i];
    assert s != "" ==> whole[|k|] == s[0];
    assert t != "" ==> whole[|l|] == t[0];
    assert k == (k + s)[..|k|] && l == (l + t)[..|l|];
    assert s == (k + s)[|k|..] && t == (l + t)[|l|..];
  }

  /** Names of different keys or different roles never collide when keys contain no dot. */
  lemma NamesNeverCollide(k: string, l: string, r: Role, q: Role)
    requires '.' !in k && '.' !in l
    ensures NameOf(k, r) == NameOf(l, q) <==> k == l && r == q
  {
    assert NameOf(k, r) == k + Suffix(r) && NameOf(l, q) == l + Suffix(q);
    if NameOf(k, r) == NameOf(l, q) {
      SplitAtDot(k, l, Suffix(r), Suffix(q));
      SuffixInjective(r, q);
    }
  }

  /** A replica's name is its key, a dot and its number, which can be read back; the master's is the key alone. */
  lemma NamesShowNumbers(k: string, n: nat)
    ensures NameOf(k, Publisher) == k + ".PUB"
    ensures n == 0 ==> NameOf(k, Server(n)) == k
    ensures n > 0 ==> k + "." <= NameOf(k, Server(n)) && Value(NameOf(k, Server(n))[|k| + 1..]) == n
  {
    DecimalRoundTrip(n);
    if n > 0 { assert NameOf(k, Server(n))[|k| + 1..] == Decimal(n); }
  }

  /** Every dotted name is already a name of some other key: the rule against dots cannot be dropped. */
  lemma DottedKeysCollide(k: string, r: Role)
    requires r != Server(0)
    ensures '.' in NameOf(k, r) && NameOf(NameOf(k, r), Server(0)) == NameOf(k, r) && NameOf(k, r) != k
  {
    assert NameOf(k, r) == k + Suffix(r) && NameOf(k, r)[|k|] == '.';
  }

  /** The elections: an insert that succeeds only on an absent name. */
  class Store {
    var holders: map<string, nat>

    constructor ()
      ensures holders == map[]
    {
      holders := map[];
    }

    method Elect(key: string, role: Role, who: nat) returns (won: bool)
      modifies this
      ensures won <==> NameOf(key, role) !in old(holders)
      ensures holders == if won then old(holders)[NameOf(key, role) := who] else old(holders)
    {
      var name := NameOf(key, role);
      won := name !in holders;
      if won {
        holders := holders[name := who];
      }
    }
  }
}
