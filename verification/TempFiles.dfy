/** Temporary file names and the history they are looked up in (src/fileio/temp_files.cpp). */
module TempFiles {
  import opened Prelude
  import opened Decimals
  import opened Division
  import opened Texts

  const WIDTH: nat := 6

  // ---- names ----

  function Zeros(n: nat): (z: string)
    ensures |z| == n && forall i :: 0 <= i < n ==> z[i] == '0'
  {
    seq(n, _ => '0')
  }

  /** The counter, padded to six digits. */
  function Padded(n: nat): string {
    var d := Decimal(n);
    if |d| < WIDTH then Zeros(WIDTH - |d|) + d else d
  }

  /** The process's temporary directories: one for every configured location, none inside another. */
  predicate Directories(dirs: seq<string>) {
    && dirs != []
    && (forall i :: 0 <= i < |dirs| ==> dirs[i] != "" && dirs[i][|dirs[i]| - 1] == '/')
    && (forall i, j :: 0 <= i < |dirs| && 0 <= j < |dirs| && dirs[i] <= dirs[j] ==> dirs[i] == dirs[j])
  }

  /** Directories are used in turn. */
  function Dir(dirs: seq<string>, n: nat): string
    requires dirs != []
  {
    dirs[n % |dirs|]
  }

  function Name(dirs: seq<string>, n: nat): string
    requires dirs != []
  {
    Dir(dirs, n) + Padded(n)
  }

  lemma {:induction false} ValueOfPadded(k: nat, d: string)
    ensures Value(Zeros(k) + d) == Value(d)
    decreases k + |d|
  {
    var s := Zeros(k) + d;
    if d != "" {
      assert s[..|s| - 1] == Zeros(k) + d[..|d| - 1];
      ValueOfPadded(k, d[..|d| - 1]);
    } else if k > 0 {
      assert s[..|s| - 1] == Zeros(k - 1) + d;
      ValueOfPadded(k - 1, d);
    }
  }

  /** The number in decimal digits, at least six of them, with zeros in front only to make up six. */
  lemma PaddedMeaning(n: nat)
    ensures Value(Padded(n)) == n && |Padded(n)| >= 6 && (|Padded(n)| > 6 ==> Padded(n)[0] != '0')
    ensures forall i :: 0 <= i < |Padded(n)| ==> IsDigit(Padded(n)[i])
  {
    DecimalRoundTrip(n);
    if |Decimal(n)| < WIDTH { ValueOfPadded(WIDTH - |Decimal(n)|, Decimal(n)); } else if n > 0 { DecimalLeads(n); }
  }

  /** The first names go to the directories one after the other, and then it starts over. */
  lemma DirectoriesTakeTurns(dirs: seq<string>, n: nat)
    requires dirs != []
    ensures n < |dirs| ==> Dir(dirs, n) == dirs[n]
    ensures Dir(dirs, n + |dirs|) == Dir(dirs, n)
  {
    Remainder(|dirs|, |dirs|, 1, 0);
    SameRemainder(n, |dirs|, |dirs|);
    if n < |dirs| { Remainder(n, |dirs|, 0, n); }
  }

  lemma PaddedInjective(m: nat, n: nat)
    requires Padded(m) == Padded(n)
    ensures m == n
  {
    DecimalRoundTrip(m);
    DecimalRoundTrip(n);
    if |Decimal(m)| < WIDTH { ValueOfPadded(WIDTH - |Decimal(m)|, Decimal(m)); }
    if |Decimal(n)| < WIDTH { ValueOfPadded(WIDTH - |Decimal(n)|, Decimal(n)); }
  }

  lemma PaddedLength(n: nat)
    ensures |Padded(n)| == WIDTH <==> n < 1000000
  {
    DecimalLength(n, WIDTH);
    assert Tens(6) == 1000000 by {
      assert Tens(1) == 10 && Tens(2) == 100 && Tens(3) == 1000 && Tens(4) == 10000 && Tens(5) == 100000;
    }
  }

  lemma PaddedDigits(n: nat)
    ensures forall i :: 0 <= i < |Padded(n)| ==> IsDigit(Padded(n)[i])
  {
  }

  /** Six digits or more are left of `j` when some are dropped from its end, and they are those of `i`. */
  predicate Shortens(j: nat, i: nat) { i >= 100000 && j >= 10 && (j / 10 == i || Shortens(j / 10, i)) }

  lemma LongNumber(j: nat)
    requires j / 10 >= 100000
    ensures Padded(j) == Padded(j / 10) + [DigitChar(j % 10)]
  {
    assert Tens(5) == 100000 by { assert Tens(1) == 10 && Tens(2) == 100 && Tens(3) == 1000 && Tens(4) == 10000; }
    DecimalLength(j / 10, 5);
    assert Decimal(j) == Decimal(j / 10) + [DigitChar(j % 10)];
  }

  /** One padded number begins another exactly if it is what is left of the other when digits are dropped. */
  lemma {:induction false} PaddedPrefix(i: nat, j: nat)
    ensures Padded(i) <= Padded(j) && i != j <==> Shortens(j, i)
  {
    if j / 10 >= 100000 {
      LongNumber(j);
      PaddedPrefix(i, j / 10);
      if Padded(i) <= Padded(j) && i != j {
        if Padded(i) == Padded(j) { PaddedInjective(i, j); }
        assert Padded(i) <= Padded(j / 10);
        PaddedLength(j);
        PaddedAtLeast(i);
      }
    } else {
      NotShortened(j, i);
      PaddedLength(j);
      PaddedAtLeast(i);
      if Padded(i) <= Padded(j) { PaddedInjective(i, j); }
    }
  }

  lemma PaddedAtLeast(n: nat)
    ensures |Padded(n)| >= WIDTH
  {
  }

  lemma {:induction false} NotShortened(j: nat, i: nat)
    requires j < 1000000
    ensures !Shortens(j, i)
  {
    if j >= 10 { NotShortened(j / 10, i); }
  }

  /** Digits after a separator: one path begins the other exactly if the directory is the same and the digits do. */
  lemma PathPrefix(a: string, b: string, p: string, q: string)
    requires a != "" && a[|a| - 1] == '/' && (a <= b ==> a == b)
    requires forall i :: 0 <= i < |q| ==> IsDigit(q[i])
    ensures a + p <= b + q <==> a == b && p <= q
  {
    if a + p <= b + q {
      assert (a + p)[|a| - 1] == (b + q)[|a| - 1] == '/';
      assert |a| <= |b|;
      assert a == (a + p)[..|a|] == (b + q)[..|a|] == b[..|a|];
      assert p == (a + p)[|a|..] && q == (b + q)[|a|..];
    }
  }

  /** A name begins another exactly if both are in one directory and its number is the other's with digits dropped. */
  lemma NamePrefix(dirs: seq<string>, i: nat, j: nat)
    requires Directories(dirs)
    ensures Name(dirs, i) <= Name(dirs, j) && i != j <==> Dir(dirs, i) == Dir(dirs, j) && Shortens(j, i)
  {
    PaddedPrefix(i, j);
    PaddedDigits(j);
    PathPrefix(Dir(dirs, i), Dir(dirs, j), Padded(i), Padded(j));
  }

  lemma NameInjective(dirs: seq<string>, i: nat, j: nat)
    requires Directories(dirs) && Name(dirs, i) == Name(dirs, j)
    ensures i == j
  {
    NamePrefix(dirs, i, j);
    NamePrefix(dirs, j, i);
    if i != j { ShortensIsLess(i, j); ShortensIsLess(j, i); }
  }

  lemma {:induction false} ShortensIsLess(j: nat, i: nat)
    requires Shortens(j, i)
    ensures i < j
  {
    if j / 10 != i { ShortensIsLess(j / 10, i); }
  }

  /** Of the first `n` names none begins another. */
  predicate NoClash(dirs: seq<string>, n: nat)
    requires dirs != []
  {
    forall i, j {:trigger Shortens(j, i)} :: 0 <= i < n && 0 <= j < n && Shortens(j, i) ==> Dir(dirs, i) != Dir(dirs, j)
  }

  /** No name begins another as long as all have six digits. */
  lemma NamesApart(dirs: seq<string>, i: nat, j: nat)
    requires Directories(dirs) && i < 1000000 && j < 1000000 && Name(dirs, i) <= Name(dirs, j)
    ensures i == j
  {
    NamePrefix(dirs, i, j);
    NotShortened(j, i);
  }

  // ---- the history, an ordered set ----

  predicate Sorted(h: seq<string>) { forall i, j :: 0 <= i < j < |h| ==> TextLess(h[i], h[j]) }

  predicate PrefixFree(h: seq<string>) { forall i, j :: 0 <= i < |h| && 0 <= j < |h| && h[i] <= h[j] ==> i == j }

  /** The first entry not below `s`. */
  function LowerBound(h: seq<string>, s: string): (i: nat)
    ensures i <= |h|
  {
    if h != [] && TextLess(h[0], s) then 1 + LowerBound(h[1..], s) else 0
  }

  lemma {:induction false} LowerBoundSplits(h: seq<string>, s: string)
    requires Sorted(h)
    ensures forall k :: 0 <= k < LowerBound(h, s) ==> TextLess(h[k], s)
    ensures forall k :: LowerBound(h, s) <= k < |h| ==> !TextLess(h[k], s)
  {
    if h != [] {
      if TextLess(h[0], s) {
        LowerBoundSplits(h[1..], s);
        assert forall k :: 1 <= k < |h| ==> h[k] == h[1..][k - 1];
      } else {
        forall k | 0 < k < |h| ensures !TextLess(h[k], s) {
          if TextLess(h[k], s) { TextTransitive(h[0], h[k], s); }
        }
      }
    }
  }

  /** delete_temp_file's search: the lower bound, then its predecessor. */
  function Lookup(h: seq<string>, s: string): Option<nat> {
    var i := LowerBound(h, s);
    if i < |h| && h[i] <= s then Some(i)
    else if i > 0 && h[i - 1] <= s then Some(i - 1)
    else None
  }

  /** The two entries looked at are enough: the search finds the stored prefix of `s`, there being only one. */
  lemma LookupFinds(h: seq<string>, s: string, k: nat)
    requires Sorted(h) && PrefixFree(h) && k < |h| && h[k] <= s
    ensures Lookup(h, s) == Some(k)
  {
    var i := LowerBound(h, s);
    LowerBoundSplits(h, s);
    TextTrichotomy(h[k], s);
    if h[k] == s {
      if k > 0 { TextTrichotomy(h[k - 1], s); }
      assert i == k;
    } else {
      PrefixIsLess(h[k], s);
      assert k < i;
      if k < i - 1 { TextTrichotomy(h[k], h[i - 1]); } else { TextTrichotomy(h[k], h[k]); }
      TextTrichotomy(h[i - 1], s);
      Between(h[k], h[i - 1], s);
    }
  }

  ghost predicate HasPrefix(h: seq<string>, s: string) { exists k :: 0 <= k < |h| && h[k] <= s }

  /** The search answers as a scan of the whole history would. */
  ghost predicate Exact(h: seq<string>) { forall s: string :: Lookup(h, s).Some? <==> HasPrefix(h, s) }

  lemma PrefixFreeIsExact(h: seq<string>)
    requires Sorted(h) && PrefixFree(h)
    ensures Exact(h)
  {
    forall s: string ensures Lookup(h, s).Some? <==> HasPrefix(h, s) {
      assert Lookup(h, s).Some? ==> HasPrefix(h, s);
      if HasPrefix(h, s) {
        var k :| 0 <= k < |h| && h[k] <= s;
        LookupFinds(h, s, k);
      }
    }
  }

  // ---- runs ----

  datatype State = State(counter: nat, history: seq<string>)

  datatype Step = Get | Delete(name: string) | DeleteAll(names: seq<string>)

  function Inserted(h: seq<string>, s: string): seq<string> {
    var i := LowerBound(h, s);
    h[..i] + [s] + h[i..]
  }

  function DeleteOne(h: seq<string>, s: string): seq<string> {
    if Lookup(h, s).Some? then Without(h, Lookup(h, s).value) else h
  }

  /** The entries delete_temp_files finds for one file; here both places are always looked at. */
  function Found(h: seq<string>, s: string): set<string> {
    var i := LowerBound(h, s);
    (if i < |h| && h[i] <= s then {h[i]} else {}) + (if i > 0 && h[i - 1] <= s then {h[i - 1]} else {})
  }

  function FoundAll(h: seq<string>, names: seq<string>): set<string> {
    if names == [] then {} else FoundAll(h, names[..|names| - 1]) + Found(h, names[|names| - 1])
  }

  /** The history without the given entries, order kept. */
  function Remaining(h: seq<string>, gone: set<string>): seq<string> {
    if h == [] then []
    else Remaining(h[..|h| - 1], gone) + if h[|h| - 1] in gone then [] else [h[|h| - 1]]
  }

  function Apply(dirs: seq<string>, s: State, st: Step): State
    requires dirs != []
  {
    match st
    case Get => State(s.counter + 1, Inserted(s.history, Name(dirs, s.counter)))
    case Delete(name) => s.(history := DeleteOne(s.history, name))
    case DeleteAll(names) => s.(history := Remaining(s.history, FoundAll(s.history, names)))
  }

  function After(dirs: seq<string>, s: State, steps: seq<Step>): State
    requires dirs != []
    decreases |steps|
  {
    if steps == [] then s else After(dirs, Apply(dirs, s, steps[0]), steps[1..])
  }

  ghost predicate Issued(dirs: seq<string>, n: nat, s: string)
    requires dirs != []
  {
    exists m: nat :: m < n && s == Name(dirs, m)
  }

  ghost predicate Inv(dirs: seq<string>, s: State)
    requires dirs != []
  {
    Sorted(s.history) && forall i :: 0 <= i < |s.history| ==> Issued(dirs, s.counter, s.history[i])
  }

  lemma InsertKeepsOrder(h: seq<string>, s: string)
    requires Sorted(h) && s !in h
    ensures Sorted(Inserted(h, s))
  {
    LowerBoundSplits(h, s);
    var i := LowerBound(h, s);
    forall k | i <= k < |h| ensures TextLess(s, h[k]) { TextTrichotomy(s, h[k]); }
  }

  lemma {:induction false} RemainingIsSubsequence(h: seq<string>, gone: set<string>)
    requires Sorted(h)
    ensures var r := Remaining(h, gone); Sorted(r) && forall s :: s in r <==> s in h && s !in gone
  {
    if h != [] {
      var front := h[..|h| - 1];
      RemainingIsSubsequence(front, gone);
      assert h == front + [h[|h| - 1]];
      var r := Remaining(front, gone);
      forall k | 0 <= k < |r| ensures TextLess(r[k], h[|h| - 1]) {
        assert r[k] in front;
        var j :| 0 <= j < |front| && front[j] == r[k];
        assert h[j] == r[k];
      }
    }
  }

  lemma NewNameIsNew(dirs: seq<string>, s: State)
    requires Directories(dirs) && Inv(dirs, s)
    ensures Name(dirs, s.counter) !in s.history
  {
    forall i | 0 <= i < |s.history| ensures s.history[i] != Name(dirs, s.counter) {
      assert Issued(dirs, s.counter, s.history[i]);
      var m: nat :| m < s.counter && s.history[i] == Name(dirs, m);
      if Name(dirs, m) == Name(dirs, s.counter) { NameInjective(dirs, m, s.counter); }
    }
  }

  lemma GetKeeps(dirs: seq<string>, s: State)
    requires Directories(dirs) && Inv(dirs, s)
    ensures Inv(dirs, Apply(dirs, s, Get))
  {
    var t := Apply(dirs, s, Get);
    NewNameIsNew(dirs, s);
    InsertKeepsOrder(s.history, Name(dirs, s.counter));
    forall i | 0 <= i < |t.history| ensures Issued(dirs, t.counter, t.history[i]) {
      if t.history[i] != Name(dirs, s.counter) {
        assert t.history[i] in s.history;
        var m: nat :| m < s.counter && t.history[i] == Name(dirs, m);
      }
    }
  }

  /** Whatever is kept of the history was issued. */
  lemma SubsetKeeps(dirs: seq<string>, s: State, h: seq<string>)
    requires dirs != [] && Inv(dirs, s) && Sorted(h) && forall x :: x in h ==> x in s.history
    ensures Inv(dirs, s.(history := h))
  {
    forall i | 0 <= i < |h| ensures Issued(dirs, s.counter, h[i]) { assert h[i] in s.history; }
  }

  lemma DeleteOneKeeps(h: seq<string>, s: string)
    requires Sorted(h)
    ensures Sorted(DeleteOne(h, s)) && forall x :: x in DeleteOne(h, s) ==> x in h
  {
  }

  lemma StepKeeps(dirs: seq<string>, s: State, st: Step)
    requires Directories(dirs) && Inv(dirs, s)
    ensures Inv(dirs, Apply(dirs, s, st))
  {
    match st
    case Get => GetKeeps(dirs, s);
    case Delete(name) =>
      DeleteOneKeeps(s.history, name);
      SubsetKeeps(dirs, s, DeleteOne(s.history, name));
    case DeleteAll(names) =>
      RemainingIsSubsequence(s.history, FoundAll(s.history, names));
      SubsetKeeps(dirs, s, Remaining(s.history, FoundAll(s.history, names)));
  }

  lemma {:induction false} RunKeeps(dirs: seq<string>, s: State, steps: seq<Step>)
    requires Directories(dirs) && Inv(dirs, s)
    ensures Inv(dirs, After(dirs, s, steps))
    decreases |steps|
  {
    if steps != [] {
      StepKeeps(dirs, s, steps[0]);
      RunKeeps(dirs, Apply(dirs, s, steps[0]), steps[1..]);
    }
  }

  const START := State(0, [])

  /** In every run whose names do not clash, the history is prefix-free and the search exact. */
  lemma NoClashIsExact(dirs: seq<string>, steps: seq<Step>)
    requires Directories(dirs) && NoClash(dirs, After(dirs, START, steps).counter)
    ensures PrefixFree(After(dirs, START, steps).history) && Exact(After(dirs, START, steps).history)
  {
    RunKeeps(dirs, START, steps);
    var s := After(dirs, START, steps);
    forall i, j | 0 <= i < |s.history| && 0 <= j < |s.history| && s.history[i] <= s.history[j] ensures i == j {
      assert Issued(dirs, s.counter, s.history[i]) && Issued(dirs, s.counter, s.history[j]);
      var m: nat :| m < s.counter && s.history[i] == Name(dirs, m);
      var n: nat :| n < s.counter && s.history[j] == Name(dirs, n);
      NamePrefix(dirs, m, n);
      if i < j { TextTrichotomy(s.history[i], s.history[j]); }
      if j < i { TextTrichotomy(s.history[j], s.history[i]); }
    }
    PrefixFreeIsExact(s.history);
  }

  /** A million names never clash, however many directories there are. */
  lemma SearchIsExact(dirs: seq<string>, steps: seq<Step>)
    requires Directories(dirs) && After(dirs, START, steps).counter <= 1000000
    ensures PrefixFree(After(dirs, START, steps).history) && Exact(After(dirs, START, steps).history)
  {
    FirstMillion(dirs, After(dirs, START, steps).counter);
    NoClashIsExact(dirs, steps);
  }

  lemma FirstMillion(dirs: seq<string>, n: nat)
    requires dirs != [] && n <= 1000000
    ensures NoClash(dirs, n)
  {
    forall i, j | 0 <= i < n && 0 <= j < n && Shortens(j, i) ensures false { NotShortened(j, i); }
  }

  // ---- one name more ----

  lemma {:induction false} AfterAppend(dirs: seq<string>, s: State, steps: seq<Step>, st: Step)
    requires dirs != []
    ensures After(dirs, s, steps + [st]) == Apply(dirs, After(dirs, s, steps), st)
    decreases |steps|
  {
    if steps == [] {
      assert steps + [st] == [st] && [st][1..] == [];
      assert After(dirs, Apply(dirs, s, st), []) == Apply(dirs, s, st);
    } else {
      assert (steps + [st])[1..] == steps[1..] + [st];
      AfterAppend(dirs, Apply(dirs, s, steps[0]), steps[1..], st);
    }
  }

  function Gets(n: nat): seq<Step> { seq(n, _ => Get) }

  lemma InsertedHas(h: seq<string>, s: string)
    ensures forall x :: x in Inserted(h, s) <==> x in h || x == s
  {
    var i := LowerBound(h, s);
    assert h == h[..i] + h[i..];
  }

  /** The first `n` names were issued and are all in the history. */
  ghost predicate AllKept(dirs: seq<string>, s: State, n: nat)
    requires dirs != []
  {
    s.counter == n && forall m {:trigger Keeps(dirs, s, m)} :: 0 <= m < n ==> Keeps(dirs, s, m)
  }

  lemma OneMoreIssued(dirs: seq<string>, s: State, n: nat)
    requires dirs != [] && AllKept(dirs, s, n)
    ensures AllKept(dirs, Apply(dirs, s, Get), n + 1)
  {
    forall m | 0 <= m < n + 1 ensures Keeps(dirs, Apply(dirs, s, Get), m) { OneMoreKept(dirs, s, m); }
  }

  /** Issuing `n` names and deleting none leaves all of them in the history. */
  lemma {:induction false} AllIssued(dirs: seq<string>, n: nat)
    requires dirs != []
    ensures AllKept(dirs, After(dirs, START, Gets(n)), n)
  {
    if n > 0 {
      AllIssued(dirs, n - 1);
      OneMoreIssued(dirs, After(dirs, START, Gets(n - 1)), n - 1);
      AfterAppend(dirs, START, Gets(n - 1), Get);
      assert Gets(n) == Gets(n - 1) + [Get];
    }
  }

  /** Name `m` is in the history. */
  predicate Keeps(dirs: seq<string>, s: State, m: nat)
    requires dirs != []
  {
    Name(dirs, m) in s.history
  }

  lemma OneMoreKept(dirs: seq<string>, s: State, m: nat)
    requires dirs != [] && m <= s.counter && (m < s.counter ==> Keeps(dirs, s, m))
    ensures Keeps(dirs, Apply(dirs, s, Get), m)
  {
    InsertedHas(s.history, Name(dirs, s.counter));
  }

  lemma NamesEndInDigits(dirs: seq<string>, n: nat)
    requires dirs != []
    ensures IsDigit(Name(dirs, n)[|Name(dirs, n)| - 1])
  {
  }

  lemma {:induction false} DigitsFirst(p: string, q: string)
    requires p <= q && p != q && IsDigit(q[|p|])
    ensures TextLess(q, p + "a")
  {
    if p != "" {
      DigitsFirst(p[1..], q[1..]);
      assert (p + "a")[1..] == p[1..] + "a";
    }
  }

  lemma NotAPrefixAbove(r: string, file: string)
    requires !TextLess(r, file) && r != file
    ensures !(r <= file)
  {
    if r <= file { PrefixIsLess(r, file); }
  }

  lemma NotAPrefixBelow(r: string, p: string, q: string)
    requires p <= q && TextLess(r, p + "a") && !TextLess(r, q) && r != p
    ensures !(r <= p + "a")
  {
    TextTrichotomy(r, p + "a");
    if r <= p + "a" {
      assert r <= p;
      assert r <= q && r != q;
      PrefixIsLess(r, q);
    }
  }

  /** An entry that continues `p` with a digit stands between `p` and the file `p + "a"`, and hides `p` from the
      search. */
  lemma HiddenEntry(h: seq<string>, p: string, q: string)
    requires Sorted(h) && p in h && q in h && p <= q && p != q && IsDigit(q[|p|]) && p + "a" !in h
    ensures !Exact(h)
  {
    var file := p + "a";
    DigitsFirst(p, q);
    PrefixIsLess(p, q);
    LowerBoundSplits(h, file);
    var i := LowerBound(h, file);
    var k :| 0 <= k < |h| && h[k] == q;
    assert k < i && !TextLess(h[i - 1], q) by { TextTrichotomy(q, h[i - 1]); }
    NotAPrefixBelow(h[i - 1], p, q);
    if i < |h| { NotAPrefixAbove(h[i], file); }
    assert Lookup(h, file).None?;
    assert p <= file && HasPrefix(h, file);
  }

  lemma NoLetters(dirs: seq<string>, s: State, p: string)
    requires dirs != [] && Inv(dirs, s)
    ensures p + "a" !in s.history
  {
    forall i | 0 <= i < |s.history| ensures s.history[i] != p + "a" {
      assert Issued(dirs, s.counter, s.history[i]);
      var j: nat :| j < s.counter && s.history[i] == Name(dirs, j);
      NamesEndInDigits(dirs, j);
    }
  }

  lemma ContinuesWithADigit(dirs: seq<string>, m: nat, n: nat)
    requires Directories(dirs) && Dir(dirs, m) == Dir(dirs, n) && Shortens(n, m)
    ensures var p, q := Name(dirs, m), Name(dirs, n); p <= q && p != q && IsDigit(q[|p|])
  {
    var p, q := Name(dirs, m), Name(dirs, n);
    NamePrefix(dirs, m, n);
    if p == q { NameInjective(dirs, m, n); }
    PaddedDigits(n);
    assert q[|p|] == Padded(n)[|Padded(m)|];
  }

  lemma HiddenName(dirs: seq<string>, s: State, m: nat, n: nat)
    requires Directories(dirs) && Inv(dirs, s) && Keeps(dirs, s, m) && Keeps(dirs, s, n)
    requires Dir(dirs, m) == Dir(dirs, n) && Shortens(n, m)
    ensures !Exact(s.history)
  {
    ContinuesWithADigit(dirs, m, n);
    NoLetters(dirs, s, Name(dirs, m));
    HiddenEntry(s.history, Name(dirs, m), Name(dirs, n));
  }

  /** The search is exact in all runs that issue at most `n` names. */
  ghost predicate ExactUpTo(dirs: seq<string>, n: nat)
    requires dirs != []
  {
    forall steps :: After(dirs, START, steps).counter <= n ==> Exact(After(dirs, START, steps).history)
  }

  /** It is exactly if no two of these names that share a directory differ only in digits dropped from the end. */
  lemma ExactlyWithoutClashes(dirs: seq<string>, n: nat)
    requires Directories(dirs)
    ensures ExactUpTo(dirs, n) <==> NoClash(dirs, n)
  {
    if NoClash(dirs, n) {
      forall steps | After(dirs, START, steps).counter <= n ensures Exact(After(dirs, START, steps).history) {
        NoClashIsExact(dirs, steps);
      }
    } else {
      var i, j :| 0 <= i < n && 0 <= j < n && Shortens(j, i) && Dir(dirs, i) == Dir(dirs, j);
      AllIssued(dirs, n);
      RunKeeps(dirs, START, Gets(n));
      var s := After(dirs, START, Gets(n));
      assert Keeps(dirs, s, i) && Keeps(dirs, s, j);
      HiddenName(dirs, s, i, j);
    }
  }

  /** With one directory, or any number of them that divides 900000, that means: at most a million names. */
  lemma ExactlyAMillionNames(dirs: seq<string>, n: nat)
    requires Directories(dirs) && 900000 % |dirs| == 0
    ensures ExactUpTo(dirs, n) <==> n <= 1000000
  {
    ExactlyWithoutClashes(dirs, n);
    if n <= 1000000 {
      FirstMillion(dirs, n);
    } else {
      assert Shortens(1000000, 100000);
      SameRemainder(100000, 900000, |dirs|);
    }
  }

  // ---- deleting many ----

  lemma FoundIsLookup(h: seq<string>, s: string)
    requires Sorted(h) && PrefixFree(h)
    ensures forall p :: p in Found(h, s) <==> p in h && p <= s
  {
    forall p | p in h && p <= s ensures p in Found(h, s) {
      var k :| 0 <= k < |h| && h[k] == p;
      LookupFinds(h, s, k);
    }
  }

  predicate StartsOne(p: string, names: seq<string>) { exists k :: 0 <= k < |names| && p <= names[k] }

  lemma StartsOneSnoc(p: string, names: seq<string>)
    requires names != []
    ensures StartsOne(p, names) <==> StartsOne(p, names[..|names| - 1]) || p <= names[|names| - 1]
  {
    var front := names[..|names| - 1];
    assert forall k :: 0 <= k < |front| ==> names[k] == front[k];
  }

  lemma {:induction false} FoundAllMeans(h: seq<string>, names: seq<string>, p: string)
    requires Sorted(h) && PrefixFree(h)
    ensures p in FoundAll(h, names) <==> p in h && StartsOne(p, names)
    decreases |names|
  {
    if names != [] {
      FoundAllMeans(h, names[..|names| - 1], p);
      FoundIsLookup(h, names[|names| - 1]);
      StartsOneSnoc(p, names);
    }
  }

  /** delete_temp_files forgets exactly the entries that are prefixes of a given file. */
  lemma DeleteAllForgets(h: seq<string>, names: seq<string>, p: string)
    requires Sorted(h) && PrefixFree(h)
    ensures p in FoundAll(h, names) <==> p in h && StartsOne(p, names)
    ensures p in Remaining(h, FoundAll(h, names)) <==> p in h && !StartsOne(p, names)
  {
    FoundAllMeans(h, names, p);
    RemainingIsSubsequence(h, FoundAll(h, names));
  }

  /** delete_temp_file forgets the one entry that the file begins with, if there is one. */
  lemma DeleteForgets(h: seq<string>, s: string, p: string)
    requires Sorted(h) && PrefixFree(h)
    ensures p in DeleteOne(h, s) <==> p in h && !(p <= s)
  {
    if Lookup(h, s).Some? {
      var k := Lookup(h, s).value;
      assert h == h[..k] + [h[k]] + h[k + 1..];
      if p in h && p <= s {
        var j :| 0 <= j < |h| && h[j] == p;
        LookupFinds(h, s, j);
        GoneOnce(h, k);
      } else {
        assert p in h ==> p in Without(h, k);
      }
    } else if p in h && p <= s {
      var j :| 0 <= j < |h| && h[j] == p;
      LookupFinds(h, s, j);
    }
  }

  lemma GoneOnce(h: seq<string>, k: nat)
    requires PrefixFree(h) && k < |h|
    ensures h[k] !in Without(h, k)
  {
    var r := Without(h, k);
    forall i | 0 <= i < |r| ensures r[i] != h[k] { assert r[i] == h[if i < k then i else i + 1]; }
  }

  /** The step makes the history forget entry `p`. */
  predicate Forgets(st: Step, p: string) {
    match st
    case Get => false
    case Delete(name) => p <= name
    case DeleteAll(names) => StartsOne(p, names)
  }

  /** While names do not clash, the history holds after every step the new name and what it held, less what the step
      deletes. */
  lemma HistoryTells(dirs: seq<string>, steps: seq<Step>, st: Step, p: string)
    requires Directories(dirs) && NoClash(dirs, After(dirs, START, steps).counter)
    ensures var s := After(dirs, START, steps);
      p in Apply(dirs, s, st).history <==>
        (p in s.history && !Forgets(st, p)) || (st.Get? && p == Name(dirs, s.counter))
  {
    NoClashIsExact(dirs, steps);
    RunKeeps(dirs, START, steps);
    var s := After(dirs, START, steps);
    match st
    case Get => InsertedHas(s.history, Name(dirs, s.counter));
    case Delete(name) => DeleteForgets(s.history, name, p);
    case DeleteAll(names) => DeleteAllForgets(s.history, names, p);
  }

  /** Of the files to delete exactly those are unlinked that begin with an entry, each as often as it is named. */
  lemma {:induction false} UnlinkedExactly(h: seq<string>, names: seq<string>, s: string)
    requires Sorted(h) && PrefixFree(h)
    ensures multiset(Unlinked(h, names))[s] == if HasPrefix(h, s) then multiset(names)[s] else 0
    decreases |names|
  {
    if names != [] {
      var front, last := names[..|names| - 1], names[|names| - 1];
      UnlinkedExactly(h, front, s);
      FoundSome(h, last);
      assert names == front + [last];
      CountLast(front, last, s);
      CountLast(Unlinked(h, front), last, s);
    }
  }

  lemma CountLast(front: seq<string>, last: string, s: string)
    ensures multiset(front + [last])[s] == multiset(front)[s] + if last == s then 1 else 0
    ensures multiset(front + [])[s] == multiset(front)[s]
  {
    assert front + [] == front;
  }

  lemma FoundSome(h: seq<string>, s: string)
    requires Sorted(h) && PrefixFree(h)
    ensures Found(h, s) != {} <==> HasPrefix(h, s)
  {
    FoundIsLookup(h, s);
    if HasPrefix(h, s) {
      var k :| 0 <= k < |h| && h[k] <= s;
      assert h[k] in Found(h, s);
    }
  }

  // ---- in place ----

  class TempNames {
    const dirs: seq<string>
    var counter: nat
    var history: seq<string>

    function Contents(): State
      reads this
    {
      State(counter, history)
    }

    constructor (dirs: seq<string>)
      requires dirs != []
      ensures this.dirs == dirs && Contents() == START
    {
      this.dirs := dirs;
      counter, history := 0, [];
    }

    method GetTempName() returns (name: string)
      requires dirs != []
      modifies this
      ensures name == Name(dirs, old(counter)) && Contents() == Apply(dirs, old(Contents()), Get)
    {
      name := Name(dirs, counter);
      counter := counter + 1;
      history := Inserted(history, name);
    }

    /** Whether the file is to be unlinked. */
    method DeleteTempFile(s: string) returns (found: bool)
      requires dirs != []
      modifies this
      ensures found == Lookup(old(history), s).Some? && Contents() == Apply(dirs, old(Contents()), Delete(s))
    {
      found := false;
      var i := LowerBound(history, s);
      if i < |history| && history[i] <= s {
        found := true;
        history := Without(history, i);
      } else if i > 0 {
        i := i - 1;
        if history[i] <= s {
          found := true;
          history := Without(history, i);
        }
      }
    }

    /** The files to be unlinked, in order. */
    method DeleteTempFiles(names: seq<string>) returns (unlinked: seq<string>)
      requires dirs != []
      modifies this
      ensures Contents() == Apply(dirs, old(Contents()), DeleteAll(names))
      ensures unlinked == Unlinked(old(history), names)
    {
      var gone: set<string> := {};
      unlinked := [];
      for k := 0 to |names|
        invariant history == old(history) && counter == old(counter)
        invariant gone == FoundAll(history, names[..k]) && unlinked == Unlinked(history, names[..k])
      {
        assert names[..k + 1][..k] == names[..k];
        var file := names[k];
        var found := false;
        var i := LowerBound(history, file);
        if i < |history| && history[i] <= file {
          found := true;
          gone := gone + {history[i]};
        }
        if i > 0 {
          i := i - 1;
          if history[i] <= file {
            found := true;
            gone := gone + {history[i]};
          }
        }
        if found {
          unlinked := unlinked + [file];
        }
      }
      assert names[..|names|] == names;
      history := Remaining(history, gone);
    }
  }

  function Unlinked(h: seq<string>, names: seq<string>): seq<string> {
    if names == [] then []
    else
      var last := names[|names| - 1];
      Unlinked(h, names[..|names| - 1]) + if Found(h, last) != {} then [last] else []
  }
}
