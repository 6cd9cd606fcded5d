/**
  The pool with other threads in between: delete_path gives up the pool's mutex before it removes the file, and the
  last reference to a handle is gone before its destructor removes the file (src/fileio/fs_utils.cpp,
  src/fileio/file_ownership_handle.hpp).  When does a removal hit a file that is in use?
 */
module FileRaces {
  import opened Prelude
  import opened FilePool

  /** `doomed` lists the paths some thread has decided to remove and not removed yet. */
  datatype Threads = Threads(s: State, doomed: seq<string>)

  datatype Move =
    | Whole(st: Step)
    | BeginDelete(path: string)
    | BeginDrop(h: nat)
    | Finish(i: nat)

  predicate CanMove(c: Threads, mv: Move) {
    match mv
    case Whole(st) => (st.Register? || st.Copy? || st.Put?) && Enabled(c.s, st)
    case BeginDelete(_) => true
    case BeginDrop(h) => Live(c.s, h)
    case Finish(i) => i < |c.doomed|
  }

  /** delete_path up to delete_path_impl: the path to remove, if it comes to that. */
  function Mark(s: State, path: string): (State, seq<string>) {
    if KindOf(s, path) == Missing then (s, [])
    else if KindOf(s, path) == Regular then
      var (s1, found) := Get(s, path);
      if found.Some? && found.value < |s1.handles| then
        (s1.(handles := s1.handles[found.value := s1.handles[found.value].(flag := true)]), [])
      else (s1, [path])
    else (s, [path])
  }

  /** What the destructor of a handle will remove when this reference goes. */
  function Dooms(s: State, h: nat): seq<string>
    requires Live(s, h)
  {
    var k := s.handles[h];
    if k.refs == 1 && k.flag && k.path != "" then [k.path] else []
  }

  function Next(c: Threads, mv: Move): Threads
    requires CanMove(c, mv)
  {
    match mv
    case Whole(st) => c.(s := Apply(c.s, st).0)
    case BeginDelete(path) => Threads(Mark(c.s, path).0, c.doomed + Mark(c.s, path).1)
    case BeginDrop(h) => Threads(AddRef(c.s, h, -1), c.doomed + Dooms(c.s, h))
    case Finish(i) => Threads(Erase(c.s, c.doomed[i]), Without(c.doomed, i))
  }

  /** With nothing in between, the two parts are the whole operation. */
  lemma DeleteInTwoParts(s: State, path: string)
    ensures var (t, doomed) := Mark(s, path);
      Delete(s, path).0 == if doomed == [] then t else Erase(t, doomed[0])
  {
  }

  lemma DropInTwoParts(s: State, h: nat)
    requires Live(s, h)
    ensures DropRef(s, h) == if Dooms(s, h) == [] then AddRef(s, h, -1) else Erase(AddRef(s, h, -1), Dooms(s, h)[0])
  {
  }

  predicate Moves(c: Threads, moves: seq<Move>)
    decreases |moves|
  {
    moves == [] || (CanMove(c, moves[0]) && Moves(Next(c, moves[0]), moves[1..]))
  }

  function After(c: Threads, moves: seq<Move>): Threads
    requires Moves(c, moves)
    decreases |moves|
  {
    if moves == [] then c else After(Next(c, moves[0]), moves[1..])
  }

  lemma SamePool(s: State, t: State)
    requires Inv(s) && t.handles == s.handles && t.pool == s.pool
    ensures Inv(t)
  {
    forall h | 0 <= h < |t.handles| ensures HandleOk(t, h) { assert HandleOk(s, h); }
  }

  lemma MoveKeeps(c: Threads, mv: Move)
    requires Inv(c.s) && CanMove(c, mv)
    ensures Inv(Next(c, mv).s)
  {
    match mv
    case Whole(st) => StepKeeps(c.s, st, Sweeps(c.s));
    case BeginDelete(path) =>
      DeleteKeeps(c.s, path);
      SamePool(Delete(c.s, path).0, Next(c, mv).s);
    case BeginDrop(h) =>
      DropKeeps(c.s, h);
      SamePool(DropRef(c.s, h), Next(c, mv).s);
    case Finish(i) => SamePool(c.s, Next(c, mv).s);
  }

  lemma {:induction false} MovesKeep(c: Threads, moves: seq<Move>)
    requires Inv(c.s) && Moves(c, moves)
    ensures Inv(After(c, moves).s)
    decreases |moves|
  {
    if moves != [] {
      MoveKeeps(c, moves[0]);
      MovesKeep(Next(c, moves[0]), moves[1..]);
    }
  }

  /** Some live handle is on the path. */
  ghost predicate InUse(s: State, path: string) { exists h: nat :: Live(s, h) && s.handles[h].path == path }

  lemma RegisterUses(s: State, path: string, p: string)
    requires Inv(s) && !InUse(s, p)
    ensures InUse(Apply(s, Register(path)).0, p) <==> path == p
  {
    GetMeaning(s, path);
    var (t, h) := RegisterWith(s, path, Sweeps(s));
    assert Live(t, h) && t.handles[h].path == path;
    forall k: nat | Live(t, k) && k != h ensures Live(s, k) && s.handles[k].path == t.handles[k].path { }
  }

  /** A path nobody uses comes into use by registering it, and in no other way. */
  lemma OnlyRegisterUses(c: Threads, mv: Move, p: string)
    requires Inv(c.s) && CanMove(c, mv) && !InUse(c.s, p)
    ensures InUse(Next(c, mv).s, p) <==> mv == Whole(Register(p))
  {
    if mv.Whole? && mv.st.Register? {
      RegisterUses(c.s, mv.st.path, p);
    } else {
      var t := Next(c, mv).s;
      forall k: nat | Live(t, k) ensures t.handles[k].path != p { assert Live(c.s, k); }
    }
  }

  /** The path is in use at some point of the moves, their ends included. */
  ghost predicate EverInUse(c: Threads, moves: seq<Move>, p: string)
    requires Moves(c, moves)
    decreases |moves|
  {
    InUse(c.s, p) || (moves != [] && EverInUse(Next(c, moves[0]), moves[1..], p))
  }

  lemma {:induction false} UsedExactlyIfRegistered(c: Threads, moves: seq<Move>, p: string)
    requires Inv(c.s) && Moves(c, moves) && !InUse(c.s, p)
    ensures EverInUse(c, moves, p) <==> Whole(Register(p)) in moves
    ensures InUse(After(c, moves).s, p) ==> EverInUse(c, moves, p)
    decreases |moves|
  {
    if moves != [] {
      assert moves == [moves[0]] + moves[1..];
      MoveKeeps(c, moves[0]);
      OnlyRegisterUses(c, moves[0], p);
      if moves[0] != Whole(Register(p)) {
        UsedExactlyIfRegistered(Next(c, moves[0]), moves[1..], p);
      }
    }
  }

  const START := Threads(EMPTY, [])

  /** The move decides to remove `p`, a regular file or the file of a handle whose last reference goes. */
  predicate Condemns(c: Threads, mv: Move, p: string)
    requires CanMove(c, mv)
  {
    match mv
    case BeginDelete(path) => KindOf(c.s, path) == Regular && Mark(c.s, path).1 == [p]
    case BeginDrop(h) => Dooms(c.s, h) == [p]
    case _ => false
  }

  /** Nobody uses a file when its removal is decided. */
  lemma CondemnedIsFree(c: Threads, mv: Move, p: string)
    requires Inv(c.s) && CanMove(c, mv) && Condemns(c, mv, p)
    ensures !InUse(Next(c, mv).s, p)
  {
    var t := Next(c, mv).s;
    if mv.BeginDelete? {
      GetMeaning(c.s, mv.path);
    } else {
      assert HandleOk(c.s, mv.h);
      forall k: nat | Live(t, k) ensures t.handles[k].path != p { assert HandleOk(c.s, k); }
    }
  }

  /** Between the decision to remove a file and its removal the file is in use at some point, so that the removal can
      hit it, if and only if somebody registers the path in between. */
  lemma RemovalHitsExactly(before: seq<Move>, mv: Move, between: seq<Move>, p: string)
    requires Moves(START, before) && CanMove(After(START, before), mv) && Condemns(After(START, before), mv, p)
    requires Moves(Next(After(START, before), mv), between)
    ensures var c := Next(After(START, before), mv);
      && (EverInUse(c, between, p) <==> Whole(Register(p)) in between)
      && (Whole(Register(p)) !in between ==> !InUse(After(c, between).s, p))
  {
    MovesKeep(START, before);
    var c := After(START, before);
    CondemnedIsFree(c, mv, p);
    MoveKeeps(c, mv);
    UsedExactlyIfRegistered(Next(c, mv), between, p);
  }

  lemma Prepend(c: Threads, mv: Move, moves: seq<Move>)
    requires CanMove(c, mv) && Moves(Next(c, mv), moves)
    ensures Moves(c, [mv] + moves) && After(c, [mv] + moves) == After(Next(c, mv), moves)
  {
    assert ([mv] + moves)[1..] == moves;
  }

  /** The shortest such run: the file is gone and its new handle lives. */
  lemma RemovedWhileInUse(p: string) returns (t: Threads)
    ensures var moves := [Whole(Put(p, Regular)), BeginDelete(p), Whole(Register(p)), Finish(0)];
      Moves(START, moves) && t == After(START, moves)
    ensures InUse(t.s, p) && KindOf(t.s, p) == Missing
  {
    var c1 := Next(START, Whole(Put(p, Regular)));
    var c2 := Next(c1, BeginDelete(p));
    assert c2.doomed == [p];
    var c3 := Next(c2, Whole(Register(p)));
    assert c3.doomed == [p];
    t := Next(c3, Finish(0));
    assert Live(t.s, 0) && t.s.handles[0].path == p;
    Prepend(c3, Finish(0), []);
    Prepend(c2, Whole(Register(p)), [Finish(0)]);
    Prepend(c1, BeginDelete(p), [Whole(Register(p)), Finish(0)]);
    Prepend(START, Whole(Put(p, Regular)), [BeginDelete(p), Whole(Register(p)), Finish(0)]);
  }
}
