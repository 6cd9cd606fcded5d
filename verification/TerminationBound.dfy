/** Once everything is quiet, the detector says so within two rounds of the token. */
module TerminationBound {
  import opened Sums
  import opened ConsensusNode
  import opened TerminationDetection
  import opened TerminationSafety

  lemma QuietNodesIdle(c: Config, s: System)
    requires c.Ok() && Inv(c, s) && s.completion.Running? && Quiet(c, s)
    ensures forall q :: 0 <= q < c.nprocs ==> s.nodes[q].Idle()
    ensures forall q, i :: 0 <= q < c.nprocs && 0 <= i < c.ncpus ==> s.nodes[q].phase[i].Parked?
    ensures |s.tokens| == 1
  {
    forall q | 0 <= q < c.nprocs
      ensures s.nodes[q].Idle()
      ensures forall i :: 0 <= i < c.ncpus ==> s.nodes[q].phase[i].Parked?
    {
      var n := s.nodes[q];
      assert LocalInv(n, c.ncpus);
      forall i | 0 <= i < c.ncpus ensures n.phase[i].Parked? { assert FiberQuiet(n, i); }
      CountBounds(n.sleeping);
    }
    assert LocalInv(s.nodes[s.pos], c.ncpus);
  }

  /** In a quiet, undetected state exactly one step can be taken: the token moves. */
  lemma OnlyTheTokenMoves(c: Config, s: System, st: Step)
    requires c.Ok() && Inv(c, s) && s.completion.Running? && Quiet(c, s)
    ensures Enabled(c, s, TakeToken(0))
    ensures Enabled(c, s, st) ==> st == TakeToken(0)
  {
    QuietNodesIdle(c, s);
  }

  lemma VisitCompletes(c: Config, s: System)
    requires c.Ok() && Inv(c, s) && Enabled(c, s, TakeToken(0)) && s.nodes[s.pos].Idle()
    requires Completes(s.nodes[s.pos].(token := LiveToken(s)), s.pos)
    ensures !Apply(c, s, TakeToken(0)).completion.Running?
  {
    TokenArrives(c, s, 0);
    ArrivalCompletes(s.nodes[s.pos], c.ncpus, c.nprocs, s.pos, LiveToken(s));
  }

  lemma VisitPasses(c: Config, s: System)
    requires c.Ok() && Inv(c, s) && Enabled(c, s, TakeToken(0)) && s.nodes[s.pos].Idle()
    requires !Completes(s.nodes[s.pos].(token := LiveToken(s)), s.pos)
    ensures var t := Apply(c, s, TakeToken(0));
      && t.completion.Running? && t.calls == s.calls && t.pos == Next(c.nprocs, s.pos) && |t.tokens| == 1
      && LiveToken(t) == Stamped(s.nodes[s.pos].(token := LiveToken(s)), s.pos)
      && |t.nodes| == c.nprocs && t.nodes[s.pos].Recorded() && t.nodes[s.pos].phase == s.nodes[s.pos].phase
      && forall q :: 0 <= q < c.nprocs && q != s.pos ==> t.nodes[q] == s.nodes[q]
  {
    TokenArrives(c, s, 0);
    ArrivalPasses(s.nodes[s.pos], c.ncpus, c.nprocs, s.pos, LiveToken(s));
    NextIsModular(c.nprocs, s.pos);
  }

  lemma StaysQuiet(c: Config, s: System, t: System)
    requires Shaped(c, s) && Shaped(c, t) && Quiet(c, s) && t.calls == s.calls && s.pos < c.nprocs
    requires forall i :: 0 <= i < c.ncpus ==> s.nodes[s.pos].phase[i].Parked?
    requires t.nodes[s.pos].phase == s.nodes[s.pos].phase
    requires forall q :: 0 <= q < c.nprocs && q != s.pos ==> t.nodes[q] == s.nodes[q]
    ensures Quiet(c, t)
  {
    forall q, i | 0 <= q < c.nprocs && 0 <= i < c.ncpus ensures FiberQuiet(t.nodes[q], i) {
      assert FiberQuiet(s.nodes[q], i);
    }
  }

  /** What that step does: it either declares completion, or records the visited process and moves on. */
  lemma Visit(c: Config, s: System)
    requires c.Ok() && Inv(c, s) && s.completion.Running? && Quiet(c, s)
    ensures Enabled(c, s, TakeToken(0))
    ensures var t := Apply(c, s, TakeToken(0));
      && Inv(c, t)
      && (t.completion.Running? ==>
            && Quiet(c, t) && t.pos == Next(c.nprocs, s.pos)
            && t.nodes[s.pos].Recorded()
            && (forall q :: 0 <= q < c.nprocs && q != s.pos ==> t.nodes[q] == s.nodes[q])
            && (s.nodes[s.pos].Recorded() ==> LiveToken(t) == LiveToken(s)))
      && (t.completion.Running? <==> !(LiveToken(s).lastChange == s.pos && LiveToken(s).sent == LiveToken(s).received))
  {
    OnlyTheTokenMoves(c, s, TakeToken(0));
    QuietNodesIdle(c, s);
    StepKeeps(c, s, TakeToken(0));
    if Completes(s.nodes[s.pos].(token := LiveToken(s)), s.pos) {
      VisitCompletes(c, s);
    } else {
      VisitPasses(c, s);
      StaysQuiet(c, s, Apply(c, s, TakeToken(0)));
    }
  }

  lemma {:induction false} CompletionStays(c: Config, s: System, steps: seq<Step>, t: System)
    requires Run(c, s, steps, t) && !s.completion.Running?
    ensures !t.completion.Running?
    decreases |steps|
  {
    if steps != [] { CompletionStays(c, Apply(c, s, steps[0]), steps[1..], t); }
  }

  /** Token moves from `pos` until it stands at `q`. */
  function Distance(nprocs: nat, pos: nat, q: nat): int {
    if pos <= q then q - pos else q + nprocs - pos
  }

  /** With everything recorded and nothing in flight, the token's totals agree. */
  lemma TotalsAgree(c: Config, s: System)
    requires c.Ok() && Inv(c, s) && Quiet(c, s) && forall q :: 0 <= q < c.nprocs ==> s.nodes[q].Recorded()
    ensures LiveToken(s).sent == LiveToken(s).received
  {
    assert Sents(s.nodes) == LastSents(s.nodes);
    assert Receiveds(s.nodes) == LastReceiveds(s.nodes);
    QuietNodeCalls(s);
  }

  /** With everything recorded, a visit completes or takes the token one move closer to its marker. */
  lemma OneCloser(c: Config, s: System)
    requires c.Ok() && Inv(c, s) && s.completion.Running? && Quiet(c, s)
    requires forall q :: 0 <= q < c.nprocs ==> s.nodes[q].Recorded()
    ensures Enabled(c, s, TakeToken(0))
    ensures var u := Apply(c, s, TakeToken(0));
      && Inv(c, u)
      && (u.completion.Running? ==>
            && Quiet(c, u) && (forall q :: 0 <= q < c.nprocs ==> u.nodes[q].Recorded())
            && 0 <= Distance(c.nprocs, u.pos, LiveToken(u).lastChange)
                 < Distance(c.nprocs, s.pos, LiveToken(s).lastChange))
  {
    TotalsAgree(c, s);
    Visit(c, s);
  }

  lemma {:induction false} CircleToMarker(c: Config, s: System, steps: seq<Step>, t: System)
    requires c.Ok() && Inv(c, s) && s.completion.Running? && Quiet(c, s) && Run(c, s, steps, t)
    requires forall q :: 0 <= q < c.nprocs ==> s.nodes[q].Recorded()
    requires Distance(c.nprocs, s.pos, LiveToken(s).lastChange) < |steps|
    ensures !t.completion.Running?
    decreases |steps|
  {
    OnlyTheTokenMoves(c, s, steps[0]);
    OneCloser(c, s);
    var u := Apply(c, s, steps[0]);
    if u.completion.Running? {
      CircleToMarker(c, u, steps[1..], t);
    } else {
      CompletionStays(c, u, steps[1..], t);
    }
  }

  /** All unrecorded processes lie fewer than `d` moves ahead. */
  ghost predicate UnrecordedWithin(c: Config, s: System, d: nat)
    requires Shaped(c, s)
  {
    forall q :: 0 <= q < c.nprocs && d <= Distance(c.nprocs, s.pos, q) ==> s.nodes[q].Recorded()
  }

  lemma OneFewer(c: Config, s: System, u: System, d: nat)
    requires Shaped(c, s) && Shaped(c, u) && 0 < d <= c.nprocs && s.pos < c.nprocs && u.pos == Next(c.nprocs, s.pos)
    requires u.nodes[s.pos].Recorded() && forall q :: 0 <= q < c.nprocs && q != s.pos ==> u.nodes[q] == s.nodes[q]
    requires UnrecordedWithin(c, s, d)
    ensures UnrecordedWithin(c, u, d - 1)
  {
    forall q | 0 <= q < c.nprocs && d - 1 <= Distance(c.nprocs, u.pos, q) ensures u.nodes[q].Recorded() {
      if q != s.pos { assert Distance(c.nprocs, s.pos, q) == Distance(c.nprocs, u.pos, q) + 1; }
    }
  }

  lemma {:induction false} CatchUp(c: Config, s: System, d: nat, steps: seq<Step>, t: System)
    requires c.Ok() && Inv(c, s) && s.completion.Running? && Quiet(c, s) && Run(c, s, steps, t)
    requires d <= c.nprocs && UnrecordedWithin(c, s, d) && d + c.nprocs <= |steps|
    ensures !t.completion.Running?
    decreases |steps|
  {
    if d == 0 {
      assert forall q :: 0 <= q < c.nprocs ==> 0 <= Distance(c.nprocs, s.pos, q);
      CircleToMarker(c, s, steps, t);
    } else {
      OnlyTheTokenMoves(c, s, steps[0]);
      Visit(c, s);
      var u := Apply(c, s, steps[0]);
      if u.completion.Running? {
        OneFewer(c, s, u, d);
        CatchUp(c, u, d - 1, steps[1..], t);
      } else {
        CompletionStays(c, u, steps[1..], t);
      }
    }
  }

  /** Bounded detection: from any reachable quiet state, every run has declared completion after at most two
      token visits per process, and until then the token can always move. */
  lemma DetectsWithinTwoRounds(c: Config, s: System, steps: seq<Step>, t: System)
    requires c.Ok() && Reachable(c, s) && Shaped(c, s) && Quiet(c, s) && Run(c, s, steps, t)
    ensures 2 * c.nprocs <= |steps| ==> !t.completion.Running?
    ensures s.completion.Running? ==> Enabled(c, s, TakeToken(0))
  {
    ReachableInv(c, s);
    if s.completion.Running? {
      OnlyTheTokenMoves(c, s, TakeToken(0));
      if 2 * c.nprocs <= |steps| { CatchUp(c, s, c.nprocs, steps, t); }
    } else {
      CompletionStays(c, s, steps, t);
    }
  }
}
