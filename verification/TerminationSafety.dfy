/** Every step keeps the invariant, so completion is declared only when everything is quiet. */
module TerminationSafety {
  import opened Prelude
  import opened Sums
  import opened ConsensusNode
  import opened TerminationDetection

  lemma AwakeIsActive(n: Node, ncpus: nat, cpu: nat)
    requires LocalInv(n, ncpus) && cpu < ncpus && (n.phase[cpu].Working? || n.phase[cpu].Woken?)
    ensures 0 < n.numActive && !n.Idle()
  {
    ActiveBounds(n, ncpus);
  }

  lemma QuietNodeCalls(s: System)
    ensures NoCalls(s) ==> Sum(s.calls) == 0
    ensures (forall q :: 0 <= q < |s.calls| ==> 0 <= s.calls[q]) && Sum(s.calls) == 0 ==> NoCalls(s)
  {
    if NoCalls(s) { SumOfZeros(s.calls); }
    if forall q :: 0 <= q < |s.calls| ==> 0 <= s.calls[q] { SumOfNats(s.calls); }
  }

  /** Replacing one process that keeps its token-related fields leaves the token facts alone. */
  lemma TokenUntouched(c: Config, s: System, t: System, p: nat, n: Node)
    requires Shaped(c, s) && Shaped(c, t) && OneToken(c, s) && p < c.nprocs
    requires t.nodes == s.nodes[p := n] && t.tokens == s.tokens && t.pos == s.pos
    requires n.hasToken == s.nodes[p].hasToken && n.token == s.nodes[p].token
    requires n.lastSent == s.nodes[p].lastSent && n.lastReceived == s.nodes[p].lastReceived
    ensures OneToken(c, t) && LiveToken(t) == LiveToken(s)
  {
    TotalsUpdate(s.nodes, p, n);
  }

  lemma BasicsUntouched(c: Config, s: System, t: System, p: nat, n: Node)
    requires Basics(c, s) && p < c.nprocs && LocalInv(n, c.ncpus)
    requires t.nodes == s.nodes[p := n] && |t.calls| == c.nprocs
    requires forall q :: 0 <= q < c.nprocs ==> 0 <= t.calls[q]
    requires n.callsSent - s.nodes[p].callsSent
             == n.callsReceived - s.nodes[p].callsReceived + Sum(t.calls) - Sum(s.calls)
    ensures Basics(c, t)
  {
    TotalsUpdate(s.nodes, p, n);
  }

  lemma PresetHypBackwards(c: Config, s: System, t: System, p: nat, n: Node)
    requires Basics(c, s) && p < c.nprocs && t.pos == s.pos
    requires t.nodes == s.nodes[p := n] && s.nodes[p].callsSent <= n.callsSent
    ensures PresetHyp(t) ==> PresetHyp(s)
  {
    assert LocalInv(s.nodes[p], c.ncpus);
    assert t.nodes[p] == n;
    assert forall q :: 0 <= q < c.nprocs && q != p ==> t.nodes[q] == s.nodes[q];
  }

  lemma MarkerHypBackwards(c: Config, s: System, t: System, p: nat, n: Node)
    requires Shaped(c, s) && s.pos < c.nprocs && p < c.nprocs && t.pos == s.pos && t.nodes == s.nodes[p := n]
    requires LiveToken(t) == LiveToken(s) && !n.Recorded()
    ensures MarkerHyp(t) ==> MarkerHyp(s) && Visited(LiveToken(s).lastChange, s.pos, p)
  {
    assert t.nodes[p] == n;
    assert forall q :: 0 <= q < c.nprocs && q != p ==> t.nodes[q] == s.nodes[q];
  }

  /** A counted call is sent or received at `p`: either `p` was not idle or some call was in flight. */
  lemma ActivityKeeps(c: Config, s: System, t: System, p: nat, n: Node)
    requires Basics(c, s) && Shaped(c, t) && OneToken(c, s) && p < c.nprocs && WhileRunning(c, s)
    requires t == s.(nodes := s.nodes[p := n], calls := t.calls) && LiveToken(t) == LiveToken(s)
    requires n.lastSent == s.nodes[p].lastSent && n.lastReceived == s.nodes[p].lastReceived && !n.done
    requires s.nodes[p].callsSent <= n.callsSent && s.nodes[p].callsReceived <= n.callsReceived
    requires || (!s.nodes[p].Idle() && s.nodes[p].callsSent < n.callsSent)
             || (!NoCalls(s) && s.nodes[p].callsReceived < n.callsReceived)
    ensures WhileRunning(c, t)
  {
    var was := s.nodes[p];
    assert LocalInv(was, c.ncpus);
    assert !n.Recorded();
    assert t.nodes[p] == n;
    if s.preset {
      PresetHypBackwards(c, s, t, p, n);
    } else {
      MarkerHypBackwards(c, s, t, p, n);
    }
  }

  lemma ActivityStep(c: Config, s: System, t: System, p: nat, n: Node)
    requires Inv(c, s) && p < c.nprocs && LocalInv(n, c.ncpus) && !Sound(s.completion)
    requires t == s.(nodes := s.nodes[p := n], calls := t.calls) && |t.calls| == c.nprocs
    requires forall q :: 0 <= q < c.nprocs ==> 0 <= t.calls[q]
    requires n.callsSent - s.nodes[p].callsSent
             == n.callsReceived - s.nodes[p].callsReceived + Sum(t.calls) - Sum(s.calls)
    requires n.hasToken == s.nodes[p].hasToken && n.token == s.nodes[p].token && n.done == s.nodes[p].done
    requires n.lastSent == s.nodes[p].lastSent && n.lastReceived == s.nodes[p].lastReceived
    requires s.nodes[p].callsSent <= n.callsSent && s.nodes[p].callsReceived <= n.callsReceived
    requires || (!s.nodes[p].Idle() && s.nodes[p].callsSent < n.callsSent)
             || (!NoCalls(s) && s.nodes[p].callsReceived < n.callsReceived)
    ensures Inv(c, t)
  {
    BasicsUntouched(c, s, t, p, n);
    TokenUntouched(c, s, t, p, n);
    if s.completion.Running? { ActivityKeeps(c, s, t, p, n); }
  }

  lemma SendKeeps(c: Config, s: System, p: nat, cpu: nat, to: nat)
    requires c.Ok() && Inv(c, s) && Enabled(c, s, Send(p, cpu, to))
    ensures Inv(c, Apply(c, s, Send(p, cpu, to)))
  {
    var t := Apply(c, s, Send(p, cpu, to));
    AwakeIsActive(s.nodes[p], c.ncpus, cpu);
    SumUpdate(s.calls, to, s.calls[to] + 1);
    assert !FiberQuiet(s.nodes[p], cpu);
    ActivityStep(c, s, t, p, t.nodes[p]);
  }

  /** Nothing but the scheduling of `p`'s fibers changes, and `p` does not stop being idle. */
  lemma SchedulingKeeps(c: Config, s: System, t: System, p: nat, n: Node)
    requires Shaped(c, s) && Shaped(c, t) && OneToken(c, s) && p < c.nprocs && WhileRunning(c, s)
    requires t.nodes == s.nodes[p := n] && t.calls == s.calls && t.pos == s.pos && t.preset == s.preset
    requires t.dones == [] && LiveToken(t) == LiveToken(s) && !n.done
    requires n.callsSent == s.nodes[p].callsSent && n.callsReceived == s.nodes[p].callsReceived
    requires n.lastSent == s.nodes[p].lastSent && n.lastReceived == s.nodes[p].lastReceived
    requires s.nodes[p].Idle() ==> n.Idle()
    ensures WhileRunning(c, t)
  {
    assert t.nodes[p] == n;
    assert forall q :: 0 <= q < c.nprocs && q != p ==> t.nodes[q] == s.nodes[q];
    if !s.preset { assert MarkerHyp(t) == MarkerHyp(s); }
  }

  lemma SchedulingStep(c: Config, s: System, t: System, p: nat, n: Node)
    requires Inv(c, s) && p < c.nprocs && LocalInv(n, c.ncpus)
    requires t == s.(nodes := s.nodes[p := n])
    requires n.callsSent == s.nodes[p].callsSent && n.callsReceived == s.nodes[p].callsReceived
    requires n.hasToken == s.nodes[p].hasToken && n.token == s.nodes[p].token && n.done == s.nodes[p].done
    requires n.lastSent == s.nodes[p].lastSent && n.lastReceived == s.nodes[p].lastReceived
    requires s.nodes[p].Idle() ==> n.Idle()
    requires Sound(s.completion) ==> forall i :: 0 <= i < c.ncpus ==> FiberQuiet(n, i)
    ensures Inv(c, t)
  {
    BasicsUntouched(c, s, t, p, n);
    TokenUntouched(c, s, t, p, n);
    if s.completion.Running? { SchedulingKeeps(c, s, t, p, n); }
    if Sound(s.completion) {
      forall q, i | 0 <= q < c.nprocs && 0 <= i < c.ncpus ensures FiberQuiet(t.nodes[q], i) {
        assert FiberQuiet(s.nodes[q], i);
      }
    }
  }

  lemma DoWakeKeeps(n: Node, ncpus: nat, w: Wake)
    requires LocalInv(n, ncpus) && (w.Fiber? ==> w.cpu < ncpus)
    ensures var r := DoWake(n, ncpus, w);
      LocalInv(r, ncpus) && r == n.(numActive := r.numActive, sleeping := r.sleeping, phase := r.phase)
  {
    match w
    case Everyone =>
      CancelReleasesAll(n, ncpus);
      WakeUpToMeans(n, ncpus, ncpus);
    case Fiber(cpu) =>
      CancelOneReleases(n, ncpus, cpu);
  }

  lemma CountersKeep(n: Node, ncpus: nat, sends: nat)
    requires LocalInv(n, ncpus)
    ensures LocalInv(n.(callsReceived := n.callsReceived + 1, callsSent := n.callsSent + sends), ncpus)
  {
  }

  lemma ArriveKeeps(n: Node, ncpus: nat, wake: Wake, sends: nat)
    requires n.Shaped(ncpus) && (wake.Fiber? ==> wake.cpu < ncpus)
    requires LocalInv(n.(callsReceived := n.callsReceived + 1, callsSent := n.callsSent + sends), ncpus)
    ensures var r := Arrive(n, ncpus, wake, sends);
      && LocalInv(r, ncpus)
      && r == n.(numActive := r.numActive, sleeping := r.sleeping, phase := r.phase,
                 callsReceived := n.callsReceived + 1, callsSent := n.callsSent + sends)
  {
    var m := n.(callsReceived := n.callsReceived + 1, callsSent := n.callsSent + sends);
    DoWakeKeeps(m, ncpus, wake);
    assert Arrive(n, ncpus, wake, sends) == DoWake(m, ncpus, wake);
  }

  /** A node after a call arrived and its handler sent some. */
  ghost predicate Arrived(was: Node, n: Node, ncpus: nat, sends: nat) {
    && LocalInv(n, ncpus)
    && n == was.(numActive := n.numActive, sleeping := n.sleeping, phase := n.phase,
                 callsReceived := was.callsReceived + 1, callsSent := was.callsSent + sends)
  }

  /** The calls in flight after one arrived and some were sent. */
  ghost predicate Moved(calls: seq<int>, after: seq<int>, sends: nat) {
    |after| == |calls| && Sum(after) == Sum(calls) - 1 + sends && forall q :: 0 <= q < |after| ==> 0 <= after[q]
  }

  lemma CallsAfter(calls: seq<int>, p: nat, sends: seq<nat>)
    requires p < |calls| && 0 < calls[p] && forall q :: 0 <= q < |calls| ==> 0 <= calls[q]
    requires forall k :: 0 <= k < |sends| ==> sends[k] < |calls|
    ensures Moved(calls, AddCalls(calls[p := calls[p] - 1], sends), |sends|)
  {
    OneLess(calls, p);
    SentAfter(calls, calls[p := calls[p] - 1], sends);
  }

  lemma OneLess(calls: seq<int>, p: nat)
    requires p < |calls| && 0 < calls[p] && forall q :: 0 <= q < |calls| ==> 0 <= calls[q]
    ensures var less := calls[p := calls[p] - 1];
      |less| == |calls| && Sum(less) == Sum(calls) - 1 && forall q :: 0 <= q < |less| ==> 0 <= less[q]
  {
    SumUpdate(calls, p, calls[p] - 1);
  }

  lemma SentAfter(calls: seq<int>, less: seq<int>, sends: seq<nat>)
    requires |less| == |calls| && Sum(less) == Sum(calls) - 1 && forall q :: 0 <= q < |less| ==> 0 <= less[q]
    requires forall k :: 0 <= k < |sends| ==> sends[k] < |less|
    ensures Moved(calls, AddCalls(less, sends), |sends|)
  {
    AddCallsTotal(less, sends);
  }

  lemma ReceivedStep(c: Config, s: System, p: nat, n: Node, calls: seq<int>, sends: nat)
    requires Inv(c, s) && p < c.nprocs && 0 < s.calls[p]
    requires Arrived(s.nodes[p], n, c.ncpus, sends) && Moved(s.calls, calls, sends)
    ensures Inv(c, s.(nodes := s.nodes[p := n], calls := calls))
  {
    assert !NoCalls(s);
    ActivityStep(c, s, s.(nodes := s.nodes[p := n], calls := calls), p, n);
  }

  lemma ReceiveLocal(n: Node, ncpus: nat, wake: Wake, sends: nat)
    requires LocalInv(n, ncpus) && (wake.Fiber? ==> wake.cpu < ncpus)
    ensures Arrived(n, Arrive(n, ncpus, wake, sends), ncpus, sends)
  {
    CountersKeep(n, ncpus, sends);
    ArriveKeeps(n, ncpus, wake, sends);
  }

  lemma ReceiveKeeps(c: Config, s: System, p: nat, wake: Wake, sends: seq<nat>)
    requires c.Ok() && Inv(c, s) && Enabled(c, s, Receive(p, wake, sends))
    ensures Inv(c, Apply(c, s, Receive(p, wake, sends)))
  {
    assert LocalInv(s.nodes[p], c.ncpus);
    ReceiveLocal(s.nodes[p], c.ncpus, wake, |sends|);
    CallsAfter(s.calls, p, sends);
    ReceivedStep(c, s, p, Arrive(s.nodes[p], c.ncpus, wake, |sends|), AddCalls(s.calls[p := s.calls[p] - 1], sends),
                 |sends|);
  }

  lemma LocalWakeKeeps(c: Config, s: System, p: nat, cpu: nat, wake: Wake)
    requires c.Ok() && Inv(c, s) && Enabled(c, s, LocalWake(p, cpu, wake))
    ensures Inv(c, Apply(c, s, LocalWake(p, cpu, wake)))
  {
    AwakeIsActive(s.nodes[p], c.ncpus, cpu);
    DoWakeKeeps(s.nodes[p], c.ncpus, wake);
    assert !FiberQuiet(s.nodes[p], cpu);
    SchedulingStep(c, s, Apply(c, s, LocalWake(p, cpu, wake)), p, DoWake(s.nodes[p], c.ncpus, wake));
  }

  lemma ContinueKeeps(c: Config, s: System, p: nat, cpu: nat)
    requires c.Ok() && Inv(c, s) && Enabled(c, s, Continue(p, cpu))
    ensures Inv(c, Apply(c, s, Continue(p, cpu)))
  {
    var n := Resume(s.nodes[p], c.ncpus, cpu);
    ResumeKeeps(s.nodes[p], c.ncpus, cpu);
    if Sound(s.completion) {
      forall i | 0 <= i < c.ncpus ensures FiberQuiet(n, i) {
        assert FiberQuiet(s.nodes[p], i) && FiberQuiet(s.nodes[p], cpu);
      }
    }
    SchedulingStep(c, s, Apply(c, s, Continue(p, cpu)), p, n);
  }

  lemma WithoutKeepsOthers<T>(xs: seq<T>, k: nat)
    requires k < |xs|
    ensures forall x :: x in xs && x != xs[k] ==> x in Without(xs, k)
  {
    forall x | x in xs && x != xs[k] ensures x in Without(xs, k) {
      var i :| 0 <= i < |xs| && xs[i] == x;
      assert Without(xs, k)[if i < k then i else i - 1] == x;
    }
  }

  lemma ForceDoneShape(n: Node, ncpus: nat)
    requires LocalInv(n, ncpus)
    ensures var r := ForceDone(n, ncpus);
      && LocalInv(r, ncpus) && (forall i :: 0 <= i < ncpus ==> r.phase[i] == Schedule(n.phase[i]))
      && r == n.(done := true, numActive := r.numActive, sleeping := r.sleeping, phase := r.phase)
  {
    ForceDoneReleasesAll(n, ncpus);
    WakeUpToMeans(n.(done := true), ncpus, ncpus);
  }

  lemma TakeDoneKeeps(c: Config, s: System, k: nat)
    requires c.Ok() && Inv(c, s) && Enabled(c, s, TakeDone(k))
    ensures Inv(c, Apply(c, s, TakeDone(k)))
  {
    var t := Apply(c, s, TakeDone(k));
    var p := s.dones[k];
    assert LocalInv(s.nodes[p], c.ncpus);
    ForceDoneShape(s.nodes[p], c.ncpus);
    var n := ForceDone(s.nodes[p], c.ncpus);
    BasicsUntouched(c, s, t, p, n);
    TokenUntouched(c, s, t, p, n);
    if Sound(s.completion) { OverAfterDone(c, s, t, k, n); }
  }

  lemma OverAfterDone(c: Config, s: System, t: System, k: nat, n: Node)
    requires Shaped(c, s) && Shaped(c, t) && Over(c, s) && k < |s.dones| && s.dones[k] < c.nprocs
    requires n.Shaped(c.ncpus) && n.done
    requires t == s.(nodes := s.nodes[s.dones[k] := n], dones := Without(s.dones, k))
    requires forall i :: 0 <= i < c.ncpus ==> n.phase[i] == Schedule(s.nodes[s.dones[k]].phase[i])
    ensures Over(c, t)
  {
    WithoutKeepsOthers(s.dones, k);
    forall q, i | 0 <= q < c.nprocs && 0 <= i < c.ncpus ensures FiberQuiet(t.nodes[q], i) {
      assert FiberQuiet(s.nodes[q], i);
    }
  }

  // ---- the token moves on ----

  function Next(nprocs: nat, p: nat): nat { if p + 1 == nprocs then 0 else p + 1 }

  lemma NextIsModular(nprocs: nat, p: nat)
    requires p < nprocs
    ensures (p + 1) % nprocs == Next(nprocs, p)
  {
    if p + 1 < nprocs { assert (p + 1) % nprocs == p + 1; }
  }

  /** The process at `pos` is idle and sends the token to its successor, stamped with its own counters. */
  ghost predicate Passes(c: Config, s: System, t: System, n: Node)
    requires Shaped(c, s) && s.pos < c.nprocs
  {
    var was := s.nodes[s.pos];
    var live := was.(token := LiveToken(s));
    && t == s.(nodes := s.nodes[s.pos := n], pos := Next(c.nprocs, s.pos),
               tokens := [TokenMsg(Next(c.nprocs, s.pos), Stamped(live, s.pos))],
               preset := s.preset && was.Recorded())
    && n.callsSent == was.callsSent && n.callsReceived == was.callsReceived
    && n.lastSent == was.callsSent && n.lastReceived == was.callsReceived
    && !n.hasToken && n.Idle() && !n.done
    && !Completes(live, s.pos)
  }

  lemma PassKeepsToken(c: Config, s: System, t: System, n: Node)
    requires c.Ok() && Shaped(c, s) && Shaped(c, t) && OneToken(c, s) && Passes(c, s, t, n)
    ensures OneToken(c, t)
  {
    TotalsUpdate(s.nodes, s.pos, n);
  }

  /** If every process has its counters recorded, the totals on the token tell whether calls are in flight. */
  lemma AllRecorded(c: Config, s: System)
    requires Basics(c, s) && OneToken(c, s) && LiveToken(s).sent == LiveToken(s).received
    requires forall q :: 0 <= q < c.nprocs ==> s.nodes[q].Recorded()
    ensures NoCalls(s)
  {
    assert Sents(s.nodes) == LastSents(s.nodes);
    assert Receiveds(s.nodes) == LastReceiveds(s.nodes);
    QuietNodeCalls(s);
  }

  lemma PassUnderPreset(c: Config, s: System, t: System, n: Node)
    requires c.Ok() && Shaped(c, s) && OneToken(c, s) && Passes(c, s, t, n)
    requires PresetInv(s) && s.nodes[s.pos].Recorded()
    ensures PresetInv(t)
  {
    assert t.pos == s.pos + 1;
    assert forall q :: 0 <= q < c.nprocs && q != s.pos ==> t.nodes[q] == s.nodes[q];
    assert PresetHyp(t) ==> PresetHyp(s);
  }

  lemma PassWritesMarker(c: Config, s: System, t: System, n: Node)
    requires c.Ok() && Shaped(c, s) && Basics(c, t) && OneToken(c, t) && s.pos < c.nprocs && Passes(c, s, t, n)
    requires !s.nodes[s.pos].Recorded()
    ensures MarkerInv(t)
  {
    var p := s.pos;
    assert LiveToken(t).lastChange == p && t.nodes[p] == n;
    assert forall q :: 0 <= q < c.nprocs ==> (Visited(p, t.pos, q) <==> q == p);
    if MarkerHyp(t) {
      assert forall q :: 0 <= q < c.nprocs && q != p ==> t.nodes[q].Recorded();
      AllRecorded(c, t);
    }
  }

  /** One more process visited without a change. */
  lemma PassUnchanged(c: Config, s: System, t: System, n: Node)
    requires c.Ok() && Shaped(c, s) && OneToken(c, s) && Passes(c, s, t, n)
    requires MarkerInv(s) && s.nodes[s.pos].Recorded()
    ensures MarkerInv(t)
  {
    var p, m := s.pos, LiveToken(s).lastChange;
    assert forall q :: 0 <= q < c.nprocs && q != p ==> t.nodes[q] == s.nodes[q];
    assert LiveToken(t) == LiveToken(s);
    if LiveToken(s).sent == LiveToken(s).received {
      assert m != p;
      assert forall q :: 0 <= q < c.nprocs ==> (Visited(m, t.pos, q) <==> Visited(m, p, q) || q == p);
      assert MarkerHyp(t) ==> MarkerHyp(s);
    }
  }

  lemma PassStep(c: Config, s: System, t: System, n: Node)
    requires c.Ok() && Inv(c, s) && s.completion.Running? && Passes(c, s, t, n) && LocalInv(n, c.ncpus)
    ensures Inv(c, t)
  {
    BasicsUntouched(c, s, t, s.pos, n);
    PassKeepsToken(c, s, t, n);
    if t.preset { PassUnderPreset(c, s, t, n); }
    else if s.nodes[s.pos].Recorded() { PassUnchanged(c, s, t, n); }
    else { PassWritesMarker(c, s, t, n); }
    assert forall q :: 0 <= q < c.nprocs && q != s.pos ==> t.nodes[q] == s.nodes[q];
  }

  // ---- completion ----

  lemma {:induction false} OthersHasAll(nprocs: nat, me: nat)
    ensures forall q :: 0 <= q < nprocs && q != me ==> q in Others(nprocs, me)
  {
    if nprocs > 0 {
      OthersHasAll(nprocs - 1, me);
      forall q | 0 <= q < nprocs && q != me ensures q in Others(nprocs, me) {
        if q == nprocs - 1 {
          assert Others(nprocs, me)[|Others(nprocs, me)| - 1] == q;
        } else {
          assert q in Others(nprocs - 1, me);
        }
      }
    }
  }

  /** When a sound completion is declared at `p`, every other process is idle and nothing is in flight. */
  lemma CompletionIsSound(c: Config, s: System, p: nat)
    requires c.Ok() && Basics(c, s) && OneToken(c, s) && WhileRunning(c, s) && p == s.pos
    requires LiveToken(s).lastChange == p && LiveToken(s).sent == LiveToken(s).received
    requires s.preset ==> s.nodes[c.nprocs - 1].callsSent == 0
    ensures NoCalls(s) && forall q :: 0 <= q < c.nprocs && q != p ==> s.nodes[q].Idle()
    ensures !s.preset ==> s.nodes[p].Idle()
  {
    if s.preset {
      assert p == c.nprocs - 1;
      assert PresetHyp(s);
    } else {
      assert forall q :: 0 <= q < c.nprocs ==> Visited(p, p, q);
      assert MarkerHyp(s);
    }
  }

  lemma CompleteStep(c: Config, s: System, t: System, n: Node)
    requires c.Ok() && Inv(c, s) && s.completion.Running? && LocalInv(n, c.ncpus)
    requires LiveToken(s).lastChange == s.pos && LiveToken(s).sent == LiveToken(s).received
    requires t == s.(nodes := s.nodes[s.pos := n], tokens := [], dones := s.dones + Others(c.nprocs, s.pos),
                     completion := if s.preset then OnPreset(s.nodes[c.nprocs - 1].callsSent) else OnMarker)
    requires n.callsSent == s.nodes[s.pos].callsSent && n.callsReceived == s.nodes[s.pos].callsReceived
    requires n.lastSent == s.nodes[s.pos].lastSent && n.lastReceived == s.nodes[s.pos].lastReceived
    requires n.hasToken && n.done && n.token == LiveToken(s)
    requires forall i :: 0 <= i < c.ncpus ==> FiberQuiet(n, i)
    ensures Inv(c, t)
  {
    BasicsUntouched(c, s, t, s.pos, n);
    TotalsUpdate(s.nodes, s.pos, n);
    if Sound(t.completion) {
      CompletionIsSound(c, s, s.pos);
      OthersHasAll(c.nprocs, s.pos);
      forall q, i | 0 <= q < c.nprocs && 0 <= i < c.ncpus ensures FiberQuiet(t.nodes[q], i) {
        if q != s.pos { IdleMeansAsleep(s.nodes[q], c.ncpus); }
      }
    }
  }

  lemma FinishAsleepKeeps(c: Config, s: System, p: nat, cpu: nat)
    requires c.Ok() && Inv(c, s) && Enabled(c, s, Finish(p, cpu))
    requires s.nodes[p].done || s.nodes[p].numActive != 1 || !s.nodes[p].hasToken
    ensures Inv(c, Apply(c, s, Finish(p, cpu)))
  {
    var was := s.nodes[p];
    assert !FiberQuiet(was, cpu);
    AwakeIsActive(was, c.ncpus, cpu);
    if was.done {
      FinishWhenDone(was, c.ncpus, c.nprocs, p, cpu);
    } else {
      FinishBySleeping(was, c.ncpus, c.nprocs, p, cpu);
    }
    SchedulingStep(c, s, Apply(c, s, Finish(p, cpu)), p, TryFinish(was, c.ncpus, c.nprocs, p, cpu).0);
  }

  lemma FinishCompletesKeeps(c: Config, s: System, p: nat, cpu: nat)
    requires c.Ok() && Inv(c, s) && Enabled(c, s, Finish(p, cpu))
    requires !s.nodes[p].done && s.nodes[p].numActive == 1 && s.nodes[p].hasToken && Completes(s.nodes[p], p)
    ensures Inv(c, Apply(c, s, Finish(p, cpu)))
  {
    FinishByCompleting(s.nodes[p], c.ncpus, c.nprocs, p, cpu);
    CompleteStep(c, s, Apply(c, s, Finish(p, cpu)), TryFinish(s.nodes[p], c.ncpus, c.nprocs, p, cpu).0);
  }

  lemma FinishPassesKeeps(c: Config, s: System, p: nat, cpu: nat)
    requires c.Ok() && Inv(c, s) && Enabled(c, s, Finish(p, cpu))
    requires !s.nodes[p].done && s.nodes[p].numActive == 1 && s.nodes[p].hasToken && !Completes(s.nodes[p], p)
    ensures Inv(c, Apply(c, s, Finish(p, cpu)))
  {
    FinishByPassing(s.nodes[p], c.ncpus, c.nprocs, p, cpu);
    NextIsModular(c.nprocs, p);
    PassStep(c, s, Apply(c, s, Finish(p, cpu)), TryFinish(s.nodes[p], c.ncpus, c.nprocs, p, cpu).0);
  }

  /** The token arrives at a process that still has active fibers, and stays there. */
  lemma HoldStep(c: Config, s: System, t: System, n: Node)
    requires c.Ok() && Inv(c, s) && s.tokens != [] && LocalInv(n, c.ncpus)
    requires n == s.nodes[s.pos].(hasToken := true, token := s.tokens[0].tok)
    requires t == s.(nodes := s.nodes[s.pos := n], tokens := [])
    ensures Inv(c, t)
  {
    BasicsUntouched(c, s, t, s.pos, n);
    TotalsUpdate(s.nodes, s.pos, n);
    SchedulingKeeps(c, s, t, s.pos, n);
  }

  lemma TokenArrives(c: Config, s: System, k: nat)
    requires c.Ok() && Inv(c, s) && Enabled(c, s, TakeToken(k))
    ensures k == 0 && s.tokens[0].to == s.pos && Without(s.tokens, 0) == []
    ensures LocalInv(s.nodes[s.pos], c.ncpus) && !s.nodes[s.pos].done && !s.nodes[s.pos].hasToken
    ensures s.completion.Running? && LiveToken(s) == s.tokens[0].tok
  {
  }

  /** What taking the one token does, given what it does to the process. */
  lemma TakeTokenIs(c: Config, s: System, n: Node, out: Out)
    requires c.Ok() && Inv(c, s) && Enabled(c, s, TakeToken(0))
    requires (n, out) == ReceiveToken(s.nodes[s.pos], c.ncpus, c.nprocs, s.pos, s.tokens[0].tok)
    ensures Apply(c, s, TakeToken(0)) == Emit(s.(tokens := []), s.pos, n, out)
  {
    TokenArrives(c, s, 0);
  }

  lemma TakeAndHold(c: Config, s: System)
    requires c.Ok() && Inv(c, s) && Enabled(c, s, TakeToken(0)) && !s.nodes[s.pos].Idle()
    ensures Inv(c, Apply(c, s, TakeToken(0)))
  {
    TokenArrives(c, s, 0);
    var p, tok := s.pos, s.tokens[0].tok;
    ReceiveTokenKeeps(s.nodes[p], c.ncpus, c.nprocs, p, tok);
    var n := ReceiveToken(s.nodes[p], c.ncpus, c.nprocs, p, tok).0;
    TakeTokenIs(c, s, n, Silent);
    HoldStep(c, s, Apply(c, s, TakeToken(0)), n);
  }

  lemma TakeAndComplete(c: Config, s: System)
    requires c.Ok() && Inv(c, s) && Enabled(c, s, TakeToken(0)) && s.nodes[s.pos].Idle()
    requires Completes(s.nodes[s.pos].(token := s.tokens[0].tok), s.pos)
    ensures Inv(c, Apply(c, s, TakeToken(0)))
  {
    TokenArrives(c, s, 0);
    var p, tok := s.pos, s.tokens[0].tok;
    ArrivalCompletes(s.nodes[p], c.ncpus, c.nprocs, p, tok);
    var n := ReceiveToken(s.nodes[p], c.ncpus, c.nprocs, p, tok).0;
    TakeTokenIs(c, s, n, Broadcast(Others(c.nprocs, p)));
    CompleteStep(c, s, Apply(c, s, TakeToken(0)), n);
  }

  lemma TakeAndPass(c: Config, s: System)
    requires c.Ok() && Inv(c, s) && Enabled(c, s, TakeToken(0)) && s.nodes[s.pos].Idle()
    requires !Completes(s.nodes[s.pos].(token := s.tokens[0].tok), s.pos)
    ensures Inv(c, Apply(c, s, TakeToken(0)))
  {
    TokenArrives(c, s, 0);
    var p, tok := s.pos, s.tokens[0].tok;
    ArrivalPasses(s.nodes[p], c.ncpus, c.nprocs, p, tok);
    NextIsModular(c.nprocs, p);
    var n := ReceiveToken(s.nodes[p], c.ncpus, c.nprocs, p, tok).0;
    TakeTokenIs(c, s, n, PassTo((p + 1) % c.nprocs, Stamped(s.nodes[p].(token := tok), p)));
    PassStep(c, s, Apply(c, s, TakeToken(0)), n);
  }

  lemma TakeTokenKeeps(c: Config, s: System, k: nat)
    requires c.Ok() && Inv(c, s) && Enabled(c, s, TakeToken(k))
    ensures Inv(c, Apply(c, s, TakeToken(k)))
  {
    TokenArrives(c, s, k);
    if !s.nodes[s.pos].Idle() {
      TakeAndHold(c, s);
    } else if Completes(s.nodes[s.pos].(token := s.tokens[0].tok), s.pos) {
      TakeAndComplete(c, s);
    } else {
      TakeAndPass(c, s);
    }
  }

  lemma StepKeeps(c: Config, s: System, st: Step)
    requires c.Ok() && Inv(c, s) && Enabled(c, s, st)
    ensures Inv(c, Apply(c, s, st))
  {
    match st
    case Send(p, cpu, to) => SendKeeps(c, s, p, cpu, to);
    case Receive(p, wake, sends) => ReceiveKeeps(c, s, p, wake, sends);
    case LocalWake(p, cpu, wake) => LocalWakeKeeps(c, s, p, cpu, wake);
    case Finish(p, cpu) =>
      if s.nodes[p].done || s.nodes[p].numActive != 1 || !s.nodes[p].hasToken {
        FinishAsleepKeeps(c, s, p, cpu);
      } else if Completes(s.nodes[p], p) {
        FinishCompletesKeeps(c, s, p, cpu);
      } else {
        FinishPassesKeeps(c, s, p, cpu);
      }
    case Continue(p, cpu) => ContinueKeeps(c, s, p, cpu);
    case TakeToken(k) => TakeTokenKeeps(c, s, k);
    case TakeDone(k) => TakeDoneKeeps(c, s, k);
  }

  lemma InitialNodeOk(ncpus: nat, nprocs: nat, me: nat)
    requires me < nprocs && 1 <= ncpus
    ensures LocalInv(InitialNode(ncpus, nprocs, me), ncpus)
  {
    CountBounds(InitialNode(ncpus, nprocs, me).sleeping);
  }

  lemma InitTotals(c: Config)
    requires c.Ok()
    ensures var s := Init(c);
      && Sum(Sents(s.nodes)) == 0 && Sum(Receiveds(s.nodes)) == 0 && Sum(s.calls) == 0
      && Sum(LastSents(s.nodes)) == 0 && Sum(LastReceiveds(s.nodes)) == 0
  {
    var s := Init(c);
    SumOfZeros(Sents(s.nodes));
    SumOfZeros(Receiveds(s.nodes));
    SumOfZeros(LastSents(s.nodes));
    SumOfZeros(LastReceiveds(s.nodes));
    SumOfZeros(s.calls);
  }

  lemma InitHolds(c: Config)
    requires c.Ok()
    ensures Inv(c, Init(c))
  {
    var s := Init(c);
    forall q | 0 <= q < c.nprocs ensures LocalInv(s.nodes[q], c.ncpus) { InitialNodeOk(c.ncpus, c.nprocs, q); }
    InitTotals(c);
  }

  lemma {:induction false} RunKeeps(c: Config, s: System, steps: seq<Step>, t: System)
    requires c.Ok() && Inv(c, s) && Run(c, s, steps, t)
    ensures Inv(c, t)
    decreases |steps|
  {
    if steps != [] {
      StepKeeps(c, s, steps[0]);
      RunKeeps(c, Apply(c, s, steps[0]), steps[1..], t);
    }
  }

  lemma ReachableInv(c: Config, t: System)
    requires c.Ok() && Reachable(c, t)
    ensures Inv(c, t)
  {
    var steps :| Run(c, Init(c), steps, t);
    InitHolds(c);
    RunKeeps(c, Init(c), steps, t);
  }

  // ---- what the invariant says to a user of the detector ----

  /** Termination safety.  Once completion was declared on a marker that some process wrote, or on the preset
      marker while the last process had sent nothing, no fiber anywhere is computing or about to, and no counted
      call is in flight; and this stays so in every continuation of the run. */
  lemma TerminationIsSafe(c: Config, t: System)
    requires c.Ok() && Reachable(c, t) && Sound(t.completion)
    ensures Shaped(c, t) && Quiet(c, t)
    ensures forall q :: 0 <= q < c.nprocs && !t.nodes[q].done ==> q in t.dones
  {
    ReachableInv(c, t);
  }

  /** Nobody is told `done` before completion was declared, and from then on every fiber that waits is released. */
  lemma DoneOnlyAfterCompletion(c: Config, t: System, q: nat)
    requires c.Ok() && Reachable(c, t) && q < c.nprocs
    ensures Shaped(c, t)
    ensures t.nodes[q].done ==> !t.completion.Running?
    ensures t.nodes[q].done ==> forall i :: 0 <= i < c.ncpus ==> !t.nodes[q].phase[i].Parked?
  {
    ReachableInv(c, t);
    assert LocalInv(t.nodes[q], c.ncpus);
  }

  /** Conservation: one token, carrying the sums of the recorded counters; an idle process never keeps it; and
      every process accounts for all its fibers. */
  lemma TokenConservation(c: Config, t: System)
    requires c.Ok() && Reachable(c, t)
    ensures Shaped(c, t) && t.pos < c.nprocs
    ensures |t.tokens| + |set q | 0 <= q < c.nprocs && t.nodes[q].hasToken| == 1
    ensures LiveToken(t).sent == Sum(LastSents(t.nodes)) && LiveToken(t).received == Sum(LastReceiveds(t.nodes))
    ensures Sum(Sents(t.nodes)) == Sum(Receiveds(t.nodes)) + Sum(t.calls)
    ensures forall q :: 0 <= q < c.nprocs && t.nodes[q].hasToken && !t.nodes[q].done ==> !t.nodes[q].Idle()
    ensures forall q :: 0 <= q < c.nprocs ==> t.nodes[q].numActive + Count(t.nodes[q].sleeping) == c.ncpus
  {
    ReachableInv(c, t);
    forall q | 0 <= q < c.nprocs
      ensures t.nodes[q].numActive + Count(t.nodes[q].sleeping) == c.ncpus
      ensures t.nodes[q].hasToken && !t.nodes[q].done ==> !t.nodes[q].Idle()
    {
      assert LocalInv(t.nodes[q], c.ncpus);
    }
    var holders := set q | 0 <= q < c.nprocs && t.nodes[q].hasToken;
    if t.tokens == [] { assert holders == {t.pos}; } else { assert holders == {}; }
  }
}
