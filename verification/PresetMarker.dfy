/**
  The constructor presets `last_change` to the last process without visiting it, and the completion test does not
  re-read the holder's counters.  This module says exactly when completing on that preset marker is right.
 */
module PresetMarker {
  import opened Prelude
  import opened ConsensusNode
  import opened TerminationDetection
  import opened TerminationSafety

  lemma {:induction false} RunAppend(c: Config, s: System, xs: seq<Step>, t: System, st: Step)
    requires Run(c, s, xs, t) && Shaped(c, t) && Enabled(c, t, st)
    ensures Run(c, s, xs + [st], Apply(c, t, st))
    decreases |xs|
  {
    if xs == [] {
      assert [st][1..] == [];
    } else {
      assert (xs + [st])[1..] == xs[1..] + [st];
      RunAppend(c, Apply(c, s, xs[0]), xs[1..], t, st);
    }
  }

  lemma ReachableStep(c: Config, t: System, st: Step)
    requires c.Ok() && Reachable(c, t) && Shaped(c, t) && Enabled(c, t, st)
    ensures Reachable(c, Apply(c, t, st))
  {
    var steps :| Run(c, Init(c), steps, t);
    RunAppend(c, Init(c), steps, t, st);
  }

  // ---- a run in which the last process sends, everyone goes to sleep in turn, and the calls stay in flight ----

  /** A process whose first `j` fibers have gone to sleep. */
  function Drowsy(c: Config, j: nat, hasToken: bool, sent: nat): Node
    requires 1 <= c.nprocs
  {
    var asleep := seq(c.ncpus, i => i < j);
    Node(c.ncpus - j, j, asleep, asleep, asleep, seq(c.ncpus, i => if i < j then Parked else Working),
         false, hasToken, Token(0, 0, c.nprocs - 1), 0, 0, sent, 0)
  }

  function SentBy(c: Config, q: int, sent: nat): nat {
    if q == c.nprocs - 1 then sent else 0
  }

  /** Processes before `k` sleep, process `k` has `j` sleepers, the rest work; `holder` has the token, if anyone. */
  function Nodes(c: Config, sent: nat, k: nat, j: nat, holder: int): seq<Node>
    requires 1 <= c.nprocs
  {
    seq(c.nprocs, q => Drowsy(c, if q < k then c.ncpus else if q == k then j else 0, q == holder, SentBy(c, q, sent)))
  }

  function CallsToFirst(c: Config, sent: nat): seq<int> { seq(c.nprocs, q => if q == 0 then sent else 0) }

  function Stage(c: Config, sent: nat, k: nat, j: nat): System
    requires 1 <= c.nprocs
  {
    System(Nodes(c, sent, k, j, k), CallsToFirst(c, sent), [], [], k, true, Running)
  }

  function Moving(c: Config, sent: nat, k: nat): System
    requires 1 <= c.nprocs
  {
    System(Nodes(c, sent, k, 0, -1), CallsToFirst(c, sent),
           [TokenMsg(k, Token(0, 0, c.nprocs - 1))], [], k, true, Running)
  }

  lemma StageIsInit(c: Config)
    requires c.Ok()
    ensures Stage(c, 0, 0, 0) == Init(c)
  {
    var s, t := Stage(c, 0, 0, 0), Init(c);
    forall q | 0 <= q < c.nprocs ensures s.nodes[q] == t.nodes[q] {
      assert s.nodes[q].sleeping == t.nodes[q].sleeping;
      assert s.nodes[q].phase == t.nodes[q].phase;
    }
    assert s.nodes == t.nodes && s.calls == t.calls;
  }

  lemma InitReachable(c: Config)
    requires c.Ok()
    ensures Reachable(c, Init(c))
  {
    assert Run(c, Init(c), [], Init(c));
  }

  lemma OneMoreSent(c: Config, sent: nat)
    requires c.Ok()
    ensures var s := Stage(c, sent, 0, 0);
      && Shaped(c, s) && Enabled(c, s, Send(c.nprocs - 1, 0, 0))
      && Apply(c, s, Send(c.nprocs - 1, 0, 0)) == Stage(c, sent + 1, 0, 0)
  {
    var s, t := Stage(c, sent, 0, 0), Stage(c, sent + 1, 0, 0);
    var p := c.nprocs - 1;
    assert s.nodes[p].phase[0] == Working;
    assert s.nodes[p := s.nodes[p].(callsSent := sent + 1)] == t.nodes;
    assert s.calls[0 := s.calls[0] + 1] == t.calls;
  }

  lemma SendOne(c: Config, sent: nat)
    requires c.Ok() && Reachable(c, Stage(c, sent, 0, 0))
    ensures Reachable(c, Stage(c, sent + 1, 0, 0))
  {
    OneMoreSent(c, sent);
    ReachableStep(c, Stage(c, sent, 0, 0), Send(c.nprocs - 1, 0, 0));
  }

  lemma {:induction false} SendingStage(c: Config, sent: nat)
    requires c.Ok()
    ensures Reachable(c, Stage(c, sent, 0, 0))
  {
    if sent == 0 {
      StageIsInit(c);
      InitReachable(c);
    } else {
      SendingStage(c, sent - 1);
      SendOne(c, sent - 1);
    }
  }

  lemma OneMoreSleeper(c: Config, j: nat, hasToken: bool, sent: nat, me: nat)
    requires c.Ok() && j + 1 < c.ncpus && me < c.nprocs
    ensures TryFinish(Drowsy(c, j, hasToken, sent), c.ncpus, c.nprocs, me, j)
      == (Drowsy(c, j + 1, hasToken, sent), Silent)
  {
    var n, m := Drowsy(c, j, hasToken, sent), Drowsy(c, j + 1, hasToken, sent);
    assert n.sleeping[j := true] == m.sleeping;
    assert n.phase[j := Parked] == m.phase;
  }

  lemma LastSleeperPasses(c: Config, me: nat)
    requires c.Ok() && me + 1 < c.nprocs
    ensures TryFinish(Drowsy(c, c.ncpus - 1, true, 0), c.ncpus, c.nprocs, me, c.ncpus - 1)
            == (Drowsy(c, c.ncpus, false, 0), PassTo(me + 1, Token(0, 0, c.nprocs - 1)))
  {
    var j := c.ncpus - 1;
    var n, m := Drowsy(c, j, true, 0), Drowsy(c, c.ncpus, false, 0);
    NextIsModular(c.nprocs, me);
    assert n.sleeping[j := true] == m.sleeping;
    assert n.phase[j := Parked] == m.phase;
  }

  lemma StageShape(c: Config, sent: nat, k: nat, j: nat)
    requires c.Ok() && k < c.nprocs && j < c.ncpus
    ensures Shaped(c, Stage(c, sent, k, j)) && Enabled(c, Stage(c, sent, k, j), Finish(k, j))
  {
    assert Stage(c, sent, k, j).nodes[k].phase[j] == Working;
  }

  lemma FiberSleeps(c: Config, sent: nat, k: nat, j: nat)
    requires c.Ok() && k < c.nprocs && j + 1 < c.ncpus
    ensures var s := Stage(c, sent, k, j);
      Shaped(c, s) && Enabled(c, s, Finish(k, j)) && Apply(c, s, Finish(k, j)) == Stage(c, sent, k, j + 1)
  {
    StageShape(c, sent, k, j);
    OneMoreSleeper(c, j, true, SentBy(c, k, sent), k);
    assert Nodes(c, sent, k, j, k)[k := Drowsy(c, j + 1, true, SentBy(c, k, sent))] == Nodes(c, sent, k, j + 1, k);
  }

  lemma TokenIsPassed(c: Config, sent: nat, k: nat)
    requires c.Ok() && k + 1 < c.nprocs
    ensures var s, st := Stage(c, sent, k, c.ncpus - 1), Finish(k, c.ncpus - 1);
      Shaped(c, s) && Enabled(c, s, st) && Apply(c, s, st) == Moving(c, sent, k + 1)
  {
    StageShape(c, sent, k, c.ncpus - 1);
    LastSleeperPasses(c, k);
    assert Nodes(c, sent, k, c.ncpus - 1, k)[k := Drowsy(c, c.ncpus, false, 0)] == Nodes(c, sent, k + 1, 0, -1);
  }

  lemma TokenIsHeld(c: Config, sent: nat, k: nat)
    requires c.Ok() && k < c.nprocs
    ensures var s := Moving(c, sent, k);
      Shaped(c, s) && Enabled(c, s, TakeToken(0)) && Apply(c, s, TakeToken(0)) == Stage(c, sent, k, 0)
  {
    assert Without(Moving(c, sent, k).tokens, 0) == [];
    assert Nodes(c, sent, k, 0, -1)[k := Drowsy(c, 0, true, SentBy(c, k, sent))] == Nodes(c, sent, k, 0, k);
  }

  lemma SleepOne(c: Config, sent: nat, k: nat, j: nat)
    requires c.Ok() && k < c.nprocs && j + 1 < c.ncpus && Reachable(c, Stage(c, sent, k, j))
    ensures Reachable(c, Stage(c, sent, k, j + 1))
  {
    FiberSleeps(c, sent, k, j);
    ReachableStep(c, Stage(c, sent, k, j), Finish(k, j));
  }

  lemma TakeOne(c: Config, sent: nat, k: nat)
    requires c.Ok() && k < c.nprocs && Reachable(c, Moving(c, sent, k))
    ensures Reachable(c, Stage(c, sent, k, 0))
  {
    TokenIsHeld(c, sent, k);
    ReachableStep(c, Moving(c, sent, k), TakeToken(0));
  }

  lemma {:induction false} SleepingStage(c: Config, sent: nat, k: nat, j: nat)
    requires c.Ok() && k < c.nprocs && j < c.ncpus
    ensures Reachable(c, Stage(c, sent, k, j))
    decreases k, 2, j
  {
    if j == 0 {
      WakefulStage(c, sent, k);
    } else {
      SleepingStage(c, sent, k, j - 1);
      SleepOne(c, sent, k, j - 1);
    }
  }

  lemma {:induction false} WakefulStage(c: Config, sent: nat, k: nat)
    requires c.Ok() && k < c.nprocs
    ensures Reachable(c, Stage(c, sent, k, 0))
    decreases k, 1
  {
    if k == 0 {
      SendingStage(c, sent);
    } else {
      MovingStage(c, sent, k);
      TakeOne(c, sent, k);
    }
  }

  lemma {:induction false} MovingStage(c: Config, sent: nat, k: nat)
    requires c.Ok() && 0 < k < c.nprocs
    ensures Reachable(c, Moving(c, sent, k))
    decreases k, 0
  {
    SleepingStage(c, sent, k - 1, c.ncpus - 1);
    TokenIsPassed(c, sent, k - 1);
    ReachableStep(c, Stage(c, sent, k - 1, c.ncpus - 1), Finish(k - 1, c.ncpus - 1));
  }

  /** The last process falls asleep holding the token it never stamped: completion, with `sent` calls in flight. */
  lemma PrematureCompletion(c: Config, sent: nat) returns (t: System)
    requires c.Ok()
    ensures Reachable(c, t) && Shaped(c, t) && t.completion == OnPreset(sent) && t.calls == CallsToFirst(c, sent)
  {
    var k, j := c.nprocs - 1, c.ncpus - 1;
    SleepingStage(c, sent, k, j);
    StageShape(c, sent, k, j);
    var r := Stage(c, sent, k, j);
    t := Apply(c, r, Finish(k, j));
    ReachableStep(c, r, Finish(k, j));
    var n := r.nodes[k];
    WakeShape(Begin(n, j).(numActive := 0, done := true), c.ncpus);
  }

  /** Completing on the preset marker is right in every run exactly when the last process had sent no counted call. */
  lemma PresetIsSafeExactlyWhenNothingSent(c: Config, sent: nat)
    requires c.Ok()
    ensures (forall t :: Reachable(c, t) && t.completion == OnPreset(sent) ==> Shaped(c, t) && Quiet(c, t))
            <==> sent == 0
  {
    if sent == 0 {
      forall t | Reachable(c, t) && t.completion == OnPreset(sent) ensures Shaped(c, t) && Quiet(c, t) {
        TerminationIsSafe(c, t);
      }
    } else {
      var t := PrematureCompletion(c, sent);
      assert t.calls[0] == sent;
    }
  }
}
