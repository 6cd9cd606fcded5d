/**
  The detector as an object: its fields, updated in place by each critical section.
  Every method is tied to the function of the same name in `ConsensusNode`.
 */
module AsyncConsensus {
  import opened ConsensusNode

  class Detector {
    const ncpus: nat
    const nprocs: nat
    const me: nat

    var numActive: int
    var tryingToSleep: int
    var critical: seq<bool>
    var sleeping: seq<bool>
    var cond: seq<bool>
    var phase: seq<Phase>
    var done: bool
    var hasToken: bool
    var curToken: Token
    var lastSent: int
    var lastReceived: int
    var callsSent: int
    var callsReceived: int

    function State(): Node
      reads this
    {
      Node(numActive, tryingToSleep, critical, sleeping, cond, phase, done, hasToken, curToken,
           lastSent, lastReceived, callsSent, callsReceived)
    }

    ghost predicate Valid()
      reads this
    {
      State().Shaped(ncpus) && me < nprocs
    }

    constructor (requiredFibers: nat, numProcs: nat, procId: nat)
      requires procId < numProcs
      ensures Valid() && ncpus == requiredFibers && nprocs == numProcs && me == procId
      ensures State() == InitialNode(requiredFibers, numProcs, procId)
    {
      ncpus, nprocs, me := requiredFibers, numProcs, procId;
      numActive := requiredFibers;
      tryingToSleep := 0;
      critical := seq(requiredFibers, i => false);
      sleeping := seq(requiredFibers, i => false);
      cond := seq(requiredFibers, i => false);
      phase := seq(requiredFibers, i => Working);
      done := false;
      hasToken := procId == 0;
      curToken := Token(0, 0, numProcs - 1);
      lastSent, lastReceived, callsSent, callsReceived := 0, 0, 0, 0;
    }

    /** fiber_control::schedule_tid, called with the detector's mutex held. */
    method ScheduleTid(i: nat)
      requires Valid() && i < ncpus
      modifies this`phase
      ensures Valid() && State() == old(State()).(phase := old(phase)[i := Schedule(old(phase[i]))])
    {
      if phase[i].Parked? { phase := phase[i := Woken]; }
    }

    /** The loop shared by cancel and the completion branch. */
    method WakeSleepers()
      requires Valid()
      modifies this`numActive, this`sleeping, this`phase
      ensures Valid() && State() == WakeUpTo(old(State()), ncpus)
    {
      ghost var before := State();
      for i := 0 to ncpus
        invariant Valid()
        invariant State() == WakeUpTo(before, i)
      {
        numActive := numActive + if sleeping[i] then 1 else 0;
        if sleeping[i] {
          sleeping := sleeping[i := false];
          if cond[i] { ScheduleTid(i); }
        }
      }
    }

    method CancelAll()
      requires Valid()
      modifies this`numActive, this`sleeping, this`phase
      ensures Valid() && State() == Cancel(old(State()), ncpus)
    {
      if tryingToSleep > 0 || numActive < ncpus {
        if numActive < ncpus { WakeSleepers(); }
      }
    }

    method CancelFiber(cpu: nat)
      requires Valid() && cpu < ncpus
      modifies this`numActive, this`sleeping, this`phase
      ensures Valid() && State() == CancelOne(old(State()), ncpus, cpu)
    {
      if critical[cpu] {
        if sleeping[cpu] {
          numActive := numActive + 1;
          sleeping := sleeping[cpu := false];
          if cond[cpu] { ScheduleTid(cpu); }
        }
      }
    }

    method ForceCompletion()
      requires Valid()
      modifies this
      ensures Valid() && State() == ForceDone(old(State()), ncpus)
    {
      done := true;
      CancelAll();
    }

    method PassTheToken() returns (out: Out)
      requires Valid() && hasToken
      modifies this
      ensures Valid() && (State(), out) == PassToken(old(State()), ncpus, nprocs, me)
    {
      if curToken.lastChange == me && curToken.received == curToken.sent {
        var dests := [];
        for i := 0 to nprocs
          invariant dests == Others(i, me)
          invariant State() == old(State())
        {
          if i != me { dests := dests + [i]; }
        }
        done := true;
        if numActive < ncpus { WakeSleepers(); }
        out := Broadcast(dests);
      } else {
        if callsSent != lastSent || callsReceived != lastReceived {
          curToken := Token(curToken.sent + (callsSent - lastSent),
                            curToken.received + (callsReceived - lastReceived), me);
        }
        lastSent := callsSent;
        lastReceived := callsReceived;
        hasToken := false;
        out := PassTo((me + 1) % nprocs, curToken);
      }
    }

    method ReceiveTheToken(tok: Token) returns (out: Out)
      requires Valid()
      modifies this
      ensures Valid() && (State(), out) == ReceiveToken(old(State()), ncpus, nprocs, me, tok)
    {
      hasToken := true;
      curToken := tok;
      out := Silent;
      if numActive == 0 { out := PassTheToken(); }
    }

    method BeginDoneCriticalSection(cpu: nat)
      requires Valid() && cpu < ncpus
      modifies this`tryingToSleep, this`critical
      ensures Valid() && State() == Begin(old(State()), cpu)
    {
      tryingToSleep := tryingToSleep + 1;
      critical := critical[cpu := true];
    }

    /** Undoes `BeginDoneCriticalSection`: the fiber found work after all. */
    method CancelCriticalSection(cpu: nat)
      requires Valid() && cpu < ncpus
      modifies this`tryingToSleep, this`critical
      ensures Valid()
      ensures forall n: Node :: n.Shaped(ncpus) && !n.critical[cpu] && old(State()) == Begin(n, cpu) ==> State() == n
    {
      ghost var entered := State();
      critical := critical[cpu := false];
      tryingToSleep := tryingToSleep - 1;
      forall n: Node | n.Shaped(ncpus) && !n.critical[cpu] && entered == Begin(n, cpu)
        ensures State() == n
      {
        assert n.critical[cpu := true][cpu := false] == n.critical;
      }
    }

    /** One turn of the wait loop; `left` says whether the call returned (with `done`) or descheduled the fiber. */
    method WaitLoopTurn(cpu: nat) returns (left: bool)
      requires Valid() && cpu < ncpus
      modifies this
      ensures Valid() && State() == LoopHead(old(State()), ncpus, cpu)
      ensures left == (!old(sleeping)[cpu] || old(done))
    {
      if !sleeping[cpu] || done {
        left := true;
        critical := critical[cpu := false];
        tryingToSleep := tryingToSleep - 1;
        phase := phase[cpu := if done then Finished else Working];
      } else {
        left := false;
        cond := cond[cpu := true];
        phase := phase[cpu := Parked];
      }
    }

    method EndDoneCriticalSection(cpu: nat) returns (out: Out, left: bool)
      requires Valid() && cpu < ncpus
      modifies this
      ensures Valid() && (State(), out) == EndDone(old(State()), ncpus, nprocs, me, cpu)
      ensures left ==> !phase[cpu].Parked?
    {
      out := Silent;
      if done {
        left := true;
        critical := critical[cpu := false];
        tryingToSleep := tryingToSleep - 1;
        phase := phase[cpu := Finished];
      } else {
        numActive := numActive - 1;
        if numActive == 0 {
          if hasToken { out := PassTheToken(); }
        }
        sleeping := sleeping[cpu := true];
        left := WaitLoopTurn(cpu);
      }
    }

    /** The fiber was scheduled again and has retaken the mutex. */
    method ResumeWait(cpu: nat) returns (left: bool)
      requires Valid() && cpu < ncpus
      modifies this
      ensures Valid() && State() == Resume(old(State()), ncpus, cpu)
    {
      cond := cond[cpu := false];
      left := WaitLoopTurn(cpu);
    }
  }
}
