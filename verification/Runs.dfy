/** What every run keeps: the configuration of each process, admission exactly on time, and the clock. */
module Runs {
  import opened Processes
  import opened RandomWords
  import opened Policies
  import opened Engine
  import Invariants
  import Effects

  /** `s` is a state of a run over `procs`: the invariant holds, no configuration field has changed,
      and the processes not yet admitted are exactly those with an arrival time still to come. */
  ghost predicate OnTrack(procs: seq<Proc>, s: State) {
    && Invariants.Inv(s)
    && s.time >= 0
    && |s.procs| == |procs|
    && (forall i | 0 <= i < |procs| ::
          && ResetProc(s.procs[i]) == procs[i]
          && s.procs[i].lastExecuted <= s.time
          && (s.procs[i].state == New <==> procs[i].arrival >= s.time))
  }

  lemma AdmissionKeepsConfig(policy: Policy, now: int, p: Proc)
    ensures ResetProc(Effects.AfterAdmission(policy, now, p)) == ResetProc(p)
    ensures Effects.AfterAdmission(policy, now, p).lastExecuted == p.lastExecuted
  {
  }

  lemma ExecutionKeepsConfig(policy: Policy, now: int, p: Proc)
    ensures ResetProc(Effects.AfterExecution(policy, now, p)) == ResetProc(p)
  {
    var q := Execute(p, now, 1);
    assert ResetProc(q) == ResetProc(p);
    if !q.Complete() && Fires(q) {
      assert ClearBursts(StartBurst(q).io) == ClearBursts(q.io);
    }
  }

  lemma OnTrackTick(procs: seq<Proc>, s: State)
    requires OnTrack(procs, s)
    ensures OnTrack(procs, Tick(s))
  {
    hide Tick, Runner, Admitted, DispatchStage, Effects.AfterExecution;
    Effects.ViewTick(s);
    forall i | 0 <= i < |procs|
      ensures ResetProc(Tick(s).procs[i]) == procs[i]
      ensures Tick(s).procs[i].lastExecuted <= Tick(s).time
      ensures Tick(s).procs[i].state == New <==> procs[i].arrival >= Tick(s).time
    {
      var p := Effects.AfterAdmission(s.policy, s.time, s.procs[i]);
      AdmissionKeepsConfig(s.policy, s.time, s.procs[i]);
      ExecutionKeepsConfig(s.policy, s.time, p);
      ExecutionLeavesNew(s.policy, s.time, p);
      assert procs[i].arrival == s.procs[i].arrival;
      assert Effects.Alike(Effects.Ticked(s, i), Tick(s).procs[i]);
    }
  }

  lemma ExecutionLeavesNew(policy: Policy, now: int, p: Proc)
    ensures Effects.AfterExecution(policy, now, p).state != New
    ensures Effects.AfterExecution(policy, now, p).lastExecuted == now + 1
  {
  }

  lemma {:induction false} OnTrackRun(policy: Policy, seed: Word, procs: seq<Proc>, n: nat)
    requires Invariants.Startable(policy, procs)
    ensures var s := Run(Initial(policy, seed, procs), n);
            OnTrack(procs, s) && s.time == n && s.policy == policy
  {
    hide Tick, Fresh;
    var s0 := Initial(policy, seed, procs);
    if n == 0 {
      Invariants.InvInitial(policy, seed, procs);
      FreshIsNew(procs);
    } else {
      OnTrackRun(policy, seed, procs, n - 1);
      var s := Run(s0, n - 1);
      OnTrackTick(procs, s);
      Effects.ViewTick(s);
    }
  }

  lemma FreshIsNew(procs: seq<Proc>)
    requires Invariants.Workload(procs)
    ensures forall i | 0 <= i < |procs| :: procs[i] == ResetProc(procs[i]) && procs[i].state == New && procs[i].arrival >= 0 && procs[i].lastExecuted == 0
  {
    forall i | 0 <= i < |procs|
      ensures procs[i] == ResetProc(procs[i]) && procs[i].state == New && procs[i].arrival >= 0 && procs[i].lastExecuted == 0
    {
      assert Fresh(procs[i]);
      assert procs[i] == ResetProc(procs[i]);
    }
  }

  lemma RunFacts(policy: Policy, seed: Word, procs: seq<Proc>, n: nat)
    requires Invariants.Startable(policy, procs)
    ensures var s := Run(Initial(policy, seed, procs), n);
            Invariants.Inv(s) && |s.procs| == |procs| && s.policy == policy && s.time == n
  {
    hide Tick, Invariants.Inv, Invariants.Workload, ResetProc;
    OnTrackRun(policy, seed, procs, n);
  }

  lemma PidsKept(procs: seq<Proc>, s: State)
    requires OnTrack(procs, s) && Invariants.DistinctPids(procs)
    ensures Invariants.DistinctPids(s.procs)
  {
    forall i, j | 0 <= i < j < |procs|
      ensures s.procs[i].pid != s.procs[j].pid
    {
      assert ResetProc(s.procs[i]).pid == procs[i].pid && ResetProc(s.procs[j]).pid == procs[j].pid;
    }
  }
}
