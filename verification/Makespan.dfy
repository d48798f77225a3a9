/** Without I/O, which ticks are busy, how long the CPU idles and when the run completes do not
    depend on the policy: all follow one recurrence on the workload. */
module Makespan {
  import opened Processes
  import opened RandomWords
  import opened Policies
  import opened Engine
  import Invariants
  import Effects
  import Runs
  import Sums

  ghost predicate NoIO(procs: seq<Proc>) {
    forall i | 0 <= i < |procs| :: procs[i].io == []
  }

  /** Burst time of each process that has arrived by `now`. */
  function Arrived(procs: seq<Proc>, now: int): seq<int> {
    seq(|procs|, i requires 0 <= i < |procs| => if procs[i].arrival <= now then procs[i].burst else 0)
  }

  function Bursts(procs: seq<Proc>): seq<int> {
    seq(|procs|, i requires 0 <= i < |procs| => procs[i].burst)
  }

  function ExecutedBy(s: State): seq<int> {
    seq(|s.procs|, i requires 0 <= i < |s.procs| => s.procs[i].Executed())
  }

  /** Idle ticks among the first `n`: a tick idles when all the work that has arrived is done. */
  function IdleBy(procs: seq<Proc>, n: nat): (k: int)
    ensures 0 <= k <= n
    decreases n, 0
  {
    if n == 0 then 0
    else if IsIdle(procs, n - 1) then IdleBy(procs, n - 1) + 1
    else IdleBy(procs, n - 1)
  }

  predicate IsIdle(procs: seq<Proc>, n: nat)
    decreases n, 1
  {
    Sums.Sum(Arrived(procs, n)) == n - IdleBy(procs, n)
  }

  /** CPU time given out equals busy ticks. */
  ghost predicate WorkConserved(s: State) {
    Sums.Sum(ExecutedBy(s)) == s.time - s.idle
  }

  /** One tick gives out one unit of CPU or counts as idle, whatever the policy and the I/O. */
  lemma WorkConservedTick(procs: seq<Proc>, s: State)
    requires Runs.OnTrack(procs, s) && WorkConserved(s)
    ensures WorkConserved(Tick(s))
  {
    hide Tick, Runner, Effects.Ticked, Effects.Alike, Effects.AfterAdmission, Invariants.ProcOk, Invariants.InPlace;
    Effects.ViewTick(s);
    Effects.TickSpends(s);
    var t := Tick(s);
    if Runner(s).Some? {
      Sums.SumChange(ExecutedBy(s), ExecutedBy(t), Runner(s).value);
    } else {
      assert ExecutedBy(t) == ExecutedBy(s);
    }
  }

  /** In every reachable state the clock splits into idle ticks and CPU time given out. */
  lemma {:induction false} WorkConservedRun(policy: Policy, seed: Word, procs: seq<Proc>, n: nat)
    requires Invariants.Startable(policy, procs)
    ensures WorkConserved(Run(Initial(policy, seed, procs), n))
  {
    hide Tick, Runs.OnTrack;
    var s0 := Initial(policy, seed, procs);
    if n == 0 {
      Runs.FreshIsNew(procs);
      Sums.SumZero(ExecutedBy(s0));
    } else {
      WorkConservedRun(policy, seed, procs, n - 1);
      Runs.OnTrackRun(policy, seed, procs, n - 1);
      WorkConservedTick(procs, Run(s0, n - 1));
    }
  }

  /** Without I/O a process competes for the CPU exactly when it has arrived and has work left. */
  lemma CompetesWithoutIO(procs: seq<Proc>, s: State, i: nat)
    requires Runs.OnTrack(procs, s) && NoIO(procs) && i < |procs|
    ensures Effects.Active(Effects.AfterAdmission(s.policy, s.time, s.procs[i])) <==>
            procs[i].arrival <= s.time && s.procs[i].Executed() < procs[i].burst
    ensures procs[i].arrival > s.time ==> s.procs[i].Executed() == 0
    ensures 0 <= s.procs[i].Executed() <= procs[i].burst
    ensures s.procs[i].state != Waiting
  {
    assert Invariants.ProcOk(s.procs[i]) && Invariants.InPlace(s, i);
    assert ResetProc(s.procs[i]) == procs[i];
    assert |ResetProc(s.procs[i]).io| == |s.procs[i].io|;
  }

  lemma IdleDecision(procs: seq<Proc>, s: State)
    requires Runs.OnTrack(procs, s) && NoIO(procs) && WorkConserved(s) && s.idle == IdleBy(procs, s.time)
    ensures Runner(s).None? <==> IsIdle(procs, s.time)
    ensures Done(s) <==> Sums.Sum(Bursts(procs)) == s.time - IdleBy(procs, s.time)
    ensures Tick(s).idle == if IsIdle(procs, s.time) then s.idle + 1 else s.idle
  {
    hide Tick, Runner, Done;
    TickIdles(procs, s);
    BusyUntilWorkIsDone(procs, s);
    DoneWhenAllExecuted(procs, s);
  }

  /** The recurrence: idle ticks, busy ticks and completion of a run, read off the workload alone. */
  lemma {:induction false} IdleFollowsWorkload(policy: Policy, seed: Word, procs: seq<Proc>, n: nat)
    requires Invariants.Startable(policy, procs) && NoIO(procs)
    ensures var s := Run(Initial(policy, seed, procs), n);
            && s.idle == IdleBy(procs, n)
            && (Runner(s).None? <==> IsIdle(procs, n))
            && (Done(s) <==> Sums.Sum(Bursts(procs)) == n - IdleBy(procs, n))
  {
    hide Tick, Runner, Runs.OnTrack, Done, IsIdle, WorkConserved, NoIO, Wf, Invariants.Workload;
    var s0 := Initial(policy, seed, procs);
    if n > 0 {
      IdleFollowsWorkload(policy, seed, procs, n - 1);
      Runs.OnTrackRun(policy, seed, procs, n - 1);
      WorkConservedRun(policy, seed, procs, n - 1);
      IdleDecision(procs, Run(s0, n - 1));
      assert Run(s0, n) == Tick(Run(s0, n - 1));
    }
    Runs.OnTrackRun(policy, seed, procs, n);
    WorkConservedRun(policy, seed, procs, n);
    IdleDecision(procs, Run(s0, n));
  }

  lemma TickIdles(procs: seq<Proc>, s: State)
    requires Runs.OnTrack(procs, s)
    ensures Tick(s).idle == if Runner(s).None? then s.idle + 1 else s.idle
  {
    hide Tick, Runner;
    Effects.ViewTick(s);
  }

  lemma BusyUntilWorkIsDone(procs: seq<Proc>, s: State)
    requires Runs.OnTrack(procs, s) && NoIO(procs)
    ensures Runner(s).None? <==> Sums.Sum(Arrived(procs, s.time)) == Sums.Sum(ExecutedBy(s))
  {
    hide Tick, Runner, Effects.AfterAdmission;
    Effects.ViewTick(s);
    var left := seq(|procs|, i requires 0 <= i < |procs| =>
                    if procs[i].arrival <= s.time then procs[i].burst - s.procs[i].Executed() else 0);
    forall i | 0 <= i < |procs|
      ensures Arrived(procs, s.time)[i] == ExecutedBy(s)[i] + left[i]
      ensures left[i] >= 0 && (left[i] == 0 <==> !Effects.Active(Effects.AfterAdmission(s.policy, s.time, s.procs[i])))
    {
      CompetesWithoutIO(procs, s, i);
    }
    Sums.SumAdd(ExecutedBy(s), left, Arrived(procs, s.time));
    Sums.SumNonNegative(left);
  }

  lemma DoneWhenAllExecuted(procs: seq<Proc>, s: State)
    requires Runs.OnTrack(procs, s)
    ensures Done(s) <==> Sums.Sum(Bursts(procs)) == Sums.Sum(ExecutedBy(s))
  {
    var left := seq(|procs|, i requires 0 <= i < |procs| => s.procs[i].remaining);
    forall i | 0 <= i < |procs|
      ensures Bursts(procs)[i] == ExecutedBy(s)[i] + left[i]
      ensures left[i] >= 0 && (left[i] == 0 <==> s.procs[i].Complete())
    {
      assert Invariants.ProcOk(s.procs[i]);
      assert ResetProc(s.procs[i]).burst == procs[i].burst;
    }
    Sums.SumAdd(ExecutedBy(s), left, Bursts(procs));
    Sums.SumNonNegative(left);
  }

  /** Two runs over the same I/O-free workload, under any two policies and seeds, are idle in the
      same ticks and complete in the same tick. */
  lemma MakespanIndependentOfPolicy(policy: Policy, seed: Word, policy': Policy, seed': Word, procs: seq<Proc>, n: nat)
    requires Invariants.Startable(policy, procs) && Invariants.Startable(policy', procs) && NoIO(procs)
    ensures var s := Run(Initial(policy, seed, procs), n);
            var s' := Run(Initial(policy', seed', procs), n);
            && s.idle == s'.idle
            && (Runner(s).None? <==> Runner(s').None?)
            && (Done(s) <==> Done(s'))
  {
    hide Tick, Runner, Done;
    IdleFollowsWorkload(policy, seed, procs, n);
    IdleFollowsWorkload(policy', seed', procs, n);
  }
}
