/** I/O bursts over runs: they fire one by one in list order, only ever when their process has just executed
    the CPU time they ask for, and each ends on time. */
module Bursts {
  import opened RandomWords
  import opened Processes
  import opened Policies
  import opened Engine
  import opened Invariants
  import opened Effects
  import Runs
  import Quanta
  import EventLog

  /** The next burst is due once `executed` ticks have been executed. */
  predicate BurstDue(p: Proc, executed: int) {
    p.ioIndex < |p.io| && executed >= p.io[p.ioIndex].afterCPU
  }

  /** What executing one tick does to the bursts: the next one fires if it is due and CPU time is left. */
  lemma ExecutionFires(policy: Policy, now: int, p: Proc)
    requires ProcOk(p) && Active(p)
    ensures var q := AfterExecution(policy, now, p);
            && (q.state == Waiting <==> q.remaining > 0 && BurstDue(p, q.Executed()))
            && q.ioIndex == p.ioIndex + (if q.state == Waiting then 1 else 0)
            && (q.state == Waiting ==> q.ioRemaining == p.io[p.ioIndex].duration)
  {
    var q := Execute(p, now, 1);
    NextBurstInOrder(q);
  }

  lemma AdmissionKeepsBursts(policy: Policy, now: int, p: Proc)
    ensures var q := AfterAdmission(policy, now, p); q.ioIndex == p.ioIndex && q.io == p.io && q.Executed() == p.Executed()
  {
  }

  /** The tick after `s` fires a burst of process `i`. */
  predicate FiresIn(s: State, i: nat)
    requires Wf(s) && i < |s.procs|
  {
    Runner(s) == Some(i) && s.procs[i].remaining > 1 && BurstDue(s.procs[i], s.procs[i].Executed() + 1)
  }

  /** A tick fires at most one burst of a process, the next in its list, and only if it executes in this tick, is not
      finished by it and has then executed the CPU time the burst asks for; the process is blocked for the duration
      of that burst. */
  lemma BurstTick(s: State, i: nat)
    requires Inv(s) && i < |s.procs|
    ensures |Tick(s).procs| == |s.procs|
    ensures var p := s.procs[i]; var t := Tick(s).procs[i];
            && t.ioIndex == p.ioIndex + (if FiresIn(s, i) then 1 else 0)
            && (FiresIn(s, i) ==> t.state == Waiting && t.ioRemaining == p.io[p.ioIndex].duration)
  {
    hide Tick, Runner, AfterExecution, AfterAdmission, ProcOk, InPlace, LevelBounded;
    ViewTick(s);
    InvAdmittedProcs(s);
    TickSpends(s);
    assert Alike(Ticked(s, i), Tick(s).procs[i]);
    var p := AfterAdmission(s.policy, s.time, s.procs[i]);
    AdmissionKeepsBursts(s.policy, s.time, s.procs[i]);
    AdmissionSpendsNothing(s.policy, s.time, s.procs[i]);
    if Runner(s) == Some(i) {
      ExecutionFires(s.policy, s.time, p);
      ExecutionSpendsOne(s.policy, s.time, p);
    }
  }

  /** In every run: how many bursts have fired never falls and grows by at most one a tick, exactly when the process
      executes and its next burst is due; the fired ones are the first of the list, as many as `io_start` events of the
      process. */
  lemma BurstsFireInOrder(policy: Policy, seed: Word, procs: seq<Proc>, n: nat, i: nat)
    requires Startable(policy, procs) && i < |procs|
    ensures var s := Run(Initial(policy, seed, procs), n); var t := Run(Initial(policy, seed, procs), n + 1);
            && |s.procs| == |t.procs| == |procs|
            && var p := s.procs[i]; var q := t.procs[i];
            && |p.io| == |procs[i].io|
            && (forall k | 0 <= k < |p.io| :: p.io[k].completed <==> k < p.ioIndex)
            && q.ioIndex == p.ioIndex + (if FiresIn(s, i) then 1 else 0)
            && (DistinctPids(procs) ==> EventLog.IOStarts(s.events, procs[i].pid) == p.ioIndex)
  {
    hide Tick, ResetProc, Workload, InPlace, LevelBounded, DistinctPids, FiresIn, EventLog.PhaseOf, EventLog.IOStarts;
    var s := Run(Initial(policy, seed, procs), n);
    Runs.OnTrackRun(policy, seed, procs, n);
    BurstTick(s, i);
    assert ProcOk(s.procs[i]);
    assert ResetProc(s.procs[i]) == procs[i];
    ConfigOf(s.procs[i]);
    if DistinctPids(procs) {
      EventLog.LogWellFormed(policy, seed, procs, n);
    }
  }

  lemma ConfigOf(p: Proc)
    ensures ResetProc(p).pid == p.pid && |ResetProc(p).io| == |p.io|
    ensures forall k | 0 <= k < |p.io| :: ResetProc(p).io[k].duration == p.io[k].duration
  {
  }

  // ---------- Bursts end on time ----------

  lemma BlockedTick(s: State, i: nat)
    requires Inv(s) && i < |s.procs| && s.procs[i].state == Waiting && s.procs[i].ioRemaining > 1
    ensures var t := Tick(s);
            && Inv(t) && |t.procs| == |s.procs| && t.policy == s.policy
            && t.procs[i].state == Waiting && t.procs[i].ioRemaining == s.procs[i].ioRemaining - 1
            && Runner(s) != Some(i)
  {
    hide Tick, Runner, ProcOk, InPlace;
    ViewTick(s);
    assert Alike(Ticked(s, i), Tick(s).procs[i]);
  }

  /** A process with `r` ticks of I/O ahead stays off the CPU for `r - 1` ticks and is in the ready queue when
      the decision after those is taken. */
  lemma {:induction false} BlockedFor(s: State, i: nat, k: nat)
    requires Inv(s) && i < |s.procs| && s.procs[i].state == Waiting && k < s.procs[i].ioRemaining
    ensures var t := Run(s, k);
            && Inv(t) && |t.procs| == |s.procs|
            && t.procs[i].state == Waiting && t.procs[i].ioRemaining == s.procs[i].ioRemaining - k
            && (k + 1 < s.procs[i].ioRemaining ==> Runner(t) != Some(i))
            && (k + 1 == s.procs[i].ioRemaining ==> i in Admitted(t).ready)
  {
    hide Tick, Runner, ProcOk, InPlace, Admitted;
    if k > 0 {
      BlockedFor(s, i, k - 1);
      BlockedTick(Run(s, k - 1), i);
    }
    var t := Run(s, k);
    if t.procs[i].ioRemaining > 1 {
      BlockedTick(t, i);
    } else {
      LastBlockedTick(t, i);
    }
  }

  lemma LastBlockedTick(s: State, i: nat)
    requires Inv(s) && i < |s.procs| && s.procs[i].state == Waiting && s.procs[i].ioRemaining <= 1
    ensures i in Admitted(s).ready
  {
    hide Admitted, ProcOk, Arriving, Returning, CheckArrivals;
    ViewAdmitted(s);
    assert InPlace(Admitted(s), i);
  }

  /** Under any policy, a burst of duration `d` that fires in tick `n` keeps its process off the CPU and out of the
      ready queue's decisions until tick `n + d`, whose decision finds it in the ready queue. */
  lemma BurstEndsOnTime(policy: Policy, seed: Word, procs: seq<Proc>, n: nat, i: nat, k: nat)
    requires Startable(policy, procs) && i < |procs|
    requires FiredAt(policy, seed, procs, n, i) && 1 <= k <= FiredDuration(policy, seed, procs, n, i)
    ensures var t := Run(Initial(policy, seed, procs), n + k);
            && |t.procs| == |procs|
            && t.procs[i].state == Waiting
            && (k < FiredDuration(policy, seed, procs, n, i) ==> Runner(t) != Some(i))
            && (k == FiredDuration(policy, seed, procs, n, i) ==> i in Admitted(t).ready)
  {
    hide Tick, Runner, ProcOk, InPlace, LevelBounded, Admitted, FiresIn, BurstDue, Workload;
    var s0 := Initial(policy, seed, procs);
    var s := Run(s0, n);
    Runs.RunFacts(policy, seed, procs, n);
    FiredFacts(policy, seed, procs, n, i);
    BurstTick(s, i);
    InvTick(s);
    BlockedFor(Tick(s), i, k - 1);
    Quanta.RunSplit(s0, n + 1, k - 1);
  }

  /** Process `i` has fired one burst more after tick `n` than before it. */
  ghost predicate FiredAt(policy: Policy, seed: Word, procs: seq<Proc>, n: nat, i: nat)
    requires Startable(policy, procs) && i < |procs|
  {
    Runs.RunFacts(policy, seed, procs, n);
    Runs.RunFacts(policy, seed, procs, n + 1);
    var s0 := Initial(policy, seed, procs);
    Run(s0, n).procs[i].ioIndex < Run(s0, n + 1).procs[i].ioIndex
  }

  /** The configured duration of that burst. */
  ghost function FiredDuration(policy: Policy, seed: Word, procs: seq<Proc>, n: nat, i: nat): int
    requires Startable(policy, procs) && i < |procs| && FiredAt(policy, seed, procs, n, i)
  {
    FiredFacts(policy, seed, procs, n, i);
    procs[i].io[Run(Initial(policy, seed, procs), n).procs[i].ioIndex].duration
  }

  lemma FiredFacts(policy: Policy, seed: Word, procs: seq<Proc>, n: nat, i: nat)
    requires Startable(policy, procs) && i < |procs| && FiredAt(policy, seed, procs, n, i)
    ensures var s := Run(Initial(policy, seed, procs), n);
            && |s.procs| == |procs| && FiresIn(s, i)
            && var k := s.procs[i].ioIndex;
            && k < |procs[i].io| == |s.procs[i].io| && procs[i].io[k].duration == s.procs[i].io[k].duration
  {
    hide Tick, Runner, ResetProc, Workload, InPlace, LevelBounded, ProcOk;
    var s := Run(Initial(policy, seed, procs), n);
    Runs.OnTrackRun(policy, seed, procs, n);
    BurstTick(s, i);
    assert ResetProc(s.procs[i]) == procs[i];
    ConfigOf(s.procs[i]);
  }
}
