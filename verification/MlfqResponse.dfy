/** MLFQ without I/O: a new process gets the CPU within `2 * (n - 1)` ticks of its arrival. */
module MlfqResponse {
  import opened Processes
  import opened RandomWords
  import opened Policies
  import opened Engine
  import opened Invariants
  import opened Effects
  import Runs
  import Choice
  import opened Quanta
  import Levels
  import opened Sums
  import Makespan

  const TOP_QUANTUM := 2

  /** Ranked no worse than `p`: on the CPU, or first in line before it. */
  ghost predicate Ahead(s: State, p: nat, j: nat)
    requires p < |s.procs| && j < |s.procs|
  {
    && j != p
    && Active(s.procs[j])
    && LevelOf(s.procs[j]) == 0
    && (s.current == Some(j) || !Less(Rank(MLFQ, s.time, s.procs[p]), Rank(MLFQ, s.time, s.procs[j])))
  }

  /** Ticks process `j` can still take at the top level before `p` runs. */
  ghost function Allowance(s: State, p: nat, j: nat): int
    requires p < |s.procs| && j < |s.procs|
  {
    if !Ahead(s, p, j) then 0
    else if s.current != Some(j) then TOP_QUANTUM
    else if s.used < TOP_QUANTUM then TOP_QUANTUM - s.used
    else 0
  }

  ghost function Allowances(s: State, p: nat): seq<int>
    requires p < |s.procs|
  {
    seq(|s.procs|, j requires 0 <= j < |s.procs| => Allowance(s, p, j))
  }

  /** `p` is waiting at the top level. */
  ghost predicate WaitsOnTop(s: State, p: nat) {
    p < |s.procs| && s.procs[p].state == Ready && LevelOf(s.procs[p]) == 0
  }

  ghost predicate LevelsInRange(s: State) {
    forall i | 0 <= i < |s.procs| :: LevelOf(s.procs[i]) >= 0
  }

  /** Dispatching to a free CPU while `p` waits on top: either `p` gets it, or one ahead of it does,
      and nobody's allowance grows. */
  lemma ScheduleKeepsAllowance(s: State, p: nat, j: nat)
    requires Inv(s) && s.policy.MLFQ? && s.current.None? && LevelsInRange(s) && WaitsOnTop(s, p) && j < |s.procs|
    ensures var r := ScheduleNext(s);
            && |r.procs| == |s.procs|
            && r.current.Some? && r.used == 0 && r.time == s.time
            && (r.current != Some(p) ==> WaitsOnTop(r, p) && Allowance(r, p, j) <= Allowance(s, p, j)
                                         && r.current.value < |s.procs| && LevelOf(r.procs[r.current.value]) == 0
                                         && Allowance(r, p, r.current.value) == TOP_QUANTUM)
  {
    hide Pick, RemoveFirst, PickWord, ProcOk;
    assert InPlace(s, p);
    Choice.ScheduledIsLowest(s);
    ViewScheduleNext(s);
    var r := ScheduleNext(s);
    var m := r.current.value;
    Choice.RankIgnoresPlace(MLFQ, s.time, s.procs[j], r.procs[j]);
    Choice.RankIgnoresPlace(MLFQ, s.time, s.procs[p], r.procs[p]);
    assert !Less(Rank(s.policy, s.time, s.procs[p]), Rank(s.policy, s.time, s.procs[m]));
  }

  /** Nobody's allowance grows from `s` to `r` while `p` keeps waiting on top. */
  ghost predicate NoneGains(s: State, r: State, p: nat) {
    && p < |s.procs| == |r.procs|
    && WaitsOnTop(r, p)
    && forall j | 0 <= j < |s.procs| :: Allowance(r, p, j) <= Allowance(s, p, j)
  }

  /** The process on the CPU is at the top level and has allowance left. */
  ghost predicate TopRuns(s: State, p: nat)
    requires p < |s.procs|
  {
    && s.current.Some? && s.current.value < |s.procs| && s.current.value != p
    && LevelOf(s.procs[s.current.value]) == 0
    && Allowance(s, p, s.current.value) >= 1
  }

  lemma ScheduleNoneGains(s: State, p: nat)
    requires Inv(s) && s.policy.MLFQ? && s.current.None? && LevelsInRange(s) && WaitsOnTop(s, p)
    ensures var r := ScheduleNext(s);
            r.current == Some(p) || (NoneGains(s, r, p) && TopRuns(r, p))
  {
    hide ScheduleNext, ProcOk, InPlace, Allowance;
    forall j | 0 <= j < |s.procs|
      ensures var r := ScheduleNext(s);
              |r.procs| == |s.procs| && (r.current != Some(p) ==> Allowance(r, p, j) <= Allowance(s, p, j))
    {
      ScheduleKeepsAllowance(s, p, j);
    }
    ScheduleKeepsAllowance(s, p, p);
  }

  /** Only a process below the top level is ever preempted while `p` waits on top. */
  lemma PreemptNoneGains(a: State, p: nat)
    requires Inv(a) && a.policy.MLFQ? && a.current.Some? && LevelsInRange(a) && WaitsOnTop(a, p)
    requires Preempts(a.policy, a.time, a.procs, a.current.value, a.ready)
    ensures var q := PreemptCurrent(a); Inv(q) && LevelsInRange(q) && WaitsOnTop(q, p) && NoneGains(a, q, p)
  {
    hide ProcOk, LevelOf;
    InvPreemptCurrent(a);
    assert InPlace(a, a.current.value) && InPlace(a, p);
    var q := PreemptCurrent(a);
    assert LevelOf(a.procs[a.current.value]) > 0;
    forall j | 0 <= j < |a.procs|
      ensures LevelOf(q.procs[j]) == LevelOf(a.procs[j])
      ensures Rank(MLFQ, a.time, q.procs[j]) == Rank(MLFQ, a.time, a.procs[j])
    {
      Choice.RankIgnoresPlace(MLFQ, a.time, a.procs[j], q.procs[j]);
      assert q.procs[j].level == a.procs[j].level;
      LevelOfLevel(q.procs[j], a.procs[j]);
    }
  }

  lemma LevelOfLevel(p: Proc, q: Proc)
    requires p.level == q.level
    ensures LevelOf(p) == LevelOf(q)
  {
  }

  lemma NoneGainsTrans(s: State, r: State, t: State, p: nat)
    requires NoneGains(s, r, p) && NoneGains(r, t, p)
    ensures NoneGains(s, t, p)
  {
    hide Allowance;
  }

  lemma DispatchNoneGains(s: State, p: nat)
    requires Inv(s) && s.policy.MLFQ? && WithinQuantum(s)
    requires LevelsInRange(Admitted(s)) && WaitsOnTop(Admitted(s), p)
    ensures var d := Dispatched(s);
            Runner(s) == Some(p) || (NoneGains(Admitted(s), d, p) && TopRuns(d, p))
  {
    hide Admitted, ScheduleNext, PreemptCurrent, Preempts, ProcOk, NoneGains, LevelOf, Rank;
    InvAdmitted(s);
    ViewAdmitted(s);
    QuantumAdmitted(s);
    var a := Admitted(s);
    if a.current.None? {
      ScheduleNoneGains(a, p);
    } else {
      ActiveNotComplete(a);
      assert InPlace(a, a.current.value) && InPlace(a, p);
      if Preempts(a.policy, a.time, a.procs, a.current.value, a.ready) {
        PreemptNoneGains(a, p);
        PreemptsKeepsPolicy(a);
        ScheduleNoneGains(PreemptCurrent(a), p);
        if ScheduleNext(PreemptCurrent(a)).current != Some(p) {
          NoneGainsTrans(a, PreemptCurrent(a), ScheduleNext(PreemptCurrent(a)), p);
        }
      } else {
        Levels.NotPreemptedIsLowest(a);
        RetainedTopRuns(a, p);
      }
    }
  }

  lemma PreemptsKeepsPolicy(a: State)
    requires Wf(a) && a.current.Some?
    ensures PreemptCurrent(a).policy == a.policy && PreemptCurrent(a).current.None?
  {
  }

  lemma RetainedTopRuns(a: State, p: nat)
    requires Inv(a) && a.policy.MLFQ? && a.current.Some? && WithinQuantum(a) && LevelsInRange(a) && WaitsOnTop(a, p)
    requires forall j | 0 <= j < |a.procs| && Active(a.procs[j]) :: LevelOf(a.procs[a.current.value]) <= LevelOf(a.procs[j])
    ensures NoneGains(a, a, p) && TopRuns(a, p)
  {
    hide ProcOk, LevelOf;
    assert InPlace(a, a.current.value) && InPlace(a, p);
  }

  // ---------- The rest of the tick ----------

  /** Executing takes one unit of the runner's allowance and none of anyone else's. */
  lemma ExecutionTakesAllowance(d: State, p: nat)
    requires Inv(d) && d.policy.MLFQ? && WithinQuantum(d) && WaitsOnTop(d, p) && TopRuns(d, p) && LevelsInRange(d)
    ensures var e := CheckIOBurst(ExecuteCurrent(d)); var r := d.current.value;
            && Inv(e) && NoneGains(d, e, p) && LevelsInRange(e) && e.policy == d.policy
            && (QuantumOver(e) || Allowance(e, p, r) < Allowance(d, p, r))
            && (e.current.Some? ==> e.current == d.current && LevelOf(e.procs[r]) == 0)
  {
    hide ExecuteCurrent, CheckIOBurst, ProcOk, AfterExecution;
    ViewExecution(d);
    var e := CheckIOBurst(ExecuteCurrent(d));
    var r := d.current.value;
    ExecutionKeepsLevel(d.time, d.procs[r]);
    if e.current.Some? {
      ActiveNotComplete(e);
    }
  }

  lemma ExecutionKeepsLevel(now: int, p: Proc)
    ensures var q := AfterExecution(MLFQ, now, p);
            && q.arrival == p.arrival && q.pid == p.pid
            && (Active(q) ==> LevelOf(q) == LevelOf(p))
            && (LevelOf(p) >= 0 ==> LevelOf(q) >= 0)
  {
  }

  lemma RequeueTakesAllowance(e: State, p: nat)
    requires Inv(e) && e.policy.MLFQ? && QuantumOver(e) && WaitsOnTop(e, p) && LevelsInRange(e) && e.current != Some(p)
    requires LevelOf(e.procs[e.current.value]) == 0
    ensures var q := Requeue(e); var r := e.current.value;
            && Inv(q) && NoneGains(e, q, p) && LevelsInRange(q) && q.policy == e.policy && q.current.None?
            && r < |q.procs| && Allowance(q, p, r) == 0
  {
    hide ProcOk;
    InvRequeue(e);
  }

  lemma ClockKeepsAllowance(s: State, p: nat)
    requires Wf(s) && WaitsOnTop(s, p) && LevelsInRange(s)
    ensures NoneGains(s, AdvanceClock(s), p) && LevelsInRange(AdvanceClock(s))
  {
  }

  /** The part of a tick after dispatch: `p` gets the CPU, or some allowance is used up. */
  lemma RunStageTakesAllowance(d: State, p: nat)
    requires Inv(d) && d.policy.MLFQ? && WithinQuantum(d) && WaitsOnTop(d, p) && TopRuns(d, p) && LevelsInRange(d)
    ensures var x := RunStage(d); var r := d.current.value;
            || x.current == Some(p)
            || (NoneGains(d, x, p) && Allowance(x, p, r) < Allowance(d, p, r) && LevelsInRange(x))
  {
    hide ExecuteCurrent, CheckIOBurst, ProcOk, InPlace, NoneGains, Requeue, ScheduleNext, QuantumOver, Allowance, WaitsOnTop,
      LevelsInRange;
    ExecutionTakesAllowance(d, p);
    var e := CheckIOBurst(ExecuteCurrent(d));
    if QuantumOver(e) {
      OverHasCurrent(e);
      GainsWaits(d, e, p);
      RequeueTakesAllowance(e, p);
      var q := Requeue(e);
      GainsWaits(e, q, p);
      ScheduleNoneGains(q, p);
      NoneGainsTrans(d, e, q, p);
      if ScheduleNext(q).current != Some(p) {
        NoneGainsTrans(d, q, ScheduleNext(q), p);
        GainsAt(q, ScheduleNext(q), p, d.current.value);
        ScheduleKeepsLevels(q);
      }
    }
  }

  lemma ScheduleKeepsLevels(s: State)
    requires Inv(s) && s.current.None? && LevelsInRange(s)
    ensures LevelsInRange(ScheduleNext(s))
  {
    hide ScheduleNext, ProcOk, InPlace;
    ViewScheduleNext(s);
  }

  lemma OverHasCurrent(e: State)
    requires Wf(e) && QuantumOver(e)
    ensures e.current.Some?
  {
  }

  lemma GainsWaits(s: State, r: State, p: nat)
    requires NoneGains(s, r, p)
    ensures WaitsOnTop(r, p) && |s.procs| == |r.procs|
  {
  }

  lemma GainsAt(s: State, r: State, p: nat, j: nat)
    requires NoneGains(s, r, p) && j < |s.procs|
    ensures Allowance(r, p, j) <= Allowance(s, p, j)
  {
  }

  // ---------- Whole ticks ----------

  /** Without I/O nobody comes back, and whoever arrives later queues behind. */
  lemma AdmissionNoneGains(procs: seq<Proc>, t: State, p: nat)
    requires Runs.OnTrack(procs, t) && Makespan.NoIO(procs) && t.policy.MLFQ? && WaitsOnTop(t, p) && LevelsInRange(t)
    ensures NoneGains(t, Admitted(t), p) && LevelsInRange(Admitted(t))
  {
    hide Admitted, ProcOk, Arriving, Returning, CheckArrivals;
    ViewAdmitted(t);
    var a := Admitted(t);
    assert ResetProc(t.procs[p]) == procs[p];
    forall j | 0 <= j < |procs|
      ensures Allowance(a, p, j) <= Allowance(t, p, j)
      ensures LevelOf(a.procs[j]) >= 0
    {
      assert ResetProc(t.procs[j]) == procs[j] && InPlace(t, j);
      Makespan.CompetesWithoutIO(procs, t, j);
    }
  }

  lemma TickTakesAllowance(procs: seq<Proc>, s: State, p: nat)
    requires Runs.OnTrack(procs, s) && Makespan.NoIO(procs) && s.policy.MLFQ? && WithinQuantum(s)
    requires LevelsInRange(Admitted(s)) && WaitsOnTop(Admitted(s), p) && Runner(s) != Some(p)
    ensures var t := Tick(s); var a := Admitted(s);
            || t.current == Some(p)
            || (var b := Admitted(t);
                && p < |b.procs| && p < |a.procs|
                && LevelsInRange(b) && WaitsOnTop(b, p)
                && Sum(Allowances(b, p)) < Sum(Allowances(a, p)))
  {
    hide DispatchStage, Admitted, RunStage, AdvanceClock, ProcOk, InPlace, Allowance, WithinQuantum, Makespan.NoIO, ResetProc,
      LevelsInRange,
      WaitsOnTop, NoneGains;
    ViewDispatched(s);
    QuantumDispatched(s);
    DispatchNoneGains(s, p);
    var a, d := Admitted(s), Dispatched(s);
    var r := d.current.value;
    GainsWaits(a, d, p);
    DispatchKeepsLevels(s);
    RunStageTakesAllowance(d, p);
    var x := RunStage(d);
    var t := Tick(s);
    ClockKeepsCurrent(x);
    Runs.OnTrackTick(procs, s);
    if t.current != Some(p) {
      GainsWaits(d, x, p);
      ClockKeepsAllowance(x, p);
      GainsWaits(x, t, p);
      ViewTick(s);
      AdmissionNoneGains(procs, t, p);
      NoneGainsTrans(x, t, Admitted(t), p);
      GainsAt(x, Admitted(t), p, r);
      GainsAt(a, d, p, r);
      NoneGainsTrans(d, x, Admitted(t), p);
      NoneGainsTrans(a, d, Admitted(t), p);
      GainsWaits(a, Admitted(t), p);
      SumOfAllowancesFalls(a, Admitted(t), p, r);
    }
  }

  lemma DispatchKeepsLevels(s: State)
    requires Inv(s) && LevelsInRange(Admitted(s))
    ensures LevelsInRange(Dispatched(s)) && Dispatched(s).policy == s.policy
  {
    hide Dispatched, Admitted, ProcOk, InPlace;
    ViewDispatched(s);
  }

  lemma SumOfAllowancesFalls(a: State, b: State, p: nat, r: nat)
    requires NoneGains(a, b, p) && r < |a.procs| && Allowance(b, p, r) < Allowance(a, p, r)
    ensures Sum(Allowances(b, p)) < Sum(Allowances(a, p))
  {
    hide Allowance, WaitsOnTop;
    SumDrop(Allowances(b, p), Allowances(a, p), r, 1);
  }

  // ---------- The bound ----------

  lemma AllowanceNonNegative(s: State, p: nat)
    requires p < |s.procs|
    ensures Sum(Allowances(s, p)) >= 0
  {
    SumNonNegative(Allowances(s, p));
  }

  function Constant(n: nat, c: int): seq<int> {
    seq(n, _ => c)
  }

  lemma {:induction false} SumConstant(n: nat, c: int)
    ensures Sum(Constant(n, c)) == n * c
  {
    if n > 0 {
      SumConstant(n - 1, c);
      assert Constant(n, c)[..n - 1] == Constant(n - 1, c);
    }
  }

  /** Every other process can take the top quantum once. */
  lemma AllowanceBound(s: State, p: nat)
    requires p < |s.procs| && WithinQuantumUsed(s)
    ensures Sum(Allowances(s, p)) <= TOP_QUANTUM * (|s.procs| - 1)
  {
    var n := |s.procs|;
    SumConstant(n, TOP_QUANTUM);
    assert Allowances(s, p)[p] == 0;
    SumDrop(Allowances(s, p), Constant(n, TOP_QUANTUM), p, TOP_QUANTUM);
  }

  ghost predicate WithinQuantumUsed(s: State) {
    s.current.Some? ==> s.used >= 0
  }

  lemma TopCurrentRuns(procs: seq<Proc>, t: State, p: nat)
    requires Runs.OnTrack(procs, t) && Makespan.NoIO(procs) && t.policy.MLFQ? && t.current == Some(p) && p < |procs|
    requires LevelOf(t.procs[p]) == 0 && LevelsInRange(Admitted(t))
    ensures Runner(t) == Some(p)
  {
    hide Admitted, ProcOk, Arriving, Returning, CheckArrivals;
    ViewAdmitted(t);
    assert InPlace(t, p);
    ActiveNotComplete(Admitted(t));
  }

  lemma WaitingKeepsLevel(s: State, p: nat)
    requires Inv(s) && p < |s.procs| && Runner(s) != Some(p)
    ensures |Tick(s).procs| == |Admitted(s).procs| == |s.procs|
    ensures LevelOf(Tick(s).procs[p]) == LevelOf(Admitted(s).procs[p])
  {
    hide Tick, Runner, Admitted, Levels.ExpiredIn, AfterExecution, AfterAdmission, ProcOk, InPlace;
    Levels.ViewLevel(s);
    ViewAdmitted(s);
  }

  lemma RunLevels(seed: Word, procs: seq<Proc>, n: nat)
    requires Startable(MLFQ, procs)
    ensures var s := Run(Initial(MLFQ, seed, procs), n);
            Inv(s) && s.policy == MLFQ && |s.procs| == |procs| && LevelsInRange(s) && LevelsInRange(Admitted(s))
  {
    hide Tick, Admitted, Inv, Levels.MlfqEntry, Workload, LevelsInRange;
    Runs.RunFacts(MLFQ, seed, procs, n);
    var s := Run(Initial(MLFQ, seed, procs), n);
    forall i | 0 <= i < |procs|
      ensures Levels.MlfqEntry(s.procs[i], Levels.Expiries(Initial(MLFQ, seed, procs), i, n))
    {
      Levels.MlfqLevelCountsExpiries(seed, procs, n, i);
    }
    EntriesInRange(s, Initial(MLFQ, seed, procs), n);
    AdmissionLevels(s);
  }

  lemma EntriesInRange(s: State, s0: State, n: nat)
    requires Wf(s0)
    requires forall i | 0 <= i < |s.procs| :: Levels.MlfqEntry(s.procs[i], Levels.Expiries(s0, i, n))
    ensures LevelsInRange(s)
  {
    hide Levels.Expiries;
  }

  lemma AdmissionLevels(s: State)
    requires Inv(s) && s.policy.MLFQ? && LevelsInRange(s)
    ensures LevelsInRange(Admitted(s))
  {
    hide Admitted, ProcOk, InPlace;
    ViewAdmitted(s);
  }

  lemma {:induction false} TopWaiterRuns(seed: Word, procs: seq<Proc>, n: nat, p: nat) returns (d: nat)
    requires Startable(MLFQ, procs) && Makespan.NoIO(procs) && p < |procs|
    requires var a := Admitted(Run(Initial(MLFQ, seed, procs), n)); p < |a.procs|
    requires var s := Run(Initial(MLFQ, seed, procs), n); WaitsOnTop(Admitted(s), p) || Runner(s) == Some(p)
    ensures d <= Sum(Allowances(Admitted(Run(Initial(MLFQ, seed, procs), n)), p))
    ensures Runner(Run(Initial(MLFQ, seed, procs), n + d)) == Some(p)
    decreases Sum(Allowances(Admitted(Run(Initial(MLFQ, seed, procs), n)), p))
  {
    hide Tick, Admitted, Runner, Workload, Makespan.NoIO, Inv, LevelsInRange, WaitsOnTop, Allowances, WithinQuantum, ResetProc,
      Runs.OnTrack, LevelOf;
    var s0 := Initial(MLFQ, seed, procs);
    var s := Run(s0, n);
    AllowanceNonNegative(Admitted(s), p);
    if Runner(s) == Some(p) {
      d := 0;
    } else {
      RunLevels(seed, procs, n);
      RunLevels(seed, procs, n + 1);
      Runs.OnTrackRun(MLFQ, seed, procs, n);
      Runs.OnTrackRun(MLFQ, seed, procs, n + 1);
      QuantumRun(MLFQ, seed, procs, n);
      TickTakesAllowance(procs, s, p);
      var t := Tick(s);
      assert t == Run(s0, n + 1);
      if t.current == Some(p) {
        WaitingKeepsLevel(s, p);
        TopWaiterLevel(s, p);
        TopCurrentRuns(procs, t, p);
        SomeAllowance(procs, s, p);
        d := 1;
      } else {
        d := TopWaiterRuns(seed, procs, n + 1, p);
        d := d + 1;
      }
    }
  }

  lemma TopWaiterLevel(s: State, p: nat)
    requires Wf(s) && WaitsOnTop(Admitted(s), p)
    ensures p < |Admitted(s).procs| && LevelOf(Admitted(s).procs[p]) == 0
  {
  }

  /** While `p` waits on top and does not run, somebody has allowance. */
  lemma SomeAllowance(procs: seq<Proc>, s: State, p: nat)
    requires Runs.OnTrack(procs, s) && s.policy.MLFQ? && WithinQuantum(s)
    requires LevelsInRange(Admitted(s)) && WaitsOnTop(Admitted(s), p) && Runner(s) != Some(p)
    ensures p < |Admitted(s).procs| && Sum(Allowances(Admitted(s), p)) >= 1
  {
    hide Admitted, DispatchStage, ProcOk, InPlace, Allowance, WithinQuantum, ResetProc, LevelsInRange, WaitsOnTop;
    DispatchNoneGains(s, p);
    var a, d := Admitted(s), Dispatched(s);
    GainsWaits(a, d, p);
    GainsAt(a, d, p, d.current.value);
    SumDrop(Constant(|a.procs|, 0), Allowances(a, p), d.current.value, 1) by {
      AllowancesNonNegative(a, p);
    }
    SumConstant(|a.procs|, 0);
  }

  lemma AllowancesNonNegative(s: State, p: nat)
    requires p < |s.procs|
    ensures forall j | 0 <= j < |s.procs| :: Allowances(s, p)[j] >= 0
  {
  }

  /** Without I/O, every process first executes at most `2 * (n - 1)` ticks after its arrival. */
  lemma MlfqRespondsInTime(seed: Word, procs: seq<Proc>, p: nat, n: nat) returns (d: nat)
    requires Startable(MLFQ, procs) && Makespan.NoIO(procs) && p < |procs| && procs[p].arrival == n
    ensures d <= TOP_QUANTUM * (|procs| - 1)
    ensures Runner(Run(Initial(MLFQ, seed, procs), n + d)) == Some(p)
  {
    hide Tick, Admitted, Runner, Workload, Makespan.NoIO, Inv, LevelsInRange, Allowances, WithinQuantum, WaitsOnTop, Run;
    var s := Run(Initial(MLFQ, seed, procs), n);
    ArrivesOnTop(seed, procs, p, n);
    RunLevels(seed, procs, n);
    QuantumRun(MLFQ, seed, procs, n);
    UsedNonNegative(s);
    d := TopWaiterRuns(seed, procs, n, p);
  }

  lemma ArrivesOnTop(seed: Word, procs: seq<Proc>, p: nat, n: nat)
    requires Startable(MLFQ, procs) && p < |procs| && procs[p].arrival == n
    ensures WaitsOnTop(Admitted(Run(Initial(MLFQ, seed, procs), n)), p)
  {
    hide Tick, Admitted, Workload, Levels.MlfqEntry, ProcOk, InPlace, Arriving, Returning, CheckArrivals;
    Runs.OnTrackRun(MLFQ, seed, procs, n);
    var s := Run(Initial(MLFQ, seed, procs), n);
    Levels.MlfqLevelCountsExpiries(seed, procs, n, p);
    ViewAdmitted(s);
    assert ResetProc(s.procs[p]) == procs[p];
    NewHasNoLevel(s.procs[p], Levels.Expiries(Initial(MLFQ, seed, procs), p, n));
  }

  lemma NewHasNoLevel(p: Proc, k: nat)
    requires Levels.MlfqEntry(p, k) && p.state == New
    ensures p.level == None
  {
  }

  lemma UsedNonNegative(s: State)
    requires Inv(s) && WithinQuantum(s)
    ensures var a := Admitted(s);
            && |a.procs| == |s.procs|
            && forall p: nat | p < |a.procs| :: Sum(Allowances(a, p)) <= TOP_QUANTUM * (|s.procs| - 1)
  {
    hide Admitted, Allowances, ProcOk, InPlace;
    ViewAdmitted(s);
    QuantumAdmitted(s);
    var a := Admitted(s);
    forall p: nat | p < |a.procs|
      ensures Sum(Allowances(a, p)) <= TOP_QUANTUM * (|s.procs| - 1)
    {
      AllowanceBound(a, p);
    }
  }
}
