/** SJF is optimal for processes that arrive together: never interrupting, it still serves the shortest
    remaining process in every tick. */
module SjfOptimality {
  import opened RandomWords
  import opened Processes
  import opened Policies
  import opened Engine
  import opened Invariants
  import opened Effects
  import Runs
  import Choice
  import Sums
  import Dominance
  import Makespan
  import FcfsClosedForm
  import opened ShortestFirst

  /** All arrive at the same time. */
  ghost predicate Together(procs: seq<Proc>) {
    forall i, j | 0 <= i < j < |procs| :: procs[i].arrival == procs[j].arrival
  }

  /** Of the unfinished processes only the one on the CPU has started, and it has the shortest burst. */
  ghost predicate ShortestOnCpu(procs: seq<Proc>, s: State) {
    && Runs.OnTrack(procs, s) && s.policy.SJF?
    && (forall i | 0 <= i < |procs| && s.procs[i].remaining > 0 && s.current != Some(i) :: !s.procs[i].started)
    && (s.current.Some? ==>
          && s.current.value < |procs|
          && forall j | 0 <= j < |procs| && s.procs[j].remaining > 0 :: procs[s.current.value].burst <= procs[j].burst)
  }

  /** The runner has the shortest burst of all unfinished processes, and the others have not started. */
  lemma SjfRuns(procs: seq<Proc>, s: State)
    requires ShortestOnCpu(procs, s) && Makespan.NoIO(procs) && Together(procs) && Runner(s).Some?
    ensures var r := Runner(s).value;
            && r < |procs|
            && (forall j | 0 <= j < |procs| && s.procs[j].remaining > 0 :: procs[r].burst <= procs[j].burst)
            && (forall j | 0 <= j < |procs| && s.procs[j].remaining > 0 && j != r :: !s.procs[j].started)
  {
    hide Admitted, Runner, AfterAdmission, ProcOk, InPlace, LevelBounded;
    Choice.RunnerChoice(s);
    ViewAdmitted(s);
    ViewTick(s);
    RunnerBound(s);
    var a := Admitted(s);
    var r := Runner(s).value;
    if s.current.None? {
      Makespan.CompetesWithoutIO(procs, s, r);
      forall j | 0 <= j < |procs| && s.procs[j].remaining > 0
        ensures procs[r].burst <= procs[j].burst
      {
        Makespan.CompetesWithoutIO(procs, s, j);
        ConfigAdmitted(procs, s, j);
        ConfigAdmitted(procs, s, r);
        assert Active(a.procs[j]);
        assert !Less(Rank(s.policy, s.time, a.procs[j]), Rank(s.policy, s.time, a.procs[r]));
      }
    }
  }

  lemma ConfigAdmitted(procs: seq<Proc>, s: State, i: nat)
    requires Runs.OnTrack(procs, s) && i < |procs|
    ensures AfterAdmission(s.policy, s.time, s.procs[i]).burst == s.procs[i].burst == procs[i].burst
  {
    AdmissionSpendsNothing(s.policy, s.time, s.procs[i]);
    assert ResetProc(s.procs[i]).burst == procs[i].burst;
  }

  lemma SjfServesShortest(procs: seq<Proc>, s: State)
    requires ShortestOnCpu(procs, s) && Makespan.NoIO(procs) && Together(procs)
    ensures Dominance.Shortest(Load(procs, Remaining(s), s.time), RunnerIndex(s))
  {
    hide Tick, Runner, AfterAdmission, ProcOk, InPlace, LevelBounded, ResetProc, Together;
    ViewTick(s);
    if Runner(s).Some? {
      SjfRuns(procs, s);
      RunnerHasLoad(procs, s);
    }
    forall i: nat | i < |procs|
      ensures Load(procs, Remaining(s), s.time)[i] > 0 <==> Active(AfterAdmission(s.policy, s.time, s.procs[i]))
      ensures !s.procs[i].started ==> s.procs[i].remaining == procs[i].burst
      ensures s.procs[i].remaining <= procs[i].burst
    {
      LoadIsActive(procs, s, i);
      FcfsClosedForm.UnstartedIsWhole(procs, s, i);
      AtMostBurst(procs, s, i);
    }
  }

  lemma RunnerHasLoad(procs: seq<Proc>, s: State)
    requires Runs.OnTrack(procs, s) && Makespan.NoIO(procs) && Runner(s).Some?
    ensures Runner(s).value < |procs| && Load(procs, Remaining(s), s.time)[Runner(s).value] > 0
  {
    hide Tick, Runner, AfterAdmission, ProcOk, InPlace, LevelBounded, ResetProc;
    ViewTick(s);
    LoadIsActive(procs, s, Runner(s).value);
  }

  lemma AtMostBurst(procs: seq<Proc>, s: State, i: nat)
    requires Runs.OnTrack(procs, s) && i < |procs|
    ensures 0 <= s.procs[i].remaining <= procs[i].burst
  {
    assert ProcOk(s.procs[i]) && ResetProc(s.procs[i]).burst == procs[i].burst;
  }

  lemma SjfTick(procs: seq<Proc>, s: State)
    requires ShortestOnCpu(procs, s) && Makespan.NoIO(procs) && Together(procs)
    ensures ShortestOnCpu(procs, Tick(s))
  {
    hide Tick, Dispatched, AfterAdmission, ProcOk, InPlace, LevelBounded, ResetProc, Together, Makespan.NoIO;
    Runs.OnTrackTick(procs, s);
    FcfsClosedForm.TimeAndPolicy(s);
    FcfsClosedForm.QueuesAfterRun(procs, s);
    TickSpends(s);
    if Runner(s).Some? {
      SjfRuns(procs, s);
    } else {
      IdleMeansFree(s);
    }
    forall j | 0 <= j < |procs|
      ensures Runner(s) != Some(j) ==> Tick(s).procs[j].started == s.procs[j].started
    {
      FcfsClosedForm.RecordsAfterRun(procs, s, j);
    }
  }

  lemma IdleMeansFree(s: State)
    requires Inv(s) && Runner(s).None?
    ensures s.current.None?
  {
    hide Admitted, ProcOk, Preempts, Pick, RemoveFirst;
    ViewAdmitted(s);
    ViewDispatchStage(Admitted(s));
  }

  lemma {:induction false} SjfRun(seed: Word, procs: seq<Proc>, n: nat)
    requires Startable(SJF, procs) && Makespan.NoIO(procs) && Together(procs)
    ensures ShortestOnCpu(procs, Run(Initial(SJF, seed, procs), n))
  {
    hide Tick, Runs.OnTrack, Makespan.NoIO, Together, ShortestOnCpu, Workload;
    if n == 0 {
      SjfStart(seed, procs);
    } else {
      SjfRun(seed, procs, n - 1);
      SjfTick(procs, Run(Initial(SJF, seed, procs), n - 1));
    }
  }

  lemma SjfStart(seed: Word, procs: seq<Proc>)
    requires Startable(SJF, procs)
    ensures ShortestOnCpu(procs, Initial(SJF, seed, procs))
  {
    hide Runs.OnTrack;
    Runs.OnTrackRun(SJF, seed, procs, 0);
    Runs.FreshIsNew(procs);
    assert Runs.OnTrack(procs, Initial(SJF, seed, procs));
    forall j | 0 <= j < |procs|
      ensures !procs[j].started
    {
      assert procs[j] == ResetProc(procs[j]);
    }
  }

  /** For processes without I/O that arrive together, SJF finishes as early as any schedule, even one that
      may interrupt, with the least total turnaround and waiting time. */
  lemma SjfOptimal(seed: Word, procs: seq<Proc>, schedule: Schedule, n: nat)
    requires Startable(SJF, procs) && Makespan.NoIO(procs) && Together(procs)
    requires Finished(RivalRun(procs, schedule, n))
    ensures var s := Run(Initial(SJF, seed, procs), n); var r := RivalRun(procs, schedule, n);
            && Done(s)
            && Sums.Sum(Turnarounds(s)) <= Sums.Sum(RivalTurnarounds(procs, r))
            && Sums.Sum(Waitings(s)) <= Sums.Sum(RivalTurnarounds(procs, r)) - Sums.Sum(Makespan.Bursts(procs))
  {
    hide Run, RivalRun, Finished, Done, Makespan.NoIO, Together, Dominance.Shortest, RunnerIndex;
    forall t: nat
      ensures ServesShortestAt(SJF, seed, procs, t)
    {
      SjfRun(seed, procs, t);
      Runs.RunFacts(SJF, seed, procs, t);
      SjfServesShortest(procs, Run(Initial(SJF, seed, procs), t));
    }
    ShortestIsOptimal(SJF, seed, procs, schedule, n);
  }
}
