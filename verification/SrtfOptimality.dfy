/** SRTF is optimal: its runs always serve the shortest remaining process. */
module SrtfOptimality {
  import opened Processes
  import opened RandomWords
  import opened Policies
  import opened Engine
  import opened Invariants
  import Effects
  import Runs
  import Choice
  import Sums
  import Dominance
  import Makespan
  import opened ShortestFirst

  /** The process SRTF runs has the least remaining time of all that compete. */
  lemma SrtfRunsShortest(s: State)
    requires Inv(s) && s.policy.SRTF? && DistinctPids(s.procs)
    ensures var a := Admitted(s); var r := Runner(s);
            |a.procs| == |s.procs| &&
            (r.Some? ==>
              && r.value < |a.procs|
              && forall j | 0 <= j < |a.procs| && Effects.Active(a.procs[j]) :: a.procs[r.value].remaining <= a.procs[j].remaining)
  {
    hide Admitted, Runner, Effects.AfterAdmission, ProcOk, LevelOf, EffectivePriority;
    Choice.RunnerChoice(s);
    Effects.ViewAdmitted(s);
    var a := Admitted(s);
    if a.current.Some? && !Preempts(a.policy, a.time, a.procs, a.current.value, a.ready) {
      var c := a.current.value;
      forall j | 0 <= j < |a.procs| && Effects.Active(a.procs[j])
        ensures a.procs[c].remaining <= a.procs[j].remaining
      {
        assert InPlace(a, j) && InPlace(a, c);
        if j != c {
          var k :| 0 <= k < |a.ready| && a.ready[k] == j;
          PidsApart(s.procs, j, c);
          AdmissionKeepsPid(s.policy, s.time, s.procs[j]);
          AdmissionKeepsPid(s.policy, s.time, s.procs[c]);
        }
      }
    } else if Runner(s).Some? {
      var m := Runner(s).value;
      forall j | 0 <= j < |a.procs| && Effects.Active(a.procs[j])
        ensures a.procs[m].remaining <= a.procs[j].remaining
      {
        assert !Less(Rank(s.policy, s.time, a.procs[j]), Rank(s.policy, s.time, a.procs[m]));
      }
    }
  }

  lemma AdmissionKeepsPid(policy: Policy, now: int, p: Proc)
    ensures Effects.AfterAdmission(policy, now, p).pid == p.pid
  {
  }

  lemma SrtfServesShortest(procs: seq<Proc>, s: State)
    requires Runs.OnTrack(procs, s) && Makespan.NoIO(procs) && s.policy.SRTF? && DistinctPids(procs)
    ensures Dominance.Shortest(Load(procs, Remaining(s), s.time), RunnerIndex(s))
  {
    hide Tick, Runner, Effects.AfterAdmission, Admitted, Effects.Ticked, Effects.Alike, ProcOk, InPlace, ResetProc,
      Makespan.NoIO, DistinctPids;
    Runs.PidsKept(procs, s);
    SrtfRunsShortest(s);
    Effects.ViewTick(s);
    Effects.ViewAdmitted(s);
    forall i: nat | i < |procs|
      ensures Load(procs, Remaining(s), s.time)[i] > 0 ==> Runner(s).Some?
      ensures Load(procs, Remaining(s), s.time)[i] > 0 <==> Effects.Active(Effects.AfterAdmission(s.policy, s.time, s.procs[i]))
      ensures Effects.AfterAdmission(s.policy, s.time, s.procs[i]).remaining == s.procs[i].remaining
    {
      LoadIsActive(procs, s, i);
    }
  }

  lemma SrtfServesShortestAlways(seed: Word, procs: seq<Proc>)
    requires Startable(SRTF, procs) && Makespan.NoIO(procs) && DistinctPids(procs)
    ensures ServesShortest(SRTF, seed, procs)
  {
    hide Tick, Runs.OnTrack, Makespan.NoIO, DistinctPids, Workload, Dominance.Shortest, RunnerIndex;
    forall t: nat
      ensures ServesShortestAt(SRTF, seed, procs, t)
    {
      Runs.OnTrackRun(SRTF, seed, procs, t);
      Runs.RunFacts(SRTF, seed, procs, t);
      SrtfServesShortest(procs, Run(Initial(SRTF, seed, procs), t));
    }
  }

  /** Without I/O and for distinct PIDs, at every tick SRTF has at most as many arrived unfinished processes as
      any other schedule. */
  lemma SrtfFewestUnfinished(seed: Word, procs: seq<Proc>, schedule: Schedule, n: nat)
    requires Startable(SRTF, procs) && Makespan.NoIO(procs) && DistinctPids(procs)
    ensures var s := Run(Initial(SRTF, seed, procs), n);
            |s.procs| == |procs| &&
            Unfinished(procs, Remaining(s), n) <= Unfinished(procs, RivalRun(procs, schedule, n).remaining, n)
  {
    hide ServesShortest, Run, RivalRun;
    SrtfServesShortestAlways(seed, procs);
    FewestUnfinished(SRTF, seed, procs, schedule, n);
  }

  /** When any schedule has finished, SRTF has too, with the least total turnaround and waiting time. */
  lemma SrtfOptimal(seed: Word, procs: seq<Proc>, schedule: Schedule, n: nat)
    requires Startable(SRTF, procs) && Makespan.NoIO(procs) && DistinctPids(procs)
    requires Finished(RivalRun(procs, schedule, n))
    ensures var s := Run(Initial(SRTF, seed, procs), n); var r := RivalRun(procs, schedule, n);
            && Done(s)
            && Sums.Sum(Turnarounds(s)) <= Sums.Sum(RivalTurnarounds(procs, r))
            && Sums.Sum(Waitings(s)) <= Sums.Sum(RivalTurnarounds(procs, r)) - Sums.Sum(Makespan.Bursts(procs))
  {
    hide ServesShortest, Run, RivalRun, Finished, Done;
    SrtfServesShortestAlways(seed, procs);
    ShortestIsOptimal(SRTF, seed, procs, schedule, n);
  }

  /** SRTF's totals are at most those of every other policy of the simulator. */
  lemma SrtfOptimalAmongPolicies(seed: Word, policy: Policy, seed': Word, procs: seq<Proc>, n: nat)
    requires Startable(policy, procs) && Makespan.NoIO(procs) && DistinctPids(procs)
    requires Done(Run(Initial(policy, seed', procs), n))
    ensures var s := Run(Initial(SRTF, seed, procs), n); var s' := Run(Initial(policy, seed', procs), n);
            && Done(s)
            && Sums.Sum(Turnarounds(s)) <= Sums.Sum(Turnarounds(s'))
            && Sums.Sum(Waitings(s)) <= Sums.Sum(Waitings(s'))
  {
    hide ServesShortest, Run, Done;
    SrtfServesShortestAlways(seed, procs);
    ShortestIsOptimalAmongPolicies(SRTF, seed, policy, seed', procs, n);
  }
}
