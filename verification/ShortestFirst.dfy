/** Serving the shortest remaining process is optimal: without I/O, no schedule that runs at most one arrived
    process per tick has fewer unfinished processes at any tick, nor a smaller total turnaround or waiting
    time, than a run of the engine that gives every tick to a process with the least remaining time. */
module ShortestFirst {
  import opened Processes
  import opened RandomWords
  import opened Policies
  import opened Engine
  import opened Invariants
  import opened Effects
  import opened Runs
  import opened Sums
  import opened Dominance
  import opened Makespan

  /** Any schedule at all: which process it gives each tick to. A choice that has not arrived or has
      no work left wastes the tick. */
  type Schedule = nat -> nat

  /** Remaining work and completion times under a schedule. */
  datatype Rival = Rival(remaining: seq<int>, completion: seq<int>)

  function RivalStart(procs: seq<Proc>): Rival {
    Rival(Bursts(procs), seq(|procs|, _ => 0))
  }

  predicate Useful(procs: seq<Proc>, remaining: seq<int>, choice: nat, now: nat)
    requires |remaining| == |procs|
  {
    choice < |procs| && procs[choice].arrival <= now && remaining[choice] > 0
  }

  function RivalStep(procs: seq<Proc>, r: Rival, choice: nat, now: nat): (r': Rival)
    requires |r.remaining| == |r.completion| == |procs|
    ensures |r'.remaining| == |r'.completion| == |procs|
  {
    if !Useful(procs, r.remaining, choice, now) then r else
    var left := r.remaining[choice] - 1;
    Rival(r.remaining[choice := left],
          if left == 0 then r.completion[choice := now + 1] else r.completion)
  }

  function RivalRun(procs: seq<Proc>, schedule: Schedule, n: nat): (r: Rival)
    ensures |r.remaining| == |r.completion| == |procs|
  {
    if n == 0 then RivalStart(procs)
    else RivalStep(procs, RivalRun(procs, schedule, n - 1), schedule(n - 1), n - 1)
  }

  /** Remaining work of each process that has arrived by `now`. */
  function Load(procs: seq<Proc>, remaining: seq<int>, now: int): seq<int>
    requires |remaining| == |procs|
  {
    seq(|procs|, i requires 0 <= i < |procs| => if procs[i].arrival <= now then remaining[i] else 0)
  }

  /** Number of processes that have arrived by `now` and are unfinished. */
  function Unfinished(procs: seq<Proc>, remaining: seq<int>, now: int): int
    requires |remaining| == |procs|
  {
    Sum(Pending(Load(procs, remaining, now)))
  }

  function Remaining(s: State): seq<int> {
    seq(|s.procs|, i requires 0 <= i < |s.procs| => s.procs[i].remaining)
  }

  // ---------- The engine as a server ----------

  lemma LoadIsActive(procs: seq<Proc>, s: State, i: nat)
    requires OnTrack(procs, s) && NoIO(procs) && i < |procs|
    ensures Load(procs, Remaining(s), s.time)[i] > 0 <==> Active(AfterAdmission(s.policy, s.time, s.procs[i]))
    ensures Load(procs, Remaining(s), s.time)[i] >= 0
    ensures AfterAdmission(s.policy, s.time, s.procs[i]).remaining == s.procs[i].remaining
  {
    CompetesWithoutIO(procs, s, i);
    assert ResetProc(s.procs[i]).burst == procs[i].burst;
    AdmissionSpendsNothing(s.policy, s.time, s.procs[i]);
  }

  /** Any entry past the end stands for "nobody". */
  function RunnerIndex(s: State): nat
    requires Wf(s)
  {
    match Runner(s) case Some(i) => i case None => |s.procs|
  }

  lemma EngineServes(procs: seq<Proc>, s: State)
    requires OnTrack(procs, s) && NoIO(procs)
    ensures |Tick(s).procs| == |procs|
    ensures NonNegative(Load(procs, Remaining(s), s.time))
    ensures Serves(Load(procs, Remaining(s), s.time), Load(procs, Remaining(Tick(s)), s.time), RunnerIndex(s))
    ensures RunnerIndex(s) == |procs| || Useful(procs, Remaining(s), RunnerIndex(s), s.time)
  {
    hide Tick, Runner, AfterAdmission, Ticked, Alike, ProcOk, InPlace, ResetProc, NoIO;
    ViewTick(s);
    TickSpends(s);
    forall i: nat | i < |procs|
      ensures Load(procs, Remaining(s), s.time)[i] >= 0
      ensures Runner(s) == Some(i) ==> Load(procs, Remaining(s), s.time)[i] > 0
    {
      LoadIsActive(procs, s, i);
    }
  }

  // ---------- Arrivals seen by both ----------

  lemma NotYetServed(procs: seq<Proc>, s: State)
    requires OnTrack(procs, s)
    ensures forall i | 0 <= i < |procs| && procs[i].arrival >= s.time :: s.procs[i].remaining == procs[i].burst
  {
    forall i | 0 <= i < |procs| && procs[i].arrival >= s.time
      ensures s.procs[i].remaining == procs[i].burst
    {
      assert ProcOk(s.procs[i]);
      assert ResetProc(s.procs[i]).burst == procs[i].burst;
    }
  }

  lemma {:induction false} RivalFacts(procs: seq<Proc>, schedule: Schedule, n: nat)
    requires Workload(procs)
    ensures var r := RivalRun(procs, schedule, n);
            forall i | 0 <= i < |procs| ::
              && 0 <= r.remaining[i] <= procs[i].burst
              && (procs[i].arrival >= n ==> r.remaining[i] == procs[i].burst)
  {
    if n == 0 {
      assert forall i | 0 <= i < |procs| :: Fresh(procs[i]);
    } else {
      RivalFacts(procs, schedule, n - 1);
    }
  }

  ghost function NewAt(procs: seq<Proc>, now: int): set<nat> {
    set i: nat | i < |procs| && procs[i].arrival == now
  }

  lemma LoadAdds(procs: seq<Proc>, remaining: seq<int>, n: nat)
    requires Workload(procs) && |remaining| == |procs|
    requires forall i | 0 <= i < |procs| && procs[i].arrival >= n + 1 :: remaining[i] == procs[i].burst
    ensures Adds(Load(procs, remaining, n), Load(procs, remaining, n + 1), Bursts(procs), NewAt(procs, n + 1))
  {
    assert forall i | 0 <= i < |procs| :: Fresh(procs[i]);
  }

  // ---------- Domination over the whole run ----------

  lemma RivalServes(procs: seq<Proc>, schedule: Schedule, n: nat)
    requires Workload(procs)
    ensures var y := RivalRun(procs, schedule, n).remaining; var y' := RivalRun(procs, schedule, n + 1).remaining;
            && NonNegative(Load(procs, y, n)) && NonNegative(Load(procs, y', n))
            && Serves(Load(procs, y, n), Load(procs, y', n), schedule(n))
            && Adds(Load(procs, y', n), Load(procs, y', n + 1), Bursts(procs), NewAt(procs, n + 1))
  {
    hide Workload;
    RivalFacts(procs, schedule, n);
    RivalFacts(procs, schedule, n + 1);
    LoadAdds(procs, RivalRun(procs, schedule, n + 1).remaining, n);
  }

  lemma EngineArrivals(procs: seq<Proc>, s: State, n: nat)
    requires OnTrack(procs, s) && s.time == n && NoIO(procs) && Workload(procs)
    ensures |Tick(s).procs| == |procs|
    ensures var x' := Remaining(Tick(s));
            && NonNegative(Load(procs, x', n))
            && Adds(Load(procs, x', n), Load(procs, x', n + 1), Bursts(procs), NewAt(procs, n + 1))
  {
    hide Tick, Runner, ProcOk, InPlace, ResetProc, Workload, NoIO, Ticked, Alike, AfterAdmission;
    EngineServes(procs, s);
    OnTrackTick(procs, s);
    ViewTick(s);
    NotYetServed(procs, Tick(s));
    LoadAdds(procs, Remaining(Tick(s)), n);
  }

  lemma DominatesStep(procs: seq<Proc>, s: State, schedule: Schedule, n: nat)
    requires OnTrack(procs, s) && s.time == n && NoIO(procs) && Workload(procs)
    requires Shortest(Load(procs, Remaining(s), n), RunnerIndex(s))
    requires Dominates(Load(procs, Remaining(s), n), Load(procs, RivalRun(procs, schedule, n).remaining, n))
    ensures |Tick(s).procs| == |procs|
    ensures Dominates(Load(procs, Remaining(Tick(s)), n + 1), Load(procs, RivalRun(procs, schedule, n + 1).remaining, n + 1))
  {
    hide Tick, Dominates, Shortest, Serves, Adds, NonNegative, RunnerIndex, Workload, NoIO, DistinctPids, RivalRun, Load, ProcOk,
      InPlace, ResetProc;
    var y, y' := RivalRun(procs, schedule, n).remaining, RivalRun(procs, schedule, n + 1).remaining;
    var x, x' := Remaining(s), Remaining(Tick(s));
    EngineServes(procs, s);
    EngineArrivals(procs, s, n);
    RivalServes(procs, schedule, n);
    ServiceKeepsDomination(Load(procs, x, n), Load(procs, x', n), RunnerIndex(s),
                           Load(procs, y, n), Load(procs, y', n), schedule(n));
    ArrivalsKeepDomination(Load(procs, x', n), Load(procs, x', n + 1), Load(procs, y', n), Load(procs, y', n + 1),
                           Bursts(procs), NewAt(procs, n + 1));
  }

  /** The run gives tick `t` to a process with the least remaining time, if any competes. */
  ghost predicate ServesShortestAt(policy: Policy, seed: Word, procs: seq<Proc>, t: nat) {
    var s := Run(Initial(policy, seed, procs), t);
    |s.procs| == |procs| && Shortest(Load(procs, Remaining(s), t), RunnerIndex(s))
  }

  ghost predicate ServesShortest(policy: Policy, seed: Word, procs: seq<Proc>) {
    forall t: nat :: ServesShortestAt(policy, seed, procs, t)
  }

  lemma {:induction false} ShortestDominates(policy: Policy, seed: Word, procs: seq<Proc>, schedule: Schedule, n: nat)
    requires Startable(policy, procs) && NoIO(procs) && ServesShortest(policy, seed, procs)
    ensures var s := Run(Initial(policy, seed, procs), n);
            |s.procs| == |procs| &&
            Dominates(Load(procs, Remaining(s), n), Load(procs, RivalRun(procs, schedule, n).remaining, n))
  {
    hide Tick, OnTrack, Dominates, NoIO, Workload, Load, RivalStep, RunnerIndex, Shortest;
    var s0 := Initial(policy, seed, procs);
    if n == 0 {
      SameAtStart(policy, seed, procs);
      DominatesItself(Load(procs, Bursts(procs), 0));
    } else {
      ShortestDominates(policy, seed, procs, schedule, n - 1);
      var s := Run(s0, n - 1);
      OnTrackRun(policy, seed, procs, n - 1);
      assert ServesShortestAt(policy, seed, procs, n - 1);
      DominatesStep(procs, s, schedule, n - 1);
      assert Run(s0, n) == Tick(s);
    }
  }

  lemma SameAtStart(policy: Policy, seed: Word, procs: seq<Proc>)
    requires Workload(procs)
    ensures Remaining(Initial(policy, seed, procs)) == Bursts(procs)
  {
    FreshIsNew(procs);
  }

  /** At every tick the run has at most as many arrived unfinished processes as any other schedule. */
  lemma FewestUnfinished(policy: Policy, seed: Word, procs: seq<Proc>, schedule: Schedule, n: nat)
    requires Startable(policy, procs) && NoIO(procs) && ServesShortest(policy, seed, procs)
    ensures var s := Run(Initial(policy, seed, procs), n);
            |s.procs| == |procs| &&
            Unfinished(procs, Remaining(s), n) <= Unfinished(procs, RivalRun(procs, schedule, n).remaining, n)
  {
    hide Tick, Dominates, Runner, Shortest, ServesShortest;
    ShortestDominates(policy, seed, procs, schedule, n);
    OnTrackRun(policy, seed, procs, n);
    RivalFacts(procs, schedule, n);
    var s := Run(Initial(policy, seed, procs), n);
    EngineServes(procs, s);
    DominatesCounts(Load(procs, Remaining(s), n), Load(procs, RivalRun(procs, schedule, n).remaining, n));
  }

  // ---------- Turnaround and waiting time ----------

  /** Time each process has spent in the system by `n`: to its completion, or so far. */
  function Elapsed(procs: seq<Proc>, r: Rival, n: int): seq<int>
    requires |r.remaining| == |r.completion| == |procs|
  {
    seq(|procs|, i requires 0 <= i < |procs| =>
        if r.remaining[i] == 0 then r.completion[i] - procs[i].arrival
        else if procs[i].arrival <= n then n - procs[i].arrival
        else 0)
  }

  /** Each tick adds one unit for every arrived unfinished process. */
  lemma ElapsedGrows(procs: seq<Proc>, schedule: Schedule, n: nat)
    requires Workload(procs)
    ensures var r := RivalRun(procs, schedule, n);
            Sum(Elapsed(procs, RivalRun(procs, schedule, n + 1), n + 1)) ==
            Sum(Elapsed(procs, r, n)) + Unfinished(procs, r.remaining, n)
  {
    RivalFacts(procs, schedule, n);
    var r := RivalRun(procs, schedule, n);
    SumAdd(Elapsed(procs, r, n), Pending(Load(procs, r.remaining, n)),
           Elapsed(procs, RivalRun(procs, schedule, n + 1), n + 1));
  }

  /** A run of the engine, seen as a schedule. */
  ghost function ScheduleOf(policy: Policy, seed: Word, procs: seq<Proc>): Schedule {
    (t: nat) => RunnerIndex(Run(Initial(policy, seed, procs), t))
  }

  function AsRival(s: State): Rival {
    Rival(Remaining(s), seq(|s.procs|, i requires 0 <= i < |s.procs| => s.procs[i].completion))
  }

  lemma CompletionTick(procs: seq<Proc>, s: State, i: nat)
    requires OnTrack(procs, s) && i < |procs|
    ensures |Tick(s).procs| == |procs|
    ensures Tick(s).procs[i].completion ==
            if Runner(s) == Some(i) && s.procs[i].remaining == 1 then s.time + 1 else s.procs[i].completion
  {
    hide Tick, Runner, AfterExecution, AfterAdmission;
    ViewTick(s);
    TickSpends(s);
    var p := AfterAdmission(s.policy, s.time, s.procs[i]);
    assert Alike(Ticked(s, i), Tick(s).procs[i]);
    AdmissionSpendsNothing(s.policy, s.time, s.procs[i]);
    AdmissionCompletesNothing(s.policy, s.time, s.procs[i]);
    ExecutionCompletes(s.policy, s.time, p);
  }

  lemma AdmissionCompletesNothing(policy: Policy, now: int, p: Proc)
    ensures AfterAdmission(policy, now, p).completion == p.completion
  {
  }

  lemma ExecutionCompletes(policy: Policy, now: int, p: Proc)
    ensures p.remaining >= 1 ==>
              AfterExecution(policy, now, p).completion == if p.remaining == 1 then now + 1 else p.completion
  {
  }

  lemma EngineIsRivalStep(procs: seq<Proc>, s: State)
    requires OnTrack(procs, s) && NoIO(procs)
    ensures |Tick(s).procs| == |procs|
    ensures AsRival(Tick(s)) == RivalStep(procs, AsRival(s), RunnerIndex(s), s.time)
  {
    hide Tick, Runner, OnTrack, NoIO, Useful;
    var now := s.time;
    EngineServes(procs, s);
    CompletionsTick(procs, s);
    RemainingsTick(procs, s);
  }

  lemma RemainingsTick(procs: seq<Proc>, s: State)
    requires OnTrack(procs, s)
    ensures s.time >= 0 && |s.procs| == |Tick(s).procs| == |procs|
    ensures Remaining(Tick(s)) ==
            match Runner(s) case None => Remaining(s) case Some(i) => Remaining(s)[i := s.procs[i].remaining - 1]
  {
    hide Tick, Runner, ProcOk, InPlace, LevelBounded, ResetProc;
    TickSpends(s);
    RunnerBound(s);
  }

  lemma CompletionsTick(procs: seq<Proc>, s: State)
    requires OnTrack(procs, s)
    ensures |s.procs| == |Tick(s).procs| == |procs|
    ensures AsRival(Tick(s)).completion ==
            match Runner(s)
            case Some(i) =>
              if s.procs[i].remaining == 1 then AsRival(s).completion[i := s.time + 1] else AsRival(s).completion
            case None => AsRival(s).completion
  {
    hide Tick, Runner, ProcOk, InPlace, LevelBounded, ResetProc;
    RunnerBound(s);
    forall i | 0 <= i < |procs|
      ensures Tick(s).procs[i].completion ==
              if Runner(s) == Some(i) && s.procs[i].remaining == 1 then s.time + 1 else s.procs[i].completion
    {
      CompletionTick(procs, s, i);
    }
  }

  lemma StartIsRivalStart(policy: Policy, seed: Word, procs: seq<Proc>)
    requires Workload(procs)
    ensures AsRival(Initial(policy, seed, procs)) == RivalStart(procs)
  {
    FreshIsNew(procs);
    assert forall i | 0 <= i < |procs| :: procs[i] == ResetProc(procs[i]);
  }

  /** The engine under any policy runs one such schedule, and records its completion times. */
  lemma {:induction false} EngineIsRival(policy: Policy, seed: Word, procs: seq<Proc>, n: nat)
    requires Startable(policy, procs) && NoIO(procs)
    ensures AsRival(Run(Initial(policy, seed, procs), n)) == RivalRun(procs, ScheduleOf(policy, seed, procs), n)
  {
    hide Tick, OnTrack, Runner, RivalStep, NoIO, RunnerIndex, AsRival, Wf, Workload;
    var s0 := Initial(policy, seed, procs);
    if n == 0 {
      StartIsRivalStart(policy, seed, procs);
    } else {
      EngineIsRival(policy, seed, procs, n - 1);
      OnTrackRun(policy, seed, procs, n - 1);
      EngineIsRivalStep(procs, Run(s0, n - 1));
      assert Run(s0, n) == Tick(Run(s0, n - 1));
      assert ScheduleOf(policy, seed, procs)(n - 1) == RunnerIndex(Run(s0, n - 1));
    }
  }

  lemma {:induction false} LeastElapsed(policy: Policy, seed: Word, procs: seq<Proc>, schedule: Schedule, n: nat)
    requires Startable(policy, procs) && NoIO(procs) && ServesShortest(policy, seed, procs)
    ensures Sum(Elapsed(procs, RivalRun(procs, ScheduleOf(policy, seed, procs), n), n)) <=
            Sum(Elapsed(procs, RivalRun(procs, schedule, n), n))
  {
    hide Tick, OnTrack, Runner, RivalStep, NoIO, RunnerIndex, ScheduleOf, Unfinished, ServesShortest;
    if n == 0 {
    } else {
      LeastElapsed(policy, seed, procs, schedule, n - 1);
      ElapsedGrows(procs, ScheduleOf(policy, seed, procs), n - 1);
      ElapsedGrows(procs, schedule, n - 1);
      FewestUnfinished(policy, seed, procs, schedule, n - 1);
      EngineIsRival(policy, seed, procs, n - 1);
    }
  }

  ghost predicate Finished(r: Rival) {
    forall i | 0 <= i < |r.remaining| :: r.remaining[i] == 0
  }

  function Turnarounds(s: State): seq<int> {
    seq(|s.procs|, i requires 0 <= i < |s.procs| => s.procs[i].turnaround)
  }

  function Waitings(s: State): seq<int> {
    seq(|s.procs|, i requires 0 <= i < |s.procs| => s.procs[i].waiting)
  }

  /** Time from arrival to completion under a schedule. */
  function RivalTurnarounds(procs: seq<Proc>, r: Rival): seq<int>
    requires |r.completion| == |procs|
  {
    seq(|procs|, i requires 0 <= i < |procs| => r.completion[i] - procs[i].arrival)
  }

  lemma TurnaroundsRecorded(procs: seq<Proc>, s: State)
    requires OnTrack(procs, s) && Done(s)
    ensures Finished(AsRival(s))
    ensures Turnarounds(s) == RivalTurnarounds(procs, AsRival(s)) == Elapsed(procs, AsRival(s), s.time)
    ensures Sum(Waitings(s)) == Sum(Turnarounds(s)) - Sum(Bursts(procs))
  {
    forall i | 0 <= i < |procs|
      ensures s.procs[i].remaining == 0
      ensures s.procs[i].turnaround == s.procs[i].completion - procs[i].arrival
      ensures s.procs[i].turnaround == s.procs[i].waiting + procs[i].burst
    {
      assert ProcOk(s.procs[i]);
      assert ResetProc(s.procs[i]) == procs[i];
    }
    SumAdd(Waitings(s), Bursts(procs), Turnarounds(s));
  }

  lemma FinishedIsElapsed(procs: seq<Proc>, r: Rival, n: nat)
    requires |r.remaining| == |r.completion| == |procs| && Finished(r)
    ensures RivalTurnarounds(procs, r) == Elapsed(procs, r, n)
  {
  }

  lemma NothingUnfinished(procs: seq<Proc>, schedule: Schedule, n: nat)
    requires Workload(procs)
    ensures var r := RivalRun(procs, schedule, n);
            Finished(r) <==> (Unfinished(procs, r.remaining, n) <= 0 && forall i | 0 <= i < |procs| :: procs[i].arrival < n)
  {
    RivalFacts(procs, schedule, n);
    var r := RivalRun(procs, schedule, n);
    SumNonNegative(Pending(Load(procs, r.remaining, n)));
    forall i | 0 <= i < |procs|
      ensures procs[i].burst >= 1
      ensures Pending(Load(procs, r.remaining, n))[i] == if procs[i].arrival <= n && r.remaining[i] > 0 then 1 else 0
    {
      assert Fresh(procs[i]);
    }
  }

  lemma DoneIsFinished(procs: seq<Proc>, s: State)
    requires OnTrack(procs, s)
    ensures Done(s) <==> Finished(AsRival(s))
  {
    forall i | 0 <= i < |procs|
      ensures s.procs[i].Complete() <==> AsRival(s).remaining[i] == 0
    {
      assert ProcOk(s.procs[i]);
    }
  }

  /** When any schedule has finished all processes, the run has finished them too, with a total recorded
      turnaround, and a total recorded waiting time, at most that of the schedule. */
  lemma ShortestIsOptimal(policy: Policy, seed: Word, procs: seq<Proc>, schedule: Schedule, n: nat)
    requires Startable(policy, procs) && NoIO(procs) && ServesShortest(policy, seed, procs)
    requires Finished(RivalRun(procs, schedule, n))
    ensures var s := Run(Initial(policy, seed, procs), n); var r := RivalRun(procs, schedule, n);
            && Done(s)
            && Sum(Turnarounds(s)) <= Sum(RivalTurnarounds(procs, r))
            && Sum(Waitings(s)) <= Sum(RivalTurnarounds(procs, r)) - Sum(Bursts(procs))
  {
    hide Tick, OnTrack, RunnerIndex, Runner, Unfinished, Elapsed, RivalStep, Finished, NoIO, ServesShortest, Done;
    var s := Run(Initial(policy, seed, procs), n);
    var r := RivalRun(procs, schedule, n);
    OnTrackRun(policy, seed, procs, n);
    EngineIsRival(policy, seed, procs, n);
    FewestUnfinished(policy, seed, procs, schedule, n);
    NothingUnfinished(procs, schedule, n);
    NothingUnfinished(procs, ScheduleOf(policy, seed, procs), n);
    DoneIsFinished(procs, s);
    TurnaroundsRecorded(procs, s);
    FinishedIsElapsed(procs, r, n);
    LeastElapsed(policy, seed, procs, schedule, n);
  }

  /** In particular its totals are at most those of every policy of the simulator on the same workload. */
  lemma ShortestIsOptimalAmongPolicies(policy: Policy, seed: Word, other: Policy, seed': Word, procs: seq<Proc>, n: nat)
    requires Startable(policy, procs) && Startable(other, procs) && NoIO(procs) && ServesShortest(policy, seed, procs)
    requires Done(Run(Initial(other, seed', procs), n))
    ensures var s := Run(Initial(policy, seed, procs), n); var s' := Run(Initial(other, seed', procs), n);
            && Done(s)
            && Sum(Turnarounds(s)) <= Sum(Turnarounds(s'))
            && Sum(Waitings(s)) <= Sum(Waitings(s'))
  {
    hide Tick, OnTrack, RunnerIndex, Runner, Finished, NoIO, ServesShortest, Done;
    OnTrackRun(other, seed', procs, n);
    EngineIsRival(other, seed', procs, n);
    TurnaroundsRecorded(procs, Run(Initial(other, seed', procs), n));
    ShortestIsOptimal(policy, seed, procs, ScheduleOf(other, seed', procs), n);
  }
}
