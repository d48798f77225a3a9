/** CFS: virtual runtime measures CPU time received, and processes that arrived together stay within one
    step of each other. */
module CfsFairness {
  import opened Processes
  import opened RandomWords
  import opened Policies
  import opened Engine
  import opened Invariants
  import opened Effects
  import Runs
  import Choice
  import Quanta
  import Pairs

  /** Virtual runtime is executed ticks times the step of the process's weight. */
  ghost predicate VruntimeIsService(p: Proc) {
    p.vruntime == p.Executed() * VStep(1, p.weight)
  }

  lemma ExecutionMovesVruntime(policy: Policy, now: int, p: Proc)
    requires ProcOk(p) && Active(p)
    ensures var q := AfterExecution(policy, now, p);
            q.vruntime == p.vruntime + VStep(1, p.weight) && q.Executed() == p.Executed() + 1 && q.weight == p.weight
  {
  }

  lemma AdmissionKeepsVruntime(policy: Policy, now: int, p: Proc)
    ensures var q := AfterAdmission(policy, now, p);
            q.vruntime == p.vruntime && q.Executed() == p.Executed() && q.weight == p.weight && q.pid == p.pid
  {
  }

  /** How one tick may move a process's virtual runtime and CPU time. */
  ghost predicate Served(p: Proc, q: Proc, runs: bool) {
    && q.weight == p.weight
    && (if runs then q.vruntime == p.vruntime + VStep(1, p.weight) && q.Executed() == p.Executed() + 1
        else q.vruntime == p.vruntime && q.Executed() == p.Executed())
  }

  lemma VruntimeTick(s: State)
    requires Inv(s)
    ensures |Tick(s).procs| == |s.procs|
    ensures forall i | 0 <= i < |s.procs| ::
              Served(s.procs[i], Tick(s).procs[i], Runner(s) == Some(i))
  {
    hide Tick, Runner, AfterExecution, AfterAdmission, VStep, ProcOk, InPlace;
    ViewTick(s);
    InvAdmittedProcs(s);
    forall i | 0 <= i < |s.procs|
      ensures Served(s.procs[i], Tick(s).procs[i], Runner(s) == Some(i))
    {
      assert Alike(Ticked(s, i), Tick(s).procs[i]);
      AdmissionKeepsVruntime(s.policy, s.time, s.procs[i]);
      if Runner(s) == Some(i) {
        ExecutionMovesVruntime(s.policy, s.time, AfterAdmission(s.policy, s.time, s.procs[i]));
      }
    }
  }

  ghost predicate AllVruntimes(s: State) {
    forall i | 0 <= i < |s.procs| :: VruntimeIsService(s.procs[i])
  }

  lemma ServedKeepsService(p: Proc, q: Proc, runs: bool)
    requires VruntimeIsService(p) && Served(p, q, runs)
    ensures VruntimeIsService(q)
  {
    hide VStep;
    var e, st := p.Executed(), VStep(1, p.weight);
    assert (e + 1) * st == e * st + st;
  }

  lemma AllVruntimesTick(s: State)
    requires Inv(s) && AllVruntimes(s)
    ensures AllVruntimes(Tick(s))
  {
    hide Tick, Runner, Served, VruntimeIsService, ProcOk, InPlace;
    VruntimeTick(s);
    forall i | 0 <= i < |s.procs|
      ensures VruntimeIsService(Tick(s).procs[i])
    {
      ServedKeepsService(s.procs[i], Tick(s).procs[i], Runner(s) == Some(i));
    }
  }

  lemma FreshVruntimes(policy: Policy, seed: Word, procs: seq<Proc>)
    requires Startable(policy, procs)
    ensures AllVruntimes(Initial(policy, seed, procs))
  {
    Runs.FreshIsNew(procs);
    forall i | 0 <= i < |procs|
      ensures VruntimeIsService(procs[i])
    {
      assert procs[i] == ResetProc(procs[i]);
    }
  }

  /** In every run, under every policy, virtual runtime is exactly weighted CPU time. */
  lemma {:induction false} VruntimeMeasuresService(policy: Policy, seed: Word, procs: seq<Proc>, n: nat)
    requires Startable(policy, procs)
    ensures AllVruntimes(Run(Initial(policy, seed, procs), n))
  {
    hide Tick, AllVruntimes, Inv, Workload;
    if n == 0 {
      FreshVruntimes(policy, seed, procs);
    } else {
      VruntimeMeasuresService(policy, seed, procs, n - 1);
      Runs.RunFacts(policy, seed, procs, n - 1);
      AllVruntimesTick(Run(Initial(policy, seed, procs), n - 1));
    }
  }

  /** In numbers: a tick costs a process the scale divided by its configured weight. */
  lemma VruntimeInNumbers(policy: Policy, seed: Word, procs: seq<Proc>, n: nat, i: nat)
    requires Startable(policy, procs) && i < |procs|
    ensures var s := Run(Initial(policy, seed, procs), n);
            && |s.procs| == |procs| && procs[i].weight >= 1
            && s.procs[i].vruntime == (procs[i].burst - s.procs[i].remaining) * (0x10_0000 / procs[i].weight)
  {
    hide Tick, Inv, Workload;
    Runs.OnTrackRun(policy, seed, procs, n);
    VruntimeMeasuresService(policy, seed, procs, n);
    var s := Run(Initial(policy, seed, procs), n);
    assert VruntimeIsService(s.procs[i]);
    assert ResetProc(s.procs[i]) == procs[i];
    assert Fresh(procs[i]) by { assert Workload(procs) by { WorkloadOf(policy, procs); } FreshAt(procs, i); }
  }

  lemma WorkloadOf(policy: Policy, procs: seq<Proc>)
    requires Startable(policy, procs)
    ensures Workload(procs)
  {
  }

  lemma FreshAt(procs: seq<Proc>, i: nat)
    requires Workload(procs) && i < |procs|
    ensures Fresh(procs[i])
  {
  }

  // ---------- Fairness ----------

  /** The process on the CPU at a tick boundary has the least virtual runtime of all that compete. */
  ghost predicate CurrentIsLowest(s: State)
    requires Wf(s)
  {
    s.current.Some? ==> forall j | 0 <= j < |s.procs| && Active(s.procs[j]) :: s.procs[s.current.value].vruntime <= s.procs[j].vruntime
  }

  lemma CurrentIsLowestTick(s: State)
    requires Inv(s) && s.policy.CFS? && Quanta.WithinQuantum(s)
    ensures CurrentIsLowest(Tick(s))
  {
    hide Dispatched, ExecuteCurrent, CheckIOBurst, ProcOk, ScheduleNext, Pick, AfterExecution, Rank, AfterAdmission, Alike;
    InvDispatched(s);
    Quanta.QuantumDispatched(s);
    ViewDispatched(s);
    var d := Dispatched(s);
    if d.current.Some? {
      ViewExecution(d);
      var e := CheckIOBurst(ExecuteCurrent(d));
      if QuantumOver(e) {
        var q := Requeue(e);
        InvRequeue(e);
        assert q.ready[|e.ready|] == e.current.value;
        Choice.ScheduledIsLowest(q);
        ViewScheduleNext(q);
        LowestHasLeastVruntime(q, ScheduleNext(q));
      } else if e.current.Some? {
        Quanta.ActiveNotComplete(e);
      }
    }
    ClockKeepsLowest(RunStage(d));
  }

  lemma LowestHasLeastVruntime(q: State, r: State)
    requires Inv(q) && q.policy.CFS? && r.current.Some? && |r.procs| == |q.procs| && Wf(r)
    requires Choice.LowestActive(q, r.current.value, q.time)
    requires forall i | 0 <= i < |q.procs| ::
               r.procs[i] == q.procs[i].(state := if r.current == Some(i) then Running else q.procs[i].state)
    ensures CurrentIsLowest(r)
  {
    forall j | 0 <= j < |r.procs| && Active(r.procs[j])
      ensures r.procs[r.current.value].vruntime <= r.procs[j].vruntime
    {
      assert Active(q.procs[j]);
      assert !Less(Rank(q.policy, q.time, q.procs[j]), Rank(q.policy, q.time, q.procs[r.current.value]));
    }
  }

  lemma ClockKeepsLowest(s: State)
    requires Wf(s) && CurrentIsLowest(s)
    ensures CurrentIsLowest(AdvanceClock(s))
  {
  }

  /** Who runs under CFS: no competitor that was competing at the boundary has less virtual runtime. */
  lemma RunnerHasLeastVruntime(s: State, j: nat)
    requires Inv(s) && s.policy.CFS? && CurrentIsLowest(s) && j < |s.procs|
    requires Runner(s).Some?
    requires Active(Admitted(s).procs[j])
    requires Runner(s) == s.current ==> Active(s.procs[j])
    ensures Runner(s).value < |s.procs| && s.procs[Runner(s).value].vruntime <= s.procs[j].vruntime
  {
    hide Admitted, Runner, AfterAdmission, ProcOk, InPlace, Preempts;
    Choice.RunnerChoice(s);
    ViewAdmitted(s);
    var r := Runner(s).value;
    var a := Admitted(s);
    AdmissionKeepsVruntime(s.policy, s.time, s.procs[j]);
    AdmissionKeepsVruntime(s.policy, s.time, s.procs[r]);
    if !(a.current.Some? && !Preempts(a.policy, a.time, a.procs, a.current.value, a.ready)) {
      assert !Less(Rank(s.policy, s.time, a.procs[j]), Rank(s.policy, s.time, a.procs[r]));
    }
  }

  /** Two processes without I/O that arrived at the same time. */
  ghost predicate Peers(procs: seq<Proc>, i: nat, j: nat) {
    && i < |procs| && j < |procs|
    && procs[i].arrival == procs[j].arrival && procs[i].io == [] && procs[j].io == []
  }

  ghost predicate Unfinished(s: State, i: nat)
    requires i < |s.procs|
  {
    s.procs[i].remaining > 0
  }

  ghost predicate Fair(procs: seq<Proc>, s: State) {
    && |s.procs| == |procs|
    && forall i: nat, j: nat | Peers(procs, i, j) && Unfinished(s, i) && Unfinished(s, j) ::
         s.procs[i].vruntime <= s.procs[j].vruntime + VStep(1, procs[i].weight)
  }

  /** Peers of a process that competes compete too. */
  lemma PeersCompete(procs: seq<Proc>, s: State, i: nat, j: nat)
    requires Runs.OnTrack(procs, s) && Peers(procs, i, j) && Unfinished(s, j)
    ensures Active(s.procs[i]) ==> Active(s.procs[j])
    ensures Active(AfterAdmission(s.policy, s.time, s.procs[i])) ==> Active(AfterAdmission(s.policy, s.time, s.procs[j]))
  {
    assert ProcOk(s.procs[i]) && ProcOk(s.procs[j]);
    assert |ResetProc(s.procs[i]).io| == |s.procs[i].io| && |ResetProc(s.procs[j]).io| == |s.procs[j].io|;
    assert ResetProc(s.procs[i]) == procs[i] && ResetProc(s.procs[j]) == procs[j];
  }

  lemma VStepNonNegative(w: int)
    ensures VStep(1, w) >= 0
  {
  }

  lemma FairTick(procs: seq<Proc>, s: State)
    requires Runs.OnTrack(procs, s) && s.policy.CFS? && CurrentIsLowest(s) && Fair(procs, s)
    ensures Fair(procs, Tick(s))
  {
    hide Tick, Runner, AfterAdmission, VStep, ProcOk, InPlace, CurrentIsLowest, Admitted, Alike, Ticked, CheckArrivals, Arriving,
      Returning;
    VruntimeTick(s);
    TickSpends(s);
    ViewTick(s);
    ViewAdmitted(s);
    forall i: nat, j: nat | Peers(procs, i, j) && Unfinished(Tick(s), i) && Unfinished(Tick(s), j)
      ensures Tick(s).procs[i].vruntime <= Tick(s).procs[j].vruntime + VStep(1, procs[i].weight)
    {
      assert ResetProc(s.procs[i]) == procs[i];
      VStepNonNegative(s.procs[j].weight);
      assert Unfinished(s, i) && Unfinished(s, j);
      if Runner(s) == Some(i) && i != j {
        PeersCompete(procs, s, i, j);
        if s.current == Some(i) {
          CurrentCompetes(s);
        }
        RunnerHasLeastVruntime(s, j);
      }
    }
  }

  lemma CurrentCompetes(s: State)
    requires Inv(s) && s.current.Some?
    ensures Active(s.procs[s.current.value])
  {
    assert InPlace(s, s.current.value);
  }

  lemma FreshIsFair(seed: Word, procs: seq<Proc>)
    requires Startable(CFS, procs)
    ensures Fair(procs, Initial(CFS, seed, procs)) && CurrentIsLowest(Initial(CFS, seed, procs))
  {
    Runs.FreshIsNew(procs);
    forall i: nat, j: nat | Peers(procs, i, j)
      ensures procs[i].vruntime <= procs[j].vruntime + VStep(1, procs[i].weight)
    {
      assert procs[i] == ResetProc(procs[i]) && procs[j] == ResetProc(procs[j]);
    }
  }

  /** At every tick boundary, two unfinished peers differ in virtual runtime by at most one step. */
  lemma {:induction false} CfsFair(seed: Word, procs: seq<Proc>, n: nat)
    requires Startable(CFS, procs)
    ensures Fair(procs, Run(Initial(CFS, seed, procs), n)) && CurrentIsLowest(Run(Initial(CFS, seed, procs), n))
  {
    hide Tick, Fair, CurrentIsLowest, Runs.OnTrack, Workload, Quanta.WithinQuantum;
    if n == 0 {
      FreshIsFair(seed, procs);
    } else {
      var s := Run(Initial(CFS, seed, procs), n - 1);
      CfsFair(seed, procs, n - 1);
      Runs.OnTrackRun(CFS, seed, procs, n - 1);
      Quanta.QuantumRun(CFS, seed, procs, n - 1);
      Runs.RunFacts(CFS, seed, procs, n - 1);
      FairTick(procs, s);
      CurrentIsLowestTick(s);
    }
  }

  ghost predicate ShareWithinOne(seed: Word, procs: seq<Proc>, n: nat, i: nat, j: nat) {
    Startable(CFS, procs) && Peers(procs, i, j) ==>
      var s := Run(Initial(CFS, seed, procs), n);
      && |s.procs| == |procs|
      && (Unfinished(s, i) && Unfinished(s, j) ==> -1 <= s.procs[i].Executed() - s.procs[j].Executed() <= 1)
  }

  /** With equal weights up to the fixed-point scale their CPU time differs by at most one tick. */
  lemma EqualWeightsShareEqually(seed: Word, procs: seq<Proc>, n: nat, i: nat, j: nat)
    requires Startable(CFS, procs) && Peers(procs, i, j)
    requires procs[i].weight == procs[j].weight <= VRUNTIME_SCALE
    ensures ShareWithinOne(seed, procs, n, i, j)
  {
    hide Tick, Runs.OnTrack, Workload, Inv, CurrentIsLowest, VStep;
    CfsFair(seed, procs, n);
    VruntimeMeasuresService(CFS, seed, procs, n);
    WeightsKept(CFS, seed, procs, n, i);
    WeightsKept(CFS, seed, procs, n, j);
    var s := Run(Initial(CFS, seed, procs), n);
    assert VruntimeIsService(s.procs[i]) && VruntimeIsService(s.procs[j]);
    var st := VStep(1, procs[i].weight);
    StepPositive(procs, i);
    if Unfinished(s, i) && Unfinished(s, j) {
      assert Peers(procs, i, j) && Peers(procs, j, i);
      AtMostOneApart(s.procs[i].Executed(), s.procs[j].Executed(), st);
      AtMostOneApart(s.procs[j].Executed(), s.procs[i].Executed(), st);
    }
  }

  lemma WeightsKept(policy: Policy, seed: Word, procs: seq<Proc>, n: nat, i: nat)
    requires Startable(policy, procs) && i < |procs|
    ensures var s := Run(Initial(policy, seed, procs), n); |s.procs| == |procs| && s.procs[i].weight == procs[i].weight
  {
    hide Tick, Inv, Workload;
    Runs.OnTrackRun(policy, seed, procs, n);
    var s := Run(Initial(policy, seed, procs), n);
    assert ResetProc(s.procs[i]) == procs[i];
  }

  lemma StepPositive(procs: seq<Proc>, i: nat)
    requires Workload(procs) && i < |procs| && procs[i].weight <= VRUNTIME_SCALE
    ensures VStep(1, procs[i].weight) >= 1
  {
    assert Fresh(procs[i]);
    QuotientPositive(procs[i].weight);
  }

  lemma QuotientPositive(w: int)
    requires 1 <= w <= VRUNTIME_SCALE
    ensures VRUNTIME_SCALE / w >= 1
  {
  }

  lemma AtMostOneApart(a: int, b: int, st: int)
    requires st >= 1 && a * st <= b * st + st
    ensures a - b <= 1
  {
    assert (a - b - 1) * st == a * st - b * st - st;
  }

  // ---------- Weights above the scale ----------

  /** A process of burst 3 that arrives at time 0. */
  function Heavy(pid: int, weight: int): Proc {
    Proc(pid, 0, 3, 0, weight, 3, New, false, -1, 0, 0, 0, 0, 0, 0, [], 0, 0, None)
  }

  /** The first of two processes is on the CPU, the second waits, and neither has any virtual runtime. */
  ghost predicate FirstServed(s: State, weight: int, left: int) {
    && s.policy == CFS && |s.procs| == 2 && s.current == Some(0) && s.ready == [1] && s.io == [] && s.used == 0
    && (forall i | 0 <= i < 2 ::
          var p := s.procs[i];
          p.pid == i + 1 && p.burst == 3 && p.vruntime == 0 && p.weight == weight && p.io == [] && p.ioIndex == 0)
    && s.procs[0].remaining == left && s.procs[0].state == Running
    && s.procs[1].remaining == 3 && s.procs[1].state == Ready
  }

  /** After its tick the process on the CPU has nothing but less work left. */
  ghost predicate FirstRan(e: State, d: State)
    requires |d.procs| == 2 && d.procs[0].weight > 0
  {
    e == d.(gantt := e.gantt, used := 1, procs := [Execute(d.procs[0], d.time, 1), d.procs[1]])
  }

  lemma FirstExecutes(d: State, weight: int, left: int)
    requires weight > VRUNTIME_SCALE && left >= 2 && FirstServed(d, weight, left)
    ensures FirstRan(CheckIOBurst(ExecuteCurrent(d)), d)
    ensures var p := Execute(d.procs[0], d.time, 1);
            p == d.procs[0].(remaining := left - 1, lastExecuted := p.lastExecuted, started := true, startTime := p.startTime,
                             response := p.response)
  {
    hide AddGantt;
    assert VStep(1, weight) == 0;
    var p := Execute(d.procs[0], d.time, 1);
    assert NextBurst(p.io, p.ioIndex) == 0;
  }

  lemma TwoRanked(q: State, first: nat)
    requires Wf(q) && q.policy == CFS && |q.procs| == 2 && q.ready == [first, 1 - first] && first <= 1
    requires q.procs[0].vruntime == q.procs[1].vruntime && q.procs[0].pid < q.procs[1].pid
    ensures Best(CFS, q.time, q.procs, q.ready) == 0
    ensures RemoveFirst(q.ready, 0) == [1]
  {
    assert q.ready[..1] == [first] && q.ready[1..] == [1 - first];
    assert Best(CFS, q.time, q.procs, [first]) == first;
    assert RemoveFirst([1 - first], 0) == if first == 1 then [] else [1];
  }

  /** Both ready with equal virtual runtime: the one with the lower PID gets the CPU. */
  lemma FirstScheduled(q: State, first: nat, weight: int, left: int)
    requires Wf(q) && q.policy == CFS && |q.procs| == 2 && q.ready == [first, 1 - first] && first <= 1
    requires FirstServed(q.(current := Some(0), ready := [1], used := 0, procs := [q.procs[0].(state := Running), q.procs[1]]),
                         weight, left)
    ensures FirstServed(ScheduleNext(q), weight, left)
  {
    hide Best, RemoveFirst;
    assert q.procs[0].vruntime == q.procs[1].vruntime == 0 by {
      assert q.procs[1] == [q.procs[0].(state := Running), q.procs[1]][1];
    }
    TwoRanked(q, first);
  }

  /** Executing adds nothing to its virtual runtime, so it is first again when its quantum is over. */
  lemma FirstStaysFirst(d: State, weight: int, left: int)
    requires weight > VRUNTIME_SCALE && left >= 2 && FirstServed(d, weight, left)
    ensures FirstServed(AdvanceClock(RunStage(d)), weight, left - 1)
  {
    hide CheckIOBurst, ExecuteCurrent, ScheduleNext, Execute, AdvanceClock;
    FirstExecutes(d, weight, left);
    var e := CheckIOBurst(ExecuteCurrent(d));
    assert QuantumOver(e);
    var q := Requeue(e);
    assert q.ready == [1, 0];
    FirstScheduled(q, 1, weight, left - 1);
    ClockKeepsFirst(ScheduleNext(q), weight, left - 1);
  }

  lemma ClockKeepsFirst(s: State, weight: int, left: int)
    requires Wf(s) && FirstServed(s, weight, left)
    ensures FirstServed(AdvanceClock(s), weight, left)
  {
  }

  lemma FirstKeepsCpu(s: State, weight: int, left: int)
    requires Wf(s) && FirstServed(s, weight, left) && weight > 0 && left > 0
    ensures FirstServed(Dispatched(s), weight, left)
  {
    hide ScheduleNext, PreemptCurrent, Admitted;
    Pairs.QuietAdmission(s);
    assert !Preempts(CFS, s.time, s.procs, 0, s.ready);
  }

  lemma HeavyAdmitted(seed: Word, weight: int)
    ensures var a := Admitted(Initial(CFS, seed, [Heavy(1, weight), Heavy(2, weight)]));
            && a.procs == [Heavy(1, weight).(state := Ready), Heavy(2, weight).(state := Ready)]
            && a.ready == [0, 1] && a.io == [] && a.current == None && a.policy == CFS
  {
    hide Admitted;
    Pairs.BothAdmitted(CFS, seed, [Heavy(1, weight), Heavy(2, weight)]);
  }

  lemma FirstDispatched(seed: Word, weight: int)
    ensures FirstServed(Dispatched(Initial(CFS, seed, [Heavy(1, weight), Heavy(2, weight)])), weight, 3)
  {
    hide Admitted, ScheduleNext;
    HeavyAdmitted(seed, weight);
    var a := Admitted(Initial(CFS, seed, [Heavy(1, weight), Heavy(2, weight)]));
    FirstScheduled(a, 0, weight, 3);
  }

  lemma HeavyIsStartable(weight: int)
    requires weight >= 1
    ensures var procs := [Heavy(1, weight), Heavy(2, weight)]; Startable(CFS, procs) && Peers(procs, 0, 1)
  {
    assert ResetProc(Heavy(1, weight)).io == [] && ResetProc(Heavy(2, weight)).io == [];
  }

  /** Above the scale the step is zero: of two equal processes the first runs twice before the other runs at all. */
  lemma HeavyWeightsShareUnequally(seed: Word, weight: int)
    requires weight > VRUNTIME_SCALE
    ensures !ShareWithinOne(seed, [Heavy(1, weight), Heavy(2, weight)], 2, 0, 1)
  {
    hide Dispatched, RunStage, Workload, Peers;
    var procs := [Heavy(1, weight), Heavy(2, weight)];
    var s := Initial(CFS, seed, procs);
    assert Run(s, 1) == Tick(Run(s, 0)) && Run(s, 2) == Tick(Run(s, 1));
    HeavyIsStartable(weight);
    FirstDispatched(seed, weight);
    FirstStaysFirst(Dispatched(s), weight, 3);
    FirstKeepsCpu(Run(s, 1), weight, 2);
    FirstStaysFirst(Dispatched(Run(s, 1)), weight, 2);
  }

  /** Equal weights share the CPU equally, in every run, if and only if the weight is at most the scale. */
  lemma EqualSharesIffWithinScale(weight: int)
    ensures weight <= VRUNTIME_SCALE <==>
            forall seed: Word, procs: seq<Proc>, n: nat, i: nat, j: nat |
              i < |procs| && j < |procs| && procs[i].weight == procs[j].weight == weight ::
              ShareWithinOne(seed, procs, n, i, j)
  {
    hide ShareWithinOne, Startable;
    if weight <= VRUNTIME_SCALE {
      forall seed: Word, procs: seq<Proc>, n: nat, i: nat, j: nat |
        i < |procs| && j < |procs| && procs[i].weight == procs[j].weight == weight
        ensures ShareWithinOne(seed, procs, n, i, j)
      {
        SharesWithinScale(seed, procs, n, i, j);
      }
    } else {
      HeavyWeightsShareUnequally(1, weight);
      var procs := [Heavy(1, weight), Heavy(2, weight)];
      assert procs[0].weight == procs[1].weight == weight;
    }
  }

  lemma SharesWithinScale(seed: Word, procs: seq<Proc>, n: nat, i: nat, j: nat)
    requires i < |procs| && j < |procs| && procs[i].weight == procs[j].weight <= VRUNTIME_SCALE
    ensures ShareWithinOne(seed, procs, n, i, j)
  {
    if Startable(CFS, procs) && Peers(procs, i, j) {
      EqualWeightsShareEqually(seed, procs, n, i, j);
    }
  }
}
