/** The Gantt chart is the canonical run-length encoding of who ran in each tick. */
module GanttChart {
  import opened RandomWords
  import opened Processes
  import opened Policies
  import opened Engine
  import opened Invariants
  import Effects
  import Runs
  import Sums
  import Makespan

  /** The PID that occupies the CPU in this tick, `IDLE_PID` when nobody does. */
  function OccupantOf(s: State): int
    requires Wf(s)
  {
    match Runner(s) case None => IDLE_PID case Some(i) => Dispatched(s).procs[i].pid
  }

  /** The occupant of each of the first `n` ticks. */
  function Trace(s0: State, n: nat): (t: seq<int>)
    requires Wf(s0)
    ensures |t| == n
  {
    if n == 0 then [] else Trace(s0, n - 1) + [OccupantOf(Run(s0, n - 1))]
  }

  /** The slices tile `[0, |trace|)`, each names the occupant of all its ticks, and neighbours differ. */
  ghost predicate Encodes(gantt: seq<GanttEntry>, trace: seq<int>) {
    && (gantt == [] <==> trace == [])
    && (gantt != [] ==> gantt[0].start == 0 && gantt[|gantt| - 1].end == |trace|)
    && (forall k | 0 <= k < |gantt| :: 0 <= gantt[k].start < gantt[k].end <= |trace|)
    && (forall k | 0 < k < |gantt| :: gantt[k].start == gantt[k - 1].end && gantt[k].pid != gantt[k - 1].pid)
    && (forall k, t | 0 <= k < |gantt| && gantt[k].start <= t < gantt[k].end :: trace[t] == gantt[k].pid)
  }

  lemma AddGanttEncodes(gantt: seq<GanttEntry>, trace: seq<int>, pid: int)
    requires Encodes(gantt, trace)
    ensures Encodes(AddGantt(gantt, pid, |trace|, |trace| + 1), trace + [pid])
  {
  }

  /** A tick adds one unit to the chart, for whoever executes. */
  lemma GanttTick(s: State)
    requires Inv(s)
    ensures Tick(s).gantt == AddGantt(s.gantt, OccupantOf(s), s.time, s.time + 1)
  {
    hide DispatchStage, Admitted, Pick, RemoveFirst, CheckIOBurst, ExpireQuantum, Execute;
    Effects.ViewDispatched(s);
    var d := Dispatched(s);
    if d.current.Some? {
      var x := ExecuteCurrent(d);
      ExecuteKeepsPid(d.procs[d.current.value], d.time);
      LogsAfterExecution(x);
    }
  }

  lemma ExecuteKeepsPid(p: Proc, now: int)
    ensures Execute(p, now, 1).pid == p.pid
  {
  }

  lemma LogsAfterExecution(x: State)
    requires Wf(x)
    ensures ExpireQuantum(CheckIOBurst(x)).gantt == x.gantt
  {
    hide Pick, RemoveFirst, Fires, StartBurst;
    var e := CheckIOBurst(x);
    assert e.gantt == x.gantt;
  }

  /** The chart of every reachable state encodes the trace of its run. */
  lemma {:induction false} GanttEncodesTrace(policy: Policy, seed: Word, procs: seq<Proc>, n: nat)
    requires Startable(policy, procs)
    ensures var s0 := Initial(policy, seed, procs); Encodes(Run(s0, n).gantt, Trace(s0, n))
  {
    hide Tick, Inv, Workload, Encodes, OccupantOf, AddGantt;
    var s0 := Initial(policy, seed, procs);
    if n == 0 {
      assert Encodes([], []) by { EmptyEncodes(); }
    } else {
      GanttEncodesTrace(policy, seed, procs, n - 1);
      Runs.RunFacts(policy, seed, procs, n - 1);
      GanttTick(Run(s0, n - 1));
      AddGanttEncodes(Run(s0, n - 1).gantt, Trace(s0, n - 1), OccupantOf(Run(s0, n - 1)));
    }
  }

  lemma EmptyEncodes()
    ensures Encodes([], [])
  {
  }

  // ---------- There is only one such chart ----------

  lemma SameSlice(g: seq<GanttEntry>, h: seq<GanttEntry>, trace: seq<int>, k: nat)
    requires Encodes(g, trace) && Encodes(h, trace)
    requires k < |g| && k < |h| && g[k].start == h[k].start
    ensures g[k] == h[k]
  {
    assert trace[g[k].start] == g[k].pid == h[k].pid;
    SliceGoesOn(g, trace, k);
    SliceGoesOn(h, trace, k);
  }

  /** Where a slice ends before the trace does, another occupant follows. */
  lemma SliceGoesOn(g: seq<GanttEntry>, trace: seq<int>, k: nat)
    requires Encodes(g, trace) && k < |g|
    ensures g[k].end < |trace| ==> trace[g[k].end] != g[k].pid
  {
    if g[k].end < |trace| {
      assert k + 1 < |g|;
      assert g[k + 1].start == g[k].end;
    }
  }

  lemma {:induction false} SamePrefix(g: seq<GanttEntry>, h: seq<GanttEntry>, trace: seq<int>, k: nat)
    requires Encodes(g, trace) && Encodes(h, trace) && k <= |g| && k <= |h|
    ensures g[..k] == h[..k]
  {
    if k > 0 {
      SamePrefix(g, h, trace, k - 1);
      if k > 1 {
        assert g[k - 2] == g[..k - 1][k - 2] == h[..k - 1][k - 2] == h[k - 2];
      }
      SameSlice(g, h, trace, k - 1);
      assert g[..k] == g[..k - 1] + [g[k - 1]];
      assert h[..k] == h[..k - 1] + [h[k - 1]];
    }
  }

  lemma FollowerStartsInside(h: seq<GanttEntry>, trace: seq<int>, k: nat)
    requires Encodes(h, trace)
    ensures 0 < k < |h| ==> h[k - 1].end < |trace|
  {
    if 0 < k < |h| {
      assert h[k].start == h[k - 1].end;
    }
  }

  lemma NoMoreSlices(g: seq<GanttEntry>, h: seq<GanttEntry>, trace: seq<int>)
    requires Encodes(g, trace) && Encodes(h, trace) && |g| <= |h|
    ensures |g| == |h|
  {
    var k := |g|;
    SamePrefix(g, h, trace, k);
    FollowerStartsInside(h, trace, k);
    if k > 0 {
      assert g[k - 1] == g[..k][k - 1] == h[..k][k - 1] == h[k - 1];
    }
  }

  /** A trace determines its chart. */
  lemma EncodingIsUnique(g: seq<GanttEntry>, h: seq<GanttEntry>, trace: seq<int>)
    requires Encodes(g, trace) && Encodes(h, trace)
    ensures g == h
  {
    if |g| <= |h| {
      NoMoreSlices(g, h, trace);
    } else {
      NoMoreSlices(h, g, trace);
    }
    SamePrefix(g, h, trace, |g|);
    assert g[..|g|] == g && h[..|h|] == h;
  }

  // ---------- Lengths ----------

  /** Total length of the slices of one PID. */
  function LengthOf(gantt: seq<GanttEntry>, pid: int): int {
    if gantt == [] then 0 else
    var last := gantt[|gantt| - 1];
    LengthOf(gantt[..|gantt| - 1], pid) + if last.pid == pid then last.end - last.start else 0
  }

  lemma AddGanttLength(gantt: seq<GanttEntry>, pid: int, start: int, other: int)
    ensures LengthOf(AddGantt(gantt, pid, start, start + 1), other) == LengthOf(gantt, other) + if pid == other then 1 else 0
  {
    var g := AddGantt(gantt, pid, start, start + 1);
    if |g| == |gantt| {
      assert g[..|g| - 1] == gantt[..|gantt| - 1];
    } else {
      assert g[..|g| - 1] == gantt;
    }
  }

  /** Slices of a process add up to the CPU time it has received, idle slices to the idle ticks. */
  ghost predicate LengthsRight(procs: seq<Proc>, s: State) {
    && |s.procs| == |procs|
    && LengthOf(s.gantt, IDLE_PID) == s.idle
    && forall i | 0 <= i < |procs| :: LengthOf(s.gantt, procs[i].pid) == s.procs[i].Executed()
  }

  lemma LengthsTick(procs: seq<Proc>, s: State)
    requires Runs.OnTrack(procs, s) && DistinctPids(procs) && LengthsRight(procs, s)
    requires forall i | 0 <= i < |procs| :: procs[i].pid >= 0
    ensures LengthsRight(procs, Tick(s))
  {
    hide Tick, Runner, AddGantt, ProcOk, InPlace, LevelBounded, Effects.Ticked, Effects.Alike, Effects.AfterAdmission,
      Effects.Active, LengthOf, ResetProc, OccupantOf,
      DistinctPids;
    GanttTick(s);
    Effects.TickSpends(s);
    Effects.ViewTick(s);
    OccupantPid(procs, s);
    AddGanttLength(s.gantt, OccupantOf(s), s.time, IDLE_PID);
    forall i | 0 <= i < |procs|
      ensures LengthOf(Tick(s).gantt, procs[i].pid) == Tick(s).procs[i].Executed()
    {
      AddGanttLength(s.gantt, OccupantOf(s), s.time, procs[i].pid);
      if Runner(s).Some? && Runner(s).value != i {
        PidsApart(procs, i, Runner(s).value);
      }
    }
  }

  lemma OccupantPid(procs: seq<Proc>, s: State)
    requires Runs.OnTrack(procs, s)
    ensures OccupantOf(s) == match Runner(s) case None => IDLE_PID case Some(i) => if i < |procs| then procs[i].pid else IDLE_PID
    ensures Runner(s).Some? ==> Runner(s).value < |procs|
  {
    hide Dispatched, Effects.Alike, Effects.Active, ProcOk, InPlace;
    Effects.ViewDispatched(s);
    var r := Runner(s);
    if r.Some? {
      assert ResetProc(s.procs[r.value]).pid == procs[r.value].pid;
    }
  }

  lemma FreshLengths(policy: Policy, seed: Word, procs: seq<Proc>)
    requires Startable(policy, procs)
    ensures LengthsRight(procs, Initial(policy, seed, procs))
    ensures forall i | 0 <= i < |procs| :: procs[i].pid >= 0
  {
    Runs.FreshIsNew(procs);
    forall i | 0 <= i < |procs|
      ensures procs[i].pid >= 0 && procs[i].Executed() == 0
    {
      assert Fresh(procs[i]) && procs[i] == ResetProc(procs[i]);
    }
  }

  /** In every run the chart accounts for every tick: idle slices sum to the idle counter, the slices of a
      process to its CPU time, and the clock to both together. */
  lemma {:induction false} GanttAccountsForTime(policy: Policy, seed: Word, procs: seq<Proc>, n: nat)
    requires Startable(policy, procs) && DistinctPids(procs)
    ensures var s := Run(Initial(policy, seed, procs), n);
            LengthsRight(procs, s) && s.time == s.idle + Sums.Sum(Makespan.ExecutedBy(s))
  {
    hide Tick, Runs.OnTrack, Workload, LengthsRight, DistinctPids;
    FreshLengths(policy, seed, procs);
    Makespan.WorkConservedRun(policy, seed, procs, n);
    if n > 0 {
      GanttAccountsForTime(policy, seed, procs, n - 1);
      Runs.OnTrackRun(policy, seed, procs, n - 1);
      LengthsTick(procs, Run(Initial(policy, seed, procs), n - 1));
    }
  }

  /** CPU utilisation lies between 0 and 100 percent. */
  lemma UtilisationInRange(policy: Policy, seed: Word, procs: seq<Proc>, n: nat)
    requires Startable(policy, procs) && n > 0
    ensures var s := Run(Initial(policy, seed, procs), n);
            s.time > 0 && 0.0 <= (s.time - s.idle) as real / s.time as real * 100.0 <= 100.0
  {
    hide Tick, Workload;
    Runs.OnTrackRun(policy, seed, procs, n);
    Makespan.WorkConservedRun(policy, seed, procs, n);
    IdleNonNegative(policy, seed, procs, n);
    var s := Run(Initial(policy, seed, procs), n);
    forall i | 0 <= i < |s.procs|
      ensures Makespan.ExecutedBy(s)[i] >= 0
    {
      assert ProcOk(s.procs[i]);
    }
    Sums.SumNonNegative(Makespan.ExecutedBy(s));
    RatioInRange(s.time - s.idle, s.time);
  }

  lemma RatioInRange(a: int, b: int)
    requires 0 <= a <= b && b > 0
    ensures 0.0 <= a as real / b as real * 100.0 <= 100.0
  {
    assert 0.0 <= a as real / b as real <= 1.0;
  }

  lemma {:induction false} IdleNonNegative(policy: Policy, seed: Word, procs: seq<Proc>, n: nat)
    requires Startable(policy, procs)
    ensures Run(Initial(policy, seed, procs), n).idle >= 0
  {
    hide Tick, Runs.OnTrack, Workload;
    if n > 0 {
      IdleNonNegative(policy, seed, procs, n - 1);
      Runs.OnTrackRun(policy, seed, procs, n - 1);
      Makespan.TickIdles(procs, Run(Initial(policy, seed, procs), n - 1));
    }
  }
}
