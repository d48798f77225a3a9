/** MLFQ and MLQ: what the pointer-keyed `levels` map holds in every run, and the rule that the CPU
    always serves the lowest level that competes. */
module Levels {
  import opened Processes
  import opened RandomWords
  import opened Policies
  import opened Engine
  import opened Invariants
  import opened Effects
  import Runs
  import Choice

  /** The process whose quantum expires in this tick, if any. */
  function ExpiredIn(s: State): Option<nat>
    requires Wf(s)
  {
    var d := Dispatched(s);
    if d.current.None? then None else
    var e := CheckIOBurst(ExecuteCurrent(d));
    if QuantumOver(e) then e.current else None
  }

  /** The level entry after a tick: enlisted on admission, dropped on completion, lowered on expiry. */
  function LevelAfter(s: State, i: nat): Option<int>
    requires Wf(s) && i < |s.procs|
  {
    var p := Ticked(s, i);
    if ExpiredIn(s) == Some(i) then Demote(s.policy, p) else p.level
  }

  lemma ViewLevel(s: State)
    requires Inv(s)
    ensures |Tick(s).procs| == |s.procs|
    ensures forall i | 0 <= i < |s.procs| :: Tick(s).procs[i].level == LevelAfter(s, i)
    ensures ExpiredIn(s).Some? ==> ExpiredIn(s) == Runner(s)
  {
    hide Dispatched, ExecuteCurrent, CheckIOBurst, AfterExecution, AfterAdmission, ExpireQuantum, QuantumOver, Demote, ProcOk,
      InPlace;
    ViewDispatched(s);
    var d := Dispatched(s);
    forall i | 0 <= i < |s.procs|
      ensures AfterExecution(s.policy, s.time, Admitted(s).procs[i]) == AfterExecution(s.policy, s.time, d.procs[i])
    {
      ExecutionIgnoresPlace(s.policy, s.time, Admitted(s).procs[i], d.procs[i]);
    }
    if d.current.Some? {
      ViewExecution(d);
      var e := CheckIOBurst(ExecuteCurrent(d));
      ViewExpireQuantum(e);
    }
    InvRunStage(d);
  }

  // ---------- MLFQ levels count quantum expiries ----------

  /** How often the quantum of process `i` has expired in the first `n` ticks. */
  function Expiries(s0: State, i: nat, n: nat): nat
    requires Wf(s0)
  {
    if n == 0 then 0
    else Expiries(s0, i, n - 1) + if ExpiredIn(Run(s0, n - 1)) == Some(i) then 1 else 0
  }

  function MlfqLevel(expiries: nat): int {
    if expiries < MLFQ_LEVELS - 1 then expiries else MLFQ_LEVELS - 1
  }

  /** The MLFQ entry of a process: absent before admission and after completion. */
  ghost predicate MlfqEntry(p: Proc, expiries: nat) {
    if p.state == New then p.level == None && expiries == 0
    else if p.state == Terminated then p.level == None
    else p.level == Some(MlfqLevel(expiries))
  }

  lemma MlfqEntryAdmission(now: int, p: Proc, k: nat)
    requires MlfqEntry(p, k)
    ensures MlfqEntry(AfterAdmission(MLFQ, now, p), k)
  {
  }

  lemma MlfqEntryExecution(now: int, p: Proc, k: nat)
    requires ProcOk(p) && Active(p) && MlfqEntry(p, k)
    ensures MlfqEntry(AfterExecution(MLFQ, now, p), k)
  {
  }

  lemma MlfqEntryTick(s: State, i: nat, k: nat)
    requires Inv(s) && s.policy.MLFQ? && i < |s.procs| && MlfqEntry(s.procs[i], k)
    ensures |Tick(s).procs| == |s.procs|
    ensures MlfqEntry(Tick(s).procs[i], if ExpiredIn(s) == Some(i) then k + 1 else k)
  {
    hide Tick, Runner, AfterExecution, AfterAdmission, ProcOk, InPlace, ExpiredIn, MlfqEntry;
    ViewLevel(s);
    ViewTick(s);
    InvAdmittedProcs(s);
    var p := AfterAdmission(s.policy, s.time, s.procs[i]);
    MlfqEntryAdmission(s.time, s.procs[i], k);
    if Runner(s) == Some(i) {
      MlfqEntryExecution(s.time, p, k);
    }
    ExpiredCompetes(s);
    MlfqEntryAlike(Ticked(s, i), Tick(s).procs[i], k, ExpiredIn(s) == Some(i));
  }

  /** A process whose quantum expires is still competing when its tick ends. */
  lemma ExpiredCompetes(s: State)
    requires Inv(s)
    ensures ExpiredIn(s).Some? ==> ExpiredIn(s).value < |s.procs| && Active(Ticked(s, ExpiredIn(s).value))
  {
    hide Dispatched, ExecuteCurrent, CheckIOBurst, AfterExecution, AfterAdmission, ProcOk;
    ViewDispatched(s);
    var d := Dispatched(s);
    if d.current.Some? {
      ViewExecution(d);
      var e := CheckIOBurst(ExecuteCurrent(d));
      if e.current.Some? {
        assert InPlace(e, e.current.value);
        ExecutionIgnoresPlace(s.policy, s.time, Admitted(s).procs[e.current.value], d.procs[e.current.value]);
      }
    }
  }

  lemma MlfqEntryAlike(p: Proc, q: Proc, k: nat, expired: bool)
    requires MlfqEntry(p, k) && Alike(p, q)
    requires expired ==> Active(p)
    requires q.level == if expired then Demote(MLFQ, p) else p.level
    ensures MlfqEntry(q, if expired then k + 1 else k)
  {
  }

  /** In every MLFQ run the level of a live process is its number of quantum expiries, capped at the
      last level. */
  lemma {:induction false} MlfqLevelCountsExpiries(seed: Word, procs: seq<Proc>, n: nat, i: nat)
    requires Startable(MLFQ, procs) && i < |procs|
    ensures var s0 := Initial(MLFQ, seed, procs);
            |Run(s0, n).procs| == |procs| && MlfqEntry(Run(s0, n).procs[i], Expiries(s0, i, n))
  {
    hide Tick, Inv, Workload, ExpiredIn, MlfqEntry, Wf;
    var s0 := Initial(MLFQ, seed, procs);
    Runs.RunFacts(MLFQ, seed, procs, n);
    if n == 0 {
      FreshHasNoLevel(procs, i);
    } else {
      MlfqLevelCountsExpiries(seed, procs, n - 1, i);
      Runs.RunFacts(MLFQ, seed, procs, n - 1);
      MlfqEntryTick(Run(s0, n - 1), i, Expiries(s0, i, n - 1));
    }
  }

  lemma FreshHasNoLevel(procs: seq<Proc>, i: nat)
    requires Workload(procs) && i < |procs|
    ensures MlfqEntry(procs[i], 0)
  {
    assert Fresh(procs[i]) && procs[i] == ResetProc(procs[i]);
  }

  lemma {:induction false} ExpiriesGrow(s0: State, i: nat, m: nat, n: nat)
    requires Wf(s0) && m <= n
    ensures Expiries(s0, i, m) <= Expiries(s0, i, n)
  {
    hide ExpiredIn, Run;
    if m < n {
      ExpiriesGrow(s0, i, m, n - 1);
    }
  }

  /** A live process never moves back to a higher-priority level. */
  lemma MlfqLevelNeverFalls(seed: Word, procs: seq<Proc>, m: nat, n: nat, i: nat)
    requires Startable(MLFQ, procs) && i < |procs| && m <= n
    ensures var s := Run(Initial(MLFQ, seed, procs), m); var t := Run(Initial(MLFQ, seed, procs), n);
            && |s.procs| == |t.procs| == |procs|
            && (s.procs[i].level.Some? && t.procs[i].level.Some? ==> 0 <= s.procs[i].level.value <= t.procs[i].level.value < MLFQ_LEVELS)
  {
    hide Tick, Inv, Workload, ExpiredIn, Run;
    var s0 := Initial(MLFQ, seed, procs);
    MlfqLevelCountsExpiries(seed, procs, m, i);
    MlfqLevelCountsExpiries(seed, procs, n, i);
    ExpiriesGrow(s0, i, m, n);
  }

  // ---------- MLQ levels follow the priority ----------

  /** The MLQ entry agrees with `levelFor` on live processes. */
  ghost predicate MlqEntry(policy: Policy, p: Proc) {
    policy.MLQ? ==>
      if p.state == New || p.state == Terminated then p.level == None
      else p.level == Some(LevelFor(policy.numLevels, p.priority))
  }

  lemma MlqEntryAdmission(policy: Policy, now: int, p: Proc)
    requires MlqEntry(policy, p)
    ensures MlqEntry(policy, AfterAdmission(policy, now, p))
  {
  }

  lemma MlqEntryExecution(policy: Policy, now: int, p: Proc)
    requires ProcOk(p) && MlqEntry(policy, p) && Active(p)
    ensures MlqEntry(policy, AfterExecution(policy, now, p))
  {
  }

  lemma MlqEntryAlike(policy: Policy, p: Proc, q: Proc, expired: bool)
    requires MlqEntry(policy, p) && Alike(p, q)
    requires q.level == if expired then Demote(policy, p) else p.level
    ensures MlqEntry(policy, q)
  {
  }

  lemma MlqEntryTick(s: State, i: nat)
    requires Inv(s) && i < |s.procs| && MlqEntry(s.policy, s.procs[i])
    ensures |Tick(s).procs| == |s.procs|
    ensures MlqEntry(s.policy, Tick(s).procs[i])
  {
    hide Tick, Runner, AfterExecution, AfterAdmission, ProcOk, InPlace, ExpiredIn, MlqEntry;
    ViewLevel(s);
    ViewTick(s);
    InvAdmittedProcs(s);
    var p := AfterAdmission(s.policy, s.time, s.procs[i]);
    MlqEntryAdmission(s.policy, s.time, s.procs[i]);
    if Runner(s) == Some(i) {
      MlqEntryExecution(s.policy, s.time, p);
    }
    MlqEntryAlike(s.policy, Ticked(s, i), Tick(s).procs[i], ExpiredIn(s) == Some(i));
  }

  lemma {:induction false} MlqLevelIsFixed(policy: Policy, seed: Word, procs: seq<Proc>, n: nat, i: nat)
    requires Startable(policy, procs) && i < |procs|
    ensures var s := Run(Initial(policy, seed, procs), n); |s.procs| == |procs| && MlqEntry(policy, s.procs[i])
  {
    hide Tick, Inv, Workload, MlqEntry, Wf;
    Runs.RunFacts(policy, seed, procs, n);
    if n == 0 {
      FreshHasNoMlqLevel(policy, procs, i);
    } else {
      MlqLevelIsFixed(policy, seed, procs, n - 1, i);
      Runs.RunFacts(policy, seed, procs, n - 1);
      MlqEntryTick(Run(Initial(policy, seed, procs), n - 1), i);
    }
  }

  /** In every MLQ run the level of a live process is its configured priority, counted within `0 .. numLevels - 1`. */
  lemma MlqLevelIsPriority(numLevels: int, quantum: int, seed: Word, procs: seq<Proc>, n: nat, i: nat)
    requires Startable(MLQ(numLevels, quantum), procs) && i < |procs|
    ensures var s := Run(Initial(MLQ(numLevels, quantum), seed, procs), n);
            && |s.procs| == |procs|
            && var p := s.procs[i];
            && (p.state == New || p.state == Terminated ==> p.level == None)
            && (p.state != New && p.state != Terminated ==>
                  p.level == Some(if procs[i].priority < 0 then 0
                                  else if procs[i].priority >= numLevels then numLevels - 1
                                  else procs[i].priority))
  {
    hide Tick, Inv, Workload;
    var policy := MLQ(numLevels, quantum);
    Runs.OnTrackRun(policy, seed, procs, n);
    MlqLevelIsFixed(policy, seed, procs, n, i);
    assert ResetProc(Run(Initial(policy, seed, procs), n).procs[i]).priority == procs[i].priority;
  }

  lemma FreshHasNoMlqLevel(policy: Policy, procs: seq<Proc>, i: nat)
    requires Workload(procs) && i < |procs|
    ensures MlqEntry(policy, procs[i])
  {
    assert Fresh(procs[i]) && procs[i] == ResetProc(procs[i]);
  }

  // ---------- The lowest level is served ----------

  /** The process that executes has a level at most that of every process competing with it. */
  ghost predicate ServesLowestLevel(s: State)
    requires Inv(s)
  {
    var a := Admitted(s); var r := Runner(s);
    r.Some? ==>
      && r.value < |a.procs|
      && forall j | 0 <= j < |a.procs| && Active(a.procs[j]) :: LevelOf(a.procs[r.value]) <= LevelOf(a.procs[j])
  }

  lemma MlfqServesLowest(s: State)
    requires Inv(s) && s.policy.MLFQ?
    ensures ServesLowestLevel(s)
  {
    hide Admitted, Runner, AfterAdmission, ProcOk, LevelOf;
    Choice.RunnerChoice(s);
    ViewAdmitted(s);
    var a := Admitted(s); var r := Runner(s);
    if a.current.Some? && !Preempts(a.policy, a.time, a.procs, a.current.value, a.ready) {
      NotPreemptedIsLowest(a);
    } else if r.Some? {
      forall j | 0 <= j < |a.procs| && Active(a.procs[j])
        ensures LevelOf(a.procs[r.value]) <= LevelOf(a.procs[j])
      {
        assert !Less(Rank(a.policy, s.time, a.procs[j]), Rank(a.policy, s.time, a.procs[r.value]));
      }
    }
  }

  lemma NotPreemptedIsLowest(a: State)
    requires Inv(a) && a.current.Some? && (a.policy.MLFQ? || a.policy.MLQ?)
    requires !Preempts(a.policy, a.time, a.procs, a.current.value, a.ready)
    ensures forall j | 0 <= j < |a.procs| && Active(a.procs[j]) :: LevelOf(a.procs[a.current.value]) <= LevelOf(a.procs[j])
  {
    hide ProcOk, LevelOf;
    var c := a.current.value;
    forall j | 0 <= j < |a.procs| && Active(a.procs[j])
      ensures LevelOf(a.procs[c]) <= LevelOf(a.procs[j])
    {
      assert InPlace(a, j) && InPlace(a, c);
      if j != c {
        var k :| 0 <= k < |a.ready| && a.ready[k] == j;
      }
    }
  }

  lemma MlqAdmittedEntries(s: State)
    requires Inv(s) && forall i | 0 <= i < |s.procs| :: MlqEntry(s.policy, s.procs[i])
    ensures |Admitted(s).procs| == |s.procs|
    ensures forall i | 0 <= i < |s.procs| :: MlqEntry(s.policy, Admitted(s).procs[i])
  {
    hide Admitted, ProcOk, InPlace;
    ViewAdmitted(s);
  }

  lemma MlqServesLowest(s: State)
    requires Inv(s) && s.policy.MLQ?
    requires forall i | 0 <= i < |s.procs| :: MlqEntry(s.policy, s.procs[i])
    ensures ServesLowestLevel(s)
  {
    hide Admitted, Runner, AfterAdmission, ProcOk, LevelFor, InPlace;
    Choice.RunnerChoice(s);
    ViewAdmitted(s);
    MlqAdmittedEntries(s);
    var a := Admitted(s); var r := Runner(s);
    if a.current.Some? && !Preempts(a.policy, a.time, a.procs, a.current.value, a.ready) {
      NotPreemptedIsLowest(a);
    } else if r.Some? {
      forall j | 0 <= j < |a.procs| && Active(a.procs[j])
        ensures LevelOf(a.procs[r.value]) <= LevelOf(a.procs[j])
      {
        assert !Less(Rank(a.policy, s.time, a.procs[j]), Rank(a.policy, s.time, a.procs[r.value]));
        assert MlqEntry(s.policy, a.procs[j]) && MlqEntry(s.policy, a.procs[r.value]);
      }
    }
  }

  lemma MlqServesPriority(procs: seq<Proc>, s: State, j: nat)
    requires Runs.OnTrack(procs, s) && s.policy.MLQ? && Inv(s) && ServesLowestLevel(s)
    requires forall i | 0 <= i < |s.procs| :: MlqEntry(s.policy, s.procs[i])
    requires Runner(s).Some? && j < |Admitted(s).procs| && Active(Admitted(s).procs[j])
    ensures var r := Runner(s).value;
            && r < |procs| && j < |procs|
            && (procs[r].priority <= procs[j].priority || procs[r].priority <= 0 || procs[j].priority >= s.policy.numLevels - 1
                || s.policy.numLevels == 1)
  {
    hide Admitted, Dispatched, AfterAdmission, ProcOk, InPlace, MlqEntry, Alike, LevelOf;
    ViewAdmitted(s);
    ViewDispatched(s);
    MlqAdmittedEntries(s);
    var r := Runner(s).value;
    AdmittedPriority(procs, s, r);
    AdmittedPriority(procs, s, j);
    MlqLevelsOrder(s.policy, Admitted(s).procs[r], Admitted(s).procs[j]);
  }

  lemma AdmittedPriority(procs: seq<Proc>, s: State, i: nat)
    requires Runs.OnTrack(procs, s) && i < |procs|
    ensures |Admitted(s).procs| == |procs| && Admitted(s).procs[i].priority == procs[i].priority
  {
    hide Admitted, ProcOk, InPlace;
    ViewAdmitted(s);
    AdmissionKeepsPriority(s.policy, s.time, s.procs[i]);
    assert ResetProc(s.procs[i]).priority == procs[i].priority;
  }

  lemma MlqLevelsOrder(policy: Policy, p: Proc, q: Proc)
    requires policy.MLQ? && MlqEntry(policy, p) && MlqEntry(policy, q) && Active(q) && LevelOf(p) <= LevelOf(q)
    requires Active(p)
    ensures p.priority <= q.priority || p.priority <= 0 || q.priority >= policy.numLevels - 1 || policy.numLevels <= 1
  {
  }

  lemma AdmissionKeepsPriority(policy: Policy, now: int, p: Proc)
    ensures AfterAdmission(policy, now, p).priority == p.priority
  {
  }

  /** MLQ in every run: of all that compete, the process that runs has the lowest configured priority number; numbers that
      are not positive count alike, and so do those from `numLevels - 1` on. */
  lemma MlqLowestPriorityServed(numLevels: int, quantum: int, seed: Word, procs: seq<Proc>, n: nat, j: nat)
    requires Startable(MLQ(numLevels, quantum), procs)
    requires var s := Run(Initial(MLQ(numLevels, quantum), seed, procs), n);
             Runner(s).Some? && j < |Admitted(s).procs| && Active(Admitted(s).procs[j])
    ensures var r := Runner(Run(Initial(MLQ(numLevels, quantum), seed, procs), n)).value;
            && r < |procs| && j < |procs|
            && (procs[r].priority <= procs[j].priority || procs[r].priority <= 0 || procs[j].priority >= numLevels - 1
                || numLevels == 1)
  {
    hide Tick, Inv, Workload, MlqEntry, ServesLowestLevel, Admitted, Runner;
    var policy := MLQ(numLevels, quantum);
    var s := Run(Initial(policy, seed, procs), n);
    Runs.OnTrackRun(policy, seed, procs, n);
    LowestLevelServed(policy, seed, procs, n);
    forall i | 0 <= i < |procs|
      ensures MlqEntry(policy, s.procs[i])
    {
      MlqLevelIsFixed(policy, seed, procs, n, i);
    }
    MlqServesPriority(procs, s, j);
  }

  /** In every tick of every MLFQ or MLQ run, the CPU serves the lowest level that competes. */
  lemma LowestLevelServed(policy: Policy, seed: Word, procs: seq<Proc>, n: nat)
    requires Startable(policy, procs) && (policy.MLFQ? || policy.MLQ?)
    ensures var s := Run(Initial(policy, seed, procs), n); Inv(s) && ServesLowestLevel(s)
  {
    hide Tick, Inv, Workload, MlqEntry, ServesLowestLevel;
    Runs.RunFacts(policy, seed, procs, n);
    var s := Run(Initial(policy, seed, procs), n);
    if policy.MLFQ? {
      MlfqServesLowest(s);
    } else {
      forall i | 0 <= i < |procs|
        ensures MlqEntry(policy, s.procs[i])
      {
        MlqLevelIsFixed(policy, seed, procs, n, i);
      }
      MlqServesLowest(s);
    }
  }
}
