/** How long a dispatch lasts, in numbers: exactly the quantum its scheduler grants, unless the process finishes,
    blocks or is preempted before. */
module QuantumLengths {
  import opened RandomWords
  import opened Processes
  import opened Policies
  import opened Engine
  import opened Invariants
  import Effects
  import Runs
  import Levels
  import Quanta

  /** The ticks a dispatch may last, by policy and level entry; none for the policies without a quantum. */
  ghost predicate Grants(policy: Policy, level: Option<int>, ticks: int) {
    match policy
    case RoundRobin(q) => ticks == q
    case Lottery(q, _) => ticks == q
    case MLQ(_, q) => ticks == q
    case CFS => ticks == 1
    case MLFQ => (level == Some(0) && ticks == 2) || (level == Some(1) && ticks == 4) || (level == Some(2) && ticks == 8)
    case _ => false
  }

  lemma GrantIsQuantum(policy: Policy, p: Proc, ticks: int)
    requires Grants(policy, p.level, ticks)
    ensures QuantumFor(policy, p) == ticks
  {
  }

  /** Process `i` has the CPU in the tick after `s`, and has used `used` ticks of its dispatch before. */
  ghost predicate OnCpu(s: State, i: nat, used: int)
    requires Wf(s)
  {
    var d := Dispatched(s);
    d.current == Some(i) && i < |d.procs| && d.used == used
  }

  /** It comes out of the tick neither finished nor blocked. */
  ghost predicate Survives(s: State, i: nat)
    requires Wf(s)
  {
    var t := Tick(s);
    i < |t.procs| && t.procs[i].state != Terminated && t.procs[i].state != Waiting
  }

  /** It is not preempted by the next decision. */
  ghost predicate LeftAlone(s: State, i: nat)
    requires Wf(s)
  {
    var a := Admitted(s);
    i < |a.procs| && !Preempts(a.policy, a.time, a.procs, i, a.ready)
  }

  /** The state after execution and before the quantum is looked at. */
  lemma SurvivorExecutes(s: State, i: nat, used: int)
    requires Inv(s) && OnCpu(s, i, used) && Survives(s, i)
    ensures var d := Dispatched(s); var e := CheckIOBurst(ExecuteCurrent(d));
            && Inv(e) && e.current == Some(i) && e.used == used + 1 && e.policy == s.policy
            && i < |e.procs| && |e.procs| == |s.procs| && e.procs[i].level == d.procs[i].level && !e.procs[i].Complete()
  {
    hide Dispatched, ExecuteCurrent, CheckIOBurst, ProcOk, Effects.AfterExecution, ExpireQuantum, QuantumOver;
    Effects.ViewDispatched(s);
    var d := Dispatched(s);
    Effects.ViewExecution(d);
    var e := CheckIOBurst(ExecuteCurrent(d));
    Effects.ViewExpireQuantum(e);
    Effects.ClockFrame(RunStage(d));
    ExecutedAlive(s.policy, s.time, d.procs[i]);
    if e.current.Some? {
      Quanta.ActiveNotComplete(e);
    }
  }

  lemma ExecutedAlive(policy: Policy, now: int, p: Proc)
    ensures var q := Effects.AfterExecution(policy, now, p); q.state != Terminated ==> q.level == p.level
    ensures var q := Effects.AfterExecution(policy, now, p); !Effects.Active(q) ==> q.state == Terminated || q.state == Waiting
  {
  }

  /** The quantum of a surviving process expires in a tick exactly if the tick is the last one granted; otherwise the
      process keeps the CPU, with one more tick used and at the same level. */
  lemma TickOfDispatch(s: State, i: nat, used: int, ticks: int)
    requires Inv(s) && OnCpu(s, i, used) && Survives(s, i)
    requires used >= 0 && Grants(s.policy, Dispatched(s).procs[i].level, ticks) && ticks >= 1
    ensures Levels.ExpiredIn(s) == Some(i) <==> used + 1 >= ticks
    ensures used + 1 < ticks ==>
              var t := Tick(s);
              Levels.ExpiredIn(s) == None && t.current == Some(i) && t.used == used + 1 && i < |t.procs|
              && t.procs[i].level == Dispatched(s).procs[i].level
  {
    hide Dispatched, ExecuteCurrent, CheckIOBurst, ProcOk, InPlace, ScheduleNext, Requeue, Survives, QuantumFor, Grants;
    SurvivorExecutes(s, i, used);
    var d := Dispatched(s);
    var e := CheckIOBurst(ExecuteCurrent(d));
    GrantIsQuantum(e.policy, e.procs[i], ticks);
    if used + 1 < ticks {
      assert RunStage(d) == e;
      Effects.ClockFrame(e);
    }
  }

  /** A process that had the CPU at a tick boundary and is left alone still has it. */
  lemma BoundaryKept(s: State, i: nat, used: int)
    requires Inv(s) && s.current == Some(i) && s.used == used && LeftAlone(s, i)
    ensures OnCpu(s, i, used) && i < |s.procs| && Dispatched(s).procs[i].level == s.procs[i].level
  {
    hide Admitted, ProcOk, Preempts, ScheduleNext, PreemptCurrent;
    Effects.ViewAdmitted(s);
    var a := Admitted(s);
    Quanta.ActiveNotComplete(a);
    assert InPlace(s, i);
    RunningAdmission(s.policy, s.time, s.procs[i]);
  }

  lemma RunningAdmission(policy: Policy, now: int, p: Proc)
    requires p.state == Running
    ensures Effects.AfterAdmission(policy, now, p) == p
  {
  }

  /** The process survives the ticks `n .. n + k` and is left alone after the first of them. */
  ghost predicate Undisturbed(s0: State, n: nat, i: nat, k: nat)
    requires Wf(s0)
  {
    && (forall m: nat | n <= m <= n + k :: Survives(Run(s0, m), i))
    && (forall m: nat | n < m <= n + k :: LeftAlone(Run(s0, m), i))
  }

  lemma {:induction false} DispatchGoesOn(s0: State, n: nat, i: nat, ticks: int, k: nat)
    requires Inv(s0) && Undisturbed(s0, n, i, k) && k < ticks
    requires OnCpu(Run(s0, n), i, 0) && Grants(s0.policy, Dispatched(Run(s0, n)).procs[i].level, ticks)
    ensures Inv(Run(s0, n + k)) && Run(s0, n + k).policy == s0.policy
    ensures OnCpu(Run(s0, n + k), i, k)
    ensures Dispatched(Run(s0, n + k)).procs[i].level == Dispatched(Run(s0, n)).procs[i].level
  {
    hide Tick, Dispatched, Survives, LeftAlone, Grants, ProcOk, InPlace;
    InvFrom(s0, n + k);
    if k > 0 {
      assert Undisturbed(s0, n, i, k - 1);
      DispatchGoesOn(s0, n, i, ticks, k - 1);
      var s := Run(s0, n + k - 1);
      assert Survives(s, i);
      TickOfDispatch(s, i, k - 1, ticks);
      assert Run(s0, n + k) == Tick(s);
      assert LeftAlone(Run(s0, n + k), i);
      BoundaryKept(Run(s0, n + k), i, k);
    }
  }

  lemma {:induction false} InvFrom(s0: State, n: nat)
    requires Inv(s0)
    ensures Inv(Run(s0, n)) && Run(s0, n).policy == s0.policy
  {
    hide Tick, Runner, ProcOk, InPlace, LevelBounded;
    if n > 0 {
      InvFrom(s0, n - 1);
      Effects.ViewTick(Run(s0, n - 1));
    }
  }

  /** In every run: a process dispatched in tick `n`, neither finished nor blocked nor preempted before, has the CPU in
      tick `n + k` for every `k` below the number of ticks granted to it, and loses it to its quantum in the last of
      them and in none before. */
  lemma QuantumIsExact(policy: Policy, seed: Word, procs: seq<Proc>, n: nat, i: nat, ticks: int, k: nat)
    requires Startable(policy, procs)
    requires var s0 := Initial(policy, seed, procs);
             && OnCpu(Run(s0, n), i, 0) && Grants(policy, Dispatched(Run(s0, n)).procs[i].level, ticks)
             && Undisturbed(s0, n, i, k) && k < ticks
    ensures var s := Run(Initial(policy, seed, procs), n + k);
            Runner(s) == Some(i) && (Levels.ExpiredIn(s) == Some(i) <==> k + 1 == ticks)
  {
    hide Tick, Dispatched, Survives, LeftAlone, Grants, Workload, Levels.ExpiredIn;
    var s0 := Initial(policy, seed, procs);
    InvInitial(policy, seed, procs);
    DispatchGoesOn(s0, n, i, ticks, k);
    var s := Run(s0, n + k);
    assert Survives(s, i);
    TickOfDispatch(s, i, k, ticks);
  }

  /** The level entries that a dispatch can find under MLFQ are the three above, so that some number of ticks is always
      granted. */
  lemma AlwaysGranted(policy: Policy, seed: Word, procs: seq<Proc>, n: nat, i: nat, used: int) returns (ticks: int)
    requires Startable(policy, procs) && !QuantumFree(policy)
    requires OnCpu(Run(Initial(policy, seed, procs), n), i, used)
    ensures ticks >= 1 && Grants(policy, Dispatched(Run(Initial(policy, seed, procs), n)).procs[i].level, ticks)
  {
    hide Tick, Workload, Dispatched, ProcOk;
    var s := Run(Initial(policy, seed, procs), n);
    Runs.RunFacts(policy, seed, procs, n);
    Effects.ViewDispatched(s);
    var d := Dispatched(s);
    match policy
    case RoundRobin(q) => ticks := q;
    case Lottery(q, _) => ticks := q;
    case MLQ(_, q) => ticks := q;
    case CFS => ticks := 1;
    case MLFQ =>
      LiveEntry(seed, procs, n, i);
      var l := d.procs[i].level.value;
      ticks := if l == 0 then 2 else if l == 1 then 4 else 8;
  }

  lemma LiveEntry(seed: Word, procs: seq<Proc>, n: nat, i: nat)
    requires Startable(MLFQ, procs) && OnCpu(Run(Initial(MLFQ, seed, procs), n), i, Dispatched(Run(Initial(MLFQ, seed, procs), n)).used)
    ensures var p := Dispatched(Run(Initial(MLFQ, seed, procs), n)).procs[i];
            p.level.Some? && 0 <= p.level.value <= 2
  {
    hide Tick, Workload, Dispatched, Admitted, Levels.Expiries, ProcOk, InPlace;
    var s := Run(Initial(MLFQ, seed, procs), n);
    Runs.RunFacts(MLFQ, seed, procs, n);
    Effects.ViewDispatched(s);
    Levels.MlfqLevelCountsExpiries(seed, procs, n, i);
    var k := Levels.Expiries(Initial(MLFQ, seed, procs), i, n);
    Levels.MlfqEntryAdmission(s.time, s.procs[i], k);
  }
}
