/** For which policies the waiting counter can be trusted: those that never take the CPU back at the end of a
    tick, and no others, whatever the seed. Only a random source of its own making can do better. */
module WaitingCounter {
  import opened RandomWords
  import opened Processes
  import opened Policies
  import opened Engine
  import opened Invariants
  import Effects
  import Runs
  import Levels
  import opened Accounting
  import Pairs
  import LotteryCounter

  /** After `n` ticks the counter of process `i` is the time since its arrival that it neither executed nor was
      blocked. */
  ghost predicate Exact(policy: Policy, seed: Word, procs: seq<Proc>, n: nat, i: nat) {
    Startable(policy, procs) && DistinctPids(procs) && i < |procs| && procs[i].arrival < n ==>
      var s := Run(Initial(policy, seed, procs), n);
      && |s.procs| == |procs|
      && var p := s.procs[i];
      && p.ioIndex <= |p.io|
      && (!p.Complete() ==> n - procs[i].arrival == p.Executed() + p.waiting + BlockedSoFar(p))
  }

  lemma ExactIffNoDrift(policy: Policy, seed: Word, procs: seq<Proc>, n: nat, i: nat)
    requires Startable(policy, procs) && DistinctPids(procs) && i < |procs| && procs[i].arrival < n
    requires var s := Run(Initial(policy, seed, procs), n); i < |s.procs| && !s.procs[i].Complete()
    ensures Exact(policy, seed, procs, n, i) <==> Drift(Initial(policy, seed, procs), i, n) == 0
  {
    hide Tick, Startable, DistinctPids, BlockedSoFar, Drift;
    WaitingExactIffNoDrift(policy, seed, procs, n, i);
  }

  /** A tick that adds to the drift of a process leaves the counter wrong after it, unless it was wrong before. */
  lemma DriftShows(policy: Policy, seed: Word, procs: seq<Proc>, n: nat, i: nat)
    requires Startable(policy, procs) && DistinctPids(procs) && i < |procs| && procs[i].arrival == 0
    requires var s := Run(Initial(policy, seed, procs), n);
             DriftIn(s, i) != 0 && i < |Tick(s).procs| && Tick(s).procs[i].remaining > 0
    ensures !Exact(policy, seed, procs, n, i) || !Exact(policy, seed, procs, n + 1, i)
  {
    hide Tick, Runner, Startable, DistinctPids, BlockedSoFar, DriftIn, Exact, Inv;
    var s0 := Initial(policy, seed, procs);
    Runs.RunFacts(policy, seed, procs, n);
    Effects.TickSpends(Run(s0, n));
    Unfinished(policy, seed, procs, n, i);
    Unfinished(policy, seed, procs, n + 1, i);
    ExactIffNoDrift(policy, seed, procs, n + 1, i);
    if n > 0 {
      ExactIffNoDrift(policy, seed, procs, n, i);
    }
  }

  lemma Unfinished(policy: Policy, seed: Word, procs: seq<Proc>, n: nat, i: nat)
    requires Startable(policy, procs) && i < |procs|
    ensures var s := Run(Initial(policy, seed, procs), n);
            |s.procs| == |procs| && (s.procs[i].remaining > 0 ==> !s.procs[i].Complete())
  {
    hide Tick, Workload, InPlace, LevelBounded;
    Runs.RunFacts(policy, seed, procs, n);
    assert ProcOk(Run(Initial(policy, seed, procs), n).procs[i]);
  }

  // ---------- Two processes, one quantum ----------

  function Racer(pid: int, burst: int, io: seq<IOBurst>): Proc {
    Proc(pid, 0, burst, 0, 1024, burst, New, false, -1, 0, 0, 0, 0, 0, 0, io, 0, 0, None)
  }

  lemma RacerIsFresh(pid: int, burst: int, io: seq<IOBurst>)
    requires pid >= 0 && burst >= 1 && forall b | b in io :: b.duration > 0 && !b.completed
    ensures Fresh(Racer(pid, burst, io))
  {
    assert ClearBursts(io) == io;
  }

  /** The quantum at the highest-priority level. */
  function TopQuantum(policy: Policy): int {
    match policy
    case RoundRobin(q) => q
    case CFS => CFS_GRANULARITY
    case MLFQ => MlfqQuantum(0)
    case MLQ(_, q) => q
    case _ => 0
  }

  /** Why the second process is picked once the first has used up its quantum. */
  predicate Edge(policy: Policy, p: Proc, q: Proc) {
    match policy
    case RoundRobin(_) => true
    case MLFQ => true
    case CFS => p.vruntime == q.vruntime == 0 && p.weight == 1024
    case MLQ(_, _) => q.pid < p.pid
    case _ => false
  }

  /** The first process is on the CPU with `left` ticks to go, the second is ready and of the same level, arrival and
      priority. */
  ghost predicate Duel(d: State, policy: Policy, used: int, left: int) {
    && d.policy == policy && |d.procs| == 2 && d.current == Some(0) && d.ready == [1] && d.io == [] && d.used == used
    && (forall i | 0 <= i < 2 :: LevelOf(d.procs[i]) == 0 && d.procs[i].priority == 0 && d.procs[i].arrival == 0)
    && d.procs[0].state == Running && d.procs[0].io == [] && d.procs[0].ioIndex == 0 && d.procs[0].remaining == left
    && d.procs[1].state == Ready
    && Edge(policy, d.procs[0], d.procs[1])
  }

  lemma LeaderExecutes(d: State, policy: Policy, used: int, left: int)
    requires Duel(d, policy, used, left) && left >= 2
    ensures var e := CheckIOBurst(ExecuteCurrent(d)); var p := Execute(d.procs[0], d.time, 1);
            && e == d.(gantt := e.gantt, used := used + 1, procs := [p, d.procs[1]])
            && p == d.procs[0].(remaining := left - 1, lastExecuted := p.lastExecuted, started := true, startTime := p.startTime,
                                response := p.response, vruntime := d.procs[0].vruntime + VStep(1, d.procs[0].weight))
  {
    hide AddGantt, VStep;
    var p := Execute(d.procs[0], d.time, 1);
    assert NextBurst(p.io, p.ioIndex) == 0;
  }

  lemma DuelGoesOn(s: State, policy: Policy, used: int, left: int)
    requires Wf(s) && Duel(Dispatched(s), policy, used, left) && !policy.CFS?
    requires 0 <= used && used + 1 < TopQuantum(policy) && left >= 2
    ensures Duel(Dispatched(Tick(s)), policy, used + 1, left - 1)
  {
    hide Dispatched, CheckIOBurst, ExecuteCurrent, Execute, AdvanceClock;
    var d := Dispatched(s);
    LeaderExecutes(d, policy, used, left);
    var e := CheckIOBurst(ExecuteCurrent(d));
    assert !QuantumOver(e);
    ClockKeepsDuel(e, policy, used + 1, left - 1);
    CpuKept(AdvanceClock(e), policy, used + 1, left - 1);
  }

  lemma ClockKeepsDuel(e: State, policy: Policy, used: int, left: int)
    requires Wf(e) && Duel(e, policy, used, left)
    ensures Duel(AdvanceClock(e), policy, used, left)
  {
  }

  lemma CpuKept(s: State, policy: Policy, used: int, left: int)
    requires Wf(s) && Duel(s, policy, used, left) && !policy.CFS? && left >= 1
    ensures Duel(Dispatched(s), policy, used, left)
  {
    hide Admitted, ScheduleNext, PreemptCurrent;
    Pairs.QuietAdmission(s);
    assert !Preempts(policy, s.time, s.procs, 0, s.ready);
  }

  /** The quantum of the first process expires and the second is picked. */
  lemma DuelEnds(s: State, policy: Policy, used: int, left: int)
    requires Wf(s) && Duel(Dispatched(s), policy, used, left)
    requires used + 1 == TopQuantum(policy) && used >= 0 && left >= 2
    ensures Levels.ExpiredIn(s) == Some(0) && Redispatched(s) == 1
  {
    hide Dispatched, CheckIOBurst, ExecuteCurrent, Execute, VStep;
    var d := Dispatched(s);
    LeaderExecutes(d, policy, used, left);
    var e := CheckIOBurst(ExecuteCurrent(d));
    assert QuantumOver(e);
    var q := Requeue(e);
    assert q.ready == [1, 0] && q.ready[..1] == [1];
    assert VStep(1, 1024) == 1024 by { StepOf1024(); }
    assert !Less(Rank(policy, q.time, q.procs[0]), Rank(policy, q.time, q.procs[1]));
    assert Best(policy, q.time, q.procs, [1]) == 1;
  }

  lemma StepOf1024()
    ensures VStep(1, 1024) == 1024
  {
  }

  lemma {:induction false} DuelReaches(s0: State, policy: Policy, n: nat, used: int, left: int) returns (m: nat)
    requires Wf(s0) && Duel(Dispatched(Run(s0, n)), policy, used, left)
    requires 0 <= used < TopQuantum(policy) < left + used
    ensures Levels.ExpiredIn(Run(s0, m)) == Some(0) && Redispatched(Run(s0, m)) == 1
    ensures Dispatched(Run(s0, m)).current == Some(0) && |Dispatched(Run(s0, m)).procs| == 2
    ensures Dispatched(Run(s0, m)).procs[0].remaining >= 2
    decreases TopQuantum(policy) - used
  {
    hide Tick, Dispatched, Levels.ExpiredIn, Redispatched;
    if used + 1 == TopQuantum(policy) {
      DuelEnds(Run(s0, n), policy, used, left);
      m := n;
    } else {
      DuelGoesOn(Run(s0, n), policy, used, left);
      m := DuelReaches(s0, policy, n + 1, used + 1, left - 1);
    }
  }

  /** Round robin, CFS and MLFQ take the first of two equal processes. */
  lemma DuelStarts(policy: Policy, seed: Word, left: int)
    requires ValidPolicy(policy) && (policy.RoundRobin? || policy.CFS? || policy.MLFQ?) && left >= 1
    ensures Duel(Dispatched(Initial(policy, seed, [Racer(1, left, []), Racer(2, left, [])])), policy, 0, left)
  {
    hide Admitted;
    var procs := [Racer(1, left, []), Racer(2, left, [])];
    Pairs.BothAdmitted(policy, seed, procs);
    var a := Admitted(Initial(policy, seed, procs));
    assert a.ready[..1] == [0];
    assert Best(policy, a.time, a.procs, [0]) == 0;
    assert Best(policy, a.time, a.procs, a.ready) == 0;
  }

  // ---------- MLQ: the lower PID comes back from I/O ----------

  /** The first process without, the second with one burst of two ticks after its first tick. */
  function Pair(left: int): seq<Proc> {
    [Racer(2, left, []), Racer(1, left, [IOBurst(1, 2, false)])]
  }

  ghost predicate Plain(p: Proc) {
    LevelOf(p) == 0 && p.priority == 0 && p.arrival == 0
  }

  /** The second process is blocked with `r` ticks of I/O ahead, and the first has the CPU or is ready. */
  ghost predicate Alone(s: State, policy: Policy, left: int, r: int) {
    && s.policy == policy && |s.procs| == 2 && s.io == [1]
    && Plain(s.procs[0]) && s.procs[0].io == [] && s.procs[0].ioIndex == 0 && s.procs[0].remaining == left && s.procs[0].pid == 2
    && Plain(s.procs[1]) && s.procs[1].pid == 1 && s.procs[1].state == Waiting && s.procs[1].ioRemaining == r
    && s.procs[1].level == Some(0)
  }

  /** The lower PID goes first, and blocks. */
  lemma PairDispatched(policy: Policy, seed: Word, left: int)
    requires ValidPolicy(policy) && policy.MLQ? && left >= 2
    ensures var d := Dispatched(Initial(policy, seed, Pair(left)));
            && d.procs == [Admit(policy, Pair(left)[0]), Admit(policy, Pair(left)[1]).(state := Running)]
            && d.ready == [0] && d.io == [] && d.current == Some(1) && d.policy == policy && d.time == 0 && d.used == 0
  {
    hide Admitted;
    Pairs.BothAdmitted(policy, seed, Pair(left));
    var a := Admitted(Initial(policy, seed, Pair(left)));
    assert a.ready[..1] == [0] && a.ready[1..] == [1];
    assert Best(policy, a.time, a.procs, [0]) == 0;
    assert Best(policy, a.time, a.procs, a.ready) == 1;
    assert RemoveFirst([1], 1) == [];
  }

  lemma PairBlocks(policy: Policy, seed: Word, left: int)
    requires ValidPolicy(policy) && policy.MLQ? && left >= 2
    ensures var s := Tick(Initial(policy, seed, Pair(left)));
            Alone(s, policy, left, 2) && s.ready == [0] && s.current == None && s.procs[0].state == Ready
  {
    hide Dispatched, AddGantt, VStep, ScheduleNext;
    PairDispatched(policy, seed, left);
    var d := Dispatched(Initial(policy, seed, Pair(left)));
    var p := Execute(d.procs[1], 0, 1);
    assert NextBurst(p.io, p.ioIndex) == 0 && Fires(p);
    var e := CheckIOBurst(ExecuteCurrent(d));
    assert e.procs == [d.procs[0], StartBurst(p)];
    assert e.current == None && e.ready == [0] && e.io == [1];
    assert RunStage(d) == e;
  }

  lemma BlockedAdmission(s: State, policy: Policy, left: int)
    requires Wf(s) && Alone(s, policy, left, 2) && s.procs[0].state != New
    ensures var a := Admitted(s);
            && Alone(a, policy, left, 1) && a.ready == s.ready && a.current == s.current && a.used == s.used
            && a.procs[0] == s.procs[0] && a.time == s.time
  {
    hide Admitted, Enlist;
    Pairs.OneBlocked(s);
  }

  lemma AloneDispatched(s: State, policy: Policy, left: int)
    requires Wf(s) && Alone(s, policy, left, 2) && s.ready == [0] && s.current == None && s.procs[0].state == Ready
    ensures var d := Dispatched(s);
            && Alone(d, policy, left, 1) && d.procs[0].state == Running
            && d.current == Some(0) && d.ready == [] && d.used == 0
  {
    hide Admitted, PickWord;
    BlockedAdmission(s, policy, left);
    var a := Admitted(s);
    assert Pick(policy, a.time, a.procs, [0], a.word) == 0;
  }

  lemma AloneExecutes(d: State, policy: Policy, left: int)
    requires Wf(d) && Alone(d, policy, left, 1) && d.procs[0].state == Running && left >= 2
    requires d.current == Some(0) && d.ready == [] && d.used == 0
    ensures var e := CheckIOBurst(ExecuteCurrent(d));
            Alone(e, policy, left - 1, 1) && e.procs[0].state == Running && e.current == Some(0) && e.ready == [] && e.used == 1
  {
    hide AddGantt, VStep;
    var p := Execute(d.procs[0], d.time, 1);
    assert NextBurst(p.io, p.ioIndex) == 0;
  }

  /** If its quantum is one it expires, and the only ready process is picked again. */
  lemma AloneAgain(e: State, policy: Policy, left: int)
    requires Wf(e) && Alone(e, policy, left, 1) && e.procs[0].state == Running && left >= 1
    requires e.current == Some(0) && e.ready == [] && e.used == 1 && ValidPolicy(policy) && policy.MLQ?
    ensures var r := ExpireQuantum(e);
            && Alone(r, policy, left, 1) && r.procs[0].state == Running && r.current == Some(0) && r.ready == []
            && r.used == if policy.quantum == 1 then 0 else 1
  {
    hide Pick, PickWord;
    if policy.quantum == 1 {
      var q := Requeue(e);
      assert q.ready == [0];
      assert Pick(policy, q.time, q.procs, [0], q.word) in [0];
    }
  }

  /** The first process has the CPU for a tick. */
  lemma AloneRuns(s: State, policy: Policy, left: int)
    requires Wf(s) && Alone(s, policy, left, 2) && s.ready == [0] && s.current == None && s.procs[0].state == Ready
    requires ValidPolicy(policy) && policy.MLQ? && left >= 2
    ensures var t := Tick(s);
            && Alone(t, policy, left - 1, 1) && t.ready == [] && t.current == Some(0) && t.procs[0].state == Running
            && t.used == if policy.quantum == 1 then 0 else 1
  {
    hide Dispatched, AdvanceClock, ExecuteCurrent, CheckIOBurst, ExpireQuantum;
    AloneDispatched(s, policy, left);
    var d := Dispatched(s);
    AloneExecutes(d, policy, left);
    AloneAgain(CheckIOBurst(ExecuteCurrent(d)), policy, left - 1);
    NobodyWaits(RunStage(d));
  }

  lemma NobodyWaits(s: State)
    requires Wf(s) && s.ready == []
    ensures AdvanceClock(s) == s.(time := s.time + 1)
  {
    assert AdvanceClock(s).procs == s.procs;
  }

  lemma ReturningAdmission(s: State, policy: Policy, left: int)
    requires Wf(s) && Alone(s, policy, left, 1) && s.ready == [] && s.procs[0].state != New
    ensures var a := Admitted(s);
            && a.ready == [1] && a.io == [] && a.procs == [s.procs[0], CountDown(policy, s.procs[1])]
            && a.current == s.current && a.used == s.used && a.policy == policy && a.time == s.time
  {
    hide Admitted, CountDown;
    Pairs.OneBlocked(s);
  }

  /** The second process comes back, and the duel is on. */
  lemma PairMeets(s: State, policy: Policy, left: int)
    requires Wf(s) && Alone(s, policy, left, 1) && s.ready == [] && s.current == Some(0) && s.procs[0].state == Running
    requires ValidPolicy(policy) && policy.MLQ? && left >= 1
    ensures Duel(Dispatched(s), policy, s.used, left)
  {
    hide Admitted, ScheduleNext, PreemptCurrent;
    ReturningAdmission(s, policy, left);
    var a := Admitted(s);
    assert !Preempts(policy, a.time, a.procs, 0, a.ready);
  }

  // ---------- The equivalence ----------

  /** Two processes on which the counter of the first goes wrong. */
  function Rivals(policy: Policy): seq<Proc> {
    var burst := TopQuantum(policy) + 3;
    if policy.MLQ? then Pair(burst) else [Racer(1, burst, []), Racer(2, burst, [])]
  }

  lemma RivalsStartable(policy: Policy)
    requires ValidPolicy(policy)
    ensures Startable(policy, Rivals(policy)) && DistinctPids(Rivals(policy)) && |Rivals(policy)| == 2
    ensures Rivals(policy)[0].arrival == 0
  {
    hide Fresh;
    var burst := TopQuantum(policy) + 3;
    RacerIsFresh(1, burst, []);
    RacerIsFresh(2, burst, []);
    RacerIsFresh(1, burst, [IOBurst(1, 2, false)]);
  }

  /** The tick in which the quantum of the first expires and the second is picked. */
  lemma RivalsDrift(policy: Policy, seed: Word) returns (m: nat)
    requires ValidPolicy(policy) && !QuantumFree(policy) && !policy.Lottery?
    ensures var s := Run(Initial(policy, seed, Rivals(policy)), m);
            && Levels.ExpiredIn(s) == Some(0) && Redispatched(s) == 1
            && Dispatched(s).current == Some(0) && |Dispatched(s).procs| == 2 && Dispatched(s).procs[0].remaining >= 2
  {
    hide Dispatched, Tick, Levels.ExpiredIn, Redispatched, Duel, Alone;
    var s0 := Initial(policy, seed, Rivals(policy));
    var burst := TopQuantum(policy) + 3;
    if policy.MLQ? {
      PairBlocks(policy, seed, burst);
      assert Run(s0, 1) == Tick(Run(s0, 0));
      AloneRuns(Run(s0, 1), policy, burst);
      PairMeets(Run(s0, 2), policy, burst - 1);
      m := DuelReaches(s0, policy, 2, Run(s0, 2).used, burst - 1);
    } else {
      DuelStarts(policy, seed, burst);
      m := DuelReaches(s0, policy, 0, 0, burst);
    }
  }

  /** The policies the simulator can be given, the lottery with its built-in source. */
  ghost predicate Builtin(policy: Policy) {
    ValidPolicy(policy) && (policy.Lottery? ==> policy.rng == DEFAULT_RNG)
  }

  /** A tick in which an expiry adds to the drift of a process that is not finished by it. */
  ghost predicate Drifts(policy: Policy, seed: Word, procs: seq<Proc>, m: nat, i: nat) {
    Startable(policy, procs) && DistinctPids(procs) && i < |procs| && procs[i].arrival == 0 &&
    var s := Run(Initial(policy, seed, procs), m);
    && Levels.ExpiredIn(s) == Some(i) && Redispatched(s) != i
    && Dispatched(s).current == Some(i) && i < |Dispatched(s).procs| && Dispatched(s).procs[i].remaining >= 2
  }

  /** From every seed, every policy with a quantum has a run in which the counter is wrong. */
  lemma QuantumMiscounts(policy: Policy, seed: Word) returns (procs: seq<Proc>, n: nat, i: nat)
    requires Builtin(policy) && !QuantumFree(policy)
    ensures !Exact(policy, seed, procs, n, i)
  {
    hide Tick, Dispatched, Levels.ExpiredIn, Redispatched, Exact, Startable, DistinctPids, Rivals, Drifts;
    var m: nat;
    if policy.Lottery? {
      procs, i, m := LotteryCounter.LotteryDrifts(policy.quantum, seed);
    } else {
      m := RivalsDrift(policy, seed);
      procs, i := Rivals(policy), 0;
      RivalsStartable(policy);
    }
    assert Drifts(policy, seed, procs, m, i) by { DriftsIs(policy, seed, procs, m, i); }
    n := DriftMiscounts(policy, seed, procs, m, i);
  }

  lemma DriftsIs(policy: Policy, seed: Word, procs: seq<Proc>, m: nat, i: nat)
    requires Startable(policy, procs) && DistinctPids(procs) && i < |procs| && procs[i].arrival == 0
    requires var s := Run(Initial(policy, seed, procs), m);
             && Levels.ExpiredIn(s) == Some(i) && Redispatched(s) != i
             && Dispatched(s).current == Some(i) && i < |Dispatched(s).procs| && Dispatched(s).procs[i].remaining >= 2
    ensures Drifts(policy, seed, procs, m, i)
  {
  }

  lemma DriftMiscounts(policy: Policy, seed: Word, procs: seq<Proc>, m: nat, i: nat) returns (n: nat)
    requires Drifts(policy, seed, procs, m, i)
    ensures !Exact(policy, seed, procs, n, i)
  {
    hide Tick, Dispatched, Levels.ExpiredIn, Redispatched, Exact, Startable, DistinctPids;
    Runs.RunFacts(policy, seed, procs, m);
    StillUnfinished(Run(Initial(policy, seed, procs), m), i);
    DriftShows(policy, seed, procs, m, i);
    n := if Exact(policy, seed, procs, m, i) then m + 1 else m;
  }

  lemma StillUnfinished(s: State, i: nat)
    requires Inv(s) && i < |s.procs| && Dispatched(s).current == Some(i) && Dispatched(s).procs[i].remaining >= 2
    ensures i < |Tick(s).procs| && Tick(s).procs[i].remaining > 0
  {
    hide Dispatched, Tick, Effects.AfterAdmission;
    Effects.ViewDispatched(s);
    Effects.TickSpends(s);
    Effects.AdmissionSpendsNothing(s.policy, s.time, s.procs[i]);
  }

  /** For every policy the simulator can be given, and every seed: the waiting counter is exact in all runs if and only
      if the policy grants no quantum. */
  lemma ExactIffQuantumFree(policy: Policy, seed: Word)
    requires Builtin(policy)
    ensures QuantumFree(policy) <==> forall procs: seq<Proc>, n: nat, i: nat :: Exact(policy, seed, procs, n, i)
  {
    hide Exact, QuantumFree;
    if QuantumFree(policy) {
      forall procs: seq<Proc>, n: nat, i: nat
        ensures Exact(policy, seed, procs, n, i)
      {
        QuantumFreeExact(policy, seed, procs, n, i);
      }
    } else {
      var procs, n, i := QuantumMiscounts(policy, seed);
    }
  }

  lemma QuantumFreeExact(policy: Policy, seed: Word, procs: seq<Proc>, n: nat, i: nat)
    requires QuantumFree(policy)
    ensures Exact(policy, seed, procs, n, i)
  {
    hide Tick, Startable, DistinctPids, BlockedSoFar, Drift;
    if Startable(policy, procs) && DistinctPids(procs) && i < |procs| && procs[i].arrival < n {
      TimeIsAccounted(policy, seed, procs, n, i);
      WaitingExactIffNoDrift(policy, seed, procs, n, i);
    }
  }

  // ---------- Why the built-in source is named ----------

  /** A source that always draws the last ticket. */
  const LAST_TICKET: Rng := Rng((w, n) => n - 1, (w, n) => w, false)

  lemma LastIsPicked(procs: seq<Proc>, q: seq<nat>)
    requires q != [] && InRange(procs, q)
    ensures Holder(procs, q, Tickets(procs, q) - 1) == |q| - 1
  {
  }

  lemma RequeuedIsPicked(e: State, quantum: int)
    requires Wf(e) && e.policy == Lottery(quantum, LAST_TICKET) && e.current.Some?
    ensures var q := Requeue(e); Pick(q.policy, q.time, q.procs, q.ready, q.word) == e.current.value
  {
    hide Holder, Tickets, Demote;
    var q := Requeue(e);
    LastIsPicked(q.procs, q.ready);
  }

  /** It draws the process whose quantum has just expired, again and again. */
  lemma LastTicketNeverDrifts(s: State, quantum: int, i: nat)
    requires Inv(s) && s.policy == Lottery(quantum, LAST_TICKET)
    ensures DriftIn(s, i) == 0
  {
    hide Dispatched, ExecuteCurrent, CheckIOBurst, Pick, Requeue, QuantumFor, Effects.AfterExecution, ProcOk, InPlace,
      LevelBounded, Effects.Alike;
    Effects.ViewDispatched(s);
    var d := Dispatched(s);
    if d.current.Some? {
      Effects.ViewExecution(d);
      var e := CheckIOBurst(ExecuteCurrent(d));
      if e.current.Some? {
        RequeuedIsPicked(e, quantum);
      }
    }
  }

  lemma {:induction false} NoDriftAtAll(quantum: int, seed: Word, procs: seq<Proc>, n: nat, i: nat)
    requires Startable(Lottery(quantum, LAST_TICKET), procs)
    ensures Drift(Initial(Lottery(quantum, LAST_TICKET), seed, procs), i, n) == 0
  {
    hide Tick, DriftIn, Startable, Inv;
    if n > 0 {
      NoDriftAtAll(quantum, seed, procs, n - 1, i);
      Runs.RunFacts(Lottery(quantum, LAST_TICKET), seed, procs, n - 1);
      LastTicketNeverDrifts(Run(Initial(Lottery(quantum, LAST_TICKET), seed, procs), n - 1), quantum, i);
    }
  }

  /** With that source the counter is exact in every run, although there is a quantum. */
  lemma LastTicketStaysExact(quantum: int, seed: Word, procs: seq<Proc>, n: nat, i: nat)
    ensures Exact(Lottery(quantum, LAST_TICKET), seed, procs, n, i)
  {
    hide Tick, Startable, DistinctPids, BlockedSoFar, Drift;
    var policy := Lottery(quantum, LAST_TICKET);
    if Startable(policy, procs) && DistinctPids(procs) && i < |procs| && procs[i].arrival < n {
      NoDriftAtAll(quantum, seed, procs, n, i);
      WaitingExactIffNoDrift(policy, seed, procs, n, i);
    }
  }
}
