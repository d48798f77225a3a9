/** Round robin: a waiting process gets the CPU within `(n - 1) * quantum` ticks, I/O included. */
module RoundRobinWaiting {
  import opened Processes
  import opened RandomWords
  import opened Policies
  import opened Engine
  import opened Invariants
  import opened Effects
  import Runs
  import opened Quanta

  /** `p` is the entry at position `k` of the ready queue. */
  ghost predicate QueuedAt(s: State, p: nat, k: nat) {
    k < |s.ready| && s.ready[k] == p
  }

  /** Full quanta of those ahead, plus what is left of the running quantum. */
  function Patience(s: State, quantum: int, k: nat): int {
    k * quantum + if s.current.Some? then quantum - s.used else 0
  }

  lemma {:induction false} HeadIsBest(quantum: int, now: int, procs: seq<Proc>, q: seq<nat>)
    requires q != [] && InRange(procs, q)
    ensures Best(RoundRobin(quantum), now, procs, q) == q[0]
  {
    if |q| > 1 {
      HeadIsBest(quantum, now, procs, q[..|q| - 1]);
    }
  }

  lemma HeadIsScheduled(s: State)
    requires Wf(s) && s.policy.RoundRobin? && s.ready != []
    ensures var r := ScheduleNext(s);
            r.current == Some(s.ready[0]) && r.ready == s.ready[1..] && r.used == 0
  {
    HeadIsBest(s.policy.quantum, s.time, s.procs, s.ready);
  }

  /** Arrivals and returns join behind. */
  lemma AdmissionJoinsBehind(s: State, p: nat, k: nat)
    requires Inv(s) && QueuedAt(s, p, k)
    ensures QueuedAt(Admitted(s), p, k)
  {
    hide Admitted, Arriving, Returning;
    ViewAdmitted(s);
  }

  lemma DispatchAdvances(s: State, quantum: int, p: nat, k: nat)
    requires Inv(s) && s.policy == RoundRobin(quantum) && WithinQuantum(s)
    requires QueuedAt(Admitted(s), p, k)
    ensures var d := Dispatched(s); var w := Patience(Admitted(s), quantum, k);
            && Inv(d) && d.policy == s.policy && d.current.Some? && WithinQuantum(d)
            && (d.current != Some(p) ==> w >= 1)
            && (d.current == Some(p) || (k > 0 && QueuedAt(d, p, k - 1) && Patience(d, quantum, k - 1) == w)
                || (QueuedAt(d, p, k) && Patience(d, quantum, k) == w))
  {
    hide Admitted, ScheduleNext, ProcOk, InPlace, Arriving, Returning, AfterAdmission;
    InvDispatched(s);
    QuantumDispatched(s);
    QuantumAdmitted(s);
    ViewAdmitted(s);
    var a := Admitted(s);
    assert k * quantum >= 0;
    if a.current.None? {
      HeadIsScheduled(a);
      ViewScheduleNext(a);
      assert (k - 1) * quantum + quantum == k * quantum;
      assert k > 0 ==> (k - 1) * quantum >= 0;
    } else {
      ActiveNotComplete(a);
    }
  }

  lemma RunStageAdvances(d: State, quantum: int, p: nat, k: nat)
    requires Inv(d) && d.policy == RoundRobin(quantum) && WithinQuantum(d)
    requires d.current.Some? && d.current != Some(p) && QueuedAt(d, p, k)
    ensures var t := AdvanceClock(RunStage(d));
            t.current == Some(p)
            || (QueuedAt(t, p, k) && Patience(t, quantum, k) < Patience(d, quantum, k))
            || (k > 0 && QueuedAt(t, p, k - 1) && Patience(t, quantum, k - 1) < Patience(d, quantum, k))
  {
    hide ExecuteCurrent, CheckIOBurst, ScheduleNext, ProcOk, Active, AfterExecution;
    ViewExecution(d);
    var e := CheckIOBurst(ExecuteCurrent(d));
    if QuantumOver(e) {
      HeadIsScheduled(Requeue(e));
      assert (k - 1) * quantum + quantum == k * quantum;
    } else if e.current.Some? {
      ActiveNotComplete(e);
    }
  }

  lemma CurrentRunsNext(s: State, quantum: int, p: nat)
    requires Inv(s) && s.policy == RoundRobin(quantum) && s.current == Some(p)
    ensures Runner(s) == Some(p)
  {
    hide Admitted;
    ViewAdmitted(s);
    ActiveNotComplete(Admitted(s));
  }

  /** Admission changes neither position nor patience. */
  lemma AdmissionPatience(s: State, quantum: int, k: nat)
    requires Inv(s)
    ensures Patience(Admitted(s), quantum, k) == Patience(s, quantum, k)
  {
    hide Admitted;
    ViewAdmitted(s);
  }

  lemma PatienceNonNegative(s: State, quantum: int, k: nat)
    requires Inv(s) && s.policy == RoundRobin(quantum) && WithinQuantum(s)
    ensures Patience(s, quantum, k) >= 0
  {
    assert k * quantum >= 0;
  }

  /** One tick: the process runs, or is dispatched for the next tick, or its patience falls. */
  lemma TickAdvances(s: State, quantum: int, p: nat, k: nat) returns (j: nat)
    requires Inv(s) && s.policy == RoundRobin(quantum) && WithinQuantum(s)
    requires QueuedAt(Admitted(s), p, k) && Runner(s) != Some(p)
    ensures Patience(Admitted(s), quantum, k) >= 1
    ensures var t := Tick(s);
            && Inv(t) && t.policy == s.policy && WithinQuantum(t)
            && (t.current == Some(p)
                || (QueuedAt(Admitted(t), p, j) && Patience(Admitted(t), quantum, j) < Patience(Admitted(s), quantum, k)))
  {
    hide Admitted, DispatchStage, RunStage, WithinQuantum, AdvanceClock, QueuedAt, Patience, AfterAdmission, Active, Alike, Ticked;
    var w := Patience(Admitted(s), quantum, k);
    DispatchAdvances(s, quantum, p, k);
    var m := Dispatched(s);
    var i := if QueuedAt(m, p, k) && Patience(m, quantum, k) == w then k else k - 1;
    RunStageAdvances(m, quantum, p, i);
    var t := Tick(s);
    ViewTick(s);
    QuantumTick(s);
    j := if QueuedAt(t, p, i) && Patience(t, quantum, i) < w then i else if i > 0 then i - 1 else 0;
    if t.current != Some(p) {
      AdmissionJoinsBehind(t, p, j);
      AdmissionPatience(t, quantum, j);
    }
  }

  lemma {:induction false} RunsWithinPatience(s: State, quantum: int, p: nat, k: nat) returns (d: nat)
    requires Inv(s) && s.policy == RoundRobin(quantum) && WithinQuantum(s)
    requires QueuedAt(Admitted(s), p, k)
    ensures d <= Patience(Admitted(s), quantum, k)
    ensures Runner(Run(s, d)) == Some(p)
    decreases Patience(Admitted(s), quantum, k)
  {
    hide Tick, Admitted, Runner, WithinQuantum, QueuedAt, Patience, ProcOk, InPlace, LevelBounded;
    InvAdmitted(s);
    AdmissionPatience(s, quantum, k);
    PatienceNonNegative(s, quantum, k);
    if Runner(s) == Some(p) {
      d := 0;
    } else {
      var j := TickAdvances(s, quantum, p, k);
      var t := Tick(s);
      if t.current == Some(p) {
        CurrentRunsNext(t, quantum, p);
        RunShift(s, 0);
        d := 1;
      } else {
        AdmissionPatience(t, quantum, j);
        PatienceNonNegative(t, quantum, j);
        var e := RunsWithinPatience(t, quantum, p, j);
        RunShift(s, e);
        d := e + 1;
      }
    }
  }

  lemma PatienceBound(s: State, quantum: int, p: nat, k: nat)
    requires Inv(s) && s.policy == RoundRobin(quantum) && WithinQuantum(s) && QueuedAt(s, p, k)
    ensures Patience(s, quantum, k) <= (|s.procs| - 1) * quantum
  {
    hide ProcOk, InPlace;
    ReadyLength(s);
    var n := |s.procs|;
    if s.current.Some? {
      assert k + 1 <= n - 1;
      assert (k + 1) * quantum <= (n - 1) * quantum;
    } else {
      assert k * quantum <= (n - 1) * quantum;
    }
  }

  lemma BoundedWaitFrom(s: State, quantum: int, p: nat) returns (d: nat)
    requires Inv(s) && s.policy == RoundRobin(quantum) && WithinQuantum(s) && p in Admitted(s).ready
    ensures d <= (|s.procs| - 1) * quantum
    ensures Runner(Run(s, d)) == Some(p)
  {
    hide Tick, Admitted, Runner, WithinQuantum, Patience, ProcOk, InPlace, AfterAdmission, Arriving, Returning, CheckArrivals;
    ViewAdmitted(s);
    QuantumAdmitted(s);
    var a := Admitted(s);
    var k :| 0 <= k < |a.ready| && a.ready[k] == p;
    PatienceBound(a, quantum, p, k);
    d := RunsWithinPatience(s, quantum, p, k);
  }

  /** A process in the ready queue when tick `t` takes its decision, whether it just arrived, came back
      from I/O or was requeued, executes in tick `t + d` for some `d` of at most `(n - 1) * quantum`. */
  lemma RoundRobinBoundedWait(quantum: int, seed: Word, procs: seq<Proc>, t: nat, p: nat) returns (d: nat)
    requires Startable(RoundRobin(quantum), procs)
    requires p in Admitted(Run(Initial(RoundRobin(quantum), seed, procs), t)).ready
    ensures d <= (|procs| - 1) * quantum
    ensures Runner(Run(Initial(RoundRobin(quantum), seed, procs), t + d)) == Some(p)
  {
    hide Tick, Admitted, Runner, WithinQuantum, Patience, Workload, Inv, Wf;
    var s0 := Initial(RoundRobin(quantum), seed, procs);
    Runs.RunFacts(RoundRobin(quantum), seed, procs, t);
    QuantumRun(RoundRobin(quantum), seed, procs, t);
    d := BoundedWaitFrom(Run(s0, t), quantum, p);
    RunSplit(s0, t, d);
  }
}
