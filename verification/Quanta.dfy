/** The quantum bound: at a tick boundary the dispatched process has always used strictly less than its
    quantum, whichever policy grants it. Also: counting queue entries, and gluing runs together. */
module Quanta {
  import opened Processes
  import opened RandomWords
  import opened Policies
  import opened Engine
  import opened Invariants
  import Effects
  import Runs

  ghost predicate WithinQuantum(s: State)
    requires Wf(s)
  {
    s.current.Some? ==>
      var q := QuantumFor(s.policy, s.procs[s.current.value]);
      s.used >= 0 && (q > 0 ==> s.used < q)
  }

  lemma ScheduleStartsQuantum(s: State)
    requires Inv(s)
    ensures WithinQuantum(ScheduleNext(s)) && (ScheduleNext(s).current.Some? ==> ScheduleNext(s).used == 0)
  {
    hide Pick, PickWord, RemoveFirst, ProcOk, InPlace;
  }

  lemma QuantumAdmitted(s: State)
    requires Inv(s) && WithinQuantum(s)
    ensures WithinQuantum(Admitted(s))
  {
    hide Admitted;
    Effects.ViewAdmitted(s);
    if s.current.Some? {
      assert InPlace(s, s.current.value);
    }
  }

  lemma QuantumDispatched(s: State)
    requires Inv(s) && WithinQuantum(s)
    ensures WithinQuantum(Dispatched(s))
  {
    hide Admitted, ScheduleNext, PreemptCurrent, Preempts, QuantumFor;
    QuantumAdmitted(s);
    InvAdmitted(s);
    var a := Admitted(s);
    ScheduleStartsQuantum(a);
    InvPreemptCurrent(a);
    ScheduleStartsQuantum(PreemptCurrent(a));
  }

  lemma QuantumTick(s: State)
    requires Inv(s) && WithinQuantum(s)
    ensures WithinQuantum(Tick(s))
  {
    hide Dispatched, QuantumFor, ProcOk, ScheduleNext, ExecuteCurrent, CheckIOBurst;
    InvDispatched(s);
    QuantumDispatched(s);
    var d := Dispatched(s);
    if d.current.Some? {
      Effects.ViewExecution(d);
      var e := CheckIOBurst(ExecuteCurrent(d));
      if QuantumOver(e) {
        InvRequeue(e);
        ScheduleStartsQuantum(Requeue(e));
      } else if e.current.Some? {
        ActiveNotComplete(e);
      }
    }
    ClockKeepsQuantum(RunStage(d));
  }

  lemma ActiveNotComplete(s: State)
    requires Inv(s) && s.current.Some?
    ensures !s.procs[s.current.value].Complete()
  {
    assert InPlace(s, s.current.value) && ProcOk(s.procs[s.current.value]);
  }

  lemma ClockKeepsQuantum(s: State)
    requires Wf(s) && WithinQuantum(s)
    ensures WithinQuantum(AdvanceClock(s))
  {
  }

  /** Under every policy no dispatch lasts longer than its quantum. */
  lemma {:induction false} QuantumRun(policy: Policy, seed: Word, procs: seq<Proc>, n: nat)
    requires Startable(policy, procs)
    ensures WithinQuantum(Run(Initial(policy, seed, procs), n))
  {
    hide Tick, Runs.OnTrack, WithinQuantum;
    var s0 := Initial(policy, seed, procs);
    if n == 0 {
      assert WithinQuantum(s0) by { NoCurrentNoQuantum(policy, seed, procs); }
    } else {
      QuantumRun(policy, seed, procs, n - 1);
      InvRun(policy, seed, procs, n - 1);
      QuantumTick(Run(s0, n - 1));
      assert Run(s0, n) == Tick(Run(s0, n - 1));
    }
  }

  lemma NoCurrentNoQuantum(policy: Policy, seed: Word, procs: seq<Proc>)
    ensures WithinQuantum(Initial(policy, seed, procs))
  {
  }

  lemma {:induction false} RunShift(s: State, n: nat)
    requires Wf(s)
    ensures Run(Tick(s), n) == Run(s, n + 1)
  {
    hide Tick;
    if n > 0 {
      RunShift(s, n - 1);
    }
  }

  lemma {:induction false} RunSplit(s: State, m: nat, n: nat)
    requires Wf(s)
    ensures Run(Run(s, m), n) == Run(s, m + n)
  {
    hide Tick;
    if n > 0 {
      RunSplit(s, m, n - 1);
    }
  }

  // ---------- How many entries a queue can have ----------

  ghost function Below(n: nat): (r: set<nat>)
    ensures |r| == n
    ensures forall i: nat :: i in r <==> i < n
  {
    if n == 0 then {} else Below(n - 1) + {n - 1}
  }

  lemma {:induction false} QueueLength(q: seq<nat>, room: set<nat>)
    requires NoDup(q)
    requires forall i | i in q :: i in room
    ensures |q| <= |room|
  {
    if q != [] {
      var n := |q| - 1;
      assert q[n] in q;
      forall i | i in q[..n]
        ensures i in room - {q[n]}
      {
        var k :| 0 <= k < n && q[k] == i;
        assert q[k] in q;
      }
      QueueLength(q[..n], room - {q[n]});
    }
  }

  lemma ReadyLength(s: State)
    requires Inv(s)
    ensures |s.ready| + (if s.current.Some? then 1 else 0) <= |s.procs|
  {
    hide ProcOk;
    var all := Below(|s.procs|);
    if s.current.Some? {
      assert InPlace(s, s.current.value);
      QueueLength(s.ready, all - {s.current.value});
    } else {
      QueueLength(s.ready, all);
    }
  }
}
