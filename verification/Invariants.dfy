/** The partition invariant: in every reachable state each process sits in exactly the place its
    `State` names, and its counters are in range. */
module Invariants {
  import opened Processes
  import opened RandomWords
  import opened Policies
  import opened Engine

  ghost predicate NoDup(q: seq<nat>) {
    forall i, j | 0 <= i < j < |q| :: q[i] != q[j]
  }

  /** Burst `k` has fired exactly when the index has moved past it. */
  ghost predicate BurstsInOrder(p: Proc) {
    && p.ioIndex <= |p.io|
    && (forall k | 0 <= k < |p.io| :: p.io[k].completed <==> k < p.ioIndex)
    && (forall k | 0 <= k < |p.io| :: p.io[k].duration > 0)
  }

  ghost predicate ProcOk(p: Proc) {
    && p.burst >= 1 && p.weight >= 1 && p.arrival >= 0
    && 0 <= p.remaining <= p.burst
    && (p.state == Terminated <==> p.remaining == 0)
    && (p.started <==> p.remaining < p.burst)
    && (p.state == New ==> !p.started)
    && (!p.started ==> p.ioIndex == 0)
    && (p.started ==> p.response == p.startTime - p.arrival)
    && (p.state == Terminated ==> p.turnaround == p.completion - p.arrival && p.waiting == p.turnaround - p.burst)
    && BurstsInOrder(p)
    && (p.state == Waiting ==> p.ioIndex >= 1 && 1 <= p.ioRemaining <= p.io[p.ioIndex - 1].duration)
    && (p.state != Waiting ==> p.ioRemaining == 0)
  }

  ghost predicate InPlace(s: State, i: nat)
    requires i < |s.procs|
  {
    && (i in s.ready <==> s.procs[i].state == Ready)
    && (i in s.io <==> s.procs[i].state == Waiting)
    && (s.current == Some(i) <==> s.procs[i].state == Running)
  }

  /** The MLFQ map only names existing levels. */
  ghost predicate LevelBounded(policy: Policy, p: Proc) {
    policy.MLFQ? ==> 0 <= LevelOf(p) < MLFQ_LEVELS
  }

  ghost predicate Inv(s: State) {
    && Wf(s)
    && ValidPolicy(s.policy)
    && NoDup(s.ready) && NoDup(s.io)
    && (forall i | 0 <= i < |s.procs| :: ProcOk(s.procs[i]) && InPlace(s, i) && LevelBounded(s.policy, s.procs[i]))
  }

  // ---------- Queue operations keep order and lose nothing else ----------

  lemma {:induction false} ArrivingMembers(procs: seq<Proc>, now: int, n: nat)
    requires n <= |procs|
    ensures forall i: nat :: i in Arriving(procs, now, n) <==> i < n && Arrives(procs[i], now)
    ensures forall j, k | 0 <= j < k < |Arriving(procs, now, n)| :: Arriving(procs, now, n)[j] < Arriving(procs, now, n)[k]
  {
    if n > 0 {
      ArrivingMembers(procs, now, n - 1);
      var q := Arriving(procs, now, n - 1);
      forall k | 0 <= k < |q|
        ensures q[k] < n - 1
      {
        assert q[k] in q;
      }
    }
  }

  lemma {:induction false} ReturningMembers(procs: seq<Proc>, q: seq<nat>)
    requires InRange(procs, q) && NoDup(q)
    ensures forall i: nat :: i in Returning(procs, q) <==> i in q && Returns(procs[i])
    ensures forall i: nat :: i in StillBlocked(procs, q) <==> i in q && !Returns(procs[i])
    ensures NoDup(Returning(procs, q)) && NoDup(StillBlocked(procs, q))
  {
    if q != [] {
      var n := |q| - 1;
      ReturningMembers(procs, q[..n]);
      assert q == q[..n] + [q[n]];
    }
  }

  lemma {:induction false} RemoveMembers(q: seq<nat>, x: nat)
    requires NoDup(q)
    ensures forall i: nat :: i in RemoveFirst(q, x) <==> i in q && i != x
    ensures NoDup(RemoveFirst(q, x))
    ensures |RemoveFirst(q, x)| == if x in q then |q| - 1 else |q|
  {
    if q != [] {
      assert q == [q[0]] + q[1..];
      RemoveMembers(q[1..], x);
      var r := RemoveFirst(q[1..], x);
      forall k | 0 <= k < |r|
        ensures r[k] != q[0]
      {
        assert r[k] in r;
      }
    }
  }

  lemma NoDupAppend(a: seq<nat>, b: seq<nat>)
    requires NoDup(a) && NoDup(b)
    requires forall i | i in a :: i !in b
    ensures NoDup(a + b)
  {
    forall i, j | 0 <= i < j < |a + b|
      ensures (a + b)[i] != (a + b)[j]
    {
      if i < |a| { assert (a + b)[i] in a; }
      if j >= |a| { assert (a + b)[j] in b; }
    }
  }

  lemma {:induction false} NextBurstInOrder(p: Proc)
    requires BurstsInOrder(p)
    ensures NextBurst(p.io, p.ioIndex) == p.ioIndex
  {
  }

  // ---------- Every step keeps the invariant ----------

  lemma InvCheckArrivals(s: State)
    requires Inv(s)
    ensures Inv(CheckArrivals(s))
  {
    var q := Arriving(s.procs, s.time, |s.procs|);
    ArrivingMembers(s.procs, s.time, |s.procs|);
    NoDupAppend(s.ready, q);
  }

  lemma CountDownOk(policy: Policy, p: Proc)
    requires ProcOk(p) && p.state == Waiting && LevelBounded(policy, p)
    ensures var q := CountDown(policy, p);
            && ProcOk(q) && LevelBounded(policy, q)
            && q.state == if Returns(p) then Ready else Waiting
  {
  }

  lemma InvTickIOQueue(s: State)
    requires Inv(s)
    ensures Inv(TickIOQueue(s))
  {
    hide ProcOk, LevelBounded, CountDown, Returns, Returning, StillBlocked;
    ReturningMembers(s.procs, s.io);
    NoDupAppend(s.ready, Returning(s.procs, s.io));
    forall i | 0 <= i < |s.procs| && i in s.io
      ensures s.procs[i].state == Waiting
      ensures var q := CountDown(s.policy, s.procs[i]);
              && ProcOk(q) && LevelBounded(s.policy, q)
              && q.state == if Returns(s.procs[i]) then Ready else Waiting
    {
      assert InPlace(s, i);
      CountDownOk(s.policy, s.procs[i]);
    }
  }

  lemma InvScheduleNext(s: State)
    requires Inv(s) && s.current.None?
    ensures Inv(ScheduleNext(s))
  {
    hide Pick, PickWord, RemoveFirst;
    if s.ready != [] {
      var next := Pick(s.policy, s.time, s.procs, s.ready, s.word);
      RemoveMembers(s.ready, next);
    }
  }

  lemma InvPreemptCurrent(s: State)
    requires Inv(s)
    ensures Inv(PreemptCurrent(s))
  {
    if s.current.Some? {
      assert InPlace(s, s.current.value);
      NoDupAppend(s.ready, [s.current.value]);
    }
  }

  lemma InvDispatchStage(s: State)
    requires Inv(s)
    ensures Inv(DispatchStage(s))
  {
    if s.current.None? {
      InvScheduleNext(s);
    } else {
      InvPreemptCurrent(s);
      InvScheduleNext(PreemptCurrent(s));
    }
  }

  lemma InvExecuteCurrent(s: State)
    requires Inv(s) && s.current.Some?
    ensures Inv(ExecuteCurrent(s)) && CurrentStarted(ExecuteCurrent(s))
  {
  }

  /** The process on the CPU has executed. */
  ghost predicate CurrentStarted(s: State)
    requires Wf(s)
  {
    s.current.Some? ==> s.procs[s.current.value].started
  }

  lemma InvCheckIOBurst(s: State)
    requires Inv(s) && CurrentStarted(s)
    ensures Inv(CheckIOBurst(s))
  {
    if s.current.Some? {
      NextBurstInOrder(s.procs[s.current.value]);
      NoDupAppend(s.io, [s.current.value]);
    }
  }

  lemma InvRequeue(s: State)
    requires Inv(s) && s.current.Some?
    ensures Inv(Requeue(s))
  {
    assert InPlace(s, s.current.value);
    NoDupAppend(s.ready, [s.current.value]);
  }

  lemma InvExpireQuantum(s: State)
    requires Inv(s)
    ensures Inv(ExpireQuantum(s))
  {
    if QuantumOver(s) {
      InvRequeue(s);
      InvScheduleNext(Requeue(s));
    }
  }

  lemma InvRunStage(s: State)
    requires Inv(s)
    ensures Inv(RunStage(s))
  {
    if s.current.Some? {
      InvExecuteCurrent(s);
      InvCheckIOBurst(ExecuteCurrent(s));
      InvExpireQuantum(CheckIOBurst(ExecuteCurrent(s)));
    }
  }

  lemma InvAdvanceClock(s: State)
    requires Inv(s)
    ensures Inv(AdvanceClock(s))
  {
  }

  lemma InvAdmitted(s: State)
    requires Inv(s)
    ensures Inv(CheckArrivals(s)) && Inv(Admitted(s))
  {
    InvCheckArrivals(s);
    InvTickIOQueue(CheckArrivals(s));
  }

  lemma InvDispatched(s: State)
    requires Inv(s)
    ensures Inv(Dispatched(s))
  {
    InvAdmitted(s);
    InvDispatchStage(Admitted(s));
  }

  lemma InvTick(s: State)
    requires Inv(s)
    ensures Inv(Tick(s))
  {
    InvDispatched(s);
    InvRunStage(Dispatched(s));
    InvAdvanceClock(RunStage(Dispatched(s)));
  }

  // ---------- Growing the process list ----------

  lemma ShiftedMembers(q: seq<nat>, k: nat)
    requires NoDup(q)
    ensures NoDup(Shifted(q, k)) && k !in Shifted(q, k)
    ensures forall i: nat | i != k :: i in Shifted(q, k) <==> (if i < k then i else i - 1) in q
  {
    var r := Shifted(q, k);
    forall i: nat | i != k
      ensures i in r <==> (if i < k then i else i - 1) in q
    {
      var i0 := if i < k then i else i - 1;
      if i0 in q {
        var j :| 0 <= j < |q| && q[j] == i0;
        assert r[j] == i;
      }
    }
  }

  /** Adding a process that has not run, at any place and at any time, keeps the invariant. */
  lemma InvInserted(s: State, k: nat, p: Proc)
    requires Inv(s) && k <= |s.procs| && Fresh(p)
    ensures Inv(Inserted(s, k, p))
  {
    hide ProcOk, Shifted, LevelOf;
    FreshOk(s.policy, p);
    ShiftedMembers(s.ready, k);
    ShiftedMembers(s.io, k);
    var r := Inserted(s, k, p);
    forall i | 0 <= i < |r.procs|
      ensures ProcOk(r.procs[i]) && InPlace(r, i) && LevelBounded(r.policy, r.procs[i])
    {
      if i == k {
        assert r.procs[i] == p;
      } else {
        var i0 := if i < k then i else i - 1;
        assert r.procs[i] == s.procs[i0] && InPlace(s, i0);
      }
    }
  }

  lemma FreshOk(policy: Policy, p: Proc)
    requires Fresh(p)
    ensures ProcOk(p) && p.state == New && LevelBounded(policy, p)
  {
    assert p == ResetProc(p);
    forall k | 0 <= k < |p.io|
      ensures !p.io[k].completed && p.io[k].duration > 0
    {
      assert p.io[k] in p.io;
    }
  }

  // ---------- Reachable states ----------

  /** A list of processes ready to be simulated: each fresh. */
  ghost predicate Workload(procs: seq<Proc>) {
    forall i | 0 <= i < |procs| :: Fresh(procs[i])
  }

  ghost predicate DistinctPids(procs: seq<Proc>) {
    forall i, j | 0 <= i < j < |procs| :: procs[i].pid != procs[j].pid
  }

  lemma PidsApart(procs: seq<Proc>, i: nat, j: nat)
    requires DistinctPids(procs) && i < |procs| && j < |procs| && i != j
    ensures procs[i].pid != procs[j].pid
  {
    if i < j {
    } else {
      assert procs[j].pid != procs[i].pid;
    }
  }

  /** The order in which the simulator keeps its processes. */
  ghost predicate SortedByArrival(procs: seq<Proc>) {
    forall i, j | 0 <= i < j < |procs| :: procs[i].arrival <= procs[j].arrival
  }

  /** Inputs of a run. */
  ghost predicate Startable(policy: Policy, procs: seq<Proc>) {
    ValidPolicy(policy) && Workload(procs)
  }

  lemma InvInitial(policy: Policy, seed: Word, procs: seq<Proc>)
    requires Startable(policy, procs)
    ensures Inv(Initial(policy, seed, procs))
  {
    forall i | 0 <= i < |procs|
      ensures ProcOk(procs[i]) && procs[i].state == New && LevelBounded(policy, procs[i])
    {
      assert Fresh(procs[i]);
      FreshOk(policy, procs[i]);
    }
  }

  /** Every reachable state satisfies the partition invariant. */
  lemma {:induction false} InvRun(policy: Policy, seed: Word, procs: seq<Proc>, n: nat)
    requires Startable(policy, procs)
    ensures Inv(Run(Initial(policy, seed, procs), n))
  {
    hide Tick;
    var s := Initial(policy, seed, procs);
    if n == 0 {
      InvInitial(policy, seed, procs);
    } else {
      InvRun(policy, seed, procs, n - 1);
      InvTick(Run(s, n - 1));
    }
  }
}
