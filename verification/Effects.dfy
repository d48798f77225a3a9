/** What one tick does to each process, stage by stage, in closed form. */
module Effects {
  import opened Processes
  import opened Policies
  import opened Engine
  import opened Invariants

  /** Competing for the CPU: in the ready queue or on the CPU. */
  predicate Active(p: Proc) {
    p.state == Ready || p.state == Running
  }

  /** A process after this tick's arrivals and I/O countdown. */
  function AfterAdmission(policy: Policy, now: int, p: Proc): Proc {
    if Arrives(p, now) then Admit(policy, p)
    else if p.state == Waiting then CountDown(policy, p)
    else p
  }

  /** A process after spending this tick on the CPU. */
  function AfterExecution(policy: Policy, now: int, p: Proc): Proc {
    var q := Execute(p, now, 1);
    if q.Complete() then q.(level := Delist(policy, q))
    else if Fires(q) then StartBurst(q)
    else q
  }

  /** `q` differs from `p` at most in `waiting`, in `level`, and in being ready instead of running
      or the reverse. */
  ghost predicate Alike(p: Proc, q: Proc) {
    && q == p.(state := q.state, level := q.level, waiting := q.waiting)
    && (q.state == p.state || (Active(p) && Active(q)))
  }

  lemma ViewAdmitted(s: State)
    requires Inv(s)
    ensures Inv(Admitted(s))
    ensures var a := Admitted(s);
            && a == s.(procs := a.procs, ready := a.ready, io := a.io, events := a.events) && |a.procs| == |s.procs|
            && a.ready == s.ready + Arriving(s.procs, s.time, |s.procs|) + Returning(CheckArrivals(s).procs, s.io)
            && (forall i | 0 <= i < |s.procs| :: a.procs[i] == AfterAdmission(s.policy, s.time, s.procs[i]))
  {
    InvAdmitted(s);
    var b := CheckArrivals(s);
    forall i | 0 <= i < |s.procs|
      ensures Admitted(s).procs[i] == AfterAdmission(s.policy, s.time, s.procs[i])
    {
      assert InPlace(s, i) && InPlace(b, i);
    }
  }

  /** `ScheduleNext` with a free CPU moves one ready process onto it and touches no other. */
  lemma ViewScheduleNext(s: State)
    requires Inv(s) && s.current.None?
    ensures Inv(ScheduleNext(s))
    ensures var r := ScheduleNext(s);
            && |r.procs| == |s.procs|
            && (forall i | 0 <= i < |s.procs| ::
                  r.procs[i] == s.procs[i].(state := if r.current == Some(i) then Running else s.procs[i].state))
            && (r.current.None? <==> s.ready == [])
            && (r.current.Some? ==> r.current.value in s.ready && r.ready == RemoveFirst(s.ready, r.current.value))
            && r == s.(ready := r.ready, word := r.word, current := r.current, procs := r.procs, used := r.used, events := r.events)
  {
    InvScheduleNext(s);
  }

  /** Preempting and dispatching again: the CPU goes to a process that was ready or running. */
  lemma ViewReplacement(s: State)
    requires Inv(s) && s.current.Some?
    ensures var p := PreemptCurrent(s); var d := ScheduleNext(p);
            && Inv(p) && p.current.None? && p.ready == s.ready + [s.current.value]
            && Inv(d) && |d.procs| == |s.procs|
            && (forall i | 0 <= i < |s.procs| ::
                  && d.procs[i] == s.procs[i].(state := d.procs[i].state)
                  && Alike(s.procs[i], d.procs[i]))
            && d.current.Some? && Active(s.procs[d.current.value])
            && d == s.(ready := d.ready, word := d.word, current := d.current, procs := d.procs, used := d.used,
                       switches := d.switches, events := d.events)
  {
    hide ScheduleNext, ProcOk;
    var c := s.current.value;
    assert InPlace(s, c);
    InvPreemptCurrent(s);
    var p := PreemptCurrent(s);
    ViewScheduleNext(p);
    var d := ScheduleNext(p).current;
    assert p.ready[|s.ready|] == c;
    assert d.Some? && InPlace(p, d.value);
  }

  lemma ViewDispatchStage(s: State)
    requires Inv(s)
    ensures Inv(DispatchStage(s))
    ensures var d := DispatchStage(s);
            && |d.procs| == |s.procs|
            && (forall i | 0 <= i < |s.procs| ::
                  && d.procs[i] == s.procs[i].(state := d.procs[i].state)
                  && Alike(s.procs[i], d.procs[i]))
            && (d.current.None? <==> s.current.None? && s.ready == [])
            && (d.current.Some? ==> Active(s.procs[d.current.value]))
            && d == s.(ready := d.ready, word := d.word, current := d.current, procs := d.procs, used := d.used,
                       switches := d.switches, events := d.events)
  {
    hide ScheduleNext, PreemptCurrent, Preempts;
    if s.current.None? {
      ViewScheduleNext(s);
      if ScheduleNext(s).current.Some? {
        assert InPlace(s, ScheduleNext(s).current.value);
      }
    } else {
      assert InPlace(s, s.current.value);
      ViewReplacement(s);
    }
  }

  lemma ViewExecution(s: State)
    requires Inv(s) && s.current.Some?
    ensures var e := CheckIOBurst(ExecuteCurrent(s));
            && Inv(e) && |e.procs| == |s.procs|
            && e.procs == s.procs[s.current.value := AfterExecution(s.policy, s.time, s.procs[s.current.value])]
            && (e.current.Some? ==> e.current == s.current && e.used == s.used + 1)
            && (e.current.None? ==> !Active(e.procs[s.current.value]))
            && e.ready == s.ready && e.policy == s.policy && e.idle == s.idle && e.time == s.time
  {
    InvExecuteCurrent(s);
    var x := ExecuteCurrent(s);
    InvCheckIOBurst(x);
    if x.current.Some? {
      NextBurstInOrder(x.procs[x.current.value]);
    }
  }

  lemma ViewExpireQuantum(s: State)
    requires Inv(s)
    ensures var r := ExpireQuantum(s);
            && Inv(r) && |r.procs| == |s.procs|
            && (forall i | 0 <= i < |s.procs| ::
                  && Alike(s.procs[i], r.procs[i])
                  && r.procs[i].waiting == s.procs[i].waiting
                  && r.procs[i].level == if QuantumOver(s) && s.current == Some(i) then Demote(s.policy, s.procs[i]) else s.procs[i].level)
            && r.policy == s.policy && r.idle == s.idle && r.time == s.time
  {
    hide ScheduleNext, ProcOk, Demote, QuantumFor;
    InvExpireQuantum(s);
    if QuantumOver(s) {
      InvRequeue(s);
      assert InPlace(s, s.current.value);
      var q := Requeue(s);
      ViewScheduleNext(q);
      forall i | 0 <= i < |s.procs|
        ensures Alike(s.procs[i], ExpireQuantum(s).procs[i])
      {
        assert InPlace(q, i);
        assert InPlace(ScheduleNext(q), i);
      }
    }
  }

  lemma ViewRunStage(s: State)
    requires Inv(s)
    ensures var r := RunStage(s);
            && Inv(r) && |r.procs| == |s.procs|
            && (forall i | 0 <= i < |s.procs| ::
                  Alike(if s.current == Some(i) then AfterExecution(s.policy, s.time, s.procs[i]) else s.procs[i], r.procs[i]))
            && r.policy == s.policy && r.time == s.time
            && r.idle == (if s.current.None? then s.idle + 1 else s.idle)
  {
    InvRunStage(s);
    if s.current.Some? {
      ViewExecution(s);
      ViewExpireQuantum(CheckIOBurst(ExecuteCurrent(s)));
    }
  }

  /** What one tick does to each process: admission, then one unit of CPU for the runner only. */
  function Ticked(s: State, i: nat): Proc
    requires Wf(s) && i < |s.procs|
  {
    var p := AfterAdmission(s.policy, s.time, s.procs[i]);
    if Runner(s) == Some(i) then AfterExecution(s.policy, s.time, p) else p
  }

  lemma ActiveSomewhere(s: State)
    requires Inv(s)
    ensures (s.current.None? && s.ready == []) <==> forall i | 0 <= i < |s.procs| :: !Active(s.procs[i])
  {
    assert forall i | 0 <= i < |s.procs| :: InPlace(s, i);
    if s.ready != [] {
      assert InPlace(s, s.ready[0]) && Active(s.procs[s.ready[0]]);
    }
    if s.current.Some? {
      assert InPlace(s, s.current.value) && Active(s.procs[s.current.value]);
    }
  }

  lemma ViewDispatched(s: State)
    requires Inv(s)
    ensures var a := Admitted(s); var d := Dispatched(s);
            && Inv(a) && Inv(d) && |a.procs| == |s.procs| && |d.procs| == |s.procs|
            && (forall i | 0 <= i < |s.procs| ::
                  && a.procs[i] == AfterAdmission(s.policy, s.time, s.procs[i])
                  && d.procs[i] == a.procs[i].(state := d.procs[i].state)
                  && Alike(a.procs[i], d.procs[i]))
            && (d.current.None? <==> forall i | 0 <= i < |s.procs| :: !Active(a.procs[i]))
            && (d.current.Some? ==> Active(a.procs[d.current.value]) && d.procs[d.current.value].state == Running)
            && d.policy == s.policy && d.time == s.time && d.idle == s.idle && d.gantt == s.gantt
  {
    hide DispatchStage, Admitted, AfterAdmission, Active, Alike, ProcOk;
    ViewAdmitted(s);
    var a := Admitted(s);
    ViewDispatchStage(a);
    ActiveSomewhere(a);
    var d := Dispatched(s);
    if d.current.Some? {
      assert InPlace(d, d.current.value);
    }
  }

  lemma {:induction false} ExecutionIgnoresPlace(policy: Policy, now: int, p: Proc, q: Proc)
    requires q == p.(state := q.state)
    ensures AfterExecution(policy, now, p) == AfterExecution(policy, now, q)
  {
    assert Execute(p, now, 1) == Execute(q, now, 1);
  }

  /** The clock changes waiting counters and the time, nothing else. */
  lemma ClockFrame(s: State)
    requires Wf(s)
    ensures var t := AdvanceClock(s);
            && |t.procs| == |s.procs| && t == s.(time := s.time + 1, procs := t.procs)
            && forall i | 0 <= i < |s.procs| :: t.procs[i] == s.procs[i].(waiting := t.procs[i].waiting)
  {
  }

  lemma ViewTick(s: State)
    requires Inv(s)
    ensures var t := Tick(s); var r := Runner(s);
            && Inv(t) && |t.procs| == |s.procs|
            && t.policy == s.policy && t.time == s.time + 1
            && (forall i | 0 <= i < |s.procs| :: Alike(Ticked(s, i), t.procs[i]))
            && (r.None? <==> forall i | 0 <= i < |s.procs| :: !Active(AfterAdmission(s.policy, s.time, s.procs[i])))
            && (r.Some? ==> r.value < |s.procs| && Active(AfterAdmission(s.policy, s.time, s.procs[r.value])))
            && t.idle == (if r.None? then s.idle + 1 else s.idle)
  {
    hide DispatchStage, Admitted, RunStage, AfterExecution, AfterAdmission, ProcOk, InPlace, LevelBounded, AdvanceClock;
    InvTick(s);
    ClockFrame(RunStage(Dispatched(s)));
    ViewDispatched(s);
    var d := Dispatched(s);
    ViewRunStage(d);
    forall i | 0 <= i < |s.procs|
      ensures Alike(Ticked(s, i), Tick(s).procs[i])
    {
      ExecutionIgnoresPlace(s.policy, s.time, Admitted(s).procs[i], d.procs[i]);
    }
  }

  /** A process on the CPU has work left and loses one unit of it; every other process loses none. */
  lemma TickSpends(s: State)
    requires Inv(s)
    ensures var t := Tick(s);
            |t.procs| == |s.procs| &&
            forall i | 0 <= i < |s.procs| ::
              && t.procs[i].burst == s.procs[i].burst
              && t.procs[i].remaining == (if Runner(s) == Some(i) then s.procs[i].remaining - 1 else s.procs[i].remaining)
              && (Runner(s) == Some(i) ==> s.procs[i].remaining >= 1)
  {
    hide Tick, Runner, AfterExecution, AfterAdmission;
    ViewTick(s);
    InvAdmittedProcs(s);
    forall i | 0 <= i < |s.procs|
      ensures var t := Tick(s);
              && t.procs[i].burst == s.procs[i].burst
              && t.procs[i].remaining == (if Runner(s) == Some(i) then s.procs[i].remaining - 1 else s.procs[i].remaining)
              && (Runner(s) == Some(i) ==> s.procs[i].remaining >= 1)
    {
      assert Alike(Ticked(s, i), Tick(s).procs[i]);
      AdmissionSpendsNothing(s.policy, s.time, s.procs[i]);
      ExecutionSpendsOne(s.policy, s.time, AfterAdmission(s.policy, s.time, s.procs[i]));
    }
  }

  lemma InvAdmittedProcs(s: State)
    requires Inv(s)
    ensures forall i | 0 <= i < |s.procs| :: ProcOk(AfterAdmission(s.policy, s.time, s.procs[i]))
  {
    hide Admitted, AfterAdmission, ProcOk;
    ViewAdmitted(s);
    var a := Admitted(s);
    forall i | 0 <= i < |s.procs|
      ensures ProcOk(AfterAdmission(s.policy, s.time, s.procs[i]))
    {
      assert ProcOk(a.procs[i]);
    }
  }

  lemma AdmissionSpendsNothing(policy: Policy, now: int, p: Proc)
    ensures AfterAdmission(policy, now, p).remaining == p.remaining
    ensures AfterAdmission(policy, now, p).burst == p.burst
  {
  }

  lemma ExecutionSpendsOne(policy: Policy, now: int, p: Proc)
    ensures ProcOk(p) && Active(p) ==> p.remaining >= 1 && AfterExecution(policy, now, p).remaining == p.remaining - 1
    ensures AfterExecution(policy, now, p).burst == p.burst
  {
  }

  lemma ClockKeepsCurrent(s: State)
    requires Wf(s)
    ensures AdvanceClock(s).current == s.current
  {
  }

  lemma RunnerBound(s: State)
    requires Inv(s)
    ensures |Tick(s).procs| == |s.procs|
    ensures Runner(s).Some? ==> Runner(s).value < |s.procs|
  {
    hide Tick, Runner, ProcOk, InPlace, LevelBounded, Ticked, Alike, AfterAdmission;
    ViewTick(s);
  }
}
