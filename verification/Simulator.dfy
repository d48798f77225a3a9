/** The simulator object: the queues, the clock and the logs that `executeTimeUnit` updates in place,
    proved to take exactly the steps of the engine's functions. */
module Simulators {
  import opened RandomWords
  import opened Processes
  import opened Policies
  import opened Engine
  import opened Invariants
  import opened Schedulers
  import Slices
  import Runs
  import Termination
  import Sums
  import ShortestFirst

  // ---------- Loops, part of the way ----------

  /** `CheckArrivals` after the first `n` processes. */
  ghost function ArrivedUpTo(s: State, n: nat): State
    requires Wf(s) && n <= |s.procs|
  {
    var q := Arriving(s.procs, s.time, n);
    s.(procs := seq(|s.procs|, i requires 0 <= i < |s.procs| =>
                    if i < n && Arrives(s.procs[i], s.time) then Engine.Admit(s.policy, s.procs[i]) else s.procs[i]),
       ready := s.ready + q,
       events := s.events + EventsOf(s.time, s.procs, q, Arrival))
  }

  ghost function AdmitAt(s: State, i: nat): State
    requires Wf(s) && i < |s.procs|
  {
    s.(procs := s.procs[i := Engine.Admit(s.policy, s.procs[i])],
       ready := s.ready + [i],
       events := s.events + [Event(s.time, s.procs[i].pid, Arrival)])
  }

  lemma ArrivedStep(s: State, n: nat)
    requires Wf(s) && n < |s.procs|
    ensures Wf(ArrivedUpTo(s, n)) && |ArrivedUpTo(s, n).procs| == |s.procs|
    ensures ArrivedUpTo(s, n).procs[n] == s.procs[n]
    ensures ArrivedUpTo(s, n + 1) ==
            if Arrives(s.procs[n], s.time) then AdmitAt(ArrivedUpTo(s, n), n) else ArrivedUpTo(s, n)
  {
  }

  lemma ArrivedTime(s: State, n: nat)
    requires Wf(s) && n <= |s.procs|
    ensures ArrivedUpTo(s, n).time == s.time
  {
  }

  lemma ArrivedEnds(s: State)
    requires Wf(s)
    ensures ArrivedUpTo(s, 0) == s
    ensures ArrivedUpTo(s, |s.procs|) == Engine.CheckArrivals(s)
  {
  }

  /** `TickIOQueue` after the first `n` blocked processes; the queue itself is replaced at the end. */
  ghost function CountedUpTo(s: State, n: nat): State
    requires Wf(s) && n <= |s.io|
  {
    var back := Returning(s.procs, s.io[..n]);
    s.(procs := seq(|s.procs|, i requires 0 <= i < |s.procs| =>
                    if i in s.io[..n] then CountDown(s.policy, s.procs[i]) else s.procs[i]),
       ready := s.ready + back,
       events := s.events + EventsOf(s.time, s.procs, back, IOComplete))
  }

  ghost function CountAt(s: State, i: nat): State
    requires Wf(s) && i < |s.procs|
  {
    var s1 := s.(procs := s.procs[i := CountDown(s.policy, s.procs[i])]);
    if Returns(s.procs[i]) then
      s1.(ready := s.ready + [i], events := s.events + [Event(s.time, s.procs[i].pid, IOComplete)])
    else s1
  }

  lemma CountedStep(s: State, n: nat)
    requires Wf(s) && n < |s.io| && NoDup(s.io)
    ensures Wf(CountedUpTo(s, n)) && |CountedUpTo(s, n).procs| == |s.procs|
    ensures CountedUpTo(s, n).procs[s.io[n]] == s.procs[s.io[n]]
    ensures CountedUpTo(s, n + 1) == CountAt(CountedUpTo(s, n), s.io[n])
    ensures StillBlocked(s.procs, s.io[..n + 1]) ==
            StillBlocked(s.procs, s.io[..n]) + if Returns(s.procs[s.io[n]]) then [] else [s.io[n]]
  {
    assert s.io[..n + 1][..n] == s.io[..n];
    assert s.io[..n + 1] == s.io[..n] + [s.io[n]];
    assert s.io[n] !in s.io[..n];
  }

  lemma CountedEnds(s: State)
    requires Wf(s)
    ensures CountedUpTo(s, 0) == s && StillBlocked(s.procs, s.io[..0]) == []
    ensures CountedUpTo(s, |s.io|).(io := StillBlocked(s.procs, s.io[..|s.io|])) == Engine.TickIOQueue(s)
  {
    assert s.io[..|s.io|] == s.io;
  }

  /** `AdvanceClock` after the first `n` waiting processes. */
  ghost function WaitedUpTo(s: State, n: nat): State
    requires Wf(s) && n <= |s.ready|
  {
    s.(procs := seq(|s.procs|, i requires 0 <= i < |s.procs| =>
                    if i in s.ready[..n] && CountsAsWaiting(s, i) then s.procs[i].(waiting := s.procs[i].waiting + 1)
                    else s.procs[i]))
  }

  lemma WaitedStep(s: State, n: nat)
    requires Wf(s) && n < |s.ready| && NoDup(s.ready)
    ensures var w := WaitedUpTo(s, n); var i := s.ready[n];
            && |w.procs| == |s.procs| && w.procs[i] == s.procs[i]
            && WaitedUpTo(s, n + 1) ==
               if CountsAsWaiting(s, i) then w.(procs := w.procs[i := w.procs[i].(waiting := w.procs[i].waiting + 1)]) else w
  {
    assert s.ready[..n + 1] == s.ready[..n] + [s.ready[n]];
    assert s.ready[n] !in s.ready[..n];
  }

  lemma WaitedEnds(s: State)
    requires Wf(s)
    ensures WaitedUpTo(s, 0) == s
    ensures WaitedUpTo(s, |s.ready|).(time := s.time + 1) == Engine.AdvanceClock(s)
  {
    assert s.ready[..|s.ready|] == s.ready;
  }

  lemma WaitedKeeps(s: State, n: nat)
    requires Wf(s) && n <= |s.ready|
    ensures var w := WaitedUpTo(s, n);
            && w.current == s.current && w.ready == s.ready && |w.procs| == |s.procs|
            && forall i | 0 <= i < |s.procs| :: w.procs[i].pid == s.procs[i].pid
  {
  }

  /** Queue entries are unique in every reachable state. */
  lemma InvPieces(s: State)
    requires Inv(s)
    ensures Wf(s) && NoDup(s.io) && NoDup(s.ready) && Inv(Engine.CheckArrivals(s))
    ensures Inv(Engine.TickIOQueue(s))
  {
    hide Engine.CheckArrivals, Engine.TickIOQueue;
    InvCheckArrivals(s);
    InvTickIOQueue(s);
  }

  /** `ScheduleNext` once process `i` has been picked. */
  ghost function ScheduleTo(s: State, i: nat): State
    requires Wf(s) && i < |s.procs|
  {
    var p := s.procs[i];
    var switched := s.current.Some? && s.procs[s.current.value].pid != p.pid;
    s.(ready := RemoveFirst(s.ready, i),
       switches := if switched then s.switches + 1 else s.switches,
       current := Some(i),
       procs := s.procs[i := p.(state := Running)],
       used := 0,
       events := s.events + [Event(s.time, p.pid, if p.started then Resume else Start)])
  }

  /** What `calculateMetrics` adds up: a figure of each process among the first `n`, for the completed ones only. */
  function CompletedShares(procs: seq<Proc>, amount: Proc -> int, n: nat): seq<int>
    requires n <= |procs|
  {
    seq(n, i requires 0 <= i < n => if procs[i].Complete() then amount(procs[i]) else 0)
  }

  lemma SharesStep(procs: seq<Proc>, amount: Proc -> int, n: nat)
    requires n < |procs|
    ensures Sums.Sum(CompletedShares(procs, amount, n + 1)) ==
            Sums.Sum(CompletedShares(procs, amount, n)) + if procs[n].Complete() then amount(procs[n]) else 0
  {
    var a := CompletedShares(procs, amount, n + 1);
    assert a[..n] == CompletedShares(procs, amount, n);
  }

  lemma WaitingsStep(s: State, n: nat)
    requires n < |s.procs|
    ensures Sums.Sum(ShortestFirst.Waitings(s)[..n + 1]) == Sums.Sum(ShortestFirst.Waitings(s)[..n]) + s.procs[n].waiting
  {
    var a := ShortestFirst.Waitings(s)[..n + 1];
    assert a[..n] == ShortestFirst.Waitings(s)[..n];
  }

  lemma NoShares(s: State)
    ensures forall amount :: CompletedShares(s.procs, amount, 0) == []
    ensures |ShortestFirst.Waitings(s)| == |s.procs|
  {
  }

  /** Once every process is complete nothing is left out of the totals. */
  lemma SharesWhenDone(s: State)
    requires Done(s)
    ensures CompletedShares(s.procs, (p: Proc) => p.turnaround, |s.procs|) == ShortestFirst.Turnarounds(s)
  {
  }

  lemma ExecuteAnyLevel(p: Proc, now: int)
    ensures Processes.Execute(p, now, 1) == Processes.Execute(p.(level := None), now, 1).(level := p.level)
  {
  }

  lemma InsertSorted(procs: seq<Proc>, k: nat, p: Proc)
    requires SortedByArrival(procs) && k <= |procs|
    requires k > 0 ==> procs[k - 1].arrival <= p.arrival
    requires forall j | k <= j < |procs| :: procs[j].arrival > p.arrival
    ensures SortedByArrival(procs[..k] + [p] + procs[k..])
  {
    var r := procs[..k] + [p] + procs[k..];
    forall i, j | 0 <= i < j < |r|
      ensures r[i].arrival <= r[j].arrival
    {
      assert r[i] == if i < k then procs[i] else if i == k then p else procs[i - 1];
      assert r[j] == if j < k then procs[j] else if j == k then p else procs[j - 1];
    }
  }

  lemma InsertedList(s: State, k: nat, p: Proc)
    requires Wf(s) && k <= |s.procs|
    ensures Inserted(s, k, p).procs == s.procs[..k] + [p] + s.procs[k..]
  {
  }

  /** Before the first tick a process added is just one more process to start from. */
  lemma InsertedInitial(policy: Policy, seed: Word, procs: seq<Proc>, k: nat, p: Proc)
    requires k <= |procs|
    ensures Inserted(Initial(policy, seed, procs), k, p) == Initial(policy, seed, procs[..k] + [p] + procs[k..])
  {
    assert Shifted([], k) == [];
  }

  lemma InsertMultiset(procs: seq<Proc>, k: nat, p: Proc)
    requires k <= |procs|
    ensures multiset(procs[..k] + [p] + procs[k..]) == multiset(procs) + multiset{p}
  {
    assert procs == procs[..k] + procs[k..];
  }

  lemma ResetAnyLevel(procs: seq<Proc>)
    ensures forall i | 0 <= i < |procs| :: ResetProc(procs[i]) == ResetProc(procs[i].(level := None))
  {
  }

  lemma ResetHasNoLevel(procs: seq<Proc>)
    ensures forall i | 0 <= i < |procs| :: ResetProc(procs[i]).level == None
  {
  }

  lemma BurstAnyLevel(p: Proc)
    ensures Fires(p) == Fires(p.(level := None))
    ensures TryBurst(p) == TryBurst(p.(level := None)).(level := p.level)
  {
  }

  // ---------- The object ----------

  class Simulator {
    const scheduler: Scheduler
    var processes: seq<Process>
    var readyQueue: seq<Process>
    var ioQueue: seq<Process>
    var currentProcess: Process?
    var currentTime: int
    var ganttChart: seq<GanttEntry>
    var events: seq<Event>
    var contextSwitches: int
    var totalIdleTime: int
    var timeQuantumUsed: int
    ghost var model: State

    /** `refs` holds the processes at the positions `q`. */
    ghost predicate Refers(refs: seq<Process>, q: seq<nat>)
      reads this`processes
    {
      |refs| == |q| && forall k | 0 <= k < |q| :: q[k] < |processes| && refs[k] == processes[q[k]]
    }

    ghost predicate Distinct()
      reads this`processes
    {
      forall i, j | 0 <= i < j < |processes| :: processes[i] != processes[j]
    }

    ghost predicate SameRecords()
      reads this`processes, this`model, processes, scheduler
    {
      |model.procs| == |processes| && forall i | 0 <= i < |processes| :: model.procs[i] == scheduler.ViewOf(processes[i])
    }

    ghost predicate SameQueues()
      reads this
    {
      && Refers(readyQueue, model.ready)
      && Refers(ioQueue, model.io)
      && (match model.current
          case None => currentProcess == null
          case Some(c) => c < |processes| && currentProcess == processes[c])
    }

    ghost predicate SameLogs()
      reads this
    {
      && currentTime == model.time && ganttChart == model.gantt && events == model.events
      && contextSwitches == model.switches && totalIdleTime == model.idle && timeQuantumUsed == model.used
    }

    ghost predicate SamePolicy()
      reads this`model, scheduler.rng
    {
      && scheduler.Ok() && scheduler.policy == model.policy
      && scheduler.rng.state == model.word && scheduler.rng.seed == model.seed
    }

    /** The object and the model state agree. */
    ghost predicate Coupled()
      reads this, processes, scheduler, scheduler.rng
    {
      Distinct() && SameRecords() && SameQueues() && SameLogs() && SamePolicy()
    }

    lemma CoupledWf()
      requires Coupled()
      ensures Wf(model) && |model.procs| == |processes|
      ensures Refers(readyQueue, model.ready) && Refers(ioQueue, model.io)
    {
    }

    /** `NewSimulator`, with a scheduler as its constructor leaves it. */
    constructor (scheduler: Scheduler)
      requires scheduler.Ok() && scheduler.rng.state == scheduler.rng.seed
      ensures Coupled() && model == Initial(scheduler.policy, scheduler.rng.seed, [])
      ensures this.scheduler == scheduler && processes == []
    {
      this.scheduler := scheduler;
      processes, readyQueue, ioQueue, currentProcess := [], [], [], null;
      currentTime, ganttChart, events := 0, [], [];
      contextSwitches, totalIdleTime, timeQuantumUsed := 0, 0, 0;
      model := Initial(scheduler.policy, scheduler.rng.seed, []);
    }

    lemma RecordAt(i: nat)
      requires Coupled() && i < |processes|
      ensures i < |model.procs|
      ensures var v := model.procs[i]; var p := processes[i];
              && v == scheduler.ViewOf(p)
              && v.pid == p.pid && v.arrival == p.arrivalTime && v.state == p.state && v.started == p.hasStarted
              && v.Complete() == p.IsComplete() && v.ioRemaining == p.ioRemaining
    {
      scheduler.ViewFields(processes[i]);
    }

    // ---------- Single updates, on the object and on the model state alike ----------

    method AddEvent(kind: EventKind, pid: int)
      requires Coupled()
      modifies this`events, this`model
      ensures Coupled() && model == old(model).(events := old(model).events + [Event(old(model).time, pid, kind)])
    {
      hide Scheduler.ViewOf;
      events := events + [Event(currentTime, pid, kind)];
      model := model.(events := events);
    }

    method AddGanttEntry(pid: int, start: int, end: int)
      requires Coupled()
      modifies this`ganttChart, this`model
      ensures Coupled() && model == old(model).(gantt := AddGantt(old(model).gantt, pid, start, end))
    {
      hide Scheduler.ViewOf;
      ghost var g := AddGantt(ganttChart, pid, start, end);
      model := model.(gantt := g);
      if |ganttChart| > 0 {
        var last := ganttChart[|ganttChart| - 1];
        if last.pid == pid && last.end == start {
          ganttChart := ganttChart[|ganttChart| - 1 := last.(end := end)];
          return;
        }
      }
      ganttChart := ganttChart + [GanttEntry(pid, start, end)];
    }

    method SetState(ghost i: nat, p: Process, st: ProcState)
      requires Coupled() && i < |processes| && p == processes[i]
      modifies this`model, p`state
      ensures Coupled() && i < |old(model).procs|
      ensures model == old(model).(procs := old(model).procs[i := old(model).procs[i].(state := st)])
    {
      p.state := st;
      model := model.(procs := model.procs[i := model.procs[i].(state := st)]);
    }

    method SetIORemaining(ghost i: nat, p: Process, ticks: int)
      requires Coupled() && i < |processes| && p == processes[i]
      modifies this`model, p`ioRemaining
      ensures Coupled() && i < |old(model).procs| && p.ioRemaining == ticks
      ensures model == old(model).(procs := old(model).procs[i := old(model).procs[i].(ioRemaining := ticks)])
    {
      p.ioRemaining := ticks;
      model := model.(procs := model.procs[i := model.procs[i].(ioRemaining := ticks)]);
    }

    /** The scheduler's entry for one process changes to `entry`. */
    ghost method NoteLevel(i: nat, before: map<Process, int>, entry: Option<int>)
      requires Distinct() && SameQueues() && SameLogs() && SamePolicy() && i < |processes| == |model.procs|
      requires scheduler.levels == SetEntry(before, processes[i], entry)
      requires forall j | 0 <= j < |processes| ::
                 model.procs[j] == processes[j].View(if processes[j] in before then Some(before[processes[j]]) else None)
      modifies this`model
      ensures Coupled() && model == old(model).(procs := old(model).procs[i := old(model).procs[i].(level := entry)])
    {
      model := model.(procs := model.procs[i := model.procs[i].(level := entry)]);
    }

    method Register(ghost i: nat, p: Process)
      requires Coupled() && i < |processes| && p == processes[i]
      modifies this`model, scheduler`levels
      ensures Coupled() && i < |old(model).procs|
      ensures var m := old(model); model == m.(procs := m.procs[i := m.procs[i].(level := Enlist(m.policy, m.procs[i]))])
    {
      hide Enlist;
      ghost var before := scheduler.levels;
      scheduler.AddProcess(p);
      NoteLevel(i, before, Enlist(model.policy, model.procs[i]));
    }

    method Unregister(ghost i: nat, p: Process)
      requires Coupled() && i < |processes| && p == processes[i]
      modifies this`model, scheduler`levels
      ensures Coupled() && i < |old(model).procs|
      ensures var m := old(model); model == m.(procs := m.procs[i := m.procs[i].(level := Delist(m.policy, m.procs[i]))])
    {
      hide Delist;
      ghost var before := scheduler.levels;
      scheduler.RemoveProcess(p);
      NoteLevel(i, before, Delist(model.policy, model.procs[i]));
    }

    method NotifyExpiry(ghost i: nat, p: Process)
      requires Coupled() && i < |processes| && p == processes[i]
      modifies this`model, scheduler`levels
      ensures Coupled() && i < |old(model).procs|
      ensures var m := old(model); model == m.(procs := m.procs[i := m.procs[i].(level := Demote(m.policy, m.procs[i]))])
    {
      hide Demote;
      ghost var before := scheduler.levels;
      scheduler.OnQuantumExpired(p);
      NoteLevel(i, before, Demote(model.policy, model.procs[i]));
    }

    method Enqueue(ghost i: nat, p: Process)
      requires Coupled() && i < |processes| && p == processes[i]
      modifies this`model, this`readyQueue
      ensures Coupled() && model == old(model).(ready := old(model).ready + [i])
    {
      hide Scheduler.ViewOf;
      readyQueue := readyQueue + [p];
      model := model.(ready := model.ready + [i]);
    }

    method Block(ghost i: nat, p: Process)
      requires Coupled() && i < |processes| && p == processes[i]
      modifies this`model, this`ioQueue
      ensures Coupled() && model == old(model).(io := old(model).io + [i])
    {
      hide Scheduler.ViewOf;
      ioQueue := ioQueue + [p];
      model := model.(io := model.io + [i]);
    }

    method SetIOQueue(live: seq<Process>, ghost q: seq<nat>)
      requires Coupled() && Refers(live, q)
      modifies this`ioQueue, this`model
      ensures Coupled() && model == old(model).(io := q) && ioQueue == live
    {
      hide Scheduler.ViewOf;
      ioQueue := live;
      model := model.(io := q);
    }

    method SetReadyQueue(rest: seq<Process>, ghost q: seq<nat>)
      requires Coupled() && Refers(rest, q)
      modifies this`readyQueue, this`model
      ensures Coupled() && model == old(model).(ready := q)
    {
      hide Scheduler.ViewOf;
      readyQueue := rest;
      model := model.(ready := q);
    }

    method CountSwitch()
      requires Coupled()
      modifies this`model, this`contextSwitches
      ensures Coupled() && model == old(model).(switches := old(model).switches + 1)
    {
      hide Scheduler.ViewOf;
      contextSwitches := contextSwitches + 1;
      model := model.(switches := contextSwitches);
    }

    method SetQuantumUsed(ticks: int)
      requires Coupled()
      modifies this`model, this`timeQuantumUsed
      ensures Coupled() && model == old(model).(used := ticks) && timeQuantumUsed == ticks
    {
      hide Scheduler.ViewOf;
      timeQuantumUsed := ticks;
      model := model.(used := ticks);
    }

    method SetCurrent(ghost i: nat, p: Process)
      requires Coupled() && i < |processes| && p == processes[i]
      modifies this`currentProcess, this`model
      ensures Coupled() && model == old(model).(current := Some(i)) && currentProcess == p
    {
      hide Scheduler.ViewOf;
      currentProcess := p;
      model := model.(current := Some(i));
    }

    method ClearCurrent()
      requires Coupled()
      modifies this`currentProcess, this`model
      ensures Coupled() && model == old(model).(current := None) && currentProcess == null
    {
      hide Scheduler.ViewOf;
      currentProcess := null;
      model := model.(current := None);
    }

    lemma CurrentAt()
      requires Coupled()
      ensures currentProcess == null <==> model.current.None?
      ensures currentProcess != null ==> model.current.value < |processes| && currentProcess == processes[model.current.value]
    {
      hide Scheduler.ViewOf;
    }

    // ---------- Arrivals ----------

    method Admit(ghost i: nat, p: Process)
      requires Coupled() && i < |processes| && p == processes[i]
      modifies this`readyQueue, this`events, this`model, p`state, scheduler`levels
      ensures Wf(old(model)) && Coupled() && model == AdmitAt(old(model), i)
    {
      hide Simulator.Coupled, Scheduler.ViewOf;
      CoupledWf();
      RecordAt(i);
      SetState(i, p, Ready);
      Enqueue(i, p);
      Register(i, p);
      AddEvent(Arrival, p.pid);
    }

    method CheckArrivals()
      requires Coupled()
      modifies this`readyQueue, this`events, this`model, processes, scheduler`levels
      ensures Wf(old(model)) && Coupled() && model == Engine.CheckArrivals(old(model))
    {
      hide Enlist, ArrivedUpTo, AdmitAt, Engine.CheckArrivals, Simulator.Coupled, Scheduler.ViewOf;
      CoupledWf();
      ghost var m := model;
      ArrivedEnds(m);
      for i := 0 to |processes|
        invariant Coupled() && |m.procs| == |processes|
        invariant model == ArrivedUpTo(m, i)
      {
        ArrivedStep(m, i);
        RecordAt(i);
        TimeIs();
        ArrivedTime(m, i);
        var p := processes[i];
        if p.arrivalTime <= currentTime && p.state == New {
          Admit(i, p);
        }
      }
    }

    lemma TimeIs()
      requires Coupled()
      ensures currentTime == model.time && timeQuantumUsed == model.used
    {
      hide Scheduler.ViewOf;
    }

    // ---------- I/O countdown ----------

    method CountDownOne(ghost i: nat, p: Process) returns (back: bool)
      requires Coupled() && i < |processes| && p == processes[i]
      modifies this`readyQueue, this`events, this`model, p`state, p`ioRemaining, scheduler`levels
      ensures Wf(old(model)) && Coupled() && model == CountAt(old(model), i) && back == Returns(old(model).procs[i])
    {
      hide Simulator.Coupled, Scheduler.ViewOf;
      CoupledWf();
      RecordAt(i);
      SetIORemaining(i, p, p.ioRemaining - 1);
      back := p.ioRemaining <= 0;
      if back {
        SetIORemaining(i, p, 0);
        SetState(i, p, Ready);
        Enqueue(i, p);
        Register(i, p);
        AddEvent(IOComplete, p.pid);
      }
    }

    method TickIOQueue()
      requires Coupled() && NoDup(model.io)
      modifies this`readyQueue, this`ioQueue, this`events, this`model, processes, scheduler`levels
      ensures Wf(old(model)) && Coupled() && model == Engine.TickIOQueue(old(model))
    {
      hide CountedUpTo, CountAt, Engine.TickIOQueue, Simulator.Coupled, StillBlocked;
      CoupledWf();
      ghost var m := model;
      CountedEnds(m);
      var live: seq<Process> := [];
      for k := 0 to |ioQueue|
        invariant Coupled() && |m.procs| == |processes| && ioQueue == old(ioQueue) && Refers(ioQueue, m.io)
        invariant model == CountedUpTo(m, k)
        invariant Refers(live, StillBlocked(m.procs, m.io[..k]))
      {
        CountedStep(m, k);
        CoupledWf();
        var p := ioQueue[k];
        var back := CountDownOne(m.io[k], p);
        if !back {
          live := live + [p];
        }
      }
      SetIOQueue(live, StillBlocked(m.procs, m.io[..|m.io|]));
    }

    // ---------- Dispatch ----------

    lemma DistinctProcesses()
      requires Coupled()
      ensures Distinct()
    {
    }

    /** Take the first occurrence of `next` out of the ready queue. */
    method RemoveFromReady(next: Process, ghost i: nat)
      requires Coupled() && i < |processes| && next == processes[i] && i in model.ready
      modifies this`readyQueue, this`model
      ensures Coupled() && model == old(model).(ready := RemoveFirst(old(model).ready, i))
    {
      hide Simulator.Coupled, RemoveFirst, Scheduler.ViewOf;
      CoupledWf();
      DistinctProcesses();
      ghost var q := model.ready;
      assert q[..|q|] == q;
      for k := 0 to |readyQueue|
        invariant readyQueue == old(readyQueue) && model == old(model)
        invariant i !in q[..k]
      {
        assert q[k] == i <==> readyQueue[k] == next;
        if readyQueue[k] == next {
          CutReady(i, k);
          return;
        }
        assert q[..k + 1] == q[..k] + [q[k]];
      }
      // `next` came from the queue, so the scan has found it.
      assert false;
    }

    method CutReady(ghost i: nat, k: nat)
      requires Coupled() && k < |readyQueue| == |model.ready| && model.ready[k] == i && i !in model.ready[..k]
      modifies this`readyQueue, this`model
      ensures Coupled() && model == old(model).(ready := RemoveFirst(old(model).ready, i))
    {
      hide Simulator.Coupled, RemoveFirst, Scheduler.ViewOf;
      CoupledWf();
      ghost var q := model.ready;
      Slices.RemoveFirstSplits(q, i, k);
      SetReadyQueue(readyQueue[..k] + readyQueue[k + 1..], q[..k] + q[k + 1..]);
    }

    lemma ReadyShows()
      requires Coupled()
      ensures Shows(model.procs, model.ready, scheduler.Views(readyQueue))
      ensures readyQueue == [] <==> model.ready == []
    {
      hide Scheduler.ViewOf;
    }

    lemma ReadyLevels()
      requires Coupled() && Inv(model)
      ensures model.policy.MLFQ? ==> forall p | p in readyQueue :: scheduler.LevelEntry(p) < MLFQ_LEVELS
    {
      hide Scheduler.ViewOf, Scheduler.LevelEntry, LevelOf, ProcOk, InPlace;
      if model.policy.MLFQ? {
        forall k | 0 <= k < |readyQueue|
          ensures scheduler.LevelEntry(readyQueue[k]) < MLFQ_LEVELS
        {
          var i := model.ready[k];
          scheduler.ViewFields(readyQueue[k]);
          assert LevelBounded(model.policy, model.procs[i]);
        }
      }
    }

    /** Ask the scheduler; the random source moves on. */
    method PickNext() returns (next: Process, ghost i: nat)
      requires Coupled() && Inv(model) && readyQueue != []
      modifies this`model, scheduler.rng
      ensures var m := old(model);
              && Wf(m) && m.ready != []
              && i == Pick(m.policy, m.time, m.procs, m.ready, m.word)
              && model == m.(word := PickWord(m.policy, m.procs, m.ready, m.word))
      ensures Coupled() && i < |processes| && next == processes[i]
    {
      hide Pick, PickWord, Inv, PickAt, WordAt, Shows, Scheduler.ViewOf;
      CoupledWf();
      ReadyShows();
      ReadyLevels();
      ghost var views := scheduler.Views(readyQueue);
      PickByPosition(model.policy, model.time, model.procs, model.ready, views, model.word);
      i := Pick(model.policy, model.time, model.procs, model.ready, model.word);
      var n := scheduler.Schedule(readyQueue, currentTime);
      next := n;
      model := model.(word := PickWord(model.policy, model.procs, model.ready, model.word));
    }

    method MoveToCpu(ghost i: nat, next: Process)
      requires Coupled() && i < |processes| && next == processes[i] && i in model.ready
      modifies this`readyQueue, this`contextSwitches, this`currentProcess, this`timeQuantumUsed, this`events, this`model, next`state
      ensures Wf(old(model)) && Coupled() && model == ScheduleTo(old(model), i)
    {
      hide Simulator.Coupled, RemoveFirst, Scheduler.ViewOf;
      CoupledWf();
      RecordAt(i);
      CurrentAt();
      if currentProcess != null {
        RecordAt(model.current.value);
      }
      RemoveFromReady(next, i);
      if currentProcess != null && currentProcess.pid != next.pid {
        CountSwitch();
      }
      Occupy(i, next);
    }

    method Occupy(ghost i: nat, next: Process)
      requires Coupled() && i < |processes| && next == processes[i]
      modifies this`currentProcess, this`timeQuantumUsed, this`events, this`model, next`state
      ensures Coupled() && i < |old(model).procs|
      ensures var m := old(model); var p := m.procs[i];
              model == m.(current := Some(i), procs := m.procs[i := p.(state := Running)], used := 0,
                          events := m.events + [Event(m.time, p.pid, if p.started then Resume else Start)])
    {
      hide Simulator.Coupled, Scheduler.ViewOf;
      RecordAt(i);
      var wasStarted := next.hasStarted;
      SetCurrent(i, next);
      SetState(i, next, Running);
      SetQuantumUsed(0);
      AddEvent(if wasStarted then Resume else Start, next.pid);
    }

    method ScheduleNext()
      requires Coupled() && Inv(model)
      modifies this`readyQueue, this`contextSwitches, this`currentProcess, this`timeQuantumUsed, this`events, this`model, processes,
        scheduler.rng
      ensures Wf(old(model)) && Coupled() && model == Engine.ScheduleNext(old(model))
    {
      hide Pick, PickWord, ProcOk, InPlace, RemoveFirst, Simulator.Coupled;
      CoupledWf();
      if |readyQueue| == 0 {
        ClearCurrent();
        return;
      }
      var next, i := PickNext();
      MoveToCpu(i, next);
    }

    method PreemptCurrent()
      requires Coupled() && currentProcess != null
      modifies this`readyQueue, this`contextSwitches, this`currentProcess, this`events, this`model, processes
      ensures Wf(old(model)) && Coupled() && model == Engine.PreemptCurrent(old(model))
    {
      hide Simulator.Coupled, Scheduler.ViewOf;
      CoupledWf();
      CurrentAt();
      ghost var c := model.current.value;
      var p := currentProcess;
      RecordAt(c);
      AddEvent(Preempt, p.pid);
      CountSwitch();
      SetState(c, p, Ready);
      Enqueue(c, p);
      ClearCurrent();
    }

    method ShouldPreempt() returns (b: bool)
      requires Coupled() && currentProcess != null && Inv(model)
      ensures Wf(model) && model.current.Some?
      ensures b == Preempts(model.policy, model.time, model.procs, model.current.value, model.ready)
    {
      hide Preempts, PreemptsAt, Scheduler.ViewOf, ProcOk, InPlace;
      CoupledWf();
      CurrentAt();
      ReadyShows();
      ghost var c := model.current.value;
      WeightAt(c);
      PreemptsByPosition(model.policy, model.time, model.procs, c, model.ready, scheduler.Views(readyQueue));
      b := scheduler.Preempt(currentProcess, readyQueue, currentTime);
    }

    lemma WeightAt(i: nat)
      requires Coupled() && Inv(model) && i < |processes|
      ensures processes[i].weight >= 1
    {
      hide InPlace;
      scheduler.ViewFields(processes[i]);
      assert ProcOk(model.procs[i]);
    }

    // ---------- Execution ----------

    /** `executeProcess(1)`. */
    method ExecuteProcess()
      requires Coupled() && currentProcess != null && Inv(model)
      modifies this, processes, scheduler`levels
      ensures Wf(old(model)) && old(model).current.Some? && Coupled()
      ensures processes == old(processes)
      ensures model == ExecuteCurrent(old(model)).(used := old(model).used)
    {
      hide Simulator.Coupled, Scheduler.ViewOf, ProcOk, InPlace, Delist;
      CoupledWf();
      CurrentAt();
      ghost var c := model.current.value;
      var p := currentProcess;
      WeightAt(c);
      TimeIs();
      var startTime := currentTime;
      ExecuteRecord(c, p);
      RecordAt(c);
      AddGanttEntry(p.pid, startTime, startTime + 1);
      if p.IsComplete() {
        AddEvent(Complete, p.pid);
        Unregister(c, p);
        ClearCurrent();
      }
    }

    method ExecuteRecord(ghost i: nat, p: Process)
      requires Coupled() && i < |processes| && p == processes[i] && p.weight >= 1
      modifies this`model, p
      ensures Coupled() && i < |old(model).procs|
      ensures model == old(model).(procs := old(model).procs[i := Processes.Execute(old(model).procs[i], old(model).time, 1)])
    {
      hide Processes.Execute;
      ghost var v := model.procs[i];
      scheduler.ViewAnyLevel(p);
      p.Execute(currentTime, 1);
      scheduler.ViewAnyLevel(p);
      ExecuteAnyLevel(v, model.time);
      model := model.(procs := model.procs[i := Processes.Execute(model.procs[i], model.time, 1)]);
    }

    // ---------- Starting an I/O burst ----------

    /** Skip the bursts that have fired; start the next one if its CPU time is reached. */
    method CheckIOBurst()
      requires Coupled() && Inv(model)
      modifies this, processes
      ensures Wf(old(model)) && Coupled() && processes == old(processes) && model == Engine.CheckIOBurst(old(model))
    {
      hide Simulator.Coupled, Scheduler.ViewOf, ProcOk, InPlace, Fires, StartBurst, NextBurst;
      CoupledWf();
      CurrentAt();
      if currentProcess == null {
        return;
      }
      ghost var c := model.current.value;
      RecordAt(c);
      var p := currentProcess;
      if p.IsComplete() {
        return;
      }
      var fired := ScanBursts(c, p);
      if fired {
        RecordAt(c);
        Block(c, p);
        AddEvent(IOStart, p.pid);
        ClearCurrent();
        SetQuantumUsed(0);
      }
    }

    method ScanBursts(ghost i: nat, p: Process) returns (fired: bool)
      requires Coupled() && i < |processes| && p == processes[i]
      modifies this`model, p
      ensures Coupled() && i < |old(model).procs|
      ensures fired == Fires(old(model).procs[i])
      ensures model == old(model).(procs := old(model).procs[i := TryBurst(old(model).procs[i])])
    {
      hide TryBurst, Fires;
      ghost var v := model.procs[i];
      scheduler.ViewAnyLevel(p);
      fired := p.TryBurst();
      scheduler.ViewAnyLevel(p);
      BurstAnyLevel(v);
      model := model.(procs := model.procs[i := TryBurst(model.procs[i])]);
    }

    // ---------- Quantum expiry ----------

    method ExpireQuantum()
      requires Coupled() && Inv(model)
      modifies this, processes, scheduler`levels, scheduler.rng
      ensures Wf(old(model)) && Coupled() && processes == old(processes) && model == Engine.ExpireQuantum(old(model))
    {
      hide Simulator.Coupled, Scheduler.ViewOf, ProcOk, InPlace, Policies.QuantumFor, Demote, Engine.ScheduleNext;
      CoupledWf();
      CurrentAt();
      TimeIs();
      var timeQuantum := 0;
      if currentProcess != null {
        RecordAt(model.current.value);
        QuantumOk(model.current.value);
        timeQuantum := scheduler.QuantumFor(currentProcess);
        PolicyIs();
      }
      if timeQuantum > 0 && timeQuantumUsed >= timeQuantum && currentProcess != null {
        if !currentProcess.IsComplete() {
          InvRequeue(model);
          RequeueExpired();
          ScheduleNext();
        }
      }
    }

    lemma PolicyIs()
      requires Coupled()
      ensures scheduler.policy == model.policy
    {
    }

    lemma QuantumOk(i: nat)
      requires Coupled() && Inv(model) && i < |processes|
      ensures scheduler.policy.MLFQ? ==> 0 <= scheduler.LevelEntry(processes[i])
    {
      hide ProcOk, InPlace;
      scheduler.ViewFields(processes[i]);
      assert LevelBounded(model.policy, model.procs[i]);
    }

    method RequeueExpired()
      requires Coupled() && currentProcess != null
      modifies this, processes, scheduler`levels
      ensures Wf(old(model)) && old(model).current.Some? && Coupled() && processes == old(processes)
      ensures model == Requeue(old(model))
    {
      hide Simulator.Coupled, Scheduler.ViewOf, Demote;
      CoupledWf();
      CurrentAt();
      ghost var c := model.current.value;
      var expired := currentProcess;
      RecordAt(c);
      NotifyExpiry(c, expired);
      AddEvent(QuantumExpire, expired.pid);
      CountSwitch();
      SetState(c, expired, Ready);
      Enqueue(c, expired);
      ClearCurrent();
      SetQuantumUsed(0);
    }

    // ---------- The clock ----------

    method CountIdle()
      requires Coupled()
      modifies this`totalIdleTime, this`model
      ensures Coupled() && model == old(model).(idle := old(model).idle + 1)
    {
      hide Scheduler.ViewOf;
      totalIdleTime := totalIdleTime + 1;
      model := model.(idle := totalIdleTime);
    }

    method IdleTick()
      requires Coupled()
      modifies this`totalIdleTime, this`ganttChart, this`model
      ensures Wf(old(model)) && Coupled() && model == Engine.IdleTick(old(model))
    {
      hide Simulator.Coupled;
      CoupledWf();
      CountIdle();
      TimeIs();
      AddGanttEntry(IDLE_PID, currentTime, currentTime + 1);
    }

    method CountWaiting(ghost i: nat, p: Process)
      requires Coupled() && i < |processes| && p == processes[i]
      modifies this`model, p`waitingTime
      ensures Coupled() && i < |old(model).procs|
      ensures model == old(model).(procs := old(model).procs[i := old(model).procs[i].(waiting := old(model).procs[i].waiting + 1)])
    {
      p.waitingTime := p.waitingTime + 1;
      model := model.(procs := model.procs[i := model.procs[i].(waiting := p.waitingTime)]);
    }

    method IncrementTime()
      requires Coupled()
      modifies this`currentTime, this`model
      ensures Coupled() && model == old(model).(time := old(model).time + 1)
    {
      hide Scheduler.ViewOf;
      currentTime := currentTime + 1;
      model := model.(time := currentTime);
    }

    /** The clock moves and every process still in the ready queue has waited one tick more. */
    method AdvanceClock()
      requires Coupled() && NoDup(model.ready)
      modifies this`currentTime, this`model, processes
      ensures Wf(old(model)) && Coupled() && model == Engine.AdvanceClock(old(model))
    {
      hide Simulator.Coupled, WaitedUpTo, Scheduler.ViewOf;
      CoupledWf();
      ghost var m := model;
      WaitedEnds(m);
      IncrementTime();
      for k := 0 to |readyQueue|
        invariant Coupled() && |m.procs| == |processes| && Refers(readyQueue, m.ready)
        invariant model == WaitedUpTo(m, k).(time := m.time + 1)
      {
        WaitedStep(m, k);
        WaitedKeeps(m, k);
        CurrentAt();
        ghost var i := m.ready[k];
        RecordAt(i);
        if currentProcess != null {
          RecordAt(model.current.value);
        }
        assert i in m.ready;
        var p := readyQueue[k];
        if p.state == Ready && (currentProcess == null || p.pid != currentProcess.pid) {
          CountWaiting(i, p);
        }
      }
    }

    // ---------- One tick ----------

    method ExecuteTimeUnit()
      requires Coupled() && Inv(model)
      modifies this, processes, scheduler`levels, scheduler.rng
      ensures Wf(old(model)) && Coupled() && processes == old(processes)
      ensures model == Tick(old(model)) && Inv(model)
    {
      hide Simulator.Coupled, Inv, Engine.CheckArrivals, Engine.TickIOQueue, Engine.ScheduleNext, Engine.PreemptCurrent,
        ExecuteCurrent,
        Engine.CheckIOBurst, Engine.ExpireQuantum, Engine.IdleTick, Engine.AdvanceClock, Preempts, Scheduler.ViewOf;
      InvTick(model);
      InvPieces(model);
      CheckArrivals();
      InvPieces(model);
      TickIOQueue();
      DispatchStep();
      InvPieces(model);
      RunStep();
      InvPieces(model);
      AdvanceClock();
    }

    method DispatchStep()
      requires Coupled() && Inv(model)
      modifies this, processes, scheduler.rng
      ensures Wf(old(model)) && Coupled() && processes == old(processes)
      ensures model == DispatchStage(old(model)) && Inv(model)
    {
      hide Simulator.Coupled, Inv, Engine.ScheduleNext, Engine.PreemptCurrent, Preempts, Scheduler.ViewOf;
      CoupledWf();
      CurrentAt();
      InvDispatchStage(model);
      if currentProcess != null {
        RecordAt(model.current.value);
      }
      if currentProcess == null || currentProcess.IsComplete() {
        ScheduleNext();
      } else {
        var preempt := ShouldPreempt();
        if preempt {
          InvPreemptCurrent(model);
          PreemptCurrent();
          ScheduleNext();
        }
      }
    }

    method RunStep()
      requires Coupled() && Inv(model)
      modifies this, processes, scheduler`levels, scheduler.rng
      ensures Wf(old(model)) && Coupled() && processes == old(processes)
      ensures model == RunStage(old(model)) && Inv(model)
    {
      hide Simulator.Coupled, Inv, Engine.CheckIOBurst, Engine.ExpireQuantum, Engine.IdleTick, Scheduler.ViewOf;
      CoupledWf();
      CurrentAt();
      InvRunStage(model);
      if currentProcess != null {
        InvExecuteCurrent(model);
        InvCheckIOBurst(ExecuteCurrent(model));
        ExecuteProcess();
        TimeIs();
        SetQuantumUsed(timeQuantumUsed + 1);
        CheckIOBurst();
        ExpireQuantum();
      } else {
        IdleTick();
      }
    }

    method IsComplete() returns (done: bool)
      requires Coupled()
      ensures done == Done(model)
    {
      hide Simulator.Coupled, Scheduler.ViewOf;
      CoupledWf();
      for i := 0 to |processes|
        invariant forall j | 0 <= j < i :: model.procs[j].Complete()
      {
        RecordAt(i);
        if !processes[i].IsComplete() {
          return false;
        }
      }
      return true;
    }

    /** The integer totals behind the averages: turnaround and response over the completed processes, waiting over all. */
    method CalculateMetrics() returns (completed: int, totalTurnaround: int, totalWaiting: int, totalResponse: int)
      requires Coupled()
      ensures completed == Sums.Sum(CompletedShares(model.procs, (p: Proc) => 1, |model.procs|))
      ensures totalTurnaround == Sums.Sum(CompletedShares(model.procs, (p: Proc) => p.turnaround, |model.procs|))
      ensures totalResponse == Sums.Sum(CompletedShares(model.procs, (p: Proc) => p.response, |model.procs|))
      ensures totalWaiting == Sums.Sum(ShortestFirst.Waitings(model))
      ensures Done(model) ==> totalTurnaround == Sums.Sum(ShortestFirst.Turnarounds(model))
    {
      hide Simulator.Coupled, Scheduler.ViewOf, CompletedShares, ShortestFirst.Waitings, ShortestFirst.Turnarounds, Done;
      CoupledWf();
      ghost var one, turnaround, response := (p: Proc) => 1, (p: Proc) => p.turnaround, (p: Proc) => p.response;
      ghost var procs := model.procs;
      completed, totalTurnaround, totalWaiting, totalResponse := 0, 0, 0, 0;
      NoShares(model);
      for i := 0 to |processes|
        invariant completed == Sums.Sum(CompletedShares(procs, one, i))
        invariant totalTurnaround == Sums.Sum(CompletedShares(procs, turnaround, i))
        invariant totalResponse == Sums.Sum(CompletedShares(procs, response, i))
        invariant |ShortestFirst.Waitings(model)| == |processes| && totalWaiting == Sums.Sum(ShortestFirst.Waitings(model)[..i])
      {
        FiguresAt(i);
        SharesStep(procs, one, i);
        SharesStep(procs, turnaround, i);
        SharesStep(procs, response, i);
        WaitingsStep(model, i);
        var p := processes[i];
        if p.IsComplete() {
          completed := completed + 1;
          totalTurnaround := totalTurnaround + p.turnaroundTime;
          totalWaiting := totalWaiting + p.waitingTime;
          totalResponse := totalResponse + p.responseTime;
        } else {
          totalWaiting := totalWaiting + p.waitingTime;
        }
      }
      assert ShortestFirst.Waitings(model)[..|processes|] == ShortestFirst.Waitings(model);
      if Done(model) {
        SharesWhenDone(model);
      }
    }

    lemma FiguresAt(i: nat)
      requires Coupled() && i < |processes|
      ensures i < |model.procs|
      ensures var v := model.procs[i]; var p := processes[i];
              && v.Complete() == p.IsComplete() && v.turnaround == p.turnaroundTime && v.waiting == p.waitingTime
              && v.response == p.responseTime
    {
    }

    /** The ticks of `run`: execute one time unit, stop when every process is complete. The loop ends, within
        the outlook of the state it starts from. */
    method RunUntilComplete(ghost procs: seq<Proc>) returns (ghost n: nat)
      requires Coupled() && Runs.OnTrack(procs, model)
      modifies this, processes, scheduler`levels, scheduler.rng
      ensures Coupled() && Runs.OnTrack(procs, model) && Done(model)
      ensures Runs.OnTrack(procs, old(model)) && model == Run(old(model), n)
      ensures n <= 1 || n <= Termination.Outlook(procs, old(model))
    {
      hide Tick, Done, Simulator.Coupled, Termination.Outlook, Scheduler.ViewOf, ProcOk, InPlace, ResetProc;
      ghost var m := model;
      n := 0;
      var done := false;
      Termination.OutlookNonNegative(procs, m);
      while !done
        invariant Coupled() && Runs.OnTrack(procs, model) && model == Run(m, n) && processes == old(processes)
        invariant if done then Done(model) else n == 0 || !Done(model)
        invariant done || Termination.Outlook(procs, model) <= Termination.Outlook(procs, m) - n
        invariant n <= 1 || n <= Termination.Outlook(procs, m)
        invariant done || Termination.Outlook(procs, model) >= 0
        decreases if done then 0 else Termination.Outlook(procs, model) + 1
      {
        ghost var before := model;
        if Done(before) {
          Termination.DoneStays(procs, before);
        } else {
          Termination.OutlookFalls(procs, before);
        }
        Runs.OnTrackTick(procs, before);
        Termination.OutlookNonNegative(procs, Tick(before));
        ExecuteTimeUnit();
        n := n + 1;
        done := IsComplete();
      }
    }

    // ---------- Before and between runs ----------

    /** At any time: a copy joins the list, which stays sorted by arrival time. Where it lands among equal arrival
        times is left open, as it is by an unstable sort. */
    method AddProcess(p: Process) returns (ghost k: nat)
      requires Coupled() && SortedByArrival(model.procs)
      modifies this`processes, this`model
      ensures Coupled() && SortedByArrival(model.procs)
      ensures Wf(old(model)) && k <= |old(model).procs| && model == Inserted(old(model), k, p.View(None))
      ensures multiset(model.procs) == multiset(old(model).procs) + multiset{p.View(None)}
      ensures var m := old(model); m == Initial(m.policy, m.seed, m.procs) ==> model == Initial(m.policy, m.seed, model.procs)
    {
      hide Simulator.Coupled, Process.View, SortedByArrival, Scheduler.ViewOf, Shifted, Inserted, Initial;
      ghost var m := model;
      var clone := new Process.Clone(p);
      ghost var v := p.View(None);
      CoupledWf();
      var place := FindPosition(clone.arrivalTime);
      k := place;
      ArrivalIs(p, clone);
      InsertSorted(model.procs, k, v);
      InsertMultiset(model.procs, k, v);
      InsertedList(m, k, v);
      InsertProcess(place, clone);
      if m == Initial(m.policy, m.seed, m.procs) {
        InsertedInitial(m.policy, m.seed, m.procs, k, v);
      }
    }

    lemma ArrivalIs(p: Process, q: Process)
      requires p.View(None) == q.View(None)
      ensures p.View(None).arrival == q.arrivalTime
    {
    }

    /** Behind every process that arrives no later. */
    method FindPosition(arrival: int) returns (k: nat)
      requires Coupled()
      ensures k <= |processes| == |model.procs|
      ensures k > 0 ==> model.procs[k - 1].arrival <= arrival
      ensures forall j | k <= j < |processes| :: model.procs[j].arrival > arrival
    {
      hide Simulator.Coupled, Scheduler.ViewOf;
      CoupledWf();
      k := |processes|;
      while k > 0 && processes[k - 1].arrivalTime > arrival
        invariant k <= |processes|
        invariant forall j | k <= j < |processes| :: model.procs[j].arrival > arrival
      {
        RecordAt(k - 1);
        k := k - 1;
      }
      if k > 0 {
        RecordAt(k - 1);
      }
    }

    method InsertProcess(k: nat, clone: Process)
      requires Coupled() && k <= |processes| && clone !in processes && clone !in scheduler.levels
      modifies this`processes, this`model
      ensures Coupled() && Wf(old(model)) && k <= |old(model).procs|
      ensures model == Inserted(old(model), k, clone.View(None))
    {
      hide Scheduler.ViewOf, Process.View, Inserted;
      CoupledWf();
      var grown := processes[..k] + [clone] + processes[k..];
      ghost var m := Inserted(model, k, clone.View(None));
      Regrown(k, clone, grown);
      RegrownRecords(k, clone, grown);
      RegrownQueues(k, clone, grown);
      processes := grown;
      model := m;
    }

    /** The grown list has no duplicates, and what was in it has moved by at most one place. */
    lemma Regrown(k: nat, clone: Process, grown: seq<Process>)
      requires Coupled() && k <= |processes| && clone !in processes && grown == processes[..k] + [clone] + processes[k..]
      ensures forall i, j | 0 <= i < j < |grown| :: grown[i] != grown[j]
      ensures forall j | 0 <= j < |processes| :: grown[if j < k then j else j + 1] == processes[j]
    {
      hide Scheduler.ViewOf;
      forall i | 0 <= i < |grown|
        ensures grown[i] == if i < k then processes[i] else if i == k then clone else processes[i - 1]
      {
      }
      assert forall j | 0 <= j < |processes| :: processes[j] in processes;
    }

    /** Its records are those of the grown state. */
    lemma RegrownRecords(k: nat, clone: Process, grown: seq<Process>)
      requires Coupled() && k <= |processes| && clone !in scheduler.levels && grown == processes[..k] + [clone] + processes[k..]
      ensures Wf(model) && k <= |model.procs|
      ensures var m := Inserted(model, k, clone.View(None));
              |m.procs| == |grown| && forall i | 0 <= i < |grown| :: m.procs[i] == scheduler.ViewOf(grown[i])
    {
      hide Process.View;
      CoupledWf();
      assert scheduler.ViewOf(clone) == clone.View(None);
      hide Scheduler.ViewOf;
    }

    /** Its queues refer to the same processes, and nothing else of the state changes. */
    lemma RegrownQueues(k: nat, clone: Process, grown: seq<Process>)
      requires Coupled() && k <= |processes|
      requires |grown| == |processes| + 1 && forall j | 0 <= j < |processes| :: grown[if j < k then j else j + 1] == processes[j]
      ensures Wf(model) && k <= |model.procs|
      ensures var m := Inserted(model, k, clone.View(None));
              && |m.ready| == |readyQueue| && |m.io| == |ioQueue|
              && (forall j | 0 <= j < |readyQueue| :: m.ready[j] < |grown| && readyQueue[j] == grown[m.ready[j]])
              && (forall j | 0 <= j < |ioQueue| :: m.io[j] < |grown| && ioQueue[j] == grown[m.io[j]])
              && (match m.current
                  case None => currentProcess == null
                  case Some(c) => c < |grown| && currentProcess == grown[c])
              && m == model.(procs := m.procs, ready := m.ready, io := m.io, current := m.current)
    {
      hide Process.View, Scheduler.ViewOf;
      CoupledWf();
    }

    /** Restore every process; the scheduler and the rest of the state are reset by `Reset`. */
    method RestoreProcesses()
      requires Distinct()
      modifies processes
      ensures forall i | 0 <= i < |processes| :: processes[i].View(None) == ResetProc(old(processes[i].View(None)))
    {
      hide ResetProc, Process.View;
      for i := 0 to |processes|
        invariant forall j | 0 <= j < |processes| ::
                    processes[j].View(None) == if j < i then ResetProc(old(processes[j].View(None))) else old(processes[j].View(None))
      {
        processes[i].Restore();
      }
    }

    method ClearRun()
      modifies this`currentTime, this`currentProcess, this`readyQueue, this`ioQueue, this`ganttChart, this`events,
        this`contextSwitches, this`totalIdleTime, this`timeQuantumUsed
      ensures currentTime == contextSwitches == totalIdleTime == timeQuantumUsed == 0
      ensures currentProcess == null && readyQueue == [] && ioQueue == [] && ganttChart == [] && events == []
    {
      currentTime := 0;
      currentProcess := null;
      readyQueue := [];
      ioQueue := [];
      ganttChart := [];
      events := [];
      contextSwitches := 0;
      totalIdleTime := 0;
      timeQuantumUsed := 0;
    }

    method Reset()
      requires Coupled()
      modifies this, processes, scheduler`levels, scheduler.rng
      ensures Coupled() && model == Engine.Reset(old(model)) && processes == old(processes)
    {
      hide ResetProc, Process.View;
      ghost var m := model;
      ResetAnyLevel(m.procs);
      ViewsWithoutLevel();
      ClearRun();
      scheduler.Reset();
      RestoreProcesses();
      model := Engine.Reset(m);
      ResetHasNoLevel(m.procs);
    }

    lemma ViewsWithoutLevel()
      requires Coupled()
      ensures |model.procs| == |processes|
      ensures forall i | 0 <= i < |processes| :: processes[i].View(None) == model.procs[i].(level := None)
    {
    }
  }
}
