/** The event log: for each process it spells a word of its life cycle, and from the log alone one can
    read off where the process is. */
module EventLog {
  import opened RandomWords
  import opened Processes
  import opened Policies
  import opened Engine
  import opened Invariants
  import Effects
  import Runs

  /** What the events of a process say about whether it has executed: a dispatch may be preempted before it does. */
  datatype Ran = Never | Perhaps | Surely

  /** Where a process is according to its events; `Malformed` when they make no sense. */
  datatype Phase = Absent | Queued(ran: Ran) | OnCpu(ran: Ran) | Blocked | Gone | Malformed

  /** `Start` announces a first execution that has not happened yet, `Resume` one after an execution. */
  function Next(ph: Phase, kind: EventKind): Phase {
    match (ph, kind)
    case (Absent, Arrival) => Queued(Never)
    case (Queued(r), Start) => if r == Surely then Malformed else OnCpu(Perhaps)
    case (Queued(r), Resume) => if r == Never then Malformed else OnCpu(Surely)
    case (OnCpu(r), Preempt) => Queued(r)
    case (OnCpu(_), QuantumExpire) => Queued(Surely)
    case (OnCpu(_), IOStart) => Blocked
    case (Blocked, IOComplete) => Queued(Surely)
    case (OnCpu(_), Complete) => Gone
    case _ => Malformed
  }

  /** Read the events of one PID in order. */
  function PhaseOf(events: seq<Event>, pid: int): Phase {
    if events == [] then Absent else
    var last := events[|events| - 1];
    var ph := PhaseOf(events[..|events| - 1], pid);
    if last.pid == pid then Next(ph, last.kind) else ph
  }

  /** The phase is the place the process is in, and says nothing wrong about its having executed. */
  predicate Matches(ph: Phase, p: Proc) {
    match p.state
    case New => ph == Absent
    case Ready => ph.Queued? && (ph.ran == Never ==> !p.started) && (ph.ran == Surely ==> p.started)
    case Running => ph.OnCpu? && ph.ran != Never && (ph.ran == Surely ==> p.started)
    case Waiting => ph == Blocked && p.started
    case Terminated => ph == Gone
  }

  /** I/O bursts of one PID announced in the log. */
  function IOStarts(events: seq<Event>, pid: int): nat {
    if events == [] then 0 else
    var last := events[|events| - 1];
    IOStarts(events[..|events| - 1], pid) + if last.pid == pid && last.kind == IOStart then 1 else 0
  }

  /** Preemptions and quantum expiries in the log. */
  function Switches(events: seq<Event>): nat {
    if events == [] then 0 else
    var k := events[|events| - 1].kind;
    Switches(events[..|events| - 1]) + if k == Preempt || k == QuantumExpire then 1 else 0
  }

  /** Times never decrease and never pass the clock. */
  ghost predicate InOrder(events: seq<Event>, now: int) {
    && (forall j, k | 0 <= j < k < |events| :: events[j].time <= events[k].time)
    && (forall k | 0 <= k < |events| :: events[k].time <= now)
  }

  /** The log says where every process is and how many of its bursts have fired, counts the context switches,
      and is in order. */
  ghost predicate LogOk(s: State) {
    && (forall i | 0 <= i < |s.procs| :: Matches(PhaseOf(s.events, s.procs[i].pid), s.procs[i]))
    && (forall i | 0 <= i < |s.procs| :: IOStarts(s.events, s.procs[i].pid) == s.procs[i].ioIndex)
    && Switches(s.events) == s.switches
    && InOrder(s.events, s.time)
  }

  lemma OneMore(events: seq<Event>, e: Event, pid: int)
    ensures PhaseOf(events + [e], pid) == if e.pid == pid then Next(PhaseOf(events, pid), e.kind) else PhaseOf(events, pid)
    ensures Switches(events + [e]) == Switches(events) + if e.kind == Preempt || e.kind == QuantumExpire then 1 else 0
    ensures IOStarts(events + [e], pid) == IOStarts(events, pid) + if e.pid == pid && e.kind == IOStart then 1 else 0
  {
    assert (events + [e])[..|events|] == events;
  }

  lemma InOrderMore(events: seq<Event>, e: Event, now: int)
    requires InOrder(events, now) && e.time == now
    ensures InOrder(events + [e], now)
  {
  }

  /** A process whose log, place and burst count one event carries along. */
  ghost predicate Follows(p: Proc, q: Proc, kind: EventKind) {
    && q.pid == p.pid
    && q.ioIndex == p.ioIndex + (if kind == IOStart then 1 else 0)
    && forall ph: Phase | Matches(ph, p) :: Matches(Next(ph, kind), q)
  }

  /** A process about which nothing is logged. */
  predicate Unmoved(p: Proc, q: Proc) {
    && q.pid == p.pid && q.ioIndex == p.ioIndex && q.state == p.state
    && (q.started == p.started || (p.state == Running && q.started))
  }

  /** One process changes place and one event says so. */
  ghost predicate Moves(s: State, t: State, i: nat, kind: EventKind) {
    && i < |s.procs| == |t.procs|
    && t.time == s.time
    && t.events == s.events + [Event(s.time, s.procs[i].pid, kind)]
    && t.switches == s.switches + (if kind == Preempt || kind == QuantumExpire then 1 else 0)
    && (forall j | 0 <= j < |s.procs| && j != i :: Unmoved(s.procs[j], t.procs[j]))
    && Follows(s.procs[i], t.procs[i], kind)
  }

  lemma UnmovedMatches(ph: Phase, p: Proc, q: Proc)
    requires Unmoved(p, q) && Matches(ph, p)
    ensures Matches(ph, q)
  {
  }

  lemma MoveKeepsLog(s: State, t: State, i: nat, kind: EventKind)
    requires LogOk(s) && DistinctPids(s.procs) && Moves(s, t, i, kind)
    ensures LogOk(t) && DistinctPids(t.procs)
  {
    hide PhaseOf, Switches, IOStarts, Next, Matches;
    var e := Event(s.time, s.procs[i].pid, kind);
    InOrderMore(s.events, e, s.time);
    OneMore(s.events, e, s.procs[i].pid);
    forall j | 0 <= j < |s.procs|
      ensures Matches(PhaseOf(t.events, t.procs[j].pid), t.procs[j])
      ensures IOStarts(t.events, t.procs[j].pid) == t.procs[j].ioIndex
    {
      OneMore(s.events, e, s.procs[j].pid);
      if j != i {
        PidsApart(s.procs, i, j);
        UnmovedMatches(PhaseOf(s.events, s.procs[j].pid), s.procs[j], t.procs[j]);
      }
    }
  }

  // ---------- Single moves ----------

  lemma ScheduleLogs(s: State)
    requires Inv(s) && s.current.None? && LogOk(s) && DistinctPids(s.procs)
    ensures LogOk(ScheduleNext(s)) && DistinctPids(ScheduleNext(s).procs)
  {
    hide Pick, PickWord, RemoveFirst, LogOk, ProcOk;
    if s.ready == [] {
      SameLog(s, ScheduleNext(s));
    } else {
      var m := Pick(s.policy, s.time, s.procs, s.ready, s.word);
      assert InPlace(s, m);
      MoveKeepsLog(s, ScheduleNext(s), m, if s.procs[m].started then Resume else Start);
    }
  }

  /** Nothing is logged and nobody changes place. */
  lemma SameLog(s: State, t: State)
    requires LogOk(s) && DistinctPids(s.procs)
    requires |t.procs| == |s.procs| && t.events == s.events && t.switches == s.switches && t.time >= s.time
    requires forall j | 0 <= j < |s.procs| :: Unmoved(s.procs[j], t.procs[j])
    ensures LogOk(t) && DistinctPids(t.procs)
  {
    hide PhaseOf, Switches, IOStarts, Matches;
    forall j | 0 <= j < |s.procs|
      ensures Matches(PhaseOf(t.events, t.procs[j].pid), t.procs[j])
      ensures IOStarts(t.events, t.procs[j].pid) == t.procs[j].ioIndex
    {
      UnmovedMatches(PhaseOf(s.events, s.procs[j].pid), s.procs[j], t.procs[j]);
    }
  }

  lemma PreemptLogs(s: State)
    requires Inv(s) && s.current.Some? && LogOk(s) && DistinctPids(s.procs)
    ensures LogOk(PreemptCurrent(s)) && DistinctPids(PreemptCurrent(s).procs)
  {
    hide LogOk, ProcOk;
    assert InPlace(s, s.current.value);
    MoveKeepsLog(s, PreemptCurrent(s), s.current.value, Preempt);
  }

  lemma DispatchLogs(s: State)
    requires Inv(s) && LogOk(s) && DistinctPids(s.procs)
    ensures LogOk(DispatchStage(s)) && DistinctPids(DispatchStage(s).procs)
  {
    hide LogOk, ScheduleNext, PreemptCurrent, Preempts, ProcOk;
    if s.current.None? {
      ScheduleLogs(s);
    } else {
      assert InPlace(s, s.current.value) && !s.procs[s.current.value].Complete() by { CurrentIncomplete(s); }
      Effects.ViewReplacement(s);
      PreemptLogs(s);
      ScheduleLogs(PreemptCurrent(s));
    }
  }

  lemma CurrentIncomplete(s: State)
    requires Inv(s) && s.current.Some?
    ensures InPlace(s, s.current.value) && !s.procs[s.current.value].Complete()
  {
    assert InPlace(s, s.current.value) && ProcOk(s.procs[s.current.value]);
  }

  lemma ExecuteLogs(s: State)
    requires Inv(s) && s.current.Some? && LogOk(s) && DistinctPids(s.procs)
    ensures LogOk(ExecuteCurrent(s)) && DistinctPids(ExecuteCurrent(s).procs)
  {
    hide LogOk, AddGantt, Delist;
    var c := s.current.value;
    assert InPlace(s, c);
    if Execute(s.procs[c], s.time, 1).Complete() {
      MoveKeepsLog(s, ExecuteCurrent(s), c, Complete);
    } else {
      SameLog(s, ExecuteCurrent(s));
    }
  }

  lemma BurstLogs(s: State)
    requires Inv(s) && CurrentStarted(s) && LogOk(s) && DistinctPids(s.procs)
    ensures LogOk(CheckIOBurst(s)) && DistinctPids(CheckIOBurst(s).procs) && CurrentStarted(CheckIOBurst(s))
  {
    hide LogOk, Fires, NextBurst;
    if s.current.Some? {
      var c := s.current.value;
      CurrentIncomplete(s);
      NextBurstInOrder(s.procs[c]);
      if Fires(s.procs[c]) {
        MoveKeepsLog(s, CheckIOBurst(s), c, IOStart);
      } else {
        SameLog(s, CheckIOBurst(s));
      }
    }
  }

  lemma ExpiryLogs(s: State)
    requires Inv(s) && CurrentStarted(s) && LogOk(s) && DistinctPids(s.procs)
    ensures LogOk(ExpireQuantum(s)) && DistinctPids(ExpireQuantum(s).procs)
  {
    hide LogOk, ScheduleNext, QuantumFor, Demote, ProcOk;
    if QuantumOver(s) {
      assert InPlace(s, s.current.value);
      InvRequeue(s);
      MoveKeepsLog(s, Requeue(s), s.current.value, QuantumExpire);
      ScheduleLogs(Requeue(s));
    }
  }

  lemma RunStageLogs(s: State)
    requires Inv(s) && LogOk(s) && DistinctPids(s.procs)
    ensures LogOk(RunStage(s)) && DistinctPids(RunStage(s).procs)
  {
    hide LogOk, ExecuteCurrent, CheckIOBurst, ExpireQuantum, ProcOk, InPlace, LevelBounded, DistinctPids;
    if s.current.Some? {
      var x := ExecuteCurrent(s);
      InvExecuteCurrent(s);
      ExecuteLogs(s);
      InvCheckIOBurst(x);
      BurstLogs(x);
      ExpiryLogs(CheckIOBurst(x));
    } else {
      SameLog(s, IdleTick(s));
    }
  }

  lemma ClockLogs(s: State)
    requires Wf(s) && LogOk(s) && DistinctPids(s.procs)
    ensures LogOk(AdvanceClock(s)) && DistinctPids(AdvanceClock(s).procs)
  {
    hide LogOk;
    SameLog(s, AdvanceClock(s));
  }

  // ---------- Arrivals and returns, one after the other ----------

  /** Several processes change place, in queue order, each announced by one event. */
  ghost predicate MovesAll(s: State, t: State, q: seq<nat>, kind: EventKind) {
    && |t.procs| == |s.procs| && InRange(s.procs, q) && NoDup(q)
    && t.time == s.time && t.switches == s.switches
    && t.events == s.events + EventsOf(s.time, s.procs, q, kind)
    && (forall j | 0 <= j < |s.procs| ::
          if j in q then Follows(s.procs[j], t.procs[j], kind) else Unmoved(s.procs[j], t.procs[j]))
  }

  /** `s` once the first `n` of them have moved. */
  ghost function MovedUpTo(s: State, t: State, q: seq<nat>, kind: EventKind, n: nat): State
    requires MovesAll(s, t, q, kind) && n <= |q|
  {
    s.(events := s.events + EventsOf(s.time, s.procs, q[..n], kind),
       procs := seq(|s.procs|, i requires 0 <= i < |s.procs| =>
                    if i in q[..n] then t.procs[i] else s.procs[i]))
  }

  lemma {:induction false} MovedKeepsLog(s: State, t: State, q: seq<nat>, kind: EventKind, n: nat)
    requires LogOk(s) && DistinctPids(s.procs) && MovesAll(s, t, q, kind) && n <= |q|
    requires kind == Arrival || kind == IOComplete
    ensures LogOk(MovedUpTo(s, t, q, kind, n)) && DistinctPids(MovedUpTo(s, t, q, kind, n).procs)
  {
    hide LogOk, Matches, Next, DistinctPids;
    if n == 0 {
      SameLog(s, MovedUpTo(s, t, q, kind, 0));
    } else {
      MovedKeepsLog(s, t, q, kind, n - 1);
      var a, b := MovedUpTo(s, t, q, kind, n - 1), MovedUpTo(s, t, q, kind, n);
      assert q[..n] == q[..n - 1] + [q[n - 1]];
      assert q[n - 1] !in q[..n - 1];
      assert q[n - 1] in q;
      MoveKeepsLog(a, b, q[n - 1], kind);
    }
  }

  lemma MovesAllKeepsLog(s: State, t: State, q: seq<nat>, kind: EventKind)
    requires LogOk(s) && DistinctPids(s.procs) && MovesAll(s, t, q, kind)
    requires kind == Arrival || kind == IOComplete
    ensures LogOk(t) && DistinctPids(t.procs)
  {
    hide LogOk, Matches, Next, DistinctPids;
    MovedKeepsLog(s, t, q, kind, |q|);
    assert q[..|q|] == q;
    SameLog(MovedUpTo(s, t, q, kind, |q|), t);
  }

  lemma ArrivalFollows(policy: Policy, p: Proc)
    requires ProcOk(p) && p.state == New
    ensures Follows(p, Admit(policy, p), Arrival)
  {
  }

  lemma ArrivalLogs(s: State)
    requires Inv(s) && LogOk(s) && DistinctPids(s.procs)
    ensures LogOk(CheckArrivals(s)) && DistinctPids(CheckArrivals(s).procs)
  {
    hide LogOk, DistinctPids, ProcOk, InPlace, Enlist;
    var q := Arriving(s.procs, s.time, |s.procs|);
    ArrivingMembers(s.procs, s.time, |s.procs|);
    forall j | 0 <= j < |s.procs| && j in q
      ensures Follows(s.procs[j], CheckArrivals(s).procs[j], Arrival)
    {
      ArrivalFollows(s.policy, s.procs[j]);
    }
    MovesAllKeepsLog(s, CheckArrivals(s), q, Arrival);
  }

  lemma ReturnLogs(s: State)
    requires Inv(s) && LogOk(s) && DistinctPids(s.procs)
    ensures LogOk(TickIOQueue(s)) && DistinctPids(TickIOQueue(s).procs)
  {
    hide LogOk, DistinctPids, Enlist, Returning, StillBlocked;
    var back := Returning(s.procs, s.io);
    ReturningMembers(s.procs, s.io);
    var t := TickIOQueue(s);
    forall j | 0 <= j < |s.procs|
      ensures if j in back then Follows(s.procs[j], t.procs[j], IOComplete) else Unmoved(s.procs[j], t.procs[j])
    {
      assert InPlace(s, j);
    }
    MovesAllKeepsLog(s, t, back, IOComplete);
  }

  // ---------- Whole runs ----------

  lemma TickLogs(s: State)
    requires Inv(s) && LogOk(s) && DistinctPids(s.procs)
    ensures LogOk(Tick(s)) && DistinctPids(Tick(s).procs)
  {
    hide LogOk, DistinctPids, ProcOk, InPlace, LevelBounded, CheckArrivals, TickIOQueue, DispatchStage, RunStage, AdvanceClock;
    InvAdmitted(s);
    ArrivalLogs(s);
    ReturnLogs(CheckArrivals(s));
    DispatchLogs(Admitted(s));
    InvDispatched(s);
    RunStageLogs(Dispatched(s));
    ClockLogs(RunStage(Dispatched(s)));
  }

  lemma FreshLog(policy: Policy, seed: Word, procs: seq<Proc>)
    requires Startable(policy, procs)
    ensures LogOk(Initial(policy, seed, procs))
  {
    Runs.FreshIsNew(procs);
  }

  /** In every run the log of each process is a prefix of
      `arrival (start preempt)* ((start|resume) (preempt | quantum_expire | io_start io_complete))* (start|resume) complete`
      in which no `resume` comes before a `start` and no `start` after a sign of execution (`resume`,
      `quantum_expire`, `io_start`). It ends exactly where the process is and announces as many bursts as have
      fired. Times never decrease, and the context switch counter equals the number of preemptions and quantum
      expiries. */
  lemma {:induction false} LogWellFormed(policy: Policy, seed: Word, procs: seq<Proc>, n: nat)
    requires Startable(policy, procs) && DistinctPids(procs)
    ensures LogOk(Run(Initial(policy, seed, procs), n)) && DistinctPids(Run(Initial(policy, seed, procs), n).procs)
  {
    hide Tick, LogOk, Inv, DistinctPids, Workload;
    if n == 0 {
      FreshLog(policy, seed, procs);
    } else {
      LogWellFormed(policy, seed, procs, n - 1);
      Runs.RunFacts(policy, seed, procs, n - 1);
      TickLogs(Run(Initial(policy, seed, procs), n - 1));
    }
  }

  /** The phases after a sign that the process has executed. */
  predicate Shown(ph: Phase) {
    ph == Queued(Surely) || ph == OnCpu(Surely) || ph == Blocked || ph == Gone || ph == Malformed
  }

  lemma {:induction false} ShownStays(events: seq<Event>, j: nat, pid: int)
    requires j < |events| && events[j].pid == pid && events[j].kind == Resume
    ensures Shown(PhaseOf(events, pid))
  {
    if j < |events| - 1 {
      ShownStays(events[..|events| - 1], j, pid);
    }
  }

  lemma {:induction false} StartAfterShown(events: seq<Event>, j: nat, k: nat, pid: int)
    requires j < k < |events| && events[j].pid == events[k].pid == pid
    requires events[j].kind == Resume && events[k].kind == Start
    ensures PhaseOf(events, pid) == Malformed
  {
    var n := |events| - 1;
    if k < n {
      StartAfterShown(events[..n], j, k, pid);
    } else {
      ShownStays(events[..n], j, pid);
    }
  }

  /** No run announces the start of a process it has resumed. */
  lemma NoStartAfterResume(policy: Policy, seed: Word, procs: seq<Proc>, n: nat, i: nat, j: nat, k: nat)
    requires Startable(policy, procs) && DistinctPids(procs) && i < |procs|
    requires var events := Run(Initial(policy, seed, procs), n).events;
             j < k < |events| && events[j].pid == events[k].pid == procs[i].pid && events[j].kind == Resume
    ensures Run(Initial(policy, seed, procs), n).events[k].kind != Start
  {
    hide Tick, Inv, Workload, DistinctPids, PhaseOf;
    var s := Run(Initial(policy, seed, procs), n);
    LogWellFormed(policy, seed, procs, n);
    Runs.OnTrackRun(policy, seed, procs, n);
    assert ResetProc(s.procs[i]) == procs[i];
    assert Matches(PhaseOf(s.events, s.procs[i].pid), s.procs[i]);
    if s.events[k].kind == Start {
      StartAfterShown(s.events, j, k, procs[i].pid);
    }
  }
}
