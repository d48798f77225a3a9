/** The simulator's state as a value and one tick of `executeTimeUnit` as a function on it,
    stage by stage. Processes are named by their index in `procs`, which stands for the pointer. */
module Engine {
  import opened Processes
  import opened RandomWords
  import opened Policies

  datatype GanttEntry = GanttEntry(pid: int, start: int, end: int)

  datatype EventKind = Arrival | Start | Resume | Preempt | QuantumExpire | IOStart | IOComplete | Complete

  datatype Event = Event(time: int, pid: int, kind: EventKind)

  datatype State = State(
    policy: Policy,
    word: Word,               // state of the lottery's random source
    seed: Word,
    procs: seq<Proc>,
    ready: seq<nat>,
    io: seq<nat>,
    current: Option<nat>,
    time: int,
    gantt: seq<GanttEntry>,
    events: seq<Event>,
    switches: int,
    idle: int,
    used: int)                // ticks used of the current quantum

  const IDLE_PID := -1

  /** Every queue entry names a process. */
  predicate Wf(s: State) {
    && InRange(s.procs, s.ready)
    && InRange(s.procs, s.io)
    && (s.current.Some? ==> s.current.value < |s.procs|)
  }

  // ---------- Queue operations ----------

  function RemoveFirst(q: seq<nat>, x: nat): seq<nat> {
    if q == [] then []
    else if q[0] == x then q[1..]
    else [q[0]] + RemoveFirst(q[1..], x)
  }

  function EventsOf(now: int, procs: seq<Proc>, q: seq<nat>, kind: EventKind): seq<Event>
    requires InRange(procs, q)
  {
    seq(|q|, k requires 0 <= k < |q| => Event(now, procs[q[k]].pid, kind))
  }

  // ---------- Arrivals ----------

  predicate Arrives(p: Proc, now: int) {
    p.arrival <= now && p.state == New
  }

  /** The arriving processes among the first `n`, in list order. */
  function Arriving(procs: seq<Proc>, now: int, n: nat): (q: seq<nat>)
    requires n <= |procs|
    ensures InRange(procs, q)
  {
    if n == 0 then []
    else if Arrives(procs[n - 1], now) then Arriving(procs, now, n - 1) + [n - 1]
    else Arriving(procs, now, n - 1)
  }

  function Admit(policy: Policy, p: Proc): Proc {
    p.(state := Ready, level := Enlist(policy, p))
  }

  function CheckArrivals(s: State): (r: State)
    requires Wf(s)
    ensures Wf(r)
  {
    var q := Arriving(s.procs, s.time, |s.procs|);
    s.(procs := seq(|s.procs|, i requires 0 <= i < |s.procs| =>
                    if Arrives(s.procs[i], s.time) then Admit(s.policy, s.procs[i]) else s.procs[i]),
       ready := s.ready + q,
       events := s.events + EventsOf(s.time, s.procs, q, Arrival))
  }

  // ---------- I/O countdown ----------

  predicate Returns(p: Proc) {
    p.ioRemaining <= 1
  }

  /** The part of an I/O queue whose burst ends with this tick's countdown, in queue order. */
  function Returning(procs: seq<Proc>, q: seq<nat>): (r: seq<nat>)
    requires InRange(procs, q)
    ensures InRange(procs, r)
  {
    if q == [] then [] else
    var r := Returning(procs, q[..|q| - 1]);
    if Returns(procs[q[|q| - 1]]) then r + [q[|q| - 1]] else r
  }

  /** The part of an I/O queue that stays blocked, in queue order. */
  function StillBlocked(procs: seq<Proc>, q: seq<nat>): (r: seq<nat>)
    requires InRange(procs, q)
    ensures InRange(procs, r)
  {
    if q == [] then [] else
    var r := StillBlocked(procs, q[..|q| - 1]);
    if Returns(procs[q[|q| - 1]]) then r else r + [q[|q| - 1]]
  }

  function CountDown(policy: Policy, p: Proc): Proc {
    if Returns(p) then p.(ioRemaining := 0, state := Ready, level := Enlist(policy, p))
    else p.(ioRemaining := p.ioRemaining - 1)
  }

  function TickIOQueue(s: State): (r: State)
    requires Wf(s)
    ensures Wf(r)
  {
    var back := Returning(s.procs, s.io);
    s.(procs := seq(|s.procs|, i requires 0 <= i < |s.procs| =>
                    if i in s.io then CountDown(s.policy, s.procs[i]) else s.procs[i]),
       ready := s.ready + back,
       io := StillBlocked(s.procs, s.io),
       events := s.events + EventsOf(s.time, s.procs, back, IOComplete))
  }

  // ---------- Dispatch ----------

  function ScheduleNext(s: State): (r: State)
    requires Wf(s)
    ensures Wf(r)
  {
    if s.ready == [] then s.(current := None) else
    var next := Pick(s.policy, s.time, s.procs, s.ready, s.word);
    var p := s.procs[next];
    var switched := s.current.Some? && s.procs[s.current.value].pid != p.pid;
    RemoveFirstInRange(s.procs, s.ready, next);
    s.(ready := RemoveFirst(s.ready, next),
       word := PickWord(s.policy, s.procs, s.ready, s.word),
       switches := if switched then s.switches + 1 else s.switches,
       current := Some(next),
       procs := s.procs[next := p.(state := Running)],
       used := 0,
       events := s.events + [Event(s.time, p.pid, if p.started then Resume else Start)])
  }

  function PreemptCurrent(s: State): (r: State)
    requires Wf(s)
    ensures Wf(r)
  {
    if s.current.None? then s else
    var c := s.current.value;
    s.(events := s.events + [Event(s.time, s.procs[c].pid, Preempt)],
       switches := s.switches + 1,
       procs := s.procs[c := s.procs[c].(state := Ready)],
       ready := s.ready + [c],
       current := None)
  }

  function DispatchStage(s: State): (r: State)
    requires Wf(s)
    ensures Wf(r)
  {
    if s.current.None? || s.procs[s.current.value].Complete() then ScheduleNext(s)
    else if Preempts(s.policy, s.time, s.procs, s.current.value, s.ready) then ScheduleNext(PreemptCurrent(s))
    else s
  }

  // ---------- Execution ----------

  function AddGantt(gantt: seq<GanttEntry>, pid: int, start: int, end: int): seq<GanttEntry> {
    if gantt != [] && gantt[|gantt| - 1].pid == pid && gantt[|gantt| - 1].end == start
    then gantt[|gantt| - 1 := gantt[|gantt| - 1].(end := end)]
    else gantt + [GanttEntry(pid, start, end)]
  }

  /** `executeProcess(1)` followed by the increment of the used quantum. */
  function ExecuteCurrent(s: State): (r: State)
    requires Wf(s) && s.current.Some?
    ensures Wf(r)
  {
    var c := s.current.value;
    var p := Execute(s.procs[c], s.time, 1);
    var s1 := s.(gantt := AddGantt(s.gantt, p.pid, s.time, s.time + 1), used := s.used + 1);
    if p.Complete() then
      s1.(procs := s.procs[c := p.(level := Delist(s.policy, p))],
          events := s.events + [Event(s.time, p.pid, Complete)],
          current := None)
    else s1.(procs := s.procs[c := p])
  }

  function CheckIOBurst(s: State): (r: State)
    requires Wf(s)
    ensures Wf(r)
  {
    if s.current.None? || s.procs[s.current.value].Complete() then s else
    var c := s.current.value;
    var p := s.procs[c];
    if Fires(p) then
      s.(procs := s.procs[c := StartBurst(p)],
         io := s.io + [c],
         events := s.events + [Event(s.time, p.pid, IOStart)],
         current := None,
         used := 0)
    else s.(procs := s.procs[c := p.(ioIndex := NextBurst(p.io, p.ioIndex))])
  }

  predicate QuantumOver(s: State)
    requires Wf(s)
  {
    s.current.Some? &&
    var p := s.procs[s.current.value];
    0 < QuantumFor(s.policy, p) <= s.used && !p.Complete()
  }

  /** Put the process whose quantum is over back at the tail of the ready queue. */
  function Requeue(s: State): (r: State)
    requires Wf(s) && s.current.Some?
    ensures Wf(r)
  {
    var c := s.current.value;
    var p := s.procs[c];
    s.(procs := s.procs[c := p.(level := Demote(s.policy, p), state := Ready)],
       events := s.events + [Event(s.time, p.pid, QuantumExpire)],
       switches := s.switches + 1,
       ready := s.ready + [c],
       current := None,
       used := 0)
  }

  function ExpireQuantum(s: State): (r: State)
    requires Wf(s)
    ensures Wf(r)
  {
    if QuantumOver(s) then ScheduleNext(Requeue(s)) else s
  }

  function IdleTick(s: State): (r: State)
    requires Wf(s)
    ensures Wf(r)
  {
    s.(idle := s.idle + 1, gantt := AddGantt(s.gantt, IDLE_PID, s.time, s.time + 1))
  }

  function RunStage(s: State): (r: State)
    requires Wf(s)
    ensures Wf(r)
  {
    if s.current.Some? then ExpireQuantum(CheckIOBurst(ExecuteCurrent(s))) else IdleTick(s)
  }

  // ---------- The clock ----------

  predicate CountsAsWaiting(s: State, i: nat)
    requires Wf(s) && i < |s.procs|
  {
    && i in s.ready
    && s.procs[i].state == Ready
    && (s.current.None? || s.procs[i].pid != s.procs[s.current.value].pid)
  }

  function AdvanceClock(s: State): (r: State)
    requires Wf(s)
    ensures Wf(r)
  {
    s.(time := s.time + 1,
       procs := seq(|s.procs|, i requires 0 <= i < |s.procs| =>
                    if CountsAsWaiting(s, i) then s.procs[i].(waiting := s.procs[i].waiting + 1) else s.procs[i]))
  }

  // ---------- A new process ----------

  /** Queue entries once the process list has grown at place `k`. */
  function Shifted(q: seq<nat>, k: nat): seq<nat> {
    seq(|q|, j requires 0 <= j < |q| => if q[j] < k then q[j] else q[j] + 1)
  }

  /** A process joins the list at place `k`, at any time. */
  function Inserted(s: State, k: nat, p: Proc): (r: State)
    requires Wf(s) && k <= |s.procs|
    ensures Wf(r)
  {
    s.(procs := s.procs[..k] + [p] + s.procs[k..],
       ready := Shifted(s.ready, k),
       io := Shifted(s.io, k),
       current := match s.current case None => None case Some(c) => Some(if c < k then c else c + 1))
  }

  // ---------- One tick, whole runs, reset ----------

  /** The state in which this tick's scheduling decision is taken. */
  function Admitted(s: State): (r: State)
    requires Wf(s)
    ensures Wf(r)
  {
    TickIOQueue(CheckArrivals(s))
  }

  /** The state in which this tick's CPU time is spent. */
  function Dispatched(s: State): (r: State)
    requires Wf(s)
    ensures Wf(r)
  {
    DispatchStage(Admitted(s))
  }

  /** The process that executes in this tick, if any. */
  function Runner(s: State): (r: Option<nat>)
    requires Wf(s)
    ensures r.Some? ==> r.value < |Dispatched(s).procs|
  {
    Dispatched(s).current
  }

  function Tick(s: State): (r: State)
    requires Wf(s)
    ensures Wf(r)
  {
    AdvanceClock(RunStage(Dispatched(s)))
  }

  /** The state after `n` ticks. */
  function Run(s: State, n: nat): (r: State)
    requires Wf(s)
    ensures Wf(r)
  {
    if n == 0 then s else Tick(Run(s, n - 1))
  }

  predicate Done(s: State) {
    forall i | 0 <= i < |s.procs| :: s.procs[i].Complete()
  }

  /** A new simulator holding `procs`. */
  function Initial(policy: Policy, seed: Word, procs: seq<Proc>): (s: State)
    ensures Wf(s)
  {
    State(policy, seed, seed, procs, [], [], None, 0, [], [], 0, 0, 0)
  }

  function Reset(s: State): (r: State)
    ensures Wf(r)
  {
    s.(time := 0, current := None, ready := [], io := [], gantt := [], events := [], switches := 0, idle := 0, used := 0,
       word := if s.policy.Lottery? && s.policy.rng.isDefault then s.seed else s.word,
       procs := seq(|s.procs|, i requires 0 <= i < |s.procs| => ResetProc(s.procs[i])))
  }

  // ---------- Facts about the queue operations ----------

  lemma {:induction false} RemoveFirstInRange(procs: seq<Proc>, q: seq<nat>, x: nat)
    requires InRange(procs, q)
    ensures InRange(procs, RemoveFirst(q, x))
  {
    if q != [] && q[0] != x {
      RemoveFirstInRange(procs, q[1..], x);
    }
  }
}
