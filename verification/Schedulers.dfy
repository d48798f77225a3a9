/** The mutable objects below the simulator: process records, the lottery's random source, and the
    scheduler with its scan loops, proved against the policy functions. */
module Schedulers {
  import opened RandomWords
  import opened Processes
  import opened Policies

  class Process {
    const pid: int
    const arrivalTime: int
    const burstTime: int
    const priority: int
    const weight: int
    var remainingTime: int
    var state: ProcState
    var hasStarted: bool
    var startTime: int
    var completionTime: int
    var waitingTime: int
    var turnaroundTime: int
    var responseTime: int
    var lastExecuted: int
    var vruntime: int
    var ioBursts: seq<IOBurst>
    var currentIOIndex: nat
    var ioRemaining: int

    constructor (pid: int, arrivalTime: int, burstTime: int, priority: int, weight: int, ioBursts: seq<IOBurst>)
      ensures View(None) == ResetProc(Proc(pid, arrivalTime, burstTime, priority, weight, 0, New, false, 0, 0, 0, 0, 0, 0, 0,
                                           ioBursts, 0, 0, None)).(io := ioBursts)
    {
      this.pid, this.arrivalTime, this.burstTime, this.priority, this.weight := pid, arrivalTime, burstTime, priority, weight;
      remainingTime := burstTime;
      state := New;
      hasStarted := false;
      startTime := -1;
      completionTime, waitingTime, turnaroundTime, responseTime, lastExecuted, vruntime := 0, 0, 0, 0, 0, 0;
      this.ioBursts := ioBursts;
      currentIOIndex := 0;
      ioRemaining := 0;
    }

    /** A copy of every field. */
    constructor Clone(p: Process)
      ensures View(None) == p.View(None)
    {
      pid, arrivalTime, burstTime, priority, weight := p.pid, p.arrivalTime, p.burstTime, p.priority, p.weight;
      remainingTime, state, hasStarted, startTime := p.remainingTime, p.state, p.hasStarted, p.startTime;
      completionTime, waitingTime, turnaroundTime, responseTime := p.completionTime, p.waitingTime, p.turnaroundTime, p.responseTime;
      lastExecuted, vruntime := p.lastExecuted, p.vruntime;
      ioBursts, currentIOIndex, ioRemaining := p.ioBursts, p.currentIOIndex, p.ioRemaining;
    }

    /** The record as a value, with the scheduler's level entry for it. */
    ghost function View(level: Option<int>): Proc
      reads this
    {
      Proc(pid, arrivalTime, burstTime, priority, weight, remainingTime, state, hasStarted, startTime, completionTime,
           waitingTime, turnaroundTime, responseTime, lastExecuted, vruntime, ioBursts, currentIOIndex, ioRemaining, level)
    }

    predicate IsComplete()
      reads this
    {
      state == Terminated || remainingTime <= 0
    }

    /** First execution fixes the response time. */
    method RecordStart(currentTime: int)
      requires !hasStarted
      modifies this`hasStarted, this`startTime, this`responseTime
      ensures hasStarted && startTime == currentTime && responseTime == currentTime - arrivalTime
    {
      hide View;
      hasStarted := true;
      startTime := currentTime;
      responseTime := currentTime - arrivalTime;
    }

    /** Completion fixes the turnaround and overwrites the waiting time. */
    method Finish(now: int)
      modifies this`state, this`completionTime, this`turnaroundTime, this`waitingTime, this`remainingTime
      ensures state == Terminated && completionTime == now && turnaroundTime == now - arrivalTime
      ensures waitingTime == turnaroundTime - burstTime && remainingTime == 0
    {
      hide View;
      state := Terminated;
      completionTime := now;
      turnaroundTime := completionTime - arrivalTime;
      waitingTime := turnaroundTime - burstTime;
      remainingTime := 0;
    }

    method Execute(currentTime: int, duration: int)
      requires weight >= 1
      modifies this
      ensures View(None) == Processes.Execute(old(View(None)), currentTime, duration)
    {
      if state != Running {
        state := Running;
      }
      if !hasStarted {
        RecordStart(currentTime);
      }
      remainingTime := remainingTime - duration;
      lastExecuted := currentTime + duration;
      vruntime := vruntime + VStep(duration, weight);
      if remainingTime <= 0 {
        Finish(currentTime + duration);
      }
    }

    /** Skip the bursts that have fired; start the next one if its CPU time is reached. */
    method TryBurst() returns (fired: bool)
      modifies this`state, this`ioBursts, this`ioRemaining, this`currentIOIndex
      ensures fired == Fires(old(View(None))) && View(None) == Processes.TryBurst(old(View(None)))
    {
      var cpuUsed := burstTime - remainingTime;
      while currentIOIndex < |ioBursts| && ioBursts[currentIOIndex].completed
        invariant View(None) == old(View(None)).(ioIndex := currentIOIndex)
        invariant NextBurst(ioBursts, currentIOIndex) == NextBurst(ioBursts, old(currentIOIndex))
        decreases |ioBursts| - currentIOIndex
      {
        currentIOIndex := currentIOIndex + 1;
      }
      fired := false;
      if currentIOIndex < |ioBursts| {
        var burst := ioBursts[currentIOIndex];
        if cpuUsed >= burst.afterCPU && burst.duration > 0 {
          ioBursts := ioBursts[currentIOIndex := burst.(completed := true)];
          ioRemaining := burst.duration;
          currentIOIndex := currentIOIndex + 1;
          state := Waiting;
          fired := true;
        }
      }
    }

    /** Reset the completion flags so that the bursts can fire again. */
    method RestoreBursts()
      modifies this`ioBursts
      ensures ioBursts == ClearBursts(old(ioBursts))
    {
      var j := 0;
      while j < |ioBursts|
        invariant 0 <= j <= |ioBursts| == |old(ioBursts)|
        invariant forall k | 0 <= k < |ioBursts| ::
                    ioBursts[k] == if k < j then old(ioBursts)[k].(completed := false) else old(ioBursts)[k]
      {
        ioBursts := ioBursts[j := ioBursts[j].(completed := false)];
        j := j + 1;
      }
    }

    method RestoreTimes()
      modifies this`startTime, this`completionTime, this`waitingTime, this`turnaroundTime, this`responseTime, this`lastExecuted
      ensures startTime == -1 && completionTime == waitingTime == turnaroundTime == responseTime == lastExecuted == 0
    {
      hide View;
      startTime := -1;
      completionTime := 0;
      waitingTime := 0;
      turnaroundTime := 0;
      responseTime := 0;
      lastExecuted := 0;
    }

    /** The part of `Simulator.Reset` that restores one process. */
    method Restore()
      modifies this
      ensures View(None) == ResetProc(old(View(None)))
    {
      state := New;
      remainingTime := burstTime;
      RestoreTimes();
      vruntime := 0;
      hasStarted := false;
      currentIOIndex := 0;
      ioRemaining := 0;
      RestoreBursts();
    }
  }

  /** The xorshift generator behind the lottery. */
  class DeterministicRNG {
    var state: Word
    const seed: Word

    constructor (seed: Word)
      ensures state == this.seed == SeedFor(seed)
    {
      this.seed := SeedFor(seed);
      state := SeedFor(seed);
    }

    method Intn(n: int) returns (v: int)
      modifies this
      ensures v == RandomWords.Intn(old(state), n) && state == IntnWord(old(state), n)
    {
      if n <= 0 {
        return 0;
      }
      hide ShiftLeft13, ShiftRight7, ShiftLeft17;
      var x := state;
      x := ShiftLeft13(x);
      x := ShiftRight7(x);
      x := ShiftLeft17(x);
      state := x;
      v := (x as int) % n;
    }
  }

  /** `0, 1, ..., n - 1`: a queue seen as positions into itself. */
  function Positions(n: nat): seq<nat> {
    seq(n, k requires 0 <= k < n => k)
  }

  /** Ranking a queue by reference is ranking its records. */
  lemma {:induction false} BestByPosition(policy: Policy, now: int, procs: seq<Proc>, q: seq<nat>, views: seq<Proc>)
    requires q != [] && InRange(procs, q) && |views| >= |q|
    requires forall k | 0 <= k < |q| :: procs[q[k]] == views[k]
    ensures Best(policy, now, views, Positions(|q|)) < |q|
    ensures q[Best(policy, now, views, Positions(|q|))] == Best(policy, now, procs, q)
  {
    hide Rank, Less;
    var n := |q| - 1;
    if n > 0 {
      BestByPosition(policy, now, procs, q[..n], views);
      assert Positions(|q|)[..n] == Positions(n);
    }
  }

  /** The position of the best among the first `i` entries of a queue of records. */
  ghost function BestAt(policy: Policy, now: int, views: seq<Proc>, i: nat): (b: nat)
    requires 1 <= i <= |views|
    ensures b < i
  {
    assert Best(policy, now, views, Positions(i)) in Positions(i);
    Best(policy, now, views, Positions(i))
  }

  /** One more position scanned. */
  lemma BestStep(policy: Policy, now: int, views: seq<Proc>, i: nat)
    requires 1 <= i < |views|
    ensures BestAt(policy, now, views, i + 1) ==
            var b := BestAt(policy, now, views, i);
            if Less(Rank(policy, now, views[i]), Rank(policy, now, views[b])) then i else b
  {
    assert Positions(i + 1)[..i] == Positions(i);
  }

  lemma BestFirst(policy: Policy, now: int, views: seq<Proc>)
    requires |views| >= 1
    ensures BestAt(policy, now, views, 1) == 0
  {
  }

  lemma {:induction false} HeadByPosition(policy: Policy, now: int, views: seq<Proc>, n: nat)
    requires policy.RoundRobin? && 1 <= n <= |views|
    ensures BestAt(policy, now, views, n) == 0
  {
    hide BestAt;
    if n == 1 {
      BestFirst(policy, now, views);
    } else {
      HeadByPosition(policy, now, views, n - 1);
      BestStep(policy, now, views, n - 1);
    }
  }

  // ---------- Tickets by position ----------

  ghost function TicketsAt(views: seq<Proc>, i: nat): int
    requires i <= |views|
  {
    Tickets(views, Positions(i))
  }

  lemma TicketsPositive(views: seq<Proc>)
    ensures TicketsAt(views, |views|) >= |views|
  {
  }

  ghost function HolderAt(views: seq<Proc>, winner: int): (k: nat)
    requires views != []
    ensures k < |views|
  {
    Holder(views, Positions(|views|), winner)
  }

  lemma TicketsStep(views: seq<Proc>, i: nat)
    requires i < |views|
    ensures TicketsAt(views, i + 1) == TicketsAt(views, i) + TicketsOf(views[i])
    ensures TicketsAt(views, 0) == 0
  {
    assert Positions(i + 1)[..i] == Positions(i);
  }

  lemma {:induction false} HolderFound(views: seq<Proc>, n: nat, i: nat, winner: int)
    requires i < n <= |views|
    requires TicketsAt(views, i) <= winner
    requires winner < TicketsAt(views, i + 1) || n == i + 1
    ensures Holder(views, Positions(n), winner) == i
  {
    assert Positions(n)[..n - 1] == Positions(n - 1);
    if n > i + 1 {
      HolderFound(views, n - 1, i, winner);
      TicketsGrow(views, i + 1, n - 1);
    }
  }

  lemma {:induction false} TicketsGrow(views: seq<Proc>, i: nat, n: nat)
    requires i <= n <= |views|
    ensures TicketsAt(views, i) <= TicketsAt(views, n)
  {
    if i < n {
      TicketsGrow(views, i, n - 1);
      TicketsStep(views, n - 1);
    }
  }

  // ---------- Schedule and Preempt on a queue of records ----------

  ghost function PickAt(policy: Policy, now: int, views: seq<Proc>, word: Word): (k: nat)
    requires views != []
    ensures k < |views|
  {
    match policy
    case Lottery(_, rng) => HolderAt(views, rng.draw(word, TicketsAt(views, |views|)))
    case _ => BestAt(policy, now, views, |views|)
  }

  ghost function WordAt(policy: Policy, views: seq<Proc>, word: Word): Word {
    match policy
    case Lottery(_, rng) => rng.next(word, TicketsAt(views, |views|))
    case _ => word
  }

  function After(n: nat): seq<nat> {
    seq(n, k requires 0 <= k < n => k + 1)
  }

  ghost predicate PreemptsAt(policy: Policy, now: int, cur: Proc, views: seq<Proc>) {
    Preempts(policy, now, [cur] + views, 0, After(|views|))
  }

  /** `q` lists the records `views` of the process list. */
  ghost predicate Shows(procs: seq<Proc>, q: seq<nat>, views: seq<Proc>) {
    InRange(procs, q) && |views| == |q| && forall k | 0 <= k < |q| :: procs[q[k]] == views[k]
  }

  lemma {:induction false} TicketsByPosition(procs: seq<Proc>, q: seq<nat>, views: seq<Proc>, n: nat)
    requires Shows(procs, q, views) && n <= |q|
    ensures Tickets(procs, q[..n]) == TicketsAt(views, n)
  {
    if n > 0 {
      TicketsByPosition(procs, q, views, n - 1);
      TicketsStep(views, n - 1);
      assert q[..n][..n - 1] == q[..n - 1];
    }
  }

  lemma {:induction false} HolderByPosition(procs: seq<Proc>, q: seq<nat>, views: seq<Proc>, n: nat, winner: int)
    requires Shows(procs, q, views) && 1 <= n <= |q|
    ensures Holder(procs, q[..n], winner) == Holder(views, Positions(n), winner)
  {
    if n > 1 {
      TicketsByPosition(procs, q, views, n - 1);
      HolderByPosition(procs, q, views, n - 1, winner);
      assert q[..n][..n - 1] == q[..n - 1];
      assert Positions(n)[..n - 1] == Positions(n - 1);
    }
  }

  /** The process picked by reference is the one the policy picks from the records. */
  lemma PickByPosition(policy: Policy, now: int, procs: seq<Proc>, q: seq<nat>, views: seq<Proc>, word: Word)
    requires q != [] && Shows(procs, q, views)
    ensures q[PickAt(policy, now, views, word)] == Pick(policy, now, procs, q, word)
    ensures WordAt(policy, views, word) == PickWord(policy, procs, q, word)
  {
    hide Best, Holder, Tickets;
    assert q[..|q|] == q;
    TicketsByPosition(procs, q, views, |q|);
    if policy.Lottery? {
      HolderByPosition(procs, q, views, |q|, policy.rng.draw(word, Tickets(procs, q)));
    } else {
      BestByPosition(policy, now, procs, q, views);
    }
  }

  lemma PreemptsByPosition(policy: Policy, now: int, procs: seq<Proc>, cur: nat, q: seq<nat>, views: seq<Proc>)
    requires cur < |procs| && Shows(procs, q, views)
    ensures PreemptsAt(policy, now, procs[cur], views) <==> Preempts(policy, now, procs, cur, q)
  {
    hide EffectivePriority;
    var all := [procs[cur]] + views;
    forall k | 0 <= k < |q|
      ensures all[After(|views|)[k]] == procs[q[k]]
    {
    }
  }

  function SetEntry(levels: map<Process, int>, p: Process, entry: Option<int>): map<Process, int> {
    match entry case None => levels - {p} case Some(l) => levels[p := l]
  }

  /** What the constructors make of their parameters. */
  function Normalised(policy: Policy): (r: Policy)
    ensures ValidPolicy(r)
    ensures ValidPolicy(policy) && (policy.Lottery? ==> policy.rng == DEFAULT_RNG) ==> r == policy
  {
    match policy
    case RoundRobin(q) => RoundRobin(if q < 1 then 1 else q)
    case Lottery(q, _) => Lottery(if q < 1 then 1 else q, DEFAULT_RNG)
    case MLQ(n, q) => MLQ(if n < 1 then 1 else n, if q < 1 then 1 else q)
    case _ => policy
  }

  /** All ten schedulers behind the `Scheduler` interface; `policy` says which one this is. */
  class Scheduler {
    const policy: Policy
    const rng: DeterministicRNG
    var levels: map<Process, int>

    constructor (policy: Policy, seed: Word)
      ensures this.policy == Normalised(policy) && levels == map[]
      ensures fresh(rng) && rng.state == rng.seed == SeedFor(seed)
    {
      this.policy := Normalised(policy);
      rng := new DeterministicRNG(seed);
      levels := map[];
    }

    ghost predicate Ok() {
      ValidPolicy(policy) && (policy.Lottery? ==> policy.rng == DEFAULT_RNG)
    }

    function Entry(p: Process): Option<int>
      reads this
    {
      if p in levels then Some(levels[p]) else None
    }

    ghost function ViewOf(p: Process): Proc
      reads this, p
    {
      p.View(Entry(p))
    }

    ghost function Views(q: seq<Process>): (r: seq<Proc>)
      reads this, q
      ensures |r| == |q|
      ensures forall k | 0 <= k < |q| :: r[k] == ViewOf(q[k])
    {
      if q == [] then [] else Views(q[..|q| - 1]) + [ViewOf(q[|q| - 1])]
    }

    /** A map lookup with Go's default. */
    function LevelEntry(p: Process): int
      reads this
    {
      if p in levels then levels[p] else 0
    }

    lemma ViewAnyLevel(p: Process)
      ensures ViewOf(p) == p.View(None).(level := Entry(p))
      ensures p.View(None) == ViewOf(p).(level := None)
    {
    }

    static lemma LevelForBelow(numLevels: int, priority: int)
      ensures numLevels >= 1 ==> LevelFor(numLevels, priority) < numLevels
    {
    }

    lemma ViewFields(p: Process)
      ensures var v := ViewOf(p);
              && v.pid == p.pid && v.arrival == p.arrivalTime && v.burst == p.burstTime && v.priority == p.priority
              && v.weight == p.weight && v.remaining == p.remainingTime && v.vruntime == p.vruntime
              && v.started == p.hasStarted && v.state == p.state && v.ioRemaining == p.ioRemaining && v.Complete() == p.IsComplete()
              && LevelOf(v) == LevelEntry(p)
    {
    }

    // ---------- Schedule ----------

    method ScheduleFCFS(readyQueue: seq<Process>, currentTime: int) returns (earliest: Process)
      requires policy.FCFS? && readyQueue != []
      ensures earliest == readyQueue[BestAt(policy, currentTime, Views(readyQueue), |readyQueue|)]
    {
      hide BestAt, ViewOf;
      ghost var views := Views(readyQueue);
      earliest := readyQueue[0];
      BestFirst(policy, currentTime, views);
      for i := 1 to |readyQueue|
        invariant earliest == readyQueue[BestAt(policy, currentTime, views, i)]
      {
        BestStep(policy, currentTime, views, i);
        ViewFields(earliest);
        var p := readyQueue[i];
        ViewFields(p);
        if p.arrivalTime < earliest.arrivalTime {
          earliest := p;
        }
      }
    }

    method ScheduleSJF(readyQueue: seq<Process>, currentTime: int) returns (shortest: Process)
      requires policy.SJF? && readyQueue != []
      ensures shortest == readyQueue[BestAt(policy, currentTime, Views(readyQueue), |readyQueue|)]
    {
      hide BestAt, ViewOf;
      ghost var views := Views(readyQueue);
      shortest := readyQueue[0];
      BestFirst(policy, currentTime, views);
      for i := 1 to |readyQueue|
        invariant shortest == readyQueue[BestAt(policy, currentTime, views, i)]
      {
        BestStep(policy, currentTime, views, i);
        ViewFields(shortest);
        var p := readyQueue[i];
        ViewFields(p);
        if p.burstTime < shortest.burstTime {
          shortest := p;
        } else if p.burstTime == shortest.burstTime && p.arrivalTime < shortest.arrivalTime {
          shortest := p;
        }
      }
    }

    method ScheduleSRTF(readyQueue: seq<Process>, currentTime: int) returns (shortest: Process)
      requires policy.SRTF? && readyQueue != []
      ensures shortest == readyQueue[BestAt(policy, currentTime, Views(readyQueue), |readyQueue|)]
    {
      hide BestAt, ViewOf;
      ghost var views := Views(readyQueue);
      shortest := readyQueue[0];
      BestFirst(policy, currentTime, views);
      for i := 1 to |readyQueue|
        invariant shortest == readyQueue[BestAt(policy, currentTime, views, i)]
      {
        BestStep(policy, currentTime, views, i);
        ViewFields(shortest);
        var p := readyQueue[i];
        ViewFields(p);
        if p.remainingTime < shortest.remainingTime {
          shortest := p;
        } else if p.remainingTime == shortest.remainingTime && p.arrivalTime < shortest.arrivalTime {
          shortest := p;
        }
      }
    }

    /** The head of the queue; every entry ranks alike. */
    method ScheduleRoundRobin(readyQueue: seq<Process>, currentTime: int) returns (head: Process)
      requires policy.RoundRobin? && readyQueue != []
      ensures head == readyQueue[0]
      ensures head == readyQueue[BestAt(policy, currentTime, Views(readyQueue), |readyQueue|)]
    {
      head := readyQueue[0];
      HeadByPosition(policy, currentTime, Views(readyQueue), |readyQueue|);
    }

    method ComputeEffectivePriority(p: Process, currentTime: int) returns (eff: int)
      requires policy.Priority?
      ensures eff == EffectivePriority(policy.agingInterval, ViewOf(p), currentTime)
    {
      if policy.agingInterval <= 0 {
        return p.priority;
      }
      var lastActivity := p.arrivalTime;
      if p.lastExecuted > lastActivity {
        lastActivity := p.lastExecuted;
      }
      var waited := currentTime - lastActivity;
      if waited < 0 {
        waited := 0;
      }
      eff := p.priority - waited / policy.agingInterval;
      if eff < 0 {
        eff := 0;
      }
    }

    method SchedulePriority(readyQueue: seq<Process>, currentTime: int) returns (highest: Process)
      requires policy.Priority? && readyQueue != []
      ensures highest == readyQueue[BestAt(policy, currentTime, Views(readyQueue), |readyQueue|)]
    {
      hide BestAt, ViewOf, EffectivePriority;
      ghost var views := Views(readyQueue);
      highest := readyQueue[0];
      var highestEff := ComputeEffectivePriority(readyQueue[0], currentTime);
      BestFirst(policy, currentTime, views);
      for i := 1 to |readyQueue|
        invariant highest == readyQueue[BestAt(policy, currentTime, views, i)]
        invariant highestEff == EffectivePriority(policy.agingInterval, views[BestAt(policy, currentTime, views, i)], currentTime)
      {
        BestStep(policy, currentTime, views, i);
        ViewFields(highest);
        var p := readyQueue[i];
        ViewFields(p);
        var eff := ComputeEffectivePriority(p, currentTime);
        if eff < highestEff || (eff == highestEff && p.arrivalTime < highest.arrivalTime) {
          highest := p;
          highestEff := eff;
        }
      }
    }

    method ScheduleCFS(readyQueue: seq<Process>, currentTime: int) returns (minVruntime: Process)
      requires policy.CFS? && readyQueue != []
      ensures minVruntime == readyQueue[BestAt(policy, currentTime, Views(readyQueue), |readyQueue|)]
    {
      hide BestAt, ViewOf;
      ghost var views := Views(readyQueue);
      minVruntime := readyQueue[0];
      BestFirst(policy, currentTime, views);
      for i := 1 to |readyQueue|
        invariant minVruntime == readyQueue[BestAt(policy, currentTime, views, i)]
      {
        BestStep(policy, currentTime, views, i);
        ViewFields(minVruntime);
        var p := readyQueue[i];
        ViewFields(p);
        if p.vruntime < minVruntime.vruntime || (p.vruntime == minVruntime.vruntime && p.pid < minVruntime.pid) {
          minVruntime := p;
        }
      }
    }

    /** Levels are below the number of levels, so the scan always finds a process. */
    method ScheduleMLFQ(readyQueue: seq<Process>, currentTime: int) returns (chosen: Process)
      requires policy.MLFQ? && readyQueue != []
      requires forall p | p in readyQueue :: LevelEntry(p) < MLFQ_LEVELS
      ensures chosen == readyQueue[BestAt(policy, currentTime, Views(readyQueue), |readyQueue|)]
    {
      hide BestAt, ViewOf, LevelOf, LevelFor, LevelEntry;
      ghost var views := Views(readyQueue);
      var best: Process? := null;
      var bestLevel := MLFQ_LEVELS;
      BestFirst(policy, currentTime, views);
      for i := 0 to |readyQueue|
        invariant i == 0 ==> best == null && bestLevel == MLFQ_LEVELS
        invariant i > 0 ==> best != null && best == readyQueue[BestAt(policy, currentTime, views, i)] && bestLevel == LevelEntry(best)
      {
        if i > 0 {
          BestStep(policy, currentTime, views, i);
          ViewFields(best);
        }
        var p := readyQueue[i];
        ViewFields(p);
        var lvl := LevelEntry(p);
        if lvl < bestLevel ||
           (lvl == bestLevel && best != null &&
            (p.arrivalTime < best.arrivalTime || (p.arrivalTime == best.arrivalTime && p.pid < best.pid)))
        {
          best := p;
          bestLevel := lvl;
        }
      }
      chosen := best;
    }

    method ScheduleMLQ(readyQueue: seq<Process>, currentTime: int) returns (chosen: Process)
      requires policy.MLQ? && readyQueue != []
      requires ValidPolicy(policy)
      ensures chosen == readyQueue[BestAt(policy, currentTime, Views(readyQueue), |readyQueue|)]
    {
      hide BestAt, ViewOf, LevelOf, LevelFor, LevelEntry;
      ghost var views := Views(readyQueue);
      var best: Process? := null;
      var bestLevel := policy.numLevels;
      BestFirst(policy, currentTime, views);
      for i := 0 to |readyQueue|
        invariant i == 0 ==> best == null && bestLevel == policy.numLevels
        invariant i > 0 ==> best != null && best == readyQueue[BestAt(policy, currentTime, views, i)] && bestLevel == LevelFor(policy.numLevels, best.priority)
      {
        if i > 0 {
          BestStep(policy, currentTime, views, i);
          ViewFields(best);
        }
        var p := readyQueue[i];
        ViewFields(p);
        var lvl := LevelFor(policy.numLevels, p.priority);
        LevelForBelow(policy.numLevels, p.priority);
        if lvl < bestLevel ||
           (lvl == bestLevel && best != null &&
            (p.arrivalTime < best.arrivalTime || (p.arrivalTime == best.arrivalTime && p.pid < best.pid)))
        {
          best := p;
          bestLevel := lvl;
        }
      }
      chosen := best;
    }

    method ScheduleLottery(readyQueue: seq<Process>) returns (chosen: Process)
      requires policy.Lottery? && readyQueue != []
      modifies rng
      ensures var views := old(Views(readyQueue)); var n := TicketsAt(views, |views|);
              && chosen == readyQueue[HolderAt(views, Intn(old(rng.state), n))]
              && rng.state == IntnWord(old(rng.state), n)
    {
      hide TicketsAt, ViewOf, Intn, IntnWord;
      ghost var views := Views(readyQueue);
      forall k | 0 <= k < |readyQueue|
        ensures views[k].weight == readyQueue[k].weight
      {
        ViewFields(readyQueue[k]);
      }
      var totalTickets := 0;
      TicketsStep(views, 0);
      for i := 0 to |readyQueue|
        invariant totalTickets == TicketsAt(views, i) && rng.state == old(rng.state)
      {
        TicketsStep(views, i);
        var w := readyQueue[i].weight;
        if w <= 0 {
          w := 1;
        }
        totalTickets := totalTickets + w;
      }
      TicketsPositive(views);
      chosen := readyQueue[|readyQueue| - 1];
      var winner := rng.Intn(totalTickets);
      var running := 0;
      for i := 0 to |readyQueue|
        invariant running == TicketsAt(views, i) && running <= winner
        invariant rng.state == IntnWord(old(rng.state), totalTickets)
      {
        TicketsStep(views, i);
        var w := readyQueue[i].weight;
        if w <= 0 {
          w := 1;
        }
        running := running + w;
        if winner < running {
          HolderFound(views, |readyQueue|, i, winner);
          return readyQueue[i];
        }
      }
      // The fallback to the last entry is never taken: the draw is below the total.
      assert false;
    }

    method Schedule(readyQueue: seq<Process>, currentTime: int) returns (next: Process?)
      requires Ok()
      requires policy.MLFQ? ==> forall p | p in readyQueue :: LevelEntry(p) < MLFQ_LEVELS
      modifies rng
      ensures readyQueue == [] ==> next == null && rng.state == old(rng.state)
      ensures readyQueue != [] ==>
                var views := old(Views(readyQueue));
                && next == readyQueue[PickAt(policy, currentTime, views, old(rng.state))]
                && rng.state == WordAt(policy, views, old(rng.state))
    {
      hide BestAt, HolderAt, TicketsAt, Intn, IntnWord, Views, LevelEntry;
      if |readyQueue| == 0 {
        return null;
      }
      match policy {
        case FCFS => next := ScheduleFCFS(readyQueue, currentTime);
        case SJF => next := ScheduleSJF(readyQueue, currentTime);
        case SRTF => next := ScheduleSRTF(readyQueue, currentTime);
        case RoundRobin(_) => next := ScheduleRoundRobin(readyQueue, currentTime);
        case Priority(_, _) => next := SchedulePriority(readyQueue, currentTime);
        case CFS => next := ScheduleCFS(readyQueue, currentTime);
        case MLFQ => next := ScheduleMLFQ(readyQueue, currentTime);
        case Lottery(_, _) => next := ScheduleLottery(readyQueue);
        case MLQ(_, _) => next := ScheduleMLQ(readyQueue, currentTime);
      }
    }

    // ---------- Preempt ----------

    method PreemptSRTF(current: Process, readyQueue: seq<Process>) returns (b: bool)
      ensures b == exists k | 0 <= k < |readyQueue| ::
                     readyQueue[k].pid != current.pid && readyQueue[k].remainingTime < current.remainingTime
    {
      for i := 0 to |readyQueue|
        invariant forall k | 0 <= k < i ::
                    !(readyQueue[k].pid != current.pid && readyQueue[k].remainingTime < current.remainingTime)
      {
        if readyQueue[i].pid != current.pid && readyQueue[i].remainingTime < current.remainingTime {
          return true;
        }
      }
      return false;
    }

    method PreemptPriority(current: Process, readyQueue: seq<Process>, currentTime: int) returns (b: bool)
      requires policy.Priority?
      ensures b == (policy.preemptive &&
                    exists k | 0 <= k < |readyQueue| ::
                      readyQueue[k].pid != current.pid &&
                      EffectivePriority(policy.agingInterval, ViewOf(readyQueue[k]), currentTime)
                      < EffectivePriority(policy.agingInterval, ViewOf(current), currentTime))
    {
      hide EffectivePriority, ViewOf;
      if !policy.preemptive {
        return false;
      }
      var currentEff := ComputeEffectivePriority(current, currentTime);
      for i := 0 to |readyQueue|
        invariant forall k | 0 <= k < i ::
                    !(readyQueue[k].pid != current.pid &&
                      EffectivePriority(policy.agingInterval, ViewOf(readyQueue[k]), currentTime) < currentEff)
      {
        var eff := ComputeEffectivePriority(readyQueue[i], currentTime);
        if readyQueue[i].pid != current.pid && eff < currentEff {
          return true;
        }
      }
      return false;
    }

    /** The least virtual runtime among the others, against the current one less one granularity step. */
    method PreemptCFS(current: Process, readyQueue: seq<Process>) returns (b: bool)
      requires current.weight >= 1
      ensures b == (readyQueue != [] &&
                    var bar := current.vruntime - VStep(CFS_GRANULARITY, current.weight);
                    (MAX_INT64 < bar ||
                     exists k | 0 <= k < |readyQueue| :: readyQueue[k].pid != current.pid && readyQueue[k].vruntime < bar))
    {
      if |readyQueue| == 0 {
        return false;
      }
      var minVruntime := MAX_INT64;
      for i := 0 to |readyQueue|
        invariant minVruntime <= MAX_INT64
        invariant forall k | 0 <= k < i :: readyQueue[k].pid != current.pid ==> minVruntime <= readyQueue[k].vruntime
        invariant minVruntime == MAX_INT64 ||
                  exists k | 0 <= k < i :: readyQueue[k].pid != current.pid && readyQueue[k].vruntime == minVruntime
      {
        if readyQueue[i].pid != current.pid && readyQueue[i].vruntime < minVruntime {
          minVruntime := readyQueue[i].vruntime;
        }
      }
      b := minVruntime < current.vruntime - VStep(CFS_GRANULARITY, current.weight);
    }

    /** MLFQ and MLQ: someone waits at a higher-priority level. */
    method PreemptByLevel(current: Process, readyQueue: seq<Process>) returns (b: bool)
      ensures b == exists k | 0 <= k < |readyQueue| ::
                     readyQueue[k] != current && LevelEntry(readyQueue[k]) < LevelEntry(current)
    {
      var currentLevel := LevelEntry(current);
      for i := 0 to |readyQueue|
        invariant forall k | 0 <= k < i :: !(readyQueue[k] != current && LevelEntry(readyQueue[k]) < currentLevel)
      {
        if readyQueue[i] != current && LevelEntry(readyQueue[i]) < currentLevel {
          return true;
        }
      }
      return false;
    }

    lemma PreemptsMeans(current: Process, readyQueue: seq<Process>, now: int)
      ensures PreemptsAt(policy, now, ViewOf(current), Views(readyQueue)) <==>
              match policy
              case SRTF =>
                exists k | 0 <= k < |readyQueue| ::
                  readyQueue[k].pid != current.pid && readyQueue[k].remainingTime < current.remainingTime
              case Priority(preemptive, aging) =>
                preemptive &&
                exists k | 0 <= k < |readyQueue| ::
                  readyQueue[k].pid != current.pid &&
                  EffectivePriority(aging, ViewOf(readyQueue[k]), now) < EffectivePriority(aging, ViewOf(current), now)
              case CFS =>
                readyQueue != [] &&
                var bar := current.vruntime - VStep(CFS_GRANULARITY, current.weight);
                (MAX_INT64 < bar ||
                 exists k | 0 <= k < |readyQueue| :: readyQueue[k].pid != current.pid && readyQueue[k].vruntime < bar)
              case MLFQ =>
                exists k | 0 <= k < |readyQueue| :: readyQueue[k] != current && LevelEntry(readyQueue[k]) < LevelEntry(current)
              case MLQ(_, _) =>
                exists k | 0 <= k < |readyQueue| :: readyQueue[k] != current && LevelEntry(readyQueue[k]) < LevelEntry(current)
              case _ => false
    {
      hide ViewOf, Views, LevelOf, LevelEntry, EffectivePriority, VStep;
      var views := Views(readyQueue);
      var all := [ViewOf(current)] + views;
      ViewFields(current);
      forall k | 0 <= k < |readyQueue|
        ensures all[After(|views|)[k]] == ViewOf(readyQueue[k])
        ensures var v := ViewOf(readyQueue[k]); var p := readyQueue[k];
                && v.pid == p.pid && v.remaining == p.remainingTime && v.vruntime == p.vruntime && LevelOf(v) == LevelEntry(p)
      {
        ViewFields(readyQueue[k]);
      }
      assert all[0] == ViewOf(current);
    }

    method Preempt(current: Process?, readyQueue: seq<Process>, currentTime: int) returns (b: bool)
      requires current != null ==> current.weight >= 1
      ensures b == (current != null && PreemptsAt(policy, currentTime, ViewOf(current), Views(readyQueue)))
    {
      hide PreemptsAt, ViewOf, Views, LevelEntry, EffectivePriority, VStep;
      if current == null {
        return false;
      }
      PreemptsMeans(current, readyQueue, currentTime);
      match policy {
        case SRTF => b := PreemptSRTF(current, readyQueue);
        case Priority(_, _) => b := PreemptPriority(current, readyQueue, currentTime);
        case CFS => b := PreemptCFS(current, readyQueue);
        case MLFQ => b := PreemptByLevel(current, readyQueue);
        case MLQ(_, _) => b := PreemptByLevel(current, readyQueue);
        case _ => b := false;
      }
    }

    // ---------- Per-process bookkeeping ----------

    method AddProcess(p: Process)
      modifies this`levels
      ensures levels == SetEntry(old(levels), p, Enlist(policy, old(ViewOf(p))))
    {
      match policy {
        case MLFQ =>
          if p !in levels {
            levels := levels[p := 0];
          }
        case MLQ(numLevels, _) =>
          levels := levels[p := LevelFor(numLevels, p.priority)];
        case _ =>
      }
    }

    method RemoveProcess(p: Process)
      modifies this`levels
      ensures levels == SetEntry(old(levels), p, Delist(policy, old(ViewOf(p))))
    {
      if policy.MLFQ? || policy.MLQ? {
        levels := levels - {p};
      }
    }

    method QuantumFor(p: Process) returns (q: int)
      requires policy.MLFQ? ==> 0 <= LevelEntry(p)
      ensures q == Policies.QuantumFor(policy, ViewOf(p))
    {
      match policy {
        case RoundRobin(quantum) => q := quantum;
        case CFS => q := CFS_GRANULARITY;
        case MLFQ =>
          var lvl := LevelEntry(p);
          if lvl >= MLFQ_LEVELS {
            lvl := MLFQ_LEVELS - 1;
          }
          q := [2, 4, 8][lvl];
        case Lottery(quantum, _) => q := quantum;
        case MLQ(_, quantum) => q := quantum;
        case _ => q := 0;
      }
    }

    method OnQuantumExpired(p: Process)
      modifies this`levels
      ensures levels == SetEntry(old(levels), p, Demote(policy, old(ViewOf(p))))
    {
      if policy.MLFQ? {
        var lvl := LevelEntry(p);
        if lvl < MLFQ_LEVELS - 1 {
          levels := levels[p := lvl + 1];
        }
      }
    }

    method Reset()
      modifies this`levels, rng
      ensures levels == map[]
      ensures rng.state == if policy.Lottery? then rng.seed else old(rng.state)
    {
      levels := map[];
      if policy.Lottery? {
        rng.state := rng.seed;
      }
    }
  }
}
