/** Whom each scheduler dispatches, in terms of the fields of the process records: the ready process with the
    least key, and the first in queue order of those. */
module Dispatches {
  import opened RandomWords
  import opened Processes
  import opened Policies
  import opened Engine
  import opened Invariants
  import Effects
  import Runs
  import Choice
  import Draws
  import CfsFairness
  import PriorityAging

  // ---------- Leaders ----------

  type Fields = (int, int, int)

  predicate AtMost(a: Fields, b: Fields) {
    || a.0 < b.0
    || (a.0 == b.0 && a.1 < b.1)
    || (a.0 == b.0 && a.1 == b.1 && a.2 <= b.2)
  }

  /** No key is less than the one at `k`, and none before it is as small. */
  predicate Leads(keys: seq<Fields>, k: nat) {
    && k < |keys|
    && (forall j | 0 <= j < |keys| :: AtMost(keys[k], keys[j]))
    && (forall j | 0 <= j < k :: keys[j] != keys[k])
  }

  function Keys(procs: seq<Proc>, q: seq<nat>, key: Proc -> Fields): (r: seq<Fields>)
    requires InRange(procs, q)
    ensures |r| == |q| && forall j | 0 <= j < |q| :: r[j] == key(procs[q[j]])
  {
    seq(|q|, j requires 0 <= j < |q| => key(procs[q[j]]))
  }

  /** The process picked is the leader of the queue by `key`. */
  ghost predicate PicksLeader(policy: Policy, now: int, procs: seq<Proc>, q: seq<nat>, word: Word, key: Proc -> Fields)
    requires q != [] && InRange(procs, q)
  {
    exists k: nat :: Leads(Keys(procs, q, key), k) && Pick(policy, now, procs, q, word) == q[k]
  }

  lemma RankPicksLeader(policy: Policy, now: int, procs: seq<Proc>, q: seq<nat>, word: Word, key: Proc -> Fields)
    requires q != [] && InRange(procs, q) && !policy.Lottery?
    requires forall p: Proc :: Rank(policy, now, p) == Key(key(p).0, key(p).1, key(p).2)
    ensures PicksLeader(policy, now, procs, q, word, key)
  {
    hide Rank, Best;
    var k := Choice.BestIsFirstLowest(policy, now, procs, q);
    var keys := Keys(procs, q, key);
    forall j | 0 <= j < |q|
      ensures AtMost(keys[k], keys[j]) && (j < k ==> keys[j] != keys[k])
    {
      assert Rank(policy, now, procs[q[j]]) == Key(keys[j].0, keys[j].1, keys[j].2);
      assert Rank(policy, now, procs[q[k]]) == Key(keys[k].0, keys[k].1, keys[k].2);
    }
    assert Leads(keys, k);
  }

  // ---------- One by one ----------

  /** FCFS: the earliest arrival. */
  lemma FcfsPicks(now: int, procs: seq<Proc>, q: seq<nat>, word: Word)
    requires q != [] && InRange(procs, q)
    ensures PicksLeader(FCFS, now, procs, q, word, (p: Proc) => (p.arrival, 0, 0))
  {
    RankPicksLeader(FCFS, now, procs, q, word, (p: Proc) => (p.arrival, 0, 0));
  }

  /** SJF: the shortest burst, then the earliest arrival. */
  lemma SjfPicks(now: int, procs: seq<Proc>, q: seq<nat>, word: Word)
    requires q != [] && InRange(procs, q)
    ensures PicksLeader(SJF, now, procs, q, word, (p: Proc) => (p.burst, p.arrival, 0))
  {
    RankPicksLeader(SJF, now, procs, q, word, (p: Proc) => (p.burst, p.arrival, 0));
  }

  /** SRTF: the shortest remaining time, then the earliest arrival. */
  lemma SrtfPicks(now: int, procs: seq<Proc>, q: seq<nat>, word: Word)
    requires q != [] && InRange(procs, q)
    ensures PicksLeader(SRTF, now, procs, q, word, (p: Proc) => (p.remaining, p.arrival, 0))
  {
    RankPicksLeader(SRTF, now, procs, q, word, (p: Proc) => (p.remaining, p.arrival, 0));
  }

  /** Round robin: the head of the queue. */
  lemma RoundRobinPicks(quantum: int, now: int, procs: seq<Proc>, q: seq<nat>, word: Word)
    requires q != [] && InRange(procs, q)
    ensures Pick(RoundRobin(quantum), now, procs, q, word) == q[0]
  {
    var key := (p: Proc) => (0, 0, 0);
    RankPicksLeader(RoundRobin(quantum), now, procs, q, word, key);
    var k: nat :| Leads(Keys(procs, q, key), k) && Pick(RoundRobin(quantum), now, procs, q, word) == q[k];
    var keys := Keys(procs, q, key);
    assert keys[k] == keys[0];
  }

  /** CFS: the least virtual runtime, then the lowest PID. */
  lemma CfsPicks(now: int, procs: seq<Proc>, q: seq<nat>, word: Word)
    requires q != [] && InRange(procs, q)
    ensures PicksLeader(CFS, now, procs, q, word, (p: Proc) => (p.vruntime, p.pid, 0))
  {
    RankPicksLeader(CFS, now, procs, q, word, (p: Proc) => (p.vruntime, p.pid, 0));
  }

  /** MLFQ: the lowest level entry, where a missing one counts as level 0, then the earliest arrival, then the lowest
      PID. */
  lemma MlfqPicks(now: int, procs: seq<Proc>, q: seq<nat>, word: Word)
    requires q != [] && InRange(procs, q)
    ensures PicksLeader(MLFQ, now, procs, q, word,
                        (p: Proc) => (match p.level { case None => 0 case Some(l) => l }, p.arrival, p.pid))
  {
    RankPicksLeader(MLFQ, now, procs, q, word,
                    (p: Proc) => (match p.level { case None => 0 case Some(l) => l }, p.arrival, p.pid));
  }

  /** MLQ: the lowest priority number, counted within `0 .. numLevels - 1`, then the earliest arrival, then the lowest
      PID. */
  lemma MlqPicks(numLevels: int, quantum: int, now: int, procs: seq<Proc>, q: seq<nat>, word: Word)
    requires q != [] && InRange(procs, q)
    ensures PicksLeader(MLQ(numLevels, quantum), now, procs, q, word,
                        (p: Proc) => (if p.priority < 0 then 0 else if p.priority >= numLevels then numLevels - 1 else p.priority,
                                      p.arrival, p.pid))
  {
    RankPicksLeader(MLQ(numLevels, quantum), now, procs, q, word,
                    (p: Proc) => (if p.priority < 0 then 0 else if p.priority >= numLevels then numLevels - 1 else p.priority,
                                  p.arrival, p.pid));
  }

  // ---------- Runs without preemption ----------

  /** Who runs in the tick after `s`: the process on the CPU, or else the leader of the ready queue. */
  ghost predicate KeepsOrTakesLeader(s: State, key: Proc -> Fields)
    requires Wf(s)
  {
    var a := Admitted(s);
    if a.current.Some? then Runner(s) == a.current
    else if a.ready == [] then Runner(s) == None
    else exists k: nat :: Leads(Keys(a.procs, a.ready, key), k) && Runner(s) == Some(a.ready[k])
  }

  lemma NeverPreempts(s: State, key: Proc -> Fields)
    requires Inv(s) && (s.policy.FCFS? || s.policy.SJF?)
    requires var a := Admitted(s);
             a.ready != [] ==> PicksLeader(a.policy, a.time, a.procs, a.ready, a.word, key)
    ensures KeepsOrTakesLeader(s, key)
  {
    hide Admitted, Pick, PickWord, RemoveFirst, ProcOk;
    Effects.ViewAdmitted(s);
    var a := Admitted(s);
    if a.current.Some? {
      CurrentUnfinished(a);
    } else if a.ready != [] {
      var k: nat :| Leads(Keys(a.procs, a.ready, key), k) && Pick(a.policy, a.time, a.procs, a.ready, a.word) == a.ready[k];
      assert Runner(s) == Some(a.ready[k]);
    }
  }

  lemma CurrentUnfinished(a: State)
    requires Inv(a) && a.current.Some?
    ensures !a.procs[a.current.value].Complete()
  {
    assert InPlace(a, a.current.value) && ProcOk(a.procs[a.current.value]);
  }

  /** FCFS in every run, with staggered arrivals and I/O: nobody loses the CPU, and it is given to the earliest arrival
      that is ready, the first in the queue of several. */
  lemma FcfsServes(seed: Word, procs: seq<Proc>, n: nat)
    requires Startable(FCFS, procs)
    ensures KeepsOrTakesLeader(Run(Initial(FCFS, seed, procs), n), (p: Proc) => (p.arrival, 0, 0))
  {
    hide Tick, Workload, KeepsOrTakesLeader, PicksLeader, Admitted;
    Runs.RunFacts(FCFS, seed, procs, n);
    var s := Run(Initial(FCFS, seed, procs), n);
    Effects.ViewAdmitted(s);
    var a := Admitted(s);
    if a.ready != [] {
      FcfsPicks(a.time, a.procs, a.ready, a.word);
    }
    NeverPreempts(s, (p: Proc) => (p.arrival, 0, 0));
  }

  /** SJF in every run, with staggered arrivals and I/O: nobody loses the CPU, and it is given to the shortest burst that
      is ready, of several to the earliest arrival, of several to the first in the queue. */
  lemma SjfServes(seed: Word, procs: seq<Proc>, n: nat)
    requires Startable(SJF, procs)
    ensures KeepsOrTakesLeader(Run(Initial(SJF, seed, procs), n), (p: Proc) => (p.burst, p.arrival, 0))
  {
    hide Tick, Workload, KeepsOrTakesLeader, PicksLeader, Admitted;
    Runs.RunFacts(SJF, seed, procs, n);
    var s := Run(Initial(SJF, seed, procs), n);
    Effects.ViewAdmitted(s);
    var a := Admitted(s);
    if a.ready != [] {
      SjfPicks(a.time, a.procs, a.ready, a.word);
    }
    NeverPreempts(s, (p: Proc) => (p.burst, p.arrival, 0));
  }

  // ---------- Priorities ----------

  /** `p` has been inactive for `k` whole intervals, since its last execution or, if that is later, its arrival. */
  predicate Waited(interval: int, p: Proc, now: int, k: nat)
    requires interval > 0
  {
    var last := if p.lastExecuted > p.arrival then p.lastExecuted else p.arrival;
    (k > 0 ==> last + k * interval <= now) && now < last + (k + 1) * interval
  }

  function AtLeastZero(x: int): int {
    if x < 0 then 0 else x
  }

  /** How urgent `p` is: without aging its priority; with aging, its priority less one for every whole interval it has
      been inactive, down to zero. */
  ghost predicate Urgency(interval: int, p: Proc, now: int, u: int) {
    if interval <= 0 then u == p.priority
    else exists k: nat :: Waited(interval, p, now, k) && u == AtLeastZero(p.priority - k)
  }

  lemma QuotientIs(a: int, d: int, k: int)
    requires d > 0 && k * d <= a < (k + 1) * d
    ensures a / d == k
  {
    var q := a / d;
    assert a == q * d + a % d;
    assert (k + 1 - q) * d == (k + 1) * d - q * d && (q + 1 - k) * d == q * d + d - k * d;
    PriorityAging.PositiveFactor(k + 1 - q, d);
    PriorityAging.PositiveFactor(q + 1 - k, d);
  }

  /** The effective priority is that urgency. */
  lemma EffectivePriorityIs(interval: int, p: Proc, now: int, u: int)
    requires Urgency(interval, p, now, u)
    ensures EffectivePriority(interval, p, now) == u
  {
    if interval > 0 {
      var k: nat :| Waited(interval, p, now, k) && u == AtLeastZero(p.priority - k);
      var last := if p.lastExecuted > p.arrival then p.lastExecuted else p.arrival;
      QuotientIs(if now - last < 0 then 0 else now - last, interval, k);
    }
  }

  /** Every process has an urgency. */
  lemma UrgencyExists(interval: int, p: Proc, now: int) returns (u: int)
    ensures Urgency(interval, p, now, u)
  {
    if interval <= 0 {
      u := p.priority;
    } else {
      var last := if p.lastExecuted > p.arrival then p.lastExecuted else p.arrival;
      var k: nat := if now < last then 0 else WholeIntervals(now - last, interval);
      u := AtLeastZero(p.priority - k);
      assert Waited(interval, p, now, k);
    }
  }

  function WholeIntervals(a: nat, d: int): (k: nat)
    requires d > 0
    ensures k * d <= a < (k + 1) * d
  {
    a / d
  }

  /** Preemptive priority: the process that runs has the least effective priority of all that compete. */
  lemma RunsLeastEffective(s: State)
    requires Inv(s) && s.policy.Priority? && s.policy.preemptive && DistinctPids(s.procs)
    ensures var a := Admitted(s); var r := Runner(s); var interval := s.policy.agingInterval;
            |a.procs| == |s.procs| &&
            (r.Some? ==>
              && r.value < |a.procs|
              && forall j | 0 <= j < |a.procs| && Effects.Active(a.procs[j]) ::
                   EffectivePriority(interval, a.procs[r.value], s.time) <= EffectivePriority(interval, a.procs[j], s.time))
  {
    hide Admitted, Runner, Effects.AfterAdmission, ProcOk, LevelOf, EffectivePriority;
    Choice.RunnerChoice(s);
    Effects.ViewAdmitted(s);
    var a := Admitted(s);
    var interval := s.policy.agingInterval;
    if a.current.Some? && !Preempts(a.policy, a.time, a.procs, a.current.value, a.ready) {
      var c := a.current.value;
      forall j | 0 <= j < |a.procs| && Effects.Active(a.procs[j])
        ensures EffectivePriority(interval, a.procs[c], s.time) <= EffectivePriority(interval, a.procs[j], s.time)
      {
        assert InPlace(a, j) && InPlace(a, c);
        if j != c {
          var k :| 0 <= k < |a.ready| && a.ready[k] == j;
          PidsApart(s.procs, j, c);
          AdmissionKeepsPid(s.policy, s.time, s.procs[j]);
          AdmissionKeepsPid(s.policy, s.time, s.procs[c]);
        }
      }
    } else if Runner(s).Some? {
      var m := Runner(s).value;
      forall j | 0 <= j < |a.procs| && Effects.Active(a.procs[j])
        ensures EffectivePriority(interval, a.procs[m], s.time) <= EffectivePriority(interval, a.procs[j], s.time)
      {
        assert !Less(Rank(s.policy, s.time, a.procs[j]), Rank(s.policy, s.time, a.procs[m]));
      }
    }
  }

  lemma AdmissionKeepsPid(policy: Policy, now: int, p: Proc)
    ensures Effects.AfterAdmission(policy, now, p).pid == p.pid
  {
  }

  /** Preemptive priority scheduling in every run: nobody who competes is more urgent than the process that runs. */
  lemma PreemptivePriorityServes(interval: int, seed: Word, procs: seq<Proc>, n: nat, j: nat, ur: int, uj: int)
    requires Startable(Priority(true, interval), procs) && DistinctPids(procs)
    requires var a := Admitted(Run(Initial(Priority(true, interval), seed, procs), n));
             var r := Runner(Run(Initial(Priority(true, interval), seed, procs), n));
             && r.Some? && r.value < |a.procs| && j < |a.procs| && Effects.Active(a.procs[j])
             && Urgency(interval, a.procs[r.value], n, ur) && Urgency(interval, a.procs[j], n, uj)
    ensures ur <= uj
  {
    hide Tick, Admitted, Runner, Workload, DistinctPids, Urgency, EffectivePriority;
    var s := Run(Initial(Priority(true, interval), seed, procs), n);
    Runs.OnTrackRun(Priority(true, interval), seed, procs, n);
    Runs.PidsKept(procs, s);
    RunsLeastEffective(s);
    EffectivePriorityIs(interval, Admitted(s).procs[Runner(s).value], n, ur);
    EffectivePriorityIs(interval, Admitted(s).procs[j], n, uj);
  }

  /** In particular, if nobody who competes has been inactive for a whole interval, or there is no aging, the process
      that runs has the lowest configured priority number, or one that is not positive. */
  lemma LowestPriorityRuns(interval: int, seed: Word, procs: seq<Proc>, n: nat, j: nat)
    requires Startable(Priority(true, interval), procs) && DistinctPids(procs)
    requires var a := Admitted(Run(Initial(Priority(true, interval), seed, procs), n));
             var r := Runner(Run(Initial(Priority(true, interval), seed, procs), n));
             && r.Some? && r.value < |a.procs| && j < |a.procs| && Effects.Active(a.procs[j])
             && (interval > 0 ==> Waited(interval, a.procs[r.value], n, 0) && Waited(interval, a.procs[j], n, 0))
    ensures var r := Runner(Run(Initial(Priority(true, interval), seed, procs), n)).value;
            && r < |procs| && j < |procs|
            && (procs[r].priority <= procs[j].priority || (interval > 0 && procs[r].priority <= 0))
  {
    hide Tick, Admitted, Runner, Workload, DistinctPids, Waited, ResetProc;
    var s := Run(Initial(Priority(true, interval), seed, procs), n);
    var a, r := Admitted(s), Runner(s).value;
    Runs.OnTrackRun(Priority(true, interval), seed, procs, n);
    Effects.ViewAdmitted(s);
    PriorityConfigured(procs, s, r);
    PriorityConfigured(procs, s, j);
    UrgencyOfYoung(interval, a.procs[r], n);
    UrgencyOfYoung(interval, a.procs[j], n);
    PreemptivePriorityServes(interval, seed, procs, n, j, PriorityOfYoung(interval, a.procs[r]), PriorityOfYoung(interval, a.procs[j]));
  }

  function PriorityOfYoung(interval: int, p: Proc): int {
    if interval <= 0 then p.priority else AtLeastZero(p.priority)
  }

  lemma UrgencyOfYoung(interval: int, p: Proc, now: int)
    requires interval > 0 ==> Waited(interval, p, now, 0)
    ensures Urgency(interval, p, now, PriorityOfYoung(interval, p))
  {
    if interval > 0 {
      assert Waited(interval, p, now, 0) && AtLeastZero(p.priority) == AtLeastZero(p.priority - 0);
    }
  }

  lemma PriorityConfigured(procs: seq<Proc>, s: State, i: nat)
    requires Runs.OnTrack(procs, s) && i < |procs|
    ensures |Admitted(s).procs| == |procs| && Admitted(s).procs[i].priority == procs[i].priority
  {
    hide Admitted, ProcOk, InPlace;
    Effects.ViewAdmitted(s);
    assert ResetProc(s.procs[i]).priority == procs[i].priority;
  }

  /** A dispatch under either priority policy: nobody ready is more urgent than the process that gets the CPU, nor as
      urgent with an earlier arrival, nor so with the same arrival and a place before it. */
  lemma PriorityPicks(preemptive: bool, interval: int, now: int, procs: seq<Proc>, q: seq<nat>, word: Word, j: nat, uj: int)
    returns (k: nat, u: int)
    requires q != [] && InRange(procs, q) && j < |q| && Urgency(interval, procs[q[j]], now, uj)
    ensures k < |q| && Pick(Priority(preemptive, interval), now, procs, q, word) == q[k] && Urgency(interval, procs[q[k]], now, u)
    ensures AtMost((u, procs[q[k]].arrival, k), (uj, procs[q[j]].arrival, j))
  {
    hide Urgency, EffectivePriority, Best, Less;
    var policy := Priority(preemptive, interval);
    k := Choice.BestIsFirstLowest(policy, now, procs, q);
    u := UrgencyExists(interval, procs[q[k]], now);
    EffectivePriorityIs(interval, procs[q[k]], now, u);
    EffectivePriorityIs(interval, procs[q[j]], now, uj);
    var a, b := Rank(policy, now, procs[q[k]]), Rank(policy, now, procs[q[j]]);
    KeysInOrder(a, b);
  }

  lemma KeysInOrder(a: Key, b: Key)
    requires a.minor == b.minor
    ensures !Less(b, a) ==> a.major < b.major || (a.major == b.major && a.middle <= b.middle)
    ensures Less(a, b) ==> a.major < b.major || (a.major == b.major && a.middle < b.middle)
  {
  }

  /** Non-preemptive priority scheduling in every run: nobody loses the CPU, and a free one is given to a process than
      which nobody ready is more urgent, nor as urgent with an earlier arrival, nor so with the same arrival and a place
      before it. */
  lemma NonPreemptivePriorityServes(interval: int, seed: Word, procs: seq<Proc>, n: nat, j: nat, uj: int) returns (k: nat, u: int)
    requires Startable(Priority(false, interval), procs)
    requires var a := Admitted(Run(Initial(Priority(false, interval), seed, procs), n));
             j < |a.ready| && InRange(a.procs, a.ready) && Urgency(interval, a.procs[a.ready[j]], n, uj)
    ensures var s := Run(Initial(Priority(false, interval), seed, procs), n); var a := Admitted(s);
            && (a.current.Some? ==> Runner(s) == a.current)
            && (a.current.None? ==>
                  && k < |a.ready| && Runner(s) == Some(a.ready[k]) && Urgency(interval, a.procs[a.ready[k]], n, u)
                  && AtMost((u, a.procs[a.ready[k]].arrival, k), (uj, a.procs[a.ready[j]].arrival, j)))
  {
    hide Tick, Admitted, Workload, Urgency, Pick, PickWord, RemoveFirst, ProcOk, InPlace;
    var s := Run(Initial(Priority(false, interval), seed, procs), n);
    Runs.RunFacts(Priority(false, interval), seed, procs, n);
    Effects.ViewAdmitted(s);
    var a := Admitted(s);
    k, u := PriorityPicks(false, interval, n, a.procs, a.ready, a.word, j, uj);
    if a.current.Some? {
      CurrentUnfinished(a);
    }
  }

  // ---------- CFS ----------

  /** Some process in the queue, other than one with the PID of `c`, has weighted CPU time below `bar`; or the bar is out of
      the range of the minimum the scan starts from. */
  predicate Behind(config: seq<Proc>, procs: seq<Proc>, q: seq<nat>, c: nat, bar: int)
    requires |config| == |procs| && InRange(procs, q) && c < |procs|
    requires forall i | 0 <= i < |config| :: config[i].weight >= 1
  {
    q != [] &&
    (bar > 0x7FFF_FFFF_FFFF_FFFF ||
     exists k | 0 <= k < |q| ::
       config[q[k]].pid != config[c].pid && procs[q[k]].Executed() * (0x10_0000 / config[q[k]].weight) < bar)
  }

  lemma BehindIsPreempts(config: seq<Proc>, procs: seq<Proc>, q: seq<nat>, c: nat, now: int)
    requires |config| == |procs| && InRange(procs, q) && c < |procs|
    requires forall i | 0 <= i < |config| ::
               && config[i].weight >= 1 && procs[i].pid == config[i].pid && procs[i].weight == config[i].weight
               && procs[i].vruntime == procs[i].Executed() * (0x10_0000 / config[i].weight)
    ensures Behind(config, procs, q, c, (procs[c].Executed() - 1) * (0x10_0000 / config[c].weight)) <==>
            Preempts(CFS, now, procs, c, q)
  {
    var st := 0x10_0000 / config[c].weight;
    assert (procs[c].Executed() - 1) * st == procs[c].Executed() * st - st;
    assert VStep(CFS_GRANULARITY, procs[c].weight) == st;
  }

  /** CFS in every run: the process on the CPU is preempted exactly if somebody else's weighted CPU time is behind its own
      by more than the weighted tick it is granted. */
  lemma CfsPreemptsIff(seed: Word, procs: seq<Proc>, n: nat)
    requires Startable(CFS, procs)
    ensures var s := Run(Initial(CFS, seed, procs), n); var a := Admitted(s);
            && |a.procs| == |procs| && InRange(a.procs, a.ready)
            && (forall i | 0 <= i < |procs| :: procs[i].weight >= 1)
            && (a.current.Some? ==>
                  var c := a.current.value;
                  && c < |procs|
                  && (Draws.DispatchAsks(a) == Some(PreemptCurrent(a)) <==>
                      Behind(procs, a.procs, a.ready, c, (a.procs[c].Executed() - 1) * (0x10_0000 / procs[c].weight))))
  {
    hide Tick, Admitted, Workload, PreemptCurrent, Behind, Preempts;
    var s := Run(Initial(CFS, seed, procs), n);
    Runs.OnTrackRun(CFS, seed, procs, n);
    CfsFairness.VruntimeMeasuresService(CFS, seed, procs, n);
    Effects.ViewAdmitted(s);
    var a := Admitted(s);
    forall i | 0 <= i < |procs|
      ensures a.procs[i].pid == procs[i].pid && a.procs[i].weight == procs[i].weight && procs[i].weight >= 1
      ensures a.procs[i].vruntime == a.procs[i].Executed() * (0x10_0000 / procs[i].weight)
    {
      WeightedService(procs, s, i);
    }
    if a.current.Some? {
      CurrentUnfinished(a);
      BehindIsPreempts(procs, a.procs, a.ready, a.current.value, a.time);
    }
  }

  lemma WeightedService(procs: seq<Proc>, s: State, i: nat)
    requires Runs.OnTrack(procs, s) && i < |procs| && CfsFairness.AllVruntimes(s)
    ensures |Admitted(s).procs| == |procs|
    ensures var p := Admitted(s).procs[i];
            && p.pid == procs[i].pid && p.weight == procs[i].weight && procs[i].weight >= 1
            && p.vruntime == p.Executed() * (0x10_0000 / procs[i].weight)
  {
    hide Admitted, InPlace;
    Effects.ViewAdmitted(s);
    assert ProcOk(s.procs[i]) && CfsFairness.VruntimeIsService(s.procs[i]);
    assert ResetProc(s.procs[i]) == procs[i];
    CfsFairness.AdmissionKeepsVruntime(s.policy, s.time, s.procs[i]);
  }
}
