/** The ten scheduling policies as functions on process records: how a policy ranks the ready queue,
    when it preempts, and which quantum it grants. */
module Policies {
  import opened RandomWords
  import opened Processes

  /** A random source: the value drawn below a bound, and the state after the draw.
      `isDefault` says whether it is the built-in generator, the only one `Reset` rewinds. */
  datatype Rng = Rng(draw: (Word, int) -> int, next: (Word, int) -> Word, isDefault: bool)

  const DEFAULT_RNG: Rng := Rng((w, n) => Intn(w, n), (w, n) => IntnWord(w, n), true)

  datatype Policy =
    | FCFS
    | SJF
    | SRTF
    | RoundRobin(quantum: int)
    | Priority(preemptive: bool, agingInterval: int)
    | CFS
    | MLFQ
    | Lottery(quantum: int, rng: Rng)
    | MLQ(numLevels: int, quantum: int)

  const MLFQ_LEVELS := 3
  const CFS_GRANULARITY := 1
  const MAX_INT64 := 0x7FFF_FFFF_FFFF_FFFF

  /** What the constructors guarantee about their parameters. */
  predicate ValidPolicy(policy: Policy) {
    match policy
    case RoundRobin(q) => q >= 1
    case Lottery(q, _) => q >= 1
    case MLQ(n, q) => n >= 1 && q >= 1
    case _ => true
  }

  // ---------- Levels ----------

  /** A Go map lookup: a missing key reads as 0. */
  function LevelOf(p: Proc): int {
    match p.level case None => 0 case Some(l) => l
  }

  function LevelFor(numLevels: int, priority: int): int {
    if priority < 0 then 0 else if priority >= numLevels then numLevels - 1 else priority
  }

  /** `AddProcess` of the scheduler. */
  function Enlist(policy: Policy, p: Proc): Option<int> {
    match policy
    case MLFQ => if p.level.None? then Some(0) else p.level
    case MLQ(n, _) => Some(LevelFor(n, p.priority))
    case _ => p.level
  }

  /** `RemoveProcess` of the scheduler. */
  function Delist(policy: Policy, p: Proc): Option<int> {
    match policy
    case MLFQ => None
    case MLQ(_, _) => None
    case _ => p.level
  }

  /** `OnQuantumExpired` of the scheduler. */
  function Demote(policy: Policy, p: Proc): Option<int> {
    if policy.MLFQ? && LevelOf(p) < MLFQ_LEVELS - 1 then Some(LevelOf(p) + 1) else p.level
  }

  function MlfqQuantum(level: int): int {
    if level == 0 then 2 else if level == 1 then 4 else 8
  }

  function QuantumFor(policy: Policy, p: Proc): int {
    match policy
    case RoundRobin(q) => q
    case CFS => CFS_GRANULARITY
    case MLFQ => MlfqQuantum(LevelOf(p))
    case Lottery(q, _) => q
    case MLQ(_, q) => q
    case _ => 0
  }

  /** The policies that never take the CPU back at the end of a tick. */
  predicate QuantumFree(policy: Policy) {
    policy.FCFS? || policy.SJF? || policy.SRTF? || policy.Priority?
  }

  // ---------- Ranking ----------

  function EffectivePriority(agingInterval: int, p: Proc, now: int): int {
    if agingInterval <= 0 then p.priority else
    var lastActivity := if p.lastExecuted > p.arrival then p.lastExecuted else p.arrival;
    var waited := if now - lastActivity < 0 then 0 else now - lastActivity;
    var eff := p.priority - waited / agingInterval;
    if eff < 0 then 0 else eff
  }

  datatype Key = Key(major: int, middle: int, minor: int)

  predicate Less(a: Key, b: Key) {
    || a.major < b.major
    || (a.major == b.major && (a.middle < b.middle || (a.middle == b.middle && a.minor < b.minor)))
  }

  /** What a policy ranks by; the lowest key wins and queue order breaks the remaining ties.
      (Lottery does not rank.) */
  function Rank(policy: Policy, now: int, p: Proc): Key {
    match policy
    case FCFS => Key(p.arrival, 0, 0)
    case SJF => Key(p.burst, p.arrival, 0)
    case SRTF => Key(p.remaining, p.arrival, 0)
    case RoundRobin(_) => Key(0, 0, 0)
    case Priority(_, aging) => Key(EffectivePriority(aging, p, now), p.arrival, 0)
    case CFS => Key(p.vruntime, p.pid, 0)
    case MLFQ => Key(LevelOf(p), p.arrival, p.pid)
    case Lottery(_, _) => Key(0, 0, 0)
    case MLQ(n, _) => Key(LevelFor(n, p.priority), p.arrival, p.pid)
  }

  predicate InRange(procs: seq<Proc>, q: seq<nat>) {
    forall k | 0 <= k < |q| :: q[k] < |procs|
  }

  /** The first element of the queue with the lowest key, found by one scan from the head. */
  function Best(policy: Policy, now: int, procs: seq<Proc>, q: seq<nat>): (b: nat)
    requires q != [] && InRange(procs, q)
    ensures b in q
  {
    if |q| == 1 then q[0] else
    var b := Best(policy, now, procs, q[..|q| - 1]);
    var a := q[|q| - 1];
    if Less(Rank(policy, now, procs[a]), Rank(policy, now, procs[b])) then a else b
  }

  // ---------- Lottery ----------

  function TicketsOf(p: Proc): (n: int)
    ensures n >= 1
  {
    if p.weight <= 0 then 1 else p.weight
  }

  function Tickets(procs: seq<Proc>, q: seq<nat>): (n: int)
    requires InRange(procs, q)
    ensures n >= |q|
  {
    if q == [] then 0 else Tickets(procs, q[..|q| - 1]) + TicketsOf(procs[q[|q| - 1]])
  }

  /** The position in the queue of the holder of ticket `winner`: the first whose running total
      exceeds it, and the last position when none does. */
  function Holder(procs: seq<Proc>, q: seq<nat>, winner: int): (k: nat)
    requires q != [] && InRange(procs, q)
    ensures k < |q|
  {
    if |q| == 1 then 0
    else if winner < Tickets(procs, q[..|q| - 1]) then Holder(procs, q[..|q| - 1], winner)
    else |q| - 1
  }

  // ---------- Scheduling and preemption ----------

  /** `Schedule` on a non-empty queue. */
  function Pick(policy: Policy, now: int, procs: seq<Proc>, q: seq<nat>, word: Word): (b: nat)
    requires q != [] && InRange(procs, q)
    ensures b in q
  {
    match policy
    case Lottery(_, rng) => q[Holder(procs, q, rng.draw(word, Tickets(procs, q)))]
    case _ => Best(policy, now, procs, q)
  }

  /** The random source's state after `Schedule`. */
  function PickWord(policy: Policy, procs: seq<Proc>, q: seq<nat>, word: Word): Word
    requires InRange(procs, q)
  {
    match policy
    case Lottery(_, rng) => rng.next(word, Tickets(procs, q))
    case _ => word
  }

  /** `Preempt` with `cur` on the CPU. */
  predicate Preempts(policy: Policy, now: int, procs: seq<Proc>, cur: nat, q: seq<nat>)
    requires cur < |procs| && InRange(procs, q)
  {
    match policy
    case SRTF =>
      exists k | 0 <= k < |q| :: procs[q[k]].pid != procs[cur].pid && procs[q[k]].remaining < procs[cur].remaining
    case Priority(preemptive, aging) =>
      preemptive &&
      exists k | 0 <= k < |q| :: procs[q[k]].pid != procs[cur].pid &&
        EffectivePriority(aging, procs[q[k]], now) < EffectivePriority(aging, procs[cur], now)
    case CFS =>
      var bar := procs[cur].vruntime - VStep(CFS_GRANULARITY, procs[cur].weight);
      q != [] &&
      (MAX_INT64 < bar || exists k | 0 <= k < |q| :: procs[q[k]].pid != procs[cur].pid && procs[q[k]].vruntime < bar)
    case MLFQ =>
      exists k | 0 <= k < |q| :: q[k] != cur && LevelOf(procs[q[k]]) < LevelOf(procs[cur])
    case MLQ(_, _) =>
      exists k | 0 <= k < |q| :: q[k] != cur && LevelOf(procs[q[k]]) < LevelOf(procs[cur])
    case _ => false
  }
}
