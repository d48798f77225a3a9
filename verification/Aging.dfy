/** Priority scheduling with aging does not starve: a waiting process gets the CPU within a time that does
    not depend on how many processes arrive after it. */
module PriorityAging {
  import opened RandomWords
  import opened Processes
  import opened Policies
  import opened Engine
  import opened Invariants
  import opened Effects
  import Runs
  import Choice
  import Quanta
  import opened Sums

  /** When the process last arrived or executed. */
  function LastActivity(p: Proc): int {
    if p.lastExecuted > p.arrival then p.lastExecuted else p.arrival
  }

  lemma QuotientMonotone(a: int, b: int, d: int)
    requires 0 <= a <= b && d > 0
    ensures 0 <= a / d <= b / d
  {
    var x, y := a / d, b / d;
    assert a == x * d + a % d && b == y * d + b % d;
    assert (y - x) * d == y * d - x * d;
    AboveMinusOne(y - x, d);
    AboveMinusOne(x, d);
  }

  lemma AboveMinusOne(x: int, d: int)
    requires d > 0 && x * d > -d
    ensures x >= 0
  {
    assert (x + 1) * d == x * d + d;
    PositiveFactor(x + 1, d);
  }

  lemma PositiveFactor(a: int, d: int)
    requires d > 0
    ensures a * d > 0 ==> a > 0
  {
    if a <= 0 {
      MulNonNegative(-a, d);
      assert -a * d == -(a * d);
    }
  }

  lemma ProductQuotient(a: int, d: int)
    requires d > 0
    ensures a * d / d == a
  {
    var q := a * d / d;
    assert a * d == q * d + a * d % d;
    assert (a - q) * d == a * d - q * d;
    assert (q - a) * d == q * d - a * d;
    AboveMinusOne(a - q, d);
    AboveMinusOne(q - a, d);
  }

  /** While a process waits, its effective priority never gets worse. */
  lemma EffectivePriorityImproves(interval: int, p: Proc, now: int, later: int)
    requires now <= later && interval > 0
    ensures 0 <= EffectivePriority(interval, p, later) <= EffectivePriority(interval, p, now)
  {
    var a := if now - LastActivity(p) < 0 then 0 else now - LastActivity(p);
    var b := if later - LastActivity(p) < 0 then 0 else later - LastActivity(p);
    QuotientMonotone(a, b, interval);
  }

  /** Ticks of waiting after which nobody outranks a process of this priority. */
  function AgingTime(priority: int, interval: int): (n: int)
    ensures interval > 0 ==> n >= 0
  {
    if priority <= 0 then 0 else MulNonNegative(priority, interval); priority * interval
  }

  lemma MulNonNegative(a: int, b: int)
    ensures a >= 0 && b >= 0 ==> a * b >= 0
  {
  }

  /** After that time its effective priority is the best there is. */
  lemma AgedOut(interval: int, p: Proc, now: int)
    requires interval > 0 && now - LastActivity(p) >= AgingTime(p.priority, interval)
    ensures EffectivePriority(interval, p, now) == 0
  {
    var waited := now - LastActivity(p);
    if p.priority > 0 {
      MulNonNegative(p.priority, interval);
      QuotientMonotone(p.priority * interval, waited, interval);
      ProductQuotient(p.priority, interval);
    } else {
      QuotientMonotone(0, waited, interval);
    }
  }

  ghost predicate Ages(policy: Policy) {
    policy.Priority? && policy.agingInterval > 0
  }

  /** Waiting, and with the best effective priority. */
  ghost predicate Aged(s: State, p: nat) {
    && Ages(s.policy) && p < |s.procs| && s.procs[p].state == Ready
    && EffectivePriority(s.policy.agingInterval, s.procs[p], s.time) == 0
  }

  /** CPU time that can come before `p`: all that is left of processes that arrived no later, and of the one
      on the CPU. */
  ghost function Ahead(s: State, p: nat): (r: seq<int>)
    requires p < |s.procs|
    ensures |r| == |s.procs|
  {
    seq(|s.procs|, i requires 0 <= i < |s.procs| =>
        if i != p && (s.procs[i].arrival <= s.procs[p].arrival || s.current == Some(i)) then s.procs[i].remaining else 0)
  }

  /** While an aged process waits, the CPU only goes to processes that arrived no later. */
  lemma DispatchAfterAging(s: State, p: nat)
    requires Inv(s) && Aged(Admitted(s), p)
    ensures var a := Admitted(s); var r := Runner(s);
            && r.Some? && r.value < |a.procs|
            && (r != a.current ==> a.procs[r.value].arrival <= a.procs[p].arrival)
  {
    hide Admitted, Runner, AfterAdmission, ProcOk, InPlace, Preempts, EffectivePriority;
    AdmittedClock(s);
    Choice.RunnerChoice(s);
    ViewAdmitted(s);
    ViewDispatched(s);
    var a := Admitted(s);
    RunnerIsCurrent(s);
    assert Active(a.procs[p]);
    var r := Runner(s).value;
    if r < |a.procs| {
      EffectivePriorityImproves(a.policy.agingInterval, a.procs[r], a.time, a.time);
      assert !Less(Rank(a.policy, a.time, a.procs[p]), Rank(a.policy, a.time, a.procs[r])) || Runner(s) == a.current;
    }
  }

  lemma RunnerIsCurrent(s: State)
    requires Wf(s)
    ensures Runner(s) == Dispatched(s).current
  {
  }

  lemma AgedStays(s: State, p: nat)
    requires Inv(s) && Aged(Admitted(s), p) && Runner(s) != Some(p)
    ensures Inv(Tick(s)) && Aged(Admitted(Tick(s)), p)
  {
    hide Tick, Runner, Admitted, ProcOk, InPlace, LevelBounded, EffectivePriority;
    AdmittedClock(s);
    StaysReady(s, p);
    AdmittedClock(Tick(s));
    var a, b := Admitted(s), Admitted(Tick(s));
    EffectivePriorityImproves(a.policy.agingInterval, a.procs[p], a.time, b.time);
    SameEffectivePriority(a.policy.agingInterval, a.procs[p], b.procs[p], b.time);
  }

  /** The runner, who is on the CPU or arrived no later, loses a unit; nobody new gets ahead. */
  lemma AheadFalls(a: State, b: State, p: nat, r: nat)
    requires |a.procs| == |b.procs| && p < |a.procs| && r < |a.procs| && r != p
    requires b.current == None || b.current == Some(r)
    requires a.current == Some(r) || a.procs[r].arrival <= a.procs[p].arrival
    requires a.procs[r].remaining >= 1
    requires forall i | 0 <= i < |a.procs| ::
               && b.procs[i].arrival == a.procs[i].arrival && a.procs[i].remaining >= 0
               && b.procs[i].remaining == a.procs[i].remaining - if i == r then 1 else 0
    ensures Sum(Ahead(b, p)) < Sum(Ahead(a, p))
  {
    SumDrop(Ahead(b, p), Ahead(a, p), r, 1);
  }

  /** One tick of waiting: still aged, and some of the time ahead is used up. */
  lemma AgedTick(s: State, p: nat)
    requires Inv(s) && Aged(Admitted(s), p) && Runner(s) != Some(p)
    ensures var a := Admitted(s); var b := Admitted(Tick(s));
            && p < |a.procs| && p < |b.procs| && Inv(Tick(s))
            && Aged(b, p)
            && Sum(Ahead(b, p)) < Sum(Ahead(a, p))
  {
    hide Tick, Runner, Admitted, ProcOk, InPlace, LevelBounded, EffectivePriority, Ahead;
    AdmittedClock(s);
    AgedStays(s, p);
    DispatchAfterAging(s, p);
    InvAdmitted(s);
    AdmittedClock(Tick(s));
    CurrentAfterTick(s);
    var a, b := Admitted(s), Admitted(Tick(s));
    forall i | 0 <= i < |a.procs|
      ensures |b.procs| == |a.procs|
      ensures b.procs[i].arrival == a.procs[i].arrival && a.procs[i].remaining >= 0
      ensures b.procs[i].remaining == a.procs[i].remaining - (if Runner(s) == Some(i) then 1 else 0)
      ensures Runner(s) == Some(i) ==> a.procs[i].remaining >= 1
    {
      KeptFields(s, i);
      RemainingNonNegative(a, i);
    }
    AheadFalls(a, b, p, Runner(s).value);
  }

  lemma SameEffectivePriority(interval: int, p: Proc, q: Proc, now: int)
    requires q.priority == p.priority && q.lastExecuted == p.lastExecuted && q.arrival == p.arrival
    ensures EffectivePriority(interval, q, now) == EffectivePriority(interval, p, now)
  {
  }

  lemma RemainingNonNegative(s: State, i: nat)
    requires Inv(s) && i < |s.procs|
    ensures s.procs[i].remaining >= 0
  {
    assert ProcOk(s.procs[i]);
  }

  /** The next tick's decision sees the same arrival time, and the work left after this tick. */
  lemma KeptFields(s: State, i: nat)
    requires Inv(s) && i < |s.procs|
    ensures |Admitted(s).procs| == |Tick(s).procs| == |s.procs| && Inv(Tick(s)) && |Admitted(Tick(s)).procs| == |s.procs|
    ensures var p := Admitted(s).procs[i]; var q := Admitted(Tick(s)).procs[i];
            && q.arrival == p.arrival
            && q.remaining == p.remaining - (if Runner(s) == Some(i) then 1 else 0)
            && (Runner(s) == Some(i) ==> p.remaining >= 1)
  {
    hide Tick, Runner, Admitted, AfterExecution, AfterAdmission, ProcOk, InPlace;
    ViewAdmitted(s);
    ViewTick(s);
    ViewAdmitted(Tick(s));
    TickSpends(s);
    AdmissionKeepsArrival(s.policy, s.time, s.procs[i]);
    AdmissionKeepsArrival(Tick(s).policy, Tick(s).time, Tick(s).procs[i]);
    ExecutionKeepsArrival(s.policy, s.time, AfterAdmission(s.policy, s.time, s.procs[i]));
    assert Alike(Ticked(s, i), Tick(s).procs[i]);
  }

  lemma AdmissionKeepsArrival(policy: Policy, now: int, p: Proc)
    ensures var q := AfterAdmission(policy, now, p);
            q.arrival == p.arrival && q.remaining == p.remaining && q.priority == p.priority && q.lastExecuted == p.lastExecuted
  {
  }

  lemma ExecutionKeepsArrival(policy: Policy, now: int, p: Proc)
    ensures AfterExecution(policy, now, p).arrival == p.arrival && AfterExecution(policy, now, p).priority == p.priority
  {
  }

  /** Without a quantum, nobody but the runner is on the CPU when the tick is over. */
  lemma CurrentAfterTick(s: State)
    requires Inv(s) && Ages(s.policy)
    ensures Tick(s).current == None || Tick(s).current == Runner(s)
  {
    hide Dispatched, ExecuteCurrent, CheckIOBurst, ProcOk, InPlace, AfterExecution;
    ViewDispatched(s);
    var d := Dispatched(s);
    if d.current.Some? {
      ViewExecution(d);
    }
  }

  /** Who waits and does not run keeps waiting, with the same priority and last activity. */
  lemma StaysReady(s: State, p: nat)
    requires Inv(s) && Ages(s.policy) && p < |s.procs| && Runner(s) != Some(p)
    requires p < |Admitted(s).procs| && Admitted(s).procs[p].state == Ready
    ensures Inv(Tick(s)) && |Admitted(Tick(s)).procs| == |s.procs|
    ensures var x := Admitted(s).procs[p]; var y := Admitted(Tick(s)).procs[p];
            y.state == Ready && y.priority == x.priority && y.lastExecuted == x.lastExecuted && y.arrival == x.arrival
    ensures Admitted(Tick(s)).time == s.time + 1 && Admitted(Tick(s)).policy == s.policy
  {
    hide Tick, Runner, Admitted, ProcOk, AfterExecution;
    ViewAdmitted(s);
    ViewTick(s);
    CurrentAfterTick(s);
    var t := Tick(s);
    ViewAdmitted(t);
    assert Alike(Ticked(s, p), t.procs[p]);
    assert InPlace(t, p);
  }

  lemma AheadNonNegative(s: State, p: nat)
    requires Inv(s) && p < |s.procs|
    ensures Sum(Ahead(s, p)) >= 0
  {
    hide ProcOk, InPlace;
    forall i | 0 <= i < |s.procs|
      ensures Ahead(s, p)[i] >= 0
    {
      RemainingNonNegative(s, i);
    }
    SumNonNegative(Ahead(s, p));
  }

  /** An aged process executes within the CPU time ahead of it. */
  lemma {:induction false} AgedRuns(s: State, p: nat) returns (d: nat)
    requires Inv(s) && Aged(Admitted(s), p)
    ensures p < |Admitted(s).procs| && d <= Sum(Ahead(Admitted(s), p))
    ensures Runner(Run(s, d)) == Some(p)
    decreases if p < |Admitted(s).procs| then Sum(Ahead(Admitted(s), p)) else 0
  {
    hide Tick, Runner, Admitted, Ahead, ProcOk, InPlace, EffectivePriority;
    InvAdmitted(s);
    AheadNonNegative(Admitted(s), p);
    if Runner(s) == Some(p) {
      d := 0;
    } else {
      AgedTick(s, p);
      InvAdmitted(Tick(s));
      AheadNonNegative(Admitted(Tick(s)), p);
      d := AgedRuns(Tick(s), p);
      Quanta.RunShift(s, d);
      d := d + 1;
    }
  }

  // ---------- From the start of the wait ----------

  /** Bursts of the processes that arrived no later than `p`. */
  function Earlier(procs: seq<Proc>, p: nat): (r: seq<int>)
    requires p < |procs|
    ensures |r| == |procs|
  {
    seq(|procs|, i requires 0 <= i < |procs| => if i != p && procs[i].arrival <= procs[p].arrival then procs[i].burst else 0)
  }

  function LongestBurst(procs: seq<Proc>): (m: int)
    ensures m >= 0
    ensures forall p | p in procs :: p.burst <= m
  {
    if procs == [] then 0 else
    var m := LongestBurst(procs[..|procs| - 1]);
    var b := procs[|procs| - 1].burst;
    assert procs == procs[..|procs| - 1] + [procs[|procs| - 1]];
    if b > m then b else m
  }

  lemma AheadBound(procs: seq<Proc>, s: State, p: nat)
    requires Runs.OnTrack(procs, s) && p < |procs|
    ensures |Admitted(s).procs| == |procs|
    ensures Sum(Ahead(Admitted(s), p)) <= Sum(Earlier(procs, p)) + LongestBurst(procs)
  {
    hide Admitted, ProcOk, InPlace, ResetProc, LongestBurst, AfterAdmission;
    ViewAdmitted(s);
    var a := Admitted(s);
    forall i | 0 <= i < |procs|
      ensures a.procs[i].arrival == procs[i].arrival && 0 <= a.procs[i].remaining <= procs[i].burst
      ensures procs[i].burst <= LongestBurst(procs)
    {
      AdmittedFields(procs, s, i);
      assert procs[i] in procs;
    }
    AheadSum(procs, a, p, LongestBurst(procs));
  }

  /** At most the bursts of the earlier ones, plus one longest burst for the process on the CPU. */
  lemma AheadSum(procs: seq<Proc>, a: State, p: nat, longest: int)
    requires Wf(a) && |a.procs| == |procs| && p < |procs| && longest >= 0
    requires forall i | 0 <= i < |procs| ::
               a.procs[i].arrival == procs[i].arrival && 0 <= a.procs[i].remaining <= procs[i].burst <= longest
    ensures Sum(Ahead(a, p)) <= Sum(Earlier(procs, p)) + longest
  {
    hide Wf, Ahead, Earlier;
    var x, y := Ahead(a, p), Earlier(procs, p);
    var c := if a.current.Some? && a.current.value < |procs| then a.current.value else p;
    var z := y[c := y[c] + longest];
    forall i | 0 <= i < |procs|
      ensures x[i] <= z[i]
    {
      AheadAt(procs, a, p, longest, i);
    }
    SumMonotone(x, z);
    SumChange(y, z, c);
  }

  lemma AheadAt(procs: seq<Proc>, a: State, p: nat, longest: int, i: nat)
    requires |a.procs| == |procs| && p < |procs| && i < |procs|
    requires a.procs[i].arrival == procs[i].arrival && a.procs[p].arrival == procs[p].arrival
    requires 0 <= a.procs[i].remaining <= procs[i].burst <= longest
    ensures Ahead(a, p)[i] <= Earlier(procs, p)[i] + if a.current == Some(i) then longest else 0
    ensures Earlier(procs, p)[i] >= 0
  {
  }

  lemma AdmittedFields(procs: seq<Proc>, s: State, i: nat)
    requires Runs.OnTrack(procs, s) && i < |procs|
    ensures |Admitted(s).procs| == |procs|
    ensures var q := Admitted(s).procs[i]; q.arrival == procs[i].arrival && 0 <= q.remaining <= procs[i].burst
  {
    hide Admitted, InPlace, AfterAdmission;
    ViewAdmitted(s);
    AdmissionKeepsArrival(s.policy, s.time, s.procs[i]);
    assert ProcOk(s.procs[i]);
    assert ResetProc(s.procs[i]).burst == procs[i].burst && ResetProc(s.procs[i]).arrival == procs[i].arrival;
  }

  ghost predicate WaitsAt(s: State, p: nat) {
    Wf(s) && p < |Admitted(s).procs| && Admitted(s).procs[p].state == Ready
  }

  /** The wait a process still needs until it is aged. */
  ghost function AgingLeft(s: State, p: nat): int
    requires WaitsAt(s, p) && Ages(s.policy)
  {
    var q := Admitted(s).procs[p];
    AgingTime(q.priority, s.policy.agingInterval) - (s.time - LastActivity(q))
  }

  lemma AdmittedClock(s: State)
    requires Wf(s)
    ensures Admitted(s).time == s.time && Admitted(s).policy == s.policy && Admitted(s).current == s.current
    ensures |Admitted(s).procs| == |s.procs|
  {
  }

  /** A waiting process that does not run needs a tick less of waiting. */
  lemma WaitingGoesOn(procs: seq<Proc>, s: State, p: nat)
    requires Runs.OnTrack(procs, s) && Ages(s.policy) && p < |procs| && WaitsAt(s, p) && Runner(s) != Some(p)
    ensures Runs.OnTrack(procs, Tick(s)) && Ages(Tick(s).policy) && WaitsAt(Tick(s), p)
    ensures AgingLeft(Tick(s), p) == AgingLeft(s, p) - 1
  {
    hide Tick, Runner, Admitted, ProcOk, InPlace, LevelBounded, EffectivePriority, ResetProc, AgingTime;
    AdmittedClock(s);
    StaysReady(s, p);
    Runs.OnTrackTick(procs, s);
    AdmittedClock(Tick(s));
    ViewTickClock(s);
  }

  /** A waiting process runs, or is aged within its aging time and runs then. */
  lemma {:induction false} WaitingRuns(procs: seq<Proc>, s: State, p: nat, left: nat) returns (d: nat)
    requires Runs.OnTrack(procs, s) && Ages(s.policy) && p < |procs| && WaitsAt(s, p) && AgingLeft(s, p) <= left
    ensures d <= left + Sum(Earlier(procs, p)) + LongestBurst(procs)
    ensures Runner(Run(s, d)) == Some(p)
    decreases left
  {
    hide Tick, Runner, Admitted, Ahead, ProcOk, InPlace, LevelBounded, EffectivePriority, LongestBurst, Earlier, ResetProc,
      AgingTime;
    AdmittedClock(s);
    AheadBound(procs, s, p);
    if AgingLeft(s, p) <= 0 {
      AgedOut(s.policy.agingInterval, Admitted(s).procs[p], s.time);
      d := AgedRuns(s, p);
    } else if Runner(s) == Some(p) {
      d := 0;
      EarlierNonNegative(procs, s, p);
    } else {
      WaitingGoesOn(procs, s, p);
      d := WaitingRuns(procs, Tick(s), p, left - 1);
      Quanta.RunShift(s, d);
      d := d + 1;
    }
  }

  lemma ViewTickClock(s: State)
    requires Inv(s)
    ensures Tick(s).time == s.time + 1 && Tick(s).policy == s.policy
  {
    hide Tick, Runner;
    ViewTick(s);
  }

  lemma EarlierNonNegative(procs: seq<Proc>, s: State, p: nat)
    requires Runs.OnTrack(procs, s) && p < |procs|
    ensures Sum(Earlier(procs, p)) >= 0
  {
    hide LongestBurst;
    forall i | 0 <= i < |procs|
      ensures procs[i].burst >= 0
    {
      assert ProcOk(s.procs[i]) && ResetProc(s.procs[i]).burst == procs[i].burst;
    }
    SumNonNegative(Earlier(procs, p));
  }

  /** With aging enabled, preemptive or not, with or without I/O: a process waiting when tick `n` takes its
      decision executes in tick `n + d` for some `d` of at most its aging time, the bursts of processes that
      arrived no later, and one longest burst. */
  lemma AgingPreventsStarvation(preemptive: bool, interval: int, seed: Word, procs: seq<Proc>, n: nat, p: nat) returns (d: nat)
    requires Startable(Priority(preemptive, interval), procs) && interval > 0 && p < |procs|
    requires WaitsAt(Run(Initial(Priority(preemptive, interval), seed, procs), n), p)
    ensures d <= AgingTime(procs[p].priority, interval) + Sum(Earlier(procs, p)) + LongestBurst(procs)
    ensures Runner(Run(Initial(Priority(preemptive, interval), seed, procs), n + d)) == Some(p)
  {
    hide Tick, Runner, Workload, Inv, AgingTime, LongestBurst, Earlier, Run;
    var s0 := Initial(Priority(preemptive, interval), seed, procs);
    var s := Run(s0, n);
    Runs.OnTrackRun(Priority(preemptive, interval), seed, procs, n);
    AgingLeftAtMost(procs, s, p);
    d := WaitingRuns(procs, s, p, AgingTime(procs[p].priority, interval));
    Quanta.RunSplit(s0, n, d);
  }

  lemma AgingLeftAtMost(procs: seq<Proc>, s: State, p: nat)
    requires Runs.OnTrack(procs, s) && p < |procs| && WaitsAt(s, p) && Ages(s.policy)
    ensures AgingLeft(s, p) <= AgingTime(procs[p].priority, s.policy.agingInterval)
  {
    hide AgingTime, Admitted, InPlace;
    ViewAdmitted(s);
    assert ResetProc(s.procs[p]).priority == procs[p].priority;
    PastActivity(procs, s, p);
  }

  lemma PastActivity(procs: seq<Proc>, s: State, p: nat)
    requires Runs.OnTrack(procs, s) && p < |procs| && WaitsAt(s, p)
    ensures LastActivity(Admitted(s).procs[p]) <= s.time
  {
    hide Admitted, InPlace;
    ViewAdmitted(s);
    assert ResetProc(s.procs[p]) == procs[p];
  }
}
