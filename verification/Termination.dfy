/** Every run completes, I/O included, within a bound computed from the workload. */
module Termination {
  import opened Processes
  import opened RandomWords
  import opened Policies
  import opened Engine
  import opened Invariants
  import opened Effects
  import Runs
  import Sums

  /** Ticks the bursts from index `k` on can still keep a process away from the CPU: a burst of
      duration `d` that starts in one tick is over before the decision `d` ticks later. */
  function BlockedAhead(io: seq<IOBurst>, k: nat): int
    decreases |io| - k
  {
    if k >= |io| then 0 else io[k].duration - 1 + BlockedAhead(io, k + 1)
  }

  /** CPU time and blocked time a process still owes. */
  function Debt(p: Proc): int {
    p.remaining + BlockedAhead(p.io, p.ioIndex) + if p.state == Waiting then p.ioRemaining - 1 else 0
  }

  function Debts(procs: seq<Proc>): seq<int> {
    seq(|procs|, i requires 0 <= i < |procs| => Debt(procs[i]))
  }

  function LastArrival(procs: seq<Proc>): (m: int)
    ensures m >= 0
    ensures forall p | p in procs :: p.arrival <= m
  {
    if procs == [] then 0 else
    var m := LastArrival(procs[..|procs| - 1]);
    var a := procs[|procs| - 1].arrival;
    assert procs == procs[..|procs| - 1] + [procs[|procs| - 1]];
    if a > m then a else m
  }

  /** Time to the last arrival plus everything owed. */
  function Outlook(procs: seq<Proc>, s: State): int {
    (if LastArrival(procs) > s.time then LastArrival(procs) - s.time else 0) + Sums.Sum(Debts(s.procs))
  }

  /** The bound: last arrival, all bursts, and `duration - 1` for each I/O burst. */
  function Deadline(procs: seq<Proc>): int {
    LastArrival(procs) + Sums.Sum(Debts(procs))
  }

  lemma {:induction false} BlockedAheadNonNegative(io: seq<IOBurst>, k: nat)
    requires forall j | 0 <= j < |io| :: io[j].duration > 0
    ensures BlockedAhead(io, k) >= 0
    decreases |io| - k
  {
    if k < |io| {
      BlockedAheadNonNegative(io, k + 1);
    }
  }

  lemma {:induction false} BlockedAheadSkips(io: seq<IOBurst>, io': seq<IOBurst>, k: nat)
    requires |io| == |io'|
    requires forall j | k <= j < |io| :: io[j] == io'[j]
    ensures BlockedAhead(io, k) == BlockedAhead(io', k)
    decreases |io| - k
  {
    if k < |io| {
      BlockedAheadSkips(io, io', k + 1);
    }
  }

  lemma DebtNonNegative(p: Proc)
    requires ProcOk(p)
    ensures Debt(p) >= p.remaining
  {
    BlockedAheadNonNegative(p.io, p.ioIndex);
  }

  lemma AdmissionDebt(policy: Policy, now: int, p: Proc)
    requires ProcOk(p)
    ensures var q := AfterAdmission(policy, now, p);
            && Debt(q) <= Debt(p)
            && (q.state == Waiting ==> Debt(q) < Debt(p))
  {
  }

  lemma ExecutionDebt(policy: Policy, now: int, p: Proc)
    requires ProcOk(p) && Active(p)
    ensures Debt(AfterExecution(policy, now, p)) == Debt(p) - 1
  {
    var q := Execute(p, now, 1);
    if !q.Complete() && Fires(q) {
      NextBurstInOrder(q);
      BlockedAheadSkips(q.io, StartBurst(q).io, q.ioIndex + 1);
    }
  }

  lemma TickDebt(procs: seq<Proc>, s: State, i: nat)
    requires Runs.OnTrack(procs, s) && i < |procs|
    ensures |Tick(s).procs| == |procs|
    ensures var d := Debt(Tick(s).procs[i]);
            && d <= Debt(s.procs[i])
            && (Runner(s) == Some(i) ==> d < Debt(s.procs[i]))
            && (Runner(s).None? && !s.procs[i].Complete() ==> s.time < procs[i].arrival || d < Debt(s.procs[i]))
  {
    hide Tick, Runner, AfterExecution, AfterAdmission, Debt;
    ViewTick(s);
    InvAdmittedProcs(s);
    var p := AfterAdmission(s.policy, s.time, s.procs[i]);
    AdmissionDebt(s.policy, s.time, s.procs[i]);
    if Runner(s) == Some(i) {
      ExecutionDebt(s.policy, s.time, p);
    }
    assert Alike(Ticked(s, i), Tick(s).procs[i]);
    AlikeDebt(Ticked(s, i), Tick(s).procs[i]);
    WhyNotActive(s.policy, s.time, s.procs[i]);
    assert ResetProc(s.procs[i]) == procs[i];
  }

  lemma AlikeDebt(p: Proc, q: Proc)
    requires Alike(p, q)
    ensures Debt(p) == Debt(q)
  {
  }

  /** An unfinished process that does not compete has not arrived or is still blocked. */
  lemma WhyNotActive(policy: Policy, now: int, p: Proc)
    requires ProcOk(p)
    ensures !Active(AfterAdmission(policy, now, p)) && !p.Complete() ==>
              p.arrival > now || AfterAdmission(policy, now, p).state == Waiting
  {
  }

  lemma OutlookClock(s: State)
    requires Inv(s)
    ensures Tick(s).time == s.time + 1
  {
    hide Tick, Runner;
    ViewTick(s);
  }

  /** The outlook strictly falls in every tick until all processes are done. */
  lemma OutlookFalls(procs: seq<Proc>, s: State)
    requires Runs.OnTrack(procs, s) && !Done(s)
    ensures Outlook(procs, Tick(s)) < Outlook(procs, s)
  {
    hide Tick, Runner, Debt, ProcOk, InPlace, LevelBounded, ResetProc;
    RunnerBound(s);
    OutlookClock(s);
    var t := Tick(s);
    var a, b := Debts(t.procs), Debts(s.procs);
    forall i | 0 <= i < |procs|
      ensures a[i] <= b[i]
    {
      TickDebt(procs, s, i);
    }
    Sums.SumMonotone(a, b);
    var i: nat :| i < |procs| && !s.procs[i].Complete();
    var k := if Runner(s).Some? then Runner(s).value else i;
    TickDebt(procs, s, k);
    if a[k] < b[k] {
      Sums.SumDrop(a, b, k, 1);
    } else {
      assert procs[k] in procs;
    }
  }

  lemma DoneStays(procs: seq<Proc>, s: State)
    requires Runs.OnTrack(procs, s) && Done(s)
    ensures Done(Tick(s))
  {
    hide Tick, Runner;
    TickSpends(s);
    InvTick(s);
  }

  lemma OutlookNonNegative(procs: seq<Proc>, s: State)
    requires Runs.OnTrack(procs, s)
    ensures Outlook(procs, s) >= 0
    ensures Outlook(procs, s) == 0 ==> Done(s)
  {
    hide Debt;
    forall i | 0 <= i < |procs|
      ensures Debts(s.procs)[i] >= s.procs[i].remaining
      ensures s.procs[i].remaining >= 0
    {
      assert ProcOk(s.procs[i]);
      DebtNonNegative(s.procs[i]);
    }
    Sums.SumNonNegative(Debts(s.procs));
  }

  lemma {:induction false} OutlookRun(policy: Policy, seed: Word, procs: seq<Proc>, n: nat)
    requires Startable(policy, procs)
    ensures var s := Run(Initial(policy, seed, procs), n);
            Done(s) || Outlook(procs, s) <= Deadline(procs) - n
  {
    hide Tick, Done, Runs.OnTrack, Startable, Debts;
    var s0 := Initial(policy, seed, procs);
    if n > 0 {
      OutlookRun(policy, seed, procs, n - 1);
      var s := Run(s0, n - 1);
      Runs.OnTrackRun(policy, seed, procs, n - 1);
      if Done(s) {
        DoneStays(procs, s);
      } else {
        OutlookFalls(procs, s);
      }
    }
  }

  /** Under any policy, every process has finished by the deadline, and stays finished. */
  lemma AllFinishByDeadline(policy: Policy, seed: Word, procs: seq<Proc>, n: nat)
    requires Startable(policy, procs) && n >= Deadline(procs)
    ensures Done(Run(Initial(policy, seed, procs), n))
  {
    hide Tick, Done, Runs.OnTrack, Startable, Outlook, Deadline;
    OutlookRun(policy, seed, procs, n);
    Runs.OnTrackRun(policy, seed, procs, n);
    OutlookNonNegative(procs, Run(Initial(policy, seed, procs), n));
  }
}
