/** Where a process's time goes: every tick since arrival is executed, waited or blocked, up to the drift that
    the end-of-tick dispatch adds to the waiting counter. */
module Accounting {
  import opened RandomWords
  import opened Processes
  import opened Policies
  import opened Engine
  import opened Invariants
  import opened Effects
  import opened Runs
  import Makespan
  import Levels
  import Pairs
  import Replay
  import RoundRobinWaiting

  /** Blocked ticks of the first `k` bursts: a burst of duration `d` blocks for `d - 1` whole ticks. */
  function FiredBlocks(io: seq<IOBurst>, k: nat): int
    requires k <= |io|
  {
    if k == 0 then 0 else FiredBlocks(io, k - 1) + io[k - 1].duration - 1
  }

  /** Whole ticks spent blocked so far. */
  function BlockedSoFar(p: Proc): int
    requires p.ioIndex <= |p.io|
  {
    FiredBlocks(p.io, p.ioIndex) - if p.state == Waiting then p.ioRemaining - 1 else 0
  }

  /** Time since arrival splits into executed, waited and blocked ticks, less the drift. */
  ghost predicate Accounted(p: Proc, now: int, drift: int)
    requires ProcOk(p)
  {
    match p.state
    case New => p.waiting == 0 && drift == 0
    case Terminated => true
    case _ => now - p.arrival == p.Executed() + p.waiting + BlockedSoFar(p) - drift
  }

  /** Between admission and the clock: a blocked process has already been charged for this tick. */
  ghost predicate MidAccounted(p: Proc, now: int, drift: int)
    requires ProcOk(p)
  {
    Accounted(p, if p.state == Waiting then now + 1 else now, drift)
  }

  /** The response time is part of the waiting time. */
  ghost predicate ResponseWaited(p: Proc) {
    0 <= p.waiting && (p.started ==> 0 <= p.response <= p.waiting)
  }

  /** The process that gets the CPU when a quantum expires: what the scheduler picks from the ready queue with the
      expired process at its tail. */
  function Redispatched(s: State): nat
    requires Wf(s) && Levels.ExpiredIn(s).Some?
  {
    var q := Requeue(CheckIOBurst(ExecuteCurrent(Dispatched(s))));
    Pick(q.policy, q.time, q.procs, q.ready, q.word)
  }

  /** What one tick adds to the drift of a process: a quantum that expires counts the tick just executed as
      waited, and a dispatch that follows in the same tick skips a tick of waiting. */
  function DriftIn(s: State, i: nat): int
    requires Wf(s)
  {
    if Levels.ExpiredIn(s).None? then 0
    else if Levels.ExpiredIn(s) == Some(i) then (if Redispatched(s) != i then 1 else 0)
    else if Redispatched(s) == i then -1
    else 0
  }

  lemma RedispatchedRuns(s: State)
    requires Inv(s) && Levels.ExpiredIn(s).Some?
    ensures Tick(s).current == Some(Redispatched(s))
  {
    hide Dispatched, ExecuteCurrent, CheckIOBurst, Pick, PickWord, RemoveFirst, ProcOk, Demote;
    var d := Dispatched(s);
    var e := CheckIOBurst(ExecuteCurrent(d));
    assert Requeue(e).ready != [];
    ClockKeepsCurrent(RunStage(d));
  }

  function Drift(s0: State, i: nat, n: nat): int
    requires Wf(s0)
  {
    if n == 0 then 0 else Drift(s0, i, n - 1) + DriftIn(Run(s0, n - 1), i)
  }

  lemma {:induction false} FiredBlocksPrefix(io: seq<IOBurst>, io': seq<IOBurst>, k: nat)
    requires k <= |io| == |io'|
    requires forall j | 0 <= j < |io| :: io[j].duration == io'[j].duration
    ensures FiredBlocks(io, k) == FiredBlocks(io', k)
  {
    if k > 0 {
      FiredBlocksPrefix(io, io', k - 1);
    }
  }

  lemma {:induction false} FiredBlocksNonNegative(io: seq<IOBurst>, k: nat)
    requires k <= |io| && forall j | 0 <= j < |io| :: io[j].duration > 0
    ensures FiredBlocks(io, k) >= 0
  {
    if k > 0 {
      FiredBlocksNonNegative(io, k - 1);
    }
  }

  lemma AdmissionAccounts(policy: Policy, now: int, p: Proc, drift: int)
    requires ProcOk(p) && ProcOk(AfterAdmission(policy, now, p)) && Accounted(p, now, drift)
    requires p.state == New ==> p.arrival >= now
    ensures MidAccounted(AfterAdmission(policy, now, p), now, drift)
  {
  }

  /** Executing costs one executed tick and nothing else. */
  lemma ExecutionAccounts(policy: Policy, now: int, p: Proc, drift: int)
    requires ProcOk(p) && Active(p) && MidAccounted(p, now, drift) && ProcOk(AfterExecution(policy, now, p))
    ensures Accounted(AfterExecution(policy, now, p), now + 1, drift)
  {
    var q := Execute(p, now, 1);
    if !q.Complete() && Fires(q) {
      NextBurstInOrder(q);
      FiredBlocksPrefix(q.io, StartBurst(q).io, q.ioIndex);
    }
  }

  lemma ExecutionResponds(policy: Policy, now: int, p: Proc)
    requires ProcOk(p) && Active(p) && MidAccounted(p, now, 0) && ResponseWaited(p)
    ensures ResponseWaited(AfterExecution(policy, now, p))
  {
    FiredBlocksNonNegative(p.io, p.ioIndex);
  }

  /** At completion the waiting time is overwritten with turnaround minus burst. */
  lemma OverwriteGains(policy: Policy, now: int, p: Proc, drift: int)
    requires ProcOk(p) && Active(p) && p.remaining == 1 && MidAccounted(p, now, drift)
    ensures var q := AfterExecution(policy, now, p);
            q.state == Terminated && q.waiting == p.waiting + BlockedSoFar(p) - drift
  {
  }

  // ---------- The waiting counter over one tick ----------

  lemma ClockCounts(s: State, i: nat)
    requires Inv(s) && DistinctPids(s.procs) && i < |s.procs|
    ensures |AdvanceClock(s).procs| == |s.procs|
    ensures AdvanceClock(s).procs[i] ==
            if s.procs[i].state == Ready then s.procs[i].(waiting := s.procs[i].waiting + 1) else s.procs[i]
  {
    hide ProcOk;
    assert InPlace(s, i);
    if s.current.Some? && s.procs[i].state == Ready {
      var c := s.current.value;
      assert InPlace(s, c);
      assert i < c ==> s.procs[i].pid != s.procs[c].pid;
      assert c < i ==> s.procs[c].pid != s.procs[i].pid;
    }
  }

  /** The processes that compete but do not run gain a tick of waiting, and the drift. */
  lemma WaitingTick(s: State, i: nat)
    requires Inv(s) && DistinctPids(s.procs) && i < |s.procs|
    ensures |Tick(s).procs| == |s.procs|
    ensures var p := AfterAdmission(s.policy, s.time, s.procs[i]);
            Tick(s).procs[i].waiting ==
            Ticked(s, i).waiting + DriftIn(s, i) + if Runner(s) != Some(i) && Active(p) then 1 else 0
  {
    hide DispatchStage, Admitted, AfterExecution, AfterAdmission, ProcOk, AdvanceClock, RunStage, Alike, ExecuteCurrent,
      CheckIOBurst,
      QuantumOver, Redispatched;
    if Levels.ExpiredIn(s).Some? {
      RedispatchedRuns(s);
    }
    ViewDispatched(s);
    var d := Dispatched(s);
    ExecutionIgnoresPlace(s.policy, s.time, Admitted(s).procs[i], d.procs[i]);
    PidsAdmitted(s);
    WaitingAfterDispatch(d, i);
    assert InPlace(d, i);
    assert Alike(Admitted(s).procs[i], d.procs[i]);
    ActiveAlike(Admitted(s).procs[i], d.procs[i]);
  }

  lemma ActiveAlike(p: Proc, q: Proc)
    requires Alike(p, q)
    ensures Active(p) == Active(q)
  {
  }

  /** The counter after dispatch, when the tick ends with a quantum expiry and when it does not. */
  lemma WaitingAfterDispatch(d: State, i: nat)
    requires Inv(d) && DistinctPids(d.procs) && i < |d.procs|
    ensures var t := AdvanceClock(RunStage(d)); var p := d.procs[i];
            var over := d.current.Some? && QuantumOver(CheckIOBurst(ExecuteCurrent(d)));
            && |t.procs| == |d.procs|
            && (over ==> CheckIOBurst(ExecuteCurrent(d)).current == d.current)
            && (over && t.current == Some(i) && d.current != Some(i) ==> p.state == Ready)
            && (if d.current == Some(i)
                then t.procs[i].waiting == AfterExecution(d.policy, d.time, p).waiting + (if over && t.current != Some(i) then 1 else 0)
                else t.procs[i].waiting == p.waiting + (if p.state == Ready && !(over && t.current == Some(i)) then 1 else 0))
  {
    hide ExecuteCurrent, CheckIOBurst, AfterExecution, ProcOk, AdvanceClock, QuantumOver;
    if d.current.Some? {
      ViewExecution(d);
      var e := CheckIOBurst(ExecuteCurrent(d));
      ExecutionKeepsPids(d);
      ExecutionLeavesReady(d.policy, d.time, d.procs[d.current.value]);
      ClockKeepsCurrent(RunStage(d));
      if QuantumOver(e) {
        OverIsCurrent(e);
        ExpiryMoves(e);
        ClockCounts(ExpireQuantum(e), i);
      } else {
        ClockCounts(e, i);
      }
    } else {
      InvRunStage(d);
      ClockCounts(IdleTick(d), i);
    }
  }

  lemma OverIsCurrent(e: State)
    requires Wf(e) && QuantumOver(e)
    ensures e.current.Some?
  {
  }

  /** After an expiry everyone who was ready, and the process requeued, is ready, except the one dispatched. */
  lemma ExpiryMoves(e: State)
    requires Inv(e) && DistinctPids(e.procs) && QuantumOver(e)
    ensures var r := ExpireQuantum(e);
            && Inv(r) && |r.procs| == |e.procs| && DistinctPids(r.procs)
            && forall i | 0 <= i < |e.procs| ::
                 && r.procs[i].waiting == e.procs[i].waiting
                 && (r.procs[i].state == Ready <==> r.current != Some(i) && (e.procs[i].state == Ready || e.current == Some(i)))
                 && (r.current == Some(i) ==> e.procs[i].state == Ready || e.current == Some(i))
  {
    hide ScheduleNext, ProcOk, Demote, QuantumFor;
    InvRequeue(e);
    ViewScheduleNext(Requeue(e));
    assert forall i | 0 <= i < |e.procs| :: InPlace(e, i);
  }

  lemma ExecutionLeavesReady(policy: Policy, now: int, p: Proc)
    ensures AfterExecution(policy, now, p).state != Ready
  {
  }

  lemma PidsAdmitted(s: State)
    requires Inv(s) && DistinctPids(s.procs)
    ensures DistinctPids(Dispatched(s).procs)
  {
    hide Dispatched, ProcOk, InPlace, Alike;
    ViewDispatched(s);
    var d := Dispatched(s);
    forall i | 0 <= i < |s.procs|
      ensures d.procs[i].pid == s.procs[i].pid
    {
      assert d.procs[i] == Admitted(s).procs[i].(state := d.procs[i].state);
    }
  }

  lemma ExecutionKeepsPids(d: State)
    requires Inv(d) && d.current.Some?
    ensures var e := CheckIOBurst(ExecuteCurrent(d));
            |e.procs| == |d.procs| && forall i | 0 <= i < |d.procs| :: e.procs[i].pid == d.procs[i].pid
  {
    hide ExecuteCurrent, CheckIOBurst, ProcOk, InPlace;
    ViewExecution(d);
  }

  // ---------- Runs ----------

  lemma AccountedTick(procs: seq<Proc>, s: State, i: nat, drift: int)
    requires OnTrack(procs, s) && DistinctPids(s.procs) && i < |procs| && Accounted(s.procs[i], s.time, drift)
    ensures Inv(Tick(s)) && |Tick(s).procs| == |procs|
    ensures Accounted(Tick(s).procs[i], Tick(s).time, drift + DriftIn(s, i))
    ensures drift == DriftIn(s, i) == 0 && ResponseWaited(s.procs[i]) ==> ResponseWaited(Tick(s).procs[i])
  {
    hide Tick, Runner, AfterExecution, AfterAdmission, InPlace, Accounted, DistinctPids, DriftIn, ResponseWaited, LevelBounded,
      Dispatched, Levels.ExpiredIn;
    ViewTick(s);
    InvAdmittedProcs(s);
    WaitingTick(s, i);
    var p := AfterAdmission(s.policy, s.time, s.procs[i]);
    assert ResetProc(s.procs[i]) == procs[i];
    AdmissionAccounts(s.policy, s.time, s.procs[i], drift);
    AdmissionResponds(s.policy, s.time, s.procs[i]);
    assert ProcOk(Tick(s).procs[i]);
    assert Alike(Ticked(s, i), Tick(s).procs[i]);
    if Runner(s) == Some(i) {
      TickedOk(s, i);
      ExecutionAccounts(s.policy, s.time, p, drift);
      if drift == 0 && ResponseWaited(p) {
        ExecutionResponds(s.policy, s.time, p);
      }
    }
    DriftNeedsCompeting(s, i);
    ClockAccounts(Ticked(s, i), Tick(s).procs[i], s.time, Runner(s) == Some(i), drift, DriftIn(s, i));
  }

  lemma AdmissionResponds(policy: Policy, now: int, p: Proc)
    ensures ResponseWaited(p) ==> ResponseWaited(AfterAdmission(policy, now, p))
  {
  }

  /** Only a process that competes at the end of the tick can drift. */
  lemma DriftNeedsCompeting(s: State, i: nat)
    requires Inv(s) && i < |s.procs|
    ensures DriftIn(s, i) != 0 ==> Active(Ticked(s, i))
  {
    hide Tick, Runner, AfterExecution, AfterAdmission, Levels.ExpiredIn, ProcOk, Ticked, Redispatched;
    if Levels.ExpiredIn(s).Some? {
      RedispatchedRuns(s);
    }
    Levels.ExpiredCompetes(s);
    ViewTick(s);
    if Tick(s).current == Some(i) {
      assert InPlace(Tick(s), i);
      assert Alike(Ticked(s, i), Tick(s).procs[i]);
    }
  }

  lemma TickedOk(s: State, i: nat)
    requires Inv(s) && i < |s.procs| && Runner(s) == Some(i)
    ensures ProcOk(Ticked(s, i))
  {
    hide Dispatched, ExecuteCurrent, CheckIOBurst, ProcOk, AfterExecution, AfterAdmission, InPlace;
    ViewDispatched(s);
    var d := Dispatched(s);
    ViewExecution(d);
    ExecutionIgnoresPlace(s.policy, s.time, Admitted(s).procs[i], d.procs[i]);
    assert ProcOk(CheckIOBurst(ExecuteCurrent(d)).procs[i]);
  }

  lemma ClockAccounts(p: Proc, q: Proc, now: int, ran: bool, drift: int, more: int)
    requires ProcOk(p) && ProcOk(q) && Alike(p, q)
    requires if ran then Accounted(p, now + 1, drift) else MidAccounted(p, now, drift)
    requires more != 0 ==> Active(p)
    requires q.waiting == p.waiting + more + if !ran && Active(p) then 1 else 0
    ensures Accounted(q, now + 1, drift + more)
    ensures more == 0 && ResponseWaited(p) ==> ResponseWaited(q)
  {
  }

  /** Ticks charged to a process beyond those that have passed since it arrived. */
  function Overcount(p: Proc, now: int): int
    requires p.ioIndex <= |p.io|
  {
    p.Executed() + p.waiting + BlockedSoFar(p) - (now - p.arrival)
  }

  /** A tick charges an arrived unfinished process exactly one tick if and only if no quantum expires in it, or the
      process is both the one expired and the one the scheduler picks next, or is neither. */
  lemma TickChargesOneIff(procs: seq<Proc>, s: State, i: nat)
    requires OnTrack(procs, s) && DistinctPids(s.procs) && i < |procs|
    requires s.procs[i].state != New && s.procs[i].state != Terminated
    ensures var p := s.procs[i]; var t := Tick(s);
            && p.ioIndex <= |p.io| && |t.procs| == |procs|
            && var q := t.procs[i];
            && q.ioIndex <= |q.io|
            && (q.state != Terminated ==>
                  (Overcount(q, t.time) == Overcount(p, s.time) <==>
                   (Levels.ExpiredIn(s).None? || (Levels.ExpiredIn(s) == Some(i) <==> Redispatched(s) == i))))
  {
    hide Tick, Levels.ExpiredIn, Redispatched, InPlace, LevelBounded, DistinctPids, Alike, Ticked, BlockedSoFar;
    var p := s.procs[i];
    assert ProcOk(p);
    AccountedTick(procs, s, i, Overcount(p, s.time));
    StaysArrived(procs, s, i);
  }

  /** An arrived process does not become New again. */
  lemma StaysArrived(procs: seq<Proc>, s: State, i: nat)
    requires OnTrack(procs, s) && i < |procs| && s.procs[i].state != New
    ensures |Tick(s).procs| == |procs| && Tick(s).procs[i].state != New && ProcOk(Tick(s).procs[i])
    ensures Tick(s).procs[i].arrival == s.procs[i].arrival && Tick(s).time == s.time + 1
  {
    hide Tick, InPlace, LevelBounded, ProcOk, Alike, Ticked;
    OnTrackTick(procs, s);
    ViewTick(s);
    assert ResetProc(Tick(s).procs[i]) == procs[i] == ResetProc(s.procs[i]);
  }

  lemma FreshAccounted(procs: seq<Proc>, i: nat)
    requires Workload(procs) && i < |procs| && ProcOk(procs[i])
    ensures Accounted(procs[i], 0, 0) && ResponseWaited(procs[i])
  {
    FreshIsNew(procs);
    assert procs[i] == ResetProc(procs[i]);
  }

  /** In every run, for distinct PIDs, the time since arrival of an unfinished process is executed plus waited
      plus blocked, less its drift. */
  lemma {:induction false} TimeIsAccounted(policy: Policy, seed: Word, procs: seq<Proc>, n: nat, i: nat)
    requires Startable(policy, procs) && DistinctPids(procs) && i < |procs|
    ensures var s0 := Initial(policy, seed, procs); var s := Run(s0, n);
            && Inv(s) && |s.procs| == |procs|
            && Accounted(s.procs[i], n, Drift(s0, i, n))
            && (QuantumFree(policy) ==> Drift(s0, i, n) == 0 && ResponseWaited(s.procs[i]))
  {
    hide Tick, Accounted, Workload, InPlace, LevelBounded, ResetProc, DistinctPids, QuantumFree, ResponseWaited, DriftIn, ProcOk,
      Dispatched, OnTrack;
    var s0 := Initial(policy, seed, procs);
    RunFacts(policy, seed, procs, n);
    if n == 0 {
      assert ProcOk(s0.procs[i]);
      FreshAccounted(procs, i);
    } else {
      TimeIsAccounted(policy, seed, procs, n - 1, i);
      var s := Run(s0, n - 1);
      OnTrackRun(policy, seed, procs, n - 1);
      PidsKept(procs, s);
      NoDriftWithoutQuantum(s, i);
      AccountedTick(procs, s, i, Drift(s0, i, n - 1));
    }
  }

  /** A process about to be completed, after admission. */
  lemma AdmittedBlocks(policy: Policy, now: int, p: Proc)
    requires ProcOk(p) && Active(AfterAdmission(policy, now, p))
    ensures var q := AfterAdmission(policy, now, p);
            q.ioIndex <= |q.io| && p.ioIndex <= |p.io| && q.waiting == p.waiting && q.remaining == p.remaining
            && BlockedSoFar(q) == FiredBlocks(p.io, p.ioIndex)
  {
  }

  lemma CompletingTick(s: State, i: nat, drift: int)
    requires Inv(s) && DistinctPids(s.procs) && i < |s.procs| && ProcOk(s.procs[i])
    requires Runner(s) == Some(i) && s.procs[i].remaining == 1 && Accounted(s.procs[i], s.time, drift)
    requires s.procs[i].state == New ==> s.procs[i].arrival >= s.time
    ensures |Tick(s).procs| == |s.procs| && s.procs[i].ioIndex <= |s.procs[i].io|
    ensures var q := Tick(s).procs[i];
            && q.state == Terminated
            && q.waiting == s.procs[i].waiting + FiredBlocks(s.procs[i].io, s.procs[i].ioIndex) - drift
  {
    hide Tick, Runner, AfterExecution, AfterAdmission, InPlace, LevelBounded, Accounted, MidAccounted, FiredBlocks, BlockedSoFar,
      DriftIn,
      DistinctPids, ProcOk;
    ViewTick(s);
    InvAdmittedProcs(s);
    WaitingTick(s, i);
    DriftNeedsCompeting(s, i);
    var p := AfterAdmission(s.policy, s.time, s.procs[i]);
    AdmittedBlocks(s.policy, s.time, s.procs[i]);
    AdmissionAccounts(s.policy, s.time, s.procs[i], drift);
    OverwriteGains(s.policy, s.time, p, drift);
    assert Alike(Ticked(s, i), Tick(s).procs[i]);
  }

  /** When a run completes a process, the overwrite adds the ticks it was blocked and takes away its drift. */
  lemma CompletionOverwrite(policy: Policy, seed: Word, procs: seq<Proc>, n: nat, i: nat)
    requires Startable(policy, procs) && DistinctPids(procs) && i < |procs|
    requires var s := Run(Initial(policy, seed, procs), n);
             Runner(s) == Some(i) && i < |s.procs| && s.procs[i].remaining == 1
    ensures var s0 := Initial(policy, seed, procs); var s := Run(s0, n); var t := Run(s0, n + 1);
            && |s.procs| == |t.procs| == |procs|
            && t.procs[i].state == Terminated
            && s.procs[i].ioIndex <= |s.procs[i].io|
            && t.procs[i].waiting == s.procs[i].waiting + FiredBlocks(s.procs[i].io, s.procs[i].ioIndex) - Drift(s0, i, n)
  {
    hide Tick, Runner, Workload, InPlace, LevelBounded, DistinctPids, Accounted, FiredBlocks, Drift, ProcOk, ResetProc;
    var s0 := Initial(policy, seed, procs);
    var s := Run(s0, n);
    OnTrackRun(policy, seed, procs, n);
    TimeIsAccounted(policy, seed, procs, n, i);
    PidsKept(procs, s);
    ArrivedLate(procs, s, i);
    CompletingTick(s, i, Drift(s0, i, n));
  }

  lemma ArrivedLate(procs: seq<Proc>, s: State, i: nat)
    requires OnTrack(procs, s) && i < |procs|
    ensures s.procs[i].state == New ==> s.procs[i].arrival >= s.time
    ensures ProcOk(s.procs[i])
  {
    assert ResetProc(s.procs[i]).arrival == procs[i].arrival;
  }

  lemma {:induction false} FiredBlocksZeroIff(io: seq<IOBurst>, k: nat)
    requires k <= |io| && forall j | 0 <= j < |io| :: io[j].duration > 0
    ensures FiredBlocks(io, k) == 0 <==> forall j | 0 <= j < k :: io[j].duration == 1
  {
    if k > 0 {
      FiredBlocksZeroIff(io, k - 1);
      FiredBlocksNonNegative(io, k - 1);
    }
  }

  /** Without a quantum the overwrite changes nothing if and only if no fired burst lasted longer than one tick; in
      particular without I/O. */
  lemma OverwriteChangesNothingIff(policy: Policy, seed: Word, procs: seq<Proc>, n: nat, i: nat)
    requires Startable(policy, procs) && QuantumFree(policy) && DistinctPids(procs) && i < |procs|
    requires var s := Run(Initial(policy, seed, procs), n);
             Runner(s) == Some(i) && i < |s.procs| && s.procs[i].remaining == 1
    ensures var s := Run(Initial(policy, seed, procs), n); var t := Run(Initial(policy, seed, procs), n + 1);
            && |s.procs| == |t.procs| == |procs|
            && s.procs[i].ioIndex <= |s.procs[i].io| == |procs[i].io|
            && (t.procs[i].waiting == s.procs[i].waiting <==>
                forall k | 0 <= k < s.procs[i].ioIndex :: procs[i].io[k].duration == 1)
            && (procs[i].io == [] ==> t.procs[i].waiting == s.procs[i].waiting)
  {
    hide Tick, Runner, Workload, InPlace, LevelBounded, DistinctPids, QuantumFree, Drift, FiredBlocks;
    OnTrackRun(policy, seed, procs, n);
    TimeIsAccounted(policy, seed, procs, n, i);
    CompletionOverwrite(policy, seed, procs, n, i);
    var p := Run(Initial(policy, seed, procs), n).procs[i];
    assert ProcOk(p) && ResetProc(p) == procs[i];
    assert |ResetProc(p).io| == |p.io| && forall k | 0 <= k < |p.io| :: ResetProc(p).io[k].duration == p.io[k].duration;
    FiredBlocksZeroIff(p.io, p.ioIndex);
  }

  lemma NoDriftWithoutQuantum(s: State, i: nat)
    requires Wf(s)
    ensures QuantumFree(Dispatched(s).policy) ==> DriftIn(s, i) == 0
    ensures Dispatched(s).policy == s.policy
  {
    hide DispatchStage, ExecuteCurrent, CheckIOBurst;
    Replay.DispatchKeepsSource(Admitted(s));
    var d := Dispatched(s);
    if d.current.Some? {
      Replay.ExecutionKeepsSource(d);
      Replay.BurstKeepsSource(ExecuteCurrent(d));
    }
  }

  /** The identity of the waiting counter holds at a boundary if and only if the process has no drift. */
  lemma WaitingExactIffNoDrift(policy: Policy, seed: Word, procs: seq<Proc>, n: nat, i: nat)
    requires Startable(policy, procs) && DistinctPids(procs) && i < |procs| && procs[i].arrival < n
    ensures var s0 := Initial(policy, seed, procs); var s := Run(s0, n);
            && |s.procs| == |procs|
            && var p := s.procs[i];
            && p.ioIndex <= |p.io|
            && (!p.Complete() ==>
                  (n - procs[i].arrival == p.Executed() + p.waiting + BlockedSoFar(p) <==> Drift(s0, i, n) == 0))
  {
    hide Tick, Workload, InPlace, DistinctPids, QuantumFree, BlockedSoFar, Drift;
    OnTrackRun(policy, seed, procs, n);
    TimeIsAccounted(policy, seed, procs, n, i);
    var s := Run(Initial(policy, seed, procs), n);
    assert ResetProc(s.procs[i]) == procs[i] && ProcOk(s.procs[i]);
  }

  /** A process of burst 2 that arrives at time 0. */
  function Short(pid: int): Proc {
    Proc(pid, 0, 2, 0, 1024, 2, New, false, -1, 0, 0, 0, 0, 0, 0, [], 0, 0, None)
  }

  lemma ShortIsFresh(pid: int)
    requires pid >= 0
    ensures Fresh(Short(pid)) && Short(pid).state == New && Short(pid).io == []
  {
    assert ResetProc(Short(pid)).io == [];
  }

  /** Both processes arrive. */
  lemma ShortAdmitted(seed: Word)
    ensures var a := Admitted(Initial(RoundRobin(1), seed, [Short(1), Short(2)]));
            && a.procs == [Short(1).(state := Ready), Short(2).(state := Ready)]
            && a.ready == [0, 1] && a.io == [] && a.current == None && a.used == 0 && a.policy == RoundRobin(1) && a.time == 0
  {
    hide Admitted;
    Pairs.BothAdmitted(RoundRobin(1), seed, [Short(1), Short(2)]);
  }

  /** The tick up to the dispatch. */
  lemma ShortDispatched(seed: Word)
    ensures var s := Initial(RoundRobin(1), seed, [Short(1), Short(2)]); var d := Dispatched(s);
            && d.procs == [Short(1).(state := Running), Short(2).(state := Ready)]
            && d.ready == [1] && d.io == [] && d.current == Some(0) && d.used == 0 && d.policy == RoundRobin(1) && d.time == 0
  {
    hide Fires, ProcOk, Pick, Admitted;
    var s := Initial(RoundRobin(1), seed, [Short(1), Short(2)]);
    ShortAdmitted(seed);
    RoundRobinWaiting.HeadIsScheduled(Admitted(s));
  }

  /** The rest of the tick: the quantum is over, and the other process is dispatched. */
  lemma ShortExpires(d: State)
    requires d.procs == [Short(1).(state := Running), Short(2).(state := Ready)]
    requires d.ready == [1] && d.io == [] && d.current == Some(0) && d.used == 0 && d.policy == RoundRobin(1) && d.time == 0
    ensures var r := RunStage(d);
            && |r.procs| == 2 && r.ready == [0] && r.current == Some(1)
            && r.procs[0].state == Ready && r.procs[0].waiting == 0 && r.procs[0].Executed() == 1 && r.procs[0].pid == 1
            && r.procs[1].state == Running && r.procs[1].waiting == 0 && r.procs[1].Executed() == 0 && r.procs[1].pid == 2
  {
    hide AddGantt, Pick, PickWord;
    var p := Execute(d.procs[0], 0, 1);
    assert p.remaining == 1 && !p.Complete() && !Fires(p);
    var x := ExecuteCurrent(d);
    assert x.current == Some(0) && x.used == 1 && x.procs == d.procs[0 := p];
    var e := CheckIOBurst(x);
    assert e.current == Some(0) && e.used == 1 && e.ready == [1];
    var q := Requeue(e);
    assert q.ready == [1, 0];
    RoundRobinWaiting.HeadIsScheduled(q);
  }

  /** Drift is real: two processes of burst 2 under round robin with quantum 1. After one tick the first has
      executed that tick and is also charged for waiting it, the second has waited it and is not charged. */
  lemma RoundRobinDrifts(seed: Word)
    ensures var procs := [Short(1), Short(2)]; var policy := RoundRobin(1);
            && Startable(policy, procs) && DistinctPids(procs)
            && var t := Run(Initial(policy, seed, procs), 1);
            && |t.procs| == 2
            && t.procs[0].Executed() == 1 && t.procs[0].waiting == 1
            && t.procs[1].Executed() == 0 && t.procs[1].waiting == 0
  {
    hide Dispatched, RunStage, Fresh, Execute;
    ShortIsFresh(1);
    ShortIsFresh(2);
    var s := Initial(RoundRobin(1), seed, [Short(1), Short(2)]);
    ShortDispatched(seed);
    ShortExpires(Dispatched(s));
    assert Run(s, 1) == Tick(Run(s, 0));
  }

  /** Without a quantum and without I/O: waiting time at every tick, and the totals at completion. */
  lemma WaitingWithoutIO(policy: Policy, seed: Word, procs: seq<Proc>, n: nat, i: nat)
    requires Startable(policy, procs) && QuantumFree(policy) && DistinctPids(procs) && Makespan.NoIO(procs) && i < |procs|
    ensures var s := Run(Initial(policy, seed, procs), n);
            && |s.procs| == |procs|
            && var p := s.procs[i];
            && (procs[i].arrival < n && !p.Complete() ==> n - procs[i].arrival == p.Executed() + p.waiting)
            && (p.Complete() ==> 0 <= p.response <= p.waiting == p.turnaround - procs[i].burst)
  {
    hide Tick, Workload, InPlace, DistinctPids, QuantumFree, Drift;
    OnTrackRun(policy, seed, procs, n);
    TimeIsAccounted(policy, seed, procs, n, i);
    var s := Run(Initial(policy, seed, procs), n);
    assert ResetProc(s.procs[i]) == procs[i] && ProcOk(s.procs[i]);
    assert |ResetProc(s.procs[i]).io| == |s.procs[i].io|;
  }
}
