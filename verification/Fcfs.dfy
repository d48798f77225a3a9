/** FCFS without I/O: the tick engine computes the textbook closed form. */
module FcfsClosedForm {
  import opened RandomWords
  import opened Processes
  import opened Policies
  import opened Engine
  import opened Invariants
  import opened Effects
  import opened Runs
  import Quanta
  import opened Makespan

  /** When process `k` of the list starts: when its predecessor ends, but not before it arrives. */
  function StartAt(procs: seq<Proc>, k: nat): int
    requires k < |procs|
    decreases k, 0
  {
    if k > 0 && EndAt(procs, k - 1) > procs[k].arrival then EndAt(procs, k - 1) else procs[k].arrival
  }

  function EndAt(procs: seq<Proc>, k: nat): int
    requires k < |procs|
    decreases k, 1
  {
    StartAt(procs, k) + procs[k].burst
  }

  function Range(a: nat, b: nat): seq<nat> {
    if a <= b then seq(b - a, i requires 0 <= i < b - a => a + i) else []
  }

  /** `k` processes are done, `m` have been admitted, and the others wait in list order behind the one that
      runs, if any. */
  ghost predicate FcfsAt(procs: seq<Proc>, s: State, k: nat, m: nat) {
    && OnTrack(procs, s) && s.policy.FCFS? && k <= m <= |procs|
    && (forall j | 0 <= j < |procs| :: j < m <==> procs[j].arrival < s.time)
    && (forall j | 0 <= j < k :: s.procs[j].state == Terminated && Recorded(procs, s, j))
    && (forall j | k <= j < |procs| && s.current != Some(j) :: !s.procs[j].started)
    && (k > 0 ==> EndAt(procs, k - 1) <= s.time)
    && (match s.current
        case None => s.ready == Range(k, m) && (k < m ==> StartAt(procs, k) == s.time)
        case Some(c) =>
          && c == k < m && s.ready == Range(k + 1, m)
          && s.procs[k].started && s.procs[k].startTime == StartAt(procs, k)
          && s.procs[k].remaining == EndAt(procs, k) - s.time)
  }

  ghost predicate Recorded(procs: seq<Proc>, s: State, j: nat)
    requires j < |procs| == |s.procs|
  {
    s.procs[j].startTime == StartAt(procs, j) && s.procs[j].completion == EndAt(procs, j)
  }

  lemma {:induction false} HeadArrivedFirst(now: int, procs: seq<Proc>, q: seq<nat>)
    requires q != [] && InRange(procs, q)
    requires forall i | 0 < i < |q| :: procs[q[0]].arrival <= procs[q[i]].arrival
    ensures Best(FCFS, now, procs, q) == q[0]
  {
    if |q| > 1 {
      HeadArrivedFirst(now, procs, q[..|q| - 1]);
    }
  }

  /** The processes that arrive now are the next ones in the list. */
  lemma {:induction false} ArrivingRange(procs: seq<Proc>, s: State, m: nat, m': nat, n: nat)
    requires |s.procs| == |procs| && m <= m' <= |procs| && n <= |procs|
    requires forall j | 0 <= j < |procs| :: Arrives(s.procs[j], s.time) <==> m <= j < m'
    ensures Arriving(s.procs, s.time, n) == Range(m, if n < m' then n else m')
  {
    if n > 0 {
      ArrivingRange(procs, s, m, m', n - 1);
    }
  }

  /** How many of the list have arrived by `now`. */
  lemma {:induction false} CountArrived(procs: seq<Proc>, now: int, n: nat) returns (m: nat)
    requires SortedByArrival(procs) && n <= |procs|
    ensures m <= n && forall j | 0 <= j < n :: j < m <==> procs[j].arrival < now
  {
    if n == 0 || procs[n - 1].arrival < now {
      m := n;
    } else {
      m := CountArrived(procs, now, n - 1);
    }
  }

  lemma RangeJoin(a: nat, b: nat, c: nat)
    requires a <= b <= c
    ensures Range(a, b) + Range(b, c) == Range(a, c)
    ensures a < c ==> Range(a, c) != [] && Range(a, c)[0] == a && Range(a, c)[1..] == Range(a + 1, c)
    ensures a == c ==> Range(a, c) == []
  {
  }

  lemma ReadyAfterAdmission(procs: seq<Proc>, s: State, m: nat, m': nat)
    requires OnTrack(procs, s) && NoIO(procs) && m <= m' <= |procs|
    requires forall j | 0 <= j < |procs| :: j < m <==> procs[j].arrival < s.time
    requires forall j | 0 <= j < |procs| :: j < m' <==> procs[j].arrival < s.time + 1
    ensures var a := Admitted(s);
            && Inv(a) && a.current == s.current && a.policy == s.policy && a.time == s.time && |a.procs| == |procs|
            && a.ready == s.ready + Range(m, m')
  {
    hide Admitted, ProcOk, InPlace, AfterAdmission, CheckArrivals;
    ViewAdmitted(s);
    forall j | 0 <= j < |procs|
      ensures Arrives(s.procs[j], s.time) <==> m <= j < m'
    {
      assert ResetProc(s.procs[j]) == procs[j];
    }
    ArrivingRange(procs, s, m, m', |procs|);
    NobodyBlocked(procs, s);
    InvAdmitted(s);
    assert Returning(CheckArrivals(s).procs, s.io) == [];
  }

  lemma FcfsAdmitted(procs: seq<Proc>, s: State, k: nat, m: nat, m': nat)
    requires FcfsAt(procs, s, k, m) && NoIO(procs) && m' <= |procs|
    requires forall j | 0 <= j < |procs| :: j < m' <==> procs[j].arrival < s.time + 1
    ensures var a := Admitted(s);
            && Inv(a) && a.current == s.current && a.policy == s.policy && a.time == s.time && |a.procs| == |procs|
            && m <= m'
            && a.ready == if s.current.None? then Range(k, m') else Range(k + 1, m')
  {
    hide Admitted, OnTrack, NoIO, Recorded, StartAt, EndAt, Range;
    if m > 0 {
      assert procs[m - 1].arrival < s.time;
    }
    ReadyAfterAdmission(procs, s, m, m');
    if s.current.None? {
      RangeJoin(k, m, m');
    } else {
      RangeJoin(k + 1, m, m');
    }
  }

  lemma NobodyBlocked(procs: seq<Proc>, s: State)
    requires OnTrack(procs, s) && NoIO(procs)
    ensures s.io == []
  {
    hide ProcOk;
    if s.io != [] {
      var i := s.io[0];
      assert InPlace(s, i);
      CompetesWithoutIO(procs, s, i);
    }
  }

  /** The CPU is kept, or given to the first in line, who starts on schedule. */
  lemma FcfsDispatched(procs: seq<Proc>, s: State, k: nat, m: nat, m': nat)
    requires FcfsAt(procs, s, k, m) && NoIO(procs) && SortedByArrival(procs) && m' <= |procs|
    requires forall j | 0 <= j < |procs| :: j < m' <==> procs[j].arrival < s.time + 1
    ensures var d := Dispatched(s);
            && k <= m'
            && d.current == (if k < m' then Some(k) else None)
            && d.ready == (if k < m' then Range(k + 1, m') else [])
            && (k < m' && s.current.None? ==> StartAt(procs, k) == s.time)
  {
    hide Admitted, Recorded, Range, ProcOk, InPlace, LevelBounded, ResetProc, NoIO, SortedByArrival, ScheduleNext, Best, Preempts;
    FcfsAdmitted(procs, s, k, m, m');
    var a := Admitted(s);
    RangeJoin(k, k, m');
    if s.current.None? {
      if k < m' {
        HeadOfRange(procs, s, k, m');
        HeadDispatched(a);
      } else {
        NothingDispatched(a);
      }
    } else {
      FcfsKeeps(a);
    }
  }

  lemma FcfsKeeps(a: State)
    requires Inv(a) && a.current.Some? && a.policy.FCFS?
    ensures DispatchStage(a) == a
  {
    Quanta.ActiveNotComplete(a);
  }

  lemma HeadOfRange(procs: seq<Proc>, s: State, k: nat, m': nat)
    requires OnTrack(procs, s) && SortedByArrival(procs) && k < m' <= |procs| && Admitted(s).ready == Range(k, m')
    ensures var a := Admitted(s);
            a.ready != [] && a.ready[0] == k && Wf(a) && Best(FCFS, a.time, a.procs, a.ready) == k
  {
    hide Admitted, ProcOk, InPlace;
    ArrivalsKept(procs, s);
    var a := Admitted(s);
    forall i | 0 < i < |a.ready|
      ensures a.procs[a.ready[0]].arrival <= a.procs[a.ready[i]].arrival
    {
      assert a.ready[i] == k + i;
    }
    HeadArrivedFirst(a.time, a.procs, a.ready);
  }

  lemma HeadDispatched(a: State)
    requires Inv(a) && a.current.None? && a.ready != [] && a.policy.FCFS?
    requires Best(FCFS, a.time, a.procs, a.ready) == a.ready[0]
    ensures ScheduleNext(a).current == Some(a.ready[0]) && ScheduleNext(a).ready == a.ready[1..]
  {
  }

  lemma NothingDispatched(a: State)
    requires Wf(a) && a.current.None? && a.ready == []
    ensures ScheduleNext(a).current == None && ScheduleNext(a).ready == []
  {
  }

  lemma ArrivalsKept(procs: seq<Proc>, s: State)
    requires OnTrack(procs, s)
    ensures |Admitted(s).procs| == |procs|
    ensures forall i | 0 <= i < |procs| :: Admitted(s).procs[i].arrival == procs[i].arrival
  {
    hide Admitted, ProcOk, InPlace;
    ViewAdmitted(s);
    forall i | 0 <= i < |procs|
      ensures Admitted(s).procs[i].arrival == procs[i].arrival
    {
      assert ResetProc(s.procs[i]).arrival == procs[i].arrival;
    }
  }

  // ---------- One tick ----------

  /** The queues after a tick without quanta and without I/O. */
  lemma QueuesAfterRun(procs: seq<Proc>, s: State)
    requires OnTrack(procs, s) && NoIO(procs) && QuantumFree(s.policy)
    ensures var d := Dispatched(s); var t := Tick(s);
            && t.ready == d.ready
            && |t.procs| == |procs|
            && t.current == match d.current
                            case None => None
                            case Some(c) => if c < |procs| && s.procs[c].remaining > 1 then Some(c) else None
  {
    hide Dispatched, ExecuteCurrent, CheckIOBurst, ProcOk, AfterExecution, ResetProc, AdvanceClock, Alike, AfterAdmission, NoIO;
    ViewDispatched(s);
    var d := Dispatched(s);
    ClockKeepsQueues(RunStage(d));
    TickSpends(s);
    if d.current.Some? {
      var c := d.current.value;
      ViewExecution(d);
      RunnerRemains(procs, s, c);
      var e := CheckIOBurst(ExecuteCurrent(d));
      assert InPlace(e, c);
    }
  }

  lemma ClockKeepsQueues(s: State)
    requires Wf(s)
    ensures AdvanceClock(s).ready == s.ready && AdvanceClock(s).current == s.current && |AdvanceClock(s).procs| == |s.procs|
  {
  }

  lemma RunnerRemains(procs: seq<Proc>, s: State, c: nat)
    requires OnTrack(procs, s) && NoIO(procs) && Runner(s) == Some(c) && c < |procs|
    ensures c < |Dispatched(s).procs|
    ensures Active(AfterExecution(s.policy, s.time, Dispatched(s).procs[c])) <==> s.procs[c].remaining > 1
  {
    hide Dispatched, InPlace, Alike;
    ViewDispatched(s);
    InvAdmittedProcs(s);
    var p := Dispatched(s).procs[c];
    assert Dispatched(s).procs[c] == Admitted(s).procs[c].(state := p.state);
    assert |ResetProc(s.procs[c]).io| == |s.procs[c].io|;
    WithoutBurstsRuns(s.policy, s.time, p);
  }

  lemma WithoutBurstsRuns(policy: Policy, now: int, p: Proc)
    requires p.io == [] && p.remaining >= 1
    ensures Active(AfterExecution(policy, now, p)) <==> p.remaining > 1
  {
  }

  /** What the tick records for the runner. */
  lemma RecordsAfterRun(procs: seq<Proc>, s: State, j: nat)
    requires OnTrack(procs, s) && j < |procs|
    ensures var p := s.procs[j]; var t := Tick(s);
            && |t.procs| == |procs|
            && var q := t.procs[j];
            && (if Runner(s) == Some(j)
                then && q.started
                     && q.startTime == (if p.started then p.startTime else s.time)
                     && q.remaining == p.remaining - 1
                     && (q.remaining == 0 ==> q.state == Terminated && q.completion == s.time + 1)
                else && q.started == p.started && q.startTime == p.startTime && q.remaining == p.remaining
                     && q.completion == p.completion
                     && (p.state == Terminated ==> q.state == Terminated))
  {
    hide Tick, Runner, AfterExecution, AfterAdmission, InPlace;
    ViewTick(s);
    InvAdmittedProcs(s);
    assert Alike(Ticked(s, j), Tick(s).procs[j]);
    var p := AfterAdmission(s.policy, s.time, s.procs[j]);
    AdmissionRecords(s.policy, s.time, s.procs[j]);
    if Runner(s) == Some(j) {
      ExecutionRecords(s.policy, s.time, p);
    }
  }

  lemma AdmissionRecords(policy: Policy, now: int, p: Proc)
    ensures var q := AfterAdmission(policy, now, p);
            && q.started == p.started && q.startTime == p.startTime && q.remaining == p.remaining && q.completion == p.completion
            && (p.state == Terminated ==> q.state == Terminated)
  {
  }

  lemma ExecutionRecords(policy: Policy, now: int, p: Proc)
    requires ProcOk(p) && Active(p)
    ensures var q := AfterExecution(policy, now, p);
            && q.started && q.startTime == (if p.started then p.startTime else now) && q.remaining == p.remaining - 1
            && (q.remaining == 0 ==> q.state == Terminated && q.completion == now + 1)
  {
  }

  lemma UnstartedIsWhole(procs: seq<Proc>, s: State, j: nat)
    requires OnTrack(procs, s) && j < |procs|
    ensures !s.procs[j].started ==> s.procs[j].remaining == procs[j].burst
    ensures procs[j].burst >= 1
  {
    assert ProcOk(s.procs[j]) && ResetProc(s.procs[j]).burst == procs[j].burst;
  }

  /** How the record of process `j` changes from `p` to `q` in the tick at `now`. */
  ghost predicate Records(p: Proc, q: Proc, now: int, runs: bool) {
    if runs then
      && p.remaining >= 1
      && q.started
      && q.startTime == (if p.started then p.startTime else now)
      && q.remaining == p.remaining - 1
      && (q.remaining == 0 ==> q.state == Terminated && q.completion == now + 1)
    else
      && q.started == p.started && q.startTime == p.startTime && q.completion == p.completion
      && (p.state == Terminated ==> q.state == Terminated)
  }

  /** What the lemmas above say of one tick is enough to move the closed form along. */
  lemma FcfsStep(procs: seq<Proc>, s: State, t: State, k: nat, m: nat, m': nat)
    requires FcfsAt(procs, s, k, m) && OnTrack(procs, t) && t.policy.FCFS? && t.time == s.time + 1
    requires k <= m' <= |procs| && forall j | 0 <= j < |procs| :: j < m' <==> procs[j].arrival < t.time
    requires k < m' && s.current.None? ==> StartAt(procs, k) == s.time
    requires forall j | 0 <= j < |procs| :: Records(s.procs[j], t.procs[j], s.time, k < m' && j == k)
    requires forall j | 0 <= j < |procs| && !s.procs[j].started :: s.procs[j].remaining == procs[j].burst
    requires t.ready == if k < m' then Range(k + 1, m') else []
    requires t.current == if k < m' && s.procs[k].remaining > 1 then Some(k) else None
    ensures FcfsAt(procs, t, if k < m' && s.procs[k].remaining == 1 then k + 1 else k, m')
  {
    hide Range, StartAt, EndAt, ProcOk, InPlace, LevelBounded, ResetProc, ValidPolicy, Wf, NoDup;
    RangeJoin(k, k, m');
    if k < m' {
      NextStart(procs, k);
      assert Records(s.procs[k], t.procs[k], s.time, true);
      if s.procs[k].remaining == 1 {
        RangeJoin(k + 1, k + 1, m');
      }
    }
  }

  lemma NextStart(procs: seq<Proc>, k: nat)
    requires k < |procs|
    ensures EndAt(procs, k) == StartAt(procs, k) + procs[k].burst
    ensures k + 1 < |procs| ==>
              StartAt(procs, k + 1) == if EndAt(procs, k) > procs[k + 1].arrival then EndAt(procs, k) else procs[k + 1].arrival
  {
  }

  /** One tick of FCFS moves the closed form along. */
  lemma FcfsTick(procs: seq<Proc>, s: State, k: nat, m: nat) returns (k': nat, m': nat)
    requires FcfsAt(procs, s, k, m) && NoIO(procs) && SortedByArrival(procs)
    ensures FcfsAt(procs, Tick(s), k', m')
  {
    hide Tick, Dispatched, ProcOk, InPlace, LevelBounded, ResetProc, NoIO, SortedByArrival, Range;
    m' := CountArrived(procs, s.time + 1, |procs|);
    FcfsDispatched(procs, s, k, m, m');
    QueuesAfterRun(procs, s);
    OnTrackTick(procs, s);
    TimeAndPolicy(s);
    TickSpends(s);
    forall j | 0 <= j < |procs|
      ensures Records(s.procs[j], Tick(s).procs[j], s.time, k < m' && j == k)
      ensures !s.procs[j].started ==> s.procs[j].remaining == procs[j].burst
    {
      RecordsAfterRun(procs, s, j);
      UnstartedIsWhole(procs, s, j);
    }
    FcfsStep(procs, s, Tick(s), k, m, m');
    k' := if k < m' && s.procs[k].remaining == 1 then k + 1 else k;
  }

  lemma TimeAndPolicy(s: State)
    requires Inv(s)
    ensures Tick(s).time == s.time + 1 && Tick(s).policy == s.policy
  {
    hide Tick, Runner;
    ViewTick(s);
  }

  // ---------- Whole runs ----------

  lemma {:induction false} FcfsRun(seed: Word, procs: seq<Proc>, n: nat) returns (k: nat, m: nat)
    requires Startable(FCFS, procs) && NoIO(procs) && SortedByArrival(procs)
    ensures FcfsAt(procs, Run(Initial(FCFS, seed, procs), n), k, m)
  {
    hide Tick, OnTrack, NoIO, SortedByArrival, FcfsAt, Workload;
    if n == 0 {
      k, m := 0, 0;
      FcfsStart(seed, procs);
    } else {
      k, m := FcfsRun(seed, procs, n - 1);
      k, m := FcfsTick(procs, Run(Initial(FCFS, seed, procs), n - 1), k, m);
    }
  }

  lemma FcfsStart(seed: Word, procs: seq<Proc>)
    requires Startable(FCFS, procs)
    ensures FcfsAt(procs, Initial(FCFS, seed, procs), 0, 0)
  {
    hide OnTrack;
    OnTrackRun(FCFS, seed, procs, 0);
    FreshIsNew(procs);
    assert OnTrack(procs, Initial(FCFS, seed, procs));
    forall j | 0 <= j < |procs|
      ensures !procs[j].started
    {
      assert procs[j] == ResetProc(procs[j]);
    }
  }

  lemma {:induction false} EndsInOrder(procs: seq<Proc>, i: nat, j: nat)
    requires i < j < |procs|
    requires forall x | 0 <= x < |procs| :: procs[x].burst >= 1
    ensures EndAt(procs, i) < EndAt(procs, j)
  {
    if i + 1 < j {
      EndsInOrder(procs, i, j - 1);
    }
  }

  /** Process `j` of the arrival-sorted list completes exactly by its closed-form time, and then its recorded
      start, completion, turnaround, response and waiting times are the closed form's. */
  lemma FcfsMatchesClosedForm(seed: Word, procs: seq<Proc>, n: nat, j: nat)
    requires Startable(FCFS, procs) && NoIO(procs) && SortedByArrival(procs) && j < |procs|
    ensures var s := Run(Initial(FCFS, seed, procs), n);
            && |s.procs| == |procs|
            && var p := s.procs[j];
            && (p.Complete() <==> EndAt(procs, j) <= n)
            && (p.Complete() ==>
                  && p.startTime == StartAt(procs, j)
                  && p.completion == EndAt(procs, j)
                  && p.turnaround == EndAt(procs, j) - procs[j].arrival
                  && p.response == p.waiting == StartAt(procs, j) - procs[j].arrival)
  {
    hide Tick, NoIO, SortedByArrival, Workload, Run;
    var k, m := FcfsRun(seed, procs, n);
    RunFacts(FCFS, seed, procs, n);
    FcfsReads(procs, Run(Initial(FCFS, seed, procs), n), k, m, j);
  }

  lemma FcfsReads(procs: seq<Proc>, s: State, k: nat, m: nat, j: nat)
    requires FcfsAt(procs, s, k, m) && j < |procs|
    ensures |s.procs| == |procs|
    ensures var p := s.procs[j];
            && (p.Complete() <==> EndAt(procs, j) <= s.time)
            && (p.Complete() ==>
                  && p.startTime == StartAt(procs, j)
                  && p.completion == EndAt(procs, j)
                  && p.turnaround == EndAt(procs, j) - procs[j].arrival
                  && p.response == p.waiting == StartAt(procs, j) - procs[j].arrival)
  {
    hide Range;
    assert ProcOk(s.procs[j]) && InPlace(s, j) && ResetProc(s.procs[j]) == procs[j];
    forall x | 0 <= x < |procs|
      ensures procs[x].burst >= 1
    {
      UnstartedIsWhole(procs, s, x);
    }
    if j < k - 1 {
      EndsInOrder(procs, j, k - 1);
    } else if k < j {
      EndsInOrder(procs, k, j);
    }
  }
}
