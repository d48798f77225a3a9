/** After `Reset` a run repeats itself exactly. */
module Replay {
  import opened RandomWords
  import opened Processes
  import opened Policies
  import opened Engine
  import opened Invariants
  import Runs
  import opened Draws
  import Pairs

  /** Only the lottery draws from the random source, and the seed is never overwritten. */
  ghost predicate SourceKept(s: State, t: State) {
    t.seed == s.seed && t.policy == s.policy && (!s.policy.Lottery? ==> t.word == s.word)
  }

  lemma ScheduleKeepsSource(s: State)
    requires Wf(s)
    ensures SourceKept(s, ScheduleNext(s))
  {
  }

  lemma DispatchKeepsSource(s: State)
    requires Wf(s)
    ensures SourceKept(s, DispatchStage(s))
  {
    hide ScheduleNext, Preempts;
    ScheduleKeepsSource(s);
    ScheduleKeepsSource(PreemptCurrent(s));
  }

  lemma ExecutionKeepsSource(s: State)
    requires Wf(s) && s.current.Some?
    ensures SourceKept(s, ExecuteCurrent(s))
  {
  }

  lemma BurstKeepsSource(s: State)
    requires Wf(s)
    ensures SourceKept(s, CheckIOBurst(s))
  {
    hide Fires, StartBurst, NextBurst;
  }

  lemma ExpiryKeepsSource(s: State)
    requires Wf(s)
    ensures SourceKept(s, ExpireQuantum(s))
  {
    hide ScheduleNext, QuantumFor;
    if QuantumOver(s) {
      ScheduleKeepsSource(Requeue(s));
    }
  }

  lemma RunStageKeepsSource(s: State)
    requires Wf(s)
    ensures SourceKept(s, RunStage(s))
  {
    hide ExecuteCurrent, CheckIOBurst, ExpireQuantum;
    if s.current.Some? {
      var x := ExecuteCurrent(s);
      ExecutionKeepsSource(s);
      BurstKeepsSource(x);
      ExpiryKeepsSource(CheckIOBurst(x));
    }
  }

  lemma TickKeepsSource(s: State)
    requires Wf(s)
    ensures SourceKept(s, Tick(s))
  {
    hide DispatchStage, RunStage;
    DispatchKeepsSource(Admitted(s));
    RunStageKeepsSource(Dispatched(s));
  }

  lemma {:induction false} RunKeepsSource(s: State, n: nat)
    requires Wf(s)
    ensures SourceKept(s, Run(s, n))
  {
    hide Tick;
    if n > 0 {
      RunKeepsSource(s, n - 1);
      TickKeepsSource(Run(s, n - 1));
    }
  }

  /** `Reset` of any reachable state is the new simulator again, but for the word of an injected random source. */
  lemma ResetIsTwin(policy: Policy, seed: Word, procs: seq<Proc>, n: nat)
    requires Startable(policy, procs)
    ensures var s0 := Initial(policy, seed, procs); var r := Reset(Run(s0, n));
            r == Twin(s0, if policy.Lottery? && !policy.rng.isDefault then Run(s0, n).word else seed)
  {
    hide Tick, Inv, Workload, ResetProc;
    var s0 := Initial(policy, seed, procs);
    Runs.OnTrackRun(policy, seed, procs, n);
    RunKeepsSource(s0, n);
    assert Reset(Run(s0, n)).procs == procs;
  }

  /** Exactly the new simulator unless an injected random source has moved: `Reset` rewinds the default source
      only. */
  lemma ResetRestoresInitial(policy: Policy, seed: Word, procs: seq<Proc>, n: nat)
    requires Startable(policy, procs)
    ensures var s := Run(Initial(policy, seed, procs), n);
            Reset(s) == Initial(policy, seed, procs) <==>
            (policy.Lottery? && !policy.rng.isDefault ==> s.word == seed)
  {
    hide Run, Reset;
    ResetIsTwin(policy, seed, procs, n);
  }

  /** `m` ticks after a reset reproduce the first `m` ticks: Gantt chart, events, counters and every
      process record. */
  lemma RunAfterResetRepeats(policy: Policy, seed: Word, procs: seq<Proc>, n: nat, m: nat)
    requires Startable(policy, procs)
    requires policy.Lottery? ==> policy.rng.isDefault
    ensures var s0 := Initial(policy, seed, procs);
            Run(Reset(Run(s0, n)), m) == Run(s0, m)
  {
    hide Run, Reset, Workload;
    ResetRestoresInitial(policy, seed, procs, n);
  }

  // ---------- Injected random sources ----------

  /** For any policy and any source: the log after a reset is the log of the first run if and only if the draws that
      the source makes from where the reset leaves it select the same processes; and then chart, counters and
      records are those of the first run too. */
  lemma ReplayRepeatsIff(policy: Policy, seed: Word, procs: seq<Proc>, n: nat, m: nat)
    requires Startable(policy, procs) && DistinctPids(procs)
    ensures var s0 := Initial(policy, seed, procs); var r := Reset(Run(s0, n));
            && r == Twin(s0, r.word)
            && (Run(r, m).events == Run(s0, m).events <==> SameDrawsFor(s0, r.word, m))
            && (SameDrawsFor(s0, r.word, m) ==> Run(r, m) == Run(s0, m).(word := Run(r, m).word))
  {
    hide Tick, Inv, Workload, ResetProc, SameDrawsFor, DistinctPids, Runs.OnTrack;
    var s0 := Initial(policy, seed, procs);
    ResetIsTwin(policy, seed, procs, n);
    assert s0 == Run(s0, 0);
    Runs.OnTrackRun(policy, seed, procs, 0);
    SameLogIff(procs, s0, Reset(Run(s0, n)).word, m);
  }

  /** So a source that has moved does no harm if it draws alike from both words. */
  lemma SameStreamReplays(policy: Policy, seed: Word, procs: seq<Proc>, n: nat, m: nat)
    requires Startable(policy, procs) && policy.Lottery?
    requires SameStream(policy.rng, seed, Reset(Run(Initial(policy, seed, procs), n)).word)
    ensures var s0 := Initial(policy, seed, procs);
            Run(Reset(Run(s0, n)), m) == Run(s0, m).(word := Run(Reset(Run(s0, n)), m).word)
  {
    hide Tick, Workload, SameStream, SameDrawsFor, Reset;
    var s0 := Initial(policy, seed, procs);
    ResetIsTwin(policy, seed, procs, n);
    var w := Reset(Run(s0, n)).word;
    assert Reset(Run(s0, n)) == Twin(s0, w);
    StreamRun(s0, w, m);
    TwinRun(s0, w, m);
  }

  /** A source that moves with every draw and draws the first ticket always. */
  const CONSTANT: Rng := Rng((w, n) => 0, (w, n) => w ^ 1, false)

  /** It replays every run, although each of its words is different from the next. */
  lemma ConstantSourceReplays(quantum: int, seed: Word, procs: seq<Proc>, n: nat, m: nat)
    requires Startable(Lottery(quantum, CONSTANT), procs)
    ensures forall w: Word, k: int :: CONSTANT.next(w, k) != w
    ensures var s0 := Initial(Lottery(quantum, CONSTANT), seed, procs);
            Run(Reset(Run(s0, n)), m) == Run(s0, m).(word := Run(Reset(Run(s0, n)), m).word)
  {
    hide Run, Reset, Startable;
    var s0 := Initial(Lottery(quantum, CONSTANT), seed, procs);
    assert SameStream(CONSTANT, seed, Reset(Run(s0, n)).word);
    SameStreamReplays(Lottery(quantum, CONSTANT), seed, procs, n, m);
  }

  /** A source that counts its draws: the first goes to the head of the queue, all others to its tail. */
  const COUNTING: Rng := Rng((w, n) => if w == 0 then 0 else n - 1, (w, n) => w + 1, false)

  /** A process of burst 1 and one ticket that arrives at time 0. */
  function Single(pid: int): Proc {
    Proc(pid, 0, 1, 0, 1, 1, New, false, -1, 0, 0, 0, 0, 0, 0, [], 0, 0, None)
  }

  lemma SinglesStartable(policy: Policy)
    requires ValidPolicy(policy)
    ensures var procs := [Single(1), Single(2)]; Startable(policy, procs) && DistinctPids(procs)
  {
    assert ClearBursts([]) == [];
  }

  /** The first tick asks once, with both processes in the queue. */
  lemma CountingAsks(w: Word)
    ensures var a := Admitted(Initial(Lottery(1, COUNTING), 0, [Single(1), Single(2)]));
            DispatchAsks(a) == Some(a) && (SamePick(a, w) <==> w == 0)
  {
    hide Admitted;
    var policy := Lottery(1, COUNTING);
    Pairs.BothAdmitted(policy, 0, [Single(1), Single(2)]);
    AdmissionKeepsWord(Initial(policy, 0, [Single(1), Single(2)]));
    var a := Admitted(Initial(policy, 0, [Single(1), Single(2)]));
    assert a.ready[..1] == [0] && a.ready[..1][..0] == [];
    assert Tickets(a.procs, []) == 0 && Tickets(a.procs, [0]) == 1 && Tickets(a.procs, a.ready) == 2;
    assert Holder(a.procs, [0], 0) == 0;
    assert Holder(a.procs, a.ready, 0) == 0 && Holder(a.procs, a.ready, 1) == 1;
  }

  lemma CountingMoves()
    ensures Run(Initial(Lottery(1, COUNTING), 0, [Single(1), Single(2)]), 1).word == 1
  {
    hide Admitted, RunStage, ScheduleNext, Pick, SamePick;
    var s0 := Initial(Lottery(1, COUNTING), 0, [Single(1), Single(2)]);
    var a := Admitted(s0);
    CountingAsks(0);
    AdmissionKeepsWord(s0);
    TwinAsks(a, 0);
    ScheduleMovesWord(a);
    Pairs.BothAdmitted(Lottery(1, COUNTING), 0, [Single(1), Single(2)]);
    assert Dispatched(s0).word == 1;
    NoExpiry(s0);
    assert Run(s0, 1) == Tick(Run(s0, 0));
  }

  /** Both processes finish in their first tick, so no quantum expires. */
  lemma NoExpiry(s0: State)
    requires s0 == Initial(Lottery(1, COUNTING), 0, [Single(1), Single(2)])
    ensures RunStage(Dispatched(s0)).word == Dispatched(s0).word
  {
    hide Admitted, Pick, PickWord, AddGantt, RemoveFirst;
    Pairs.BothAdmitted(Lottery(1, COUNTING), 0, [Single(1), Single(2)]);
    var a := Admitted(s0);
    assert Dispatched(s0) == ScheduleNext(a);
    assert forall i | 0 <= i < 2 :: a.procs[i].remaining == 1;
  }

  /** And the difference can show: two processes under a lottery with this source. After a tick and a reset, the next
      first tick starts the other process. */
  lemma InjectedSourceReplaysDifferently()
    ensures var s0 := Initial(Lottery(1, COUNTING), 0, [Single(1), Single(2)]);
            && Startable(Lottery(1, COUNTING), [Single(1), Single(2)])
            && Run(Reset(Run(s0, 1)), 1).events != Run(s0, 1).events
  {
    hide Tick, Admitted, DispatchAsks, SamePick, Startable, DistinctPids, Followed, ExpiryAsks;
    var policy, procs := Lottery(1, COUNTING), [Single(1), Single(2)];
    var s0 := Initial(policy, 0, procs);
    SinglesStartable(policy);
    CountingMoves();
    ResetIsTwin(policy, 0, procs, 1);
    CountingAsks(1);
    StartsFollowing(s0, 1);
    assert !SameDraws(Run(s0, 0), Followed(s0, 1, 0));
    ReplayRepeatsIff(policy, 0, procs, 1, 1);
  }

  lemma StartsFollowing(s0: State, w: Word)
    requires Wf(s0)
    ensures Run(s0, 0) == s0 && Followed(s0, w, 0) == w
  {
  }
}
