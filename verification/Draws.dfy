/** What a run owes to its random source: two runs that differ in the source's state only stay alike exactly as
    long as the draws select the same processes. */
module Draws {
  import opened RandomWords
  import opened Processes
  import opened Policies
  import opened Engine
  import opened Invariants
  import Effects
  import Runs

  /** The same state with another word in its random source. */
  function Twin(s: State, w: Word): State {
    s.(word := w)
  }

  // ---------- The questions a tick asks the scheduler ----------

  /** With `w` in the source the scheduler answers as it does with the state's own word. */
  predicate SamePick(x: State, w: Word)
    requires Wf(x)
  {
    x.ready == [] ||
    Pick(x.policy, x.time, x.procs, x.ready, x.word) == Pick(x.policy, x.time, x.procs, x.ready, w)
  }

  /** The source's word after the answer. */
  function Answered(x: State, w: Word): Word
    requires Wf(x)
  {
    if x.ready == [] then w else PickWord(x.policy, x.procs, x.ready, w)
  }

  /** The state in which the dispatch stage asks, if it does. */
  function DispatchAsks(a: State): (x: Option<State>)
    requires Wf(a)
    ensures x.Some? ==> Wf(x.value)
  {
    if a.current.None? || a.procs[a.current.value].Complete() then Some(a)
    else if Preempts(a.policy, a.time, a.procs, a.current.value, a.ready) then Some(PreemptCurrent(a))
    else None
  }

  /** The state in which a quantum expiry asks, if there is one. */
  function ExpiryAsks(d: State): (x: Option<State>)
    requires Wf(d)
    ensures x.Some? ==> Wf(x.value)
  {
    if d.current.None? then None else
    var e := CheckIOBurst(ExecuteCurrent(d));
    if QuantumOver(e) then Some(Requeue(e)) else None
  }

  predicate SameAnswer(x: Option<State>, w: Word)
    requires x.Some? ==> Wf(x.value)
  {
    x.Some? ==> SamePick(x.value, w)
  }

  function AnsweredBy(x: Option<State>, w: Word): Word
    requires x.Some? ==> Wf(x.value)
  {
    match x case None => w case Some(y) => Answered(y, w)
  }

  /** Both questions of a tick are answered alike. */
  predicate SameDraws(s: State, w: Word)
    requires Wf(s)
  {
    && SameAnswer(DispatchAsks(Admitted(s)), w)
    && SameAnswer(ExpiryAsks(Dispatched(s)), AnsweredBy(DispatchAsks(Admitted(s)), w))
  }

  function WordAfterTick(s: State, w: Word): Word
    requires Wf(s)
  {
    AnsweredBy(ExpiryAsks(Dispatched(s)), AnsweredBy(DispatchAsks(Admitted(s)), w))
  }

  /** Word `w` followed along the first `m` ticks of a run. */
  function Followed(s0: State, w: Word, m: nat): Word
    requires Wf(s0)
  {
    if m == 0 then w else WordAfterTick(Run(s0, m - 1), Followed(s0, w, m - 1))
  }

  /** Every question of the first `m` ticks is answered alike. */
  ghost predicate SameDrawsFor(s0: State, w: Word, m: nat)
    requires Wf(s0)
  {
    forall k: nat | k < m :: SameDraws(Run(s0, k), Followed(s0, w, k))
  }

  // ---------- Alike while the draws are ----------

  lemma TwinSchedules(x: State, w: Word)
    requires Wf(x) && SamePick(x, w)
    ensures ScheduleNext(Twin(x, w)) == Twin(ScheduleNext(x), Answered(x, w))
  {
    hide Pick, PickWord, RemoveFirst;
  }

  lemma TwinAdmitted(s: State, w: Word)
    requires Wf(s)
    ensures Admitted(Twin(s, w)) == Twin(Admitted(s), w)
  {
    hide Arriving, Returning, StillBlocked, Enlist;
    assert CheckArrivals(Twin(s, w)) == Twin(CheckArrivals(s), w);
  }

  lemma TwinAsks(a: State, w: Word)
    requires Wf(a)
    ensures DispatchAsks(Twin(a, w)) == match DispatchAsks(a) case None => None case Some(x) => Some(Twin(x, w))
    ensures DispatchStage(a) == match DispatchAsks(a) case None => a case Some(x) => ScheduleNext(x)
  {
    hide ScheduleNext, Preempts;
  }

  lemma TwinDispatched(s: State, w: Word)
    requires Wf(s) && SameAnswer(DispatchAsks(Admitted(s)), w)
    ensures Dispatched(Twin(s, w)) == Twin(Dispatched(s), AnsweredBy(DispatchAsks(Admitted(s)), w))
  {
    hide Admitted, DispatchStage, DispatchAsks, ScheduleNext, SamePick, Answered;
    var a := Admitted(s);
    TwinAdmitted(s, w);
    TwinAsks(a, w);
    TwinAsks(Twin(a, w), w);
    if DispatchAsks(a).Some? {
      TwinSchedules(DispatchAsks(a).value, w);
    }
  }

  lemma TwinExecuteCurrent(d: State, w: Word)
    requires Wf(d) && d.current.Some?
    ensures ExecuteCurrent(Twin(d, w)) == Twin(ExecuteCurrent(d), w)
  {
    hide Execute, AddGantt, Delist, InRange;
    var p := Execute(d.procs[d.current.value], d.time, 1);
    if p.Complete() {
      assert ExecuteCurrent(Twin(d, w)) == Twin(ExecuteCurrent(d), w);
    } else {
      assert ExecuteCurrent(Twin(d, w)) == Twin(ExecuteCurrent(d), w);
    }
  }

  lemma TwinCheckIOBurst(d: State, w: Word)
    requires Wf(d)
    ensures CheckIOBurst(Twin(d, w)) == Twin(CheckIOBurst(d), w)
  {
    hide Fires, StartBurst, NextBurst;
  }

  /** The run stage up to the expiry. */
  lemma TwinExecutes(d: State, w: Word)
    requires Wf(d) && d.current.Some?
    ensures CheckIOBurst(ExecuteCurrent(Twin(d, w))) == Twin(CheckIOBurst(ExecuteCurrent(d)), w)
  {
    hide ExecuteCurrent, CheckIOBurst;
    TwinExecuteCurrent(d, w);
    TwinCheckIOBurst(ExecuteCurrent(d), w);
  }

  lemma TwinExpiry(d: State, w: Word)
    requires Wf(d)
    ensures ExpiryAsks(Twin(d, w)) == match ExpiryAsks(d) case None => None case Some(x) => Some(Twin(x, w))
    ensures RunStage(d) == match ExpiryAsks(d)
                           case Some(x) => ScheduleNext(x)
                           case None => if d.current.Some? then CheckIOBurst(ExecuteCurrent(d)) else IdleTick(d)
  {
    hide ScheduleNext, CheckIOBurst, ExecuteCurrent, AddGantt, Demote, QuantumFor;
    if d.current.Some? {
      TwinExecutes(d, w);
    }
  }

  lemma TwinRunStage(d: State, w: Word)
    requires Wf(d) && SameAnswer(ExpiryAsks(d), w)
    ensures RunStage(Twin(d, w)) == Twin(RunStage(d), AnsweredBy(ExpiryAsks(d), w))
  {
    hide RunStage, ExpiryAsks, ScheduleNext, CheckIOBurst, ExecuteCurrent, SamePick, Answered, AddGantt;
    TwinExpiry(d, w);
    TwinExpiry(Twin(d, w), w);
    if ExpiryAsks(d).Some? {
      TwinSchedules(ExpiryAsks(d).value, w);
    } else if d.current.Some? {
      TwinExecutes(d, w);
    }
  }

  lemma TwinTick(s: State, w: Word)
    requires Wf(s) && SameDraws(s, w)
    ensures Tick(Twin(s, w)) == Twin(Tick(s), WordAfterTick(s, w))
  {
    hide Dispatched, RunStage, DispatchAsks, ExpiryAsks, SameAnswer, AnsweredBy;
    TwinDispatched(s, w);
    TwinRunStage(Dispatched(s), AnsweredBy(DispatchAsks(Admitted(s)), w));
    TwinClock(RunStage(Dispatched(s)), WordAfterTick(s, w));
  }

  lemma TwinClock(s: State, w: Word)
    requires Wf(s)
    ensures AdvanceClock(Twin(s, w)) == Twin(AdvanceClock(s), w)
  {
    assert AdvanceClock(Twin(s, w)).procs == AdvanceClock(s).procs;
  }

  /** As long as the draws select alike, everything but the source's word is alike. */
  lemma {:induction false} TwinRun(s0: State, w: Word, m: nat)
    requires Wf(s0) && SameDrawsFor(s0, w, m)
    ensures Run(Twin(s0, w), m) == Twin(Run(s0, m), Followed(s0, w, m))
  {
    hide Tick, SameDraws, WordAfterTick;
    if m > 0 {
      assert SameDrawsFor(s0, w, m - 1);
      TwinRun(s0, w, m - 1);
      TwinTick(Run(s0, m - 1), Followed(s0, w, m - 1));
    }
  }

  // ---------- Different as soon as they are not ----------

  /** Both logs have an entry at some place where they differ. */
  ghost predicate Diverged(a: seq<Event>, b: seq<Event>) {
    exists k: nat :: k < |a| && k < |b| && a[k] != b[k]
  }

  lemma DivergedStays(a: seq<Event>, b: seq<Event>, a': seq<Event>, b': seq<Event>)
    requires Diverged(a, b) && a <= a' && b <= b'
    ensures Diverged(a', b') && a' != b'
  {
    var k: nat :| k < |a| && k < |b| && a[k] != b[k];
    assert a'[k] != b'[k];
  }

  lemma ScheduleLogGrows(x: State)
    requires Wf(x)
    ensures x.events <= ScheduleNext(x).events
  {
  }

  lemma DispatchLogGrows(s: State)
    requires Wf(s)
    ensures s.events <= Dispatched(s).events
  {
    hide DispatchStage, ScheduleNext;
    var a := Admitted(s);
    TwinAsks(a, a.word);
    assert s.events <= CheckArrivals(s).events;
    assert s.events <= a.events;
    if DispatchAsks(a).Some? {
      ScheduleLogGrows(DispatchAsks(a).value);
    }
  }

  lemma RunStageLogGrows(d: State)
    requires Wf(d)
    ensures d.events <= RunStage(d).events
    ensures ExpiryAsks(d).Some? ==> d.events <= ExpiryAsks(d).value.events
  {
    hide ScheduleNext, Execute, Fires, StartBurst, AddGantt, Demote, Delist;
    TwinExpiry(d, d.word);
    if ExpiryAsks(d).Some? {
      ScheduleLogGrows(ExpiryAsks(d).value);
    }
  }

  lemma {:induction false} LogGrows(s: State, m: nat, n: nat)
    requires Wf(s) && m <= n
    ensures Run(s, m).events <= Run(s, n).events
  {
    hide Dispatched, RunStage;
    if m < n {
      var t := Run(s, n - 1);
      LogGrows(s, m, n - 1);
      DispatchLogGrows(t);
      RunStageLogGrows(Dispatched(t));
    }
  }

  /** Different picks are logged as different processes. */
  lemma PicksDiverge(x: State, w: Word)
    requires Wf(x) && DistinctPids(x.procs) && !SamePick(x, w)
    ensures Diverged(ScheduleNext(x).events, ScheduleNext(Twin(x, w)).events)
  {
    hide Pick, PickWord, RemoveFirst;
    var a := Pick(x.policy, x.time, x.procs, x.ready, x.word);
    var b := Pick(x.policy, x.time, x.procs, x.ready, w);
    PidsApart(x.procs, a, b);
    assert ScheduleNext(x).events[|x.events|] != ScheduleNext(Twin(x, w)).events[|x.events|];
  }

  lemma AdmittedPids(s: State)
    requires Inv(s) && DistinctPids(s.procs)
    ensures DistinctPids(Admitted(s).procs)
  {
    hide Admitted, ProcOk, InPlace;
    Effects.ViewAdmitted(s);
  }

  lemma AskedPids(a: State)
    requires Inv(a) && DistinctPids(a.procs)
    ensures DispatchAsks(a).Some? ==> DistinctPids(DispatchAsks(a).value.procs)
    ensures DistinctPids(DispatchStage(a).procs)
  {
    hide Preempts, Pick, PickWord, RemoveFirst, ProcOk, InPlace;
  }

  lemma ExpiryPids(d: State)
    requires Inv(d) && DistinctPids(d.procs)
    ensures ExpiryAsks(d).Some? ==> DistinctPids(ExpiryAsks(d).value.procs)
  {
    hide ExecuteCurrent, CheckIOBurst, ProcOk, InPlace, QuantumFor, Demote, Effects.AfterExecution;
    if d.current.Some? {
      Effects.ViewExecution(d);
      ExecutionKeepsPid(d.policy, d.time, d.procs[d.current.value]);
      var e := CheckIOBurst(ExecuteCurrent(d));
      SamePids(d.procs, e.procs);
      if e.current.Some? {
        SamePids(e.procs, Requeue(e).procs);
      }
    }
  }

  lemma SamePids(a: seq<Proc>, b: seq<Proc>)
    requires DistinctPids(a) && |a| == |b| && forall i | 0 <= i < |a| :: a[i].pid == b[i].pid
    ensures DistinctPids(b)
  {
  }

  lemma ExecutionKeepsPid(policy: Policy, now: int, p: Proc)
    ensures Effects.AfterExecution(policy, now, p).pid == p.pid
  {
  }

  /** A tick in which a draw selects differently logs something different. */
  lemma TickDiverges(s: State, w: Word)
    requires Inv(s) && DistinctPids(s.procs) && !SameDraws(s, w)
    ensures Diverged(Tick(s).events, Tick(Twin(s, w)).events)
  {
    hide Admitted, DispatchStage, RunStage, ScheduleNext, DispatchAsks, ExpiryAsks, SamePick, Answered, Diverged, DistinctPids,
      ProcOk,
      InPlace, LevelBounded;
    var a := Admitted(s);
    InvAdmitted(s);
    InvDispatched(s);
    AdmittedPids(s);
    AskedPids(a);
    TwinAdmitted(s, w);
    TwinAsks(a, w);
    TwinAsks(Twin(a, w), w);
    var d, d' := Dispatched(s), Dispatched(Twin(s, w));
    RunStageLogGrows(d);
    RunStageLogGrows(d');
    if !SameAnswer(DispatchAsks(a), w) {
      PicksDiverge(DispatchAsks(a).value, w);
      DivergedStays(d.events, d'.events, RunStage(d).events, RunStage(d').events);
    } else {
      var w1 := AnsweredBy(DispatchAsks(a), w);
      TwinDispatched(s, w);
      ExpiryPids(d);
      TwinExpiry(d, w1);
      TwinExpiry(Twin(d, w1), w1);
      PicksDiverge(ExpiryAsks(d).value, w1);
    }
  }

  /** For distinct PIDs, `m` ticks from two words log the same if and only if every draw on the way selects the same
      process; and then they agree in everything but the word. */
  lemma SameLogIff(procs: seq<Proc>, s0: State, w: Word, m: nat)
    requires Wf(s0) && Runs.OnTrack(procs, s0) && DistinctPids(procs)
    ensures SameDrawsFor(s0, w, m) <==> Run(Twin(s0, w), m).events == Run(s0, m).events
    ensures SameDrawsFor(s0, w, m) ==> Run(Twin(s0, w), m) == Twin(Run(s0, m), Followed(s0, w, m))
  {
    hide Tick, SameDraws, Runs.OnTrack, ProcOk, InPlace, LevelBounded, DistinctPids, SameDrawsFor, WordAfterTick, Diverged,
      Admitted;
    OnTrackInv(procs, s0);
    if SameDrawsFor(s0, w, m) {
      TwinRun(s0, w, m);
    } else {
      LogsDiffer(procs, s0, w, m);
    }
  }

  lemma LogsDiffer(procs: seq<Proc>, s0: State, w: Word, m: nat)
    requires Wf(s0) && Runs.OnTrack(procs, s0) && DistinctPids(procs) && !SameDrawsFor(s0, w, m)
    ensures Run(Twin(s0, w), m).events != Run(s0, m).events
  {
    hide Tick, SameDraws, Runs.OnTrack, ProcOk, InPlace, LevelBounded, DistinctPids, SameDrawsFor, WordAfterTick, Diverged,
      Admitted, Followed;
    var k := FirstDifference(s0, w, m);
    TwinRun(s0, w, k);
    RunOnTrack(procs, s0, k);
    var s := Run(s0, k);
    Runs.PidsKept(procs, s);
    OnTrackInv(procs, s);
    TickDiverges(s, Followed(s0, w, k));
    assert Run(s0, k + 1) == Tick(s) && Run(Twin(s0, w), k + 1) == Tick(Twin(s, Followed(s0, w, k)));
    LogGrows(s0, k + 1, m);
    LogGrows(Twin(s0, w), k + 1, m);
    DivergedStays(Run(s0, k + 1).events, Run(Twin(s0, w), k + 1).events, Run(s0, m).events, Run(Twin(s0, w), m).events);
  }

  lemma OnTrackInv(procs: seq<Proc>, s: State)
    requires Runs.OnTrack(procs, s)
    ensures Inv(s)
  {
  }

  lemma {:induction false} RunOnTrack(procs: seq<Proc>, s: State, n: nat)
    requires Runs.OnTrack(procs, s)
    ensures Runs.OnTrack(procs, Run(s, n))
  {
    hide Tick, Runs.OnTrack, ProcOk, InPlace, LevelBounded;
    OnTrackInv(procs, s);
    if n > 0 {
      RunOnTrack(procs, s, n - 1);
      Runs.OnTrackTick(procs, Run(s, n - 1));
    }
  }

  lemma SameDrawsMore(s0: State, w: Word, m: nat)
    requires Wf(s0) && m > 0
    ensures SameDrawsFor(s0, w, m) <==> SameDrawsFor(s0, w, m - 1) && SameDraws(Run(s0, m - 1), Followed(s0, w, m - 1))
  {
    hide SameDraws, Tick, WordAfterTick, Run, Followed;
  }

  lemma {:induction false} FirstDifference(s0: State, w: Word, m: nat) returns (k: nat)
    requires Wf(s0) && !SameDrawsFor(s0, w, m)
    ensures k < m && SameDrawsFor(s0, w, k) && !SameDraws(Run(s0, k), Followed(s0, w, k))
  {
    hide SameDraws, SameDrawsFor, Run, Followed;
    if m == 0 {
      NoDraws(s0, w);
    }
    SameDrawsMore(s0, w, m);
    if SameDrawsFor(s0, w, m - 1) {
      k := m - 1;
    } else {
      k := FirstDifference(s0, w, m - 1);
    }
  }

  lemma NoDraws(s0: State, w: Word)
    requires Wf(s0)
    ensures SameDrawsFor(s0, w, 0)
  {
  }

  // ---------- Sources ----------

  /** The word after drawing below each of `bounds` in turn. */
  function WordVia(rng: Rng, w: Word, bounds: seq<int>): Word
    decreases |bounds|
  {
    if bounds == [] then w else WordVia(rng, rng.next(w, bounds[0]), bounds[1..])
  }

  predicate Positive(bounds: seq<int>) {
    forall k | 0 <= k < |bounds| :: bounds[k] > 0
  }

  /** What the lottery makes of a draw below `n`: one out of range counts as the nearest in range. */
  function Place(d: int, n: int): int
    requires n > 0
  {
    if d < 0 then 0 else if d >= n then n - 1 else d
  }

  /** The source draws alike from both words, below whatever bounds it is asked to. */
  ghost predicate SameStream(rng: Rng, w: Word, w': Word) {
    forall bounds: seq<int>, n: int | Positive(bounds) && n > 0 ::
      Place(rng.draw(WordVia(rng, w, bounds), n), n) == Place(rng.draw(WordVia(rng, w', bounds), n), n)
  }

  lemma SameStreamNow(rng: Rng, w: Word, w': Word, n: int)
    requires SameStream(rng, w, w') && n > 0
    ensures Place(rng.draw(w, n), n) == Place(rng.draw(w', n), n)
    ensures SameStream(rng, rng.next(w, n), rng.next(w', n))
  {
    assert Place(rng.draw(WordVia(rng, w, []), n), n) == Place(rng.draw(WordVia(rng, w', []), n), n);
    forall bounds: seq<int>, k: int | Positive(bounds) && k > 0
      ensures Place(rng.draw(WordVia(rng, rng.next(w, n), bounds), k), k)
           == Place(rng.draw(WordVia(rng, rng.next(w', n), bounds), k), k)
    {
      var all := [n] + bounds;
      assert all[1..] == bounds && Positive(all);
      assert Place(rng.draw(WordVia(rng, w, all), k), k) == Place(rng.draw(WordVia(rng, w', all), k), k);
    }
  }

  lemma {:induction false} LowestHolds(procs: seq<Proc>, q: seq<nat>, d: int)
    requires q != [] && InRange(procs, q) && d <= 0
    ensures Holder(procs, q, d) == 0
  {
    if |q| > 1 {
      LowestHolds(procs, q[..|q| - 1], d);
    }
  }

  lemma HolderByPlace(procs: seq<Proc>, q: seq<nat>, d: int)
    requires q != [] && InRange(procs, q)
    ensures Tickets(procs, q) > 0 && Holder(procs, q, d) == Holder(procs, q, Place(d, Tickets(procs, q)))
  {
    if d < 0 {
      LowestHolds(procs, q, d);
      LowestHolds(procs, q, 0);
    }
  }

  lemma StreamAnswers(x: State, w: Word)
    requires Wf(x) && x.policy.Lottery? && SameStream(x.policy.rng, x.word, w)
    ensures SamePick(x, w)
    ensures SameStream(x.policy.rng, Answered(x, x.word), Answered(x, w))
  {
    hide Holder, SameStream, Place, Tickets;
    if x.ready != [] {
      var n := Tickets(x.procs, x.ready);
      HolderByPlace(x.procs, x.ready, x.policy.rng.draw(x.word, n));
      HolderByPlace(x.procs, x.ready, x.policy.rng.draw(w, n));
      SameStreamNow(x.policy.rng, x.word, w, n);
    }
  }

  /** Whatever a tick asks, both words answer alike, and go on doing so. */
  lemma StreamTick(s: State, w: Word)
    requires Wf(s) && s.policy.Lottery? && SameStream(s.policy.rng, s.word, w)
    ensures SameDraws(s, w)
    ensures Tick(s).policy == s.policy && SameStream(s.policy.rng, Tick(s).word, WordAfterTick(s, w))
  {
    hide ScheduleNext, SamePick, Answered, SameStream, Admitted, ExecuteCurrent, CheckIOBurst, PreemptCurrent, Requeue, RunStage,
      DispatchStage;
    var a := Admitted(s);
    AdmissionKeepsWord(s);
    TwinAsks(a, w);
    if DispatchAsks(a).Some? {
      AskingKeepsWord(a);
      ScheduleMovesWord(DispatchAsks(a).value);
      StreamAnswers(DispatchAsks(a).value, w);
    }
    var d, w1 := Dispatched(s), AnsweredBy(DispatchAsks(a), w);
    TwinExpiry(d, w1);
    ExecutionKeepsWord(d);
    if ExpiryAsks(d).Some? {
      ScheduleMovesWord(ExpiryAsks(d).value);
      StreamAnswers(ExpiryAsks(d).value, w1);
    }
  }

  lemma AdmissionKeepsWord(s: State)
    requires Wf(s)
    ensures Admitted(s).word == s.word && Admitted(s).policy == s.policy
  {
  }

  lemma AskingKeepsWord(a: State)
    requires Wf(a) && DispatchAsks(a).Some?
    ensures DispatchAsks(a).value.word == a.word && DispatchAsks(a).value.policy == a.policy
  {
    hide Preempts;
  }

  lemma ScheduleMovesWord(x: State)
    requires Wf(x)
    ensures ScheduleNext(x).word == Answered(x, x.word) && ScheduleNext(x).policy == x.policy
  {
    hide Pick, PickWord, RemoveFirst;
  }

  lemma ExecutionKeepsWord(d: State)
    requires Wf(d)
    ensures d.current.Some? ==> CheckIOBurst(ExecuteCurrent(d)).word == d.word && CheckIOBurst(ExecuteCurrent(d)).policy == d.policy
    ensures ExpiryAsks(d).Some? ==> ExpiryAsks(d).value.word == d.word && ExpiryAsks(d).value.policy == d.policy
    ensures IdleTick(d).word == d.word && IdleTick(d).policy == d.policy
  {
    hide Execute, Fires, StartBurst, NextBurst, AddGantt, Delist, Demote, QuantumFor;
  }

  /** A source that draws alike from both words gives the same run, even if the words are different. */
  lemma {:induction false} StreamRun(s0: State, w: Word, m: nat)
    requires Wf(s0) && s0.policy.Lottery? && SameStream(s0.policy.rng, s0.word, w)
    ensures SameDrawsFor(s0, w, m)
    ensures Run(s0, m).policy == s0.policy && SameStream(s0.policy.rng, Run(s0, m).word, Followed(s0, w, m))
  {
    hide Tick, SameStream, SameDraws, SameDrawsFor, WordAfterTick;
    if m == 0 {
      NoDraws(s0, w);
    } else {
      StreamRun(s0, w, m - 1);
      StreamTick(Run(s0, m - 1), Followed(s0, w, m - 1));
      SameDrawsMore(s0, w, m);
    }
  }
}
