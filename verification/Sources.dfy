/** Which random sources give every lottery the same run from two different words: exactly those that draw alike
    from both, for all bounds. */
module Sources {
  import opened RandomWords
  import opened Processes
  import opened Policies
  import opened Engine
  import Invariants
  import Runs
  import opened Draws
  import Replay

  /** On this workload, `m` ticks from either word log the same. */
  ghost predicate SameLog(policy: Policy, w: Word, w': Word, procs: seq<Proc>, m: nat) {
    Invariants.Startable(policy, procs) && Invariants.DistinctPids(procs) ==>
      var s0 := Initial(policy, w, procs); Run(Twin(s0, w'), m).events == Run(s0, m).events
  }

  ghost predicate AlwaysSameLog(policy: Policy, w: Word, w': Word) {
    forall procs: seq<Proc>, m: nat :: SameLog(policy, w, w', procs, m)
  }

  // ---------- A workload that asks for given bounds ----------

  function Ticketed(pid: int, arrival: int, weight: int): Proc {
    Proc(pid, arrival, 1, 0, weight, 1, New, false, -1, 0, 0, 0, 0, 0, 0, [], 0, 0, None)
  }

  /** One process of burst 1 a tick, with as many tickets as the bound, and then two at once with `n` tickets between
      them. */
  function Guest(bounds: seq<int>, n: int, cut: int, i: nat): Proc {
    if i < |bounds| then Ticketed(i, i, bounds[i])
    else Ticketed(i, |bounds|, if i == |bounds| then cut else n - cut)
  }

  function Guests(bounds: seq<int>, n: int, cut: int): (procs: seq<Proc>)
    ensures |procs| == |bounds| + 2
    ensures forall i | 0 <= i < |procs| :: procs[i] == Guest(bounds, n, cut, i)
  {
    seq(|bounds| + 2, i requires 0 <= i < |bounds| + 2 => Guest(bounds, n, cut, i))
  }

  lemma TicketedIsFresh(pid: int, arrival: int, weight: int)
    requires pid >= 0 && arrival >= 0 && weight >= 1
    ensures Fresh(Ticketed(pid, arrival, weight))
  {
    assert ClearBursts([]) == [];
  }

  lemma GuestsStartable(policy: Policy, bounds: seq<int>, n: int, cut: int)
    requires ValidPolicy(policy) && Positive(bounds) && 1 <= cut < n
    ensures Invariants.Startable(policy, Guests(bounds, n, cut)) && Invariants.DistinctPids(Guests(bounds, n, cut))
  {
    hide Fresh;
    var procs := Guests(bounds, n, cut);
    forall i | 0 <= i < |procs|
      ensures Fresh(procs[i])
    {
      TicketedIsFresh(i, procs[i].arrival, procs[i].weight);
    }
  }

  /** Before tick `j`: the first `j` guests are gone, the others have not come. */
  ghost predicate Between(s: State, policy: Policy, procs: seq<Proc>, j: nat, word: Word) {
    && s.policy == policy && s.time == j && s.word == word && s.ready == [] && s.io == [] && s.current == None
    && |s.procs| == |procs| && j <= |procs|
    && (forall i | 0 <= i < j :: s.procs[i].state == Terminated)
    && (forall i | j <= i < |procs| :: s.procs[i] == procs[i])
  }

  lemma {:induction false} OneArrives(procs: seq<Proc>, now: int, n: nat, j: nat)
    requires n <= |procs| && forall i | 0 <= i < n :: Arrives(procs[i], now) <==> i == j
    ensures Arriving(procs, now, n) == if j < n then [j] else []
  {
    if n > 0 {
      OneArrives(procs, now, n - 1, j);
    }
  }

  lemma {:induction false} TwoArrive(procs: seq<Proc>, now: int, j: nat)
    requires |procs| == j + 2 && forall i | 0 <= i < |procs| :: Arrives(procs[i], now) <==> i >= j
    ensures Arriving(procs, now, |procs|) == [j, j + 1]
  {
    OneArrives(procs, now, j + 1, j);
  }

  /** Admission without anybody blocked. */
  lemma AdmissionIs(s: State, q: seq<nat>)
    requires Wf(s) && s.io == [] && s.ready == [] && Arriving(s.procs, s.time, |s.procs|) == q
    ensures var a := Admitted(s);
            && a == s.(procs := a.procs, ready := q, events := a.events) && |a.procs| == |s.procs|
            && forall i | 0 <= i < |s.procs| ::
                 a.procs[i] == if Arrives(s.procs[i], s.time) then Admit(s.policy, s.procs[i]) else s.procs[i]
  {
    hide Arriving, Arrives, Enlist;
    var b := CheckArrivals(s);
    assert TickIOQueue(b).procs == b.procs;
    assert TickIOQueue(b).ready == b.ready;
  }

  lemma GuestAdmitted(s: State, quantum: int, rng: Rng, bounds: seq<int>, n: int, cut: int, j: nat, word: Word)
    requires Wf(s) && Between(s, Lottery(quantum, rng), Guests(bounds, n, cut), j, word) && j < |bounds| && Positive(bounds)
    ensures var a := Admitted(s);
            && a == s.(procs := a.procs, ready := [j], events := a.events)
            && a.procs == s.procs[j := s.procs[j].(state := Ready)]
            && Tickets(a.procs, [j]) == bounds[j]
  {
    hide Admitted;
    OneArrives(s.procs, s.time, |s.procs|, j);
    AdmissionIs(s, [j]);
    var a := Admitted(s);
    assert a.procs == s.procs[j := s.procs[j].(state := Ready)];
    assert [j][..0] == [];
    assert Tickets(a.procs, []) == 0;
  }

  /** Its draw, below the bound, has only one outcome. */
  lemma GuestDispatched(s: State, quantum: int, rng: Rng, bounds: seq<int>, n: int, cut: int, j: nat, word: Word, other: Word)
    requires Wf(s) && Between(s, Lottery(quantum, rng), Guests(bounds, n, cut), j, word) && j < |bounds| && Positive(bounds)
    ensures var a := Admitted(s); var d := Dispatched(s);
            && DispatchAsks(a) == Some(a) && Answered(a, other) == rng.next(other, bounds[j])
            && d == s.(procs := s.procs[j := s.procs[j].(state := Running)], ready := [], current := Some(j), used := 0,
                       word := rng.next(word, bounds[j]), events := d.events, switches := d.switches)
  {
    hide Admitted, Holder, Tickets;
    GuestAdmitted(s, quantum, rng, bounds, n, cut, j, word);
    var a := Admitted(s);
    assert Pick(a.policy, a.time, a.procs, a.ready, a.word) in [j];
    assert RemoveFirst([j], j) == [];
  }

  /** It executes its only unit, and the CPU is free again. */
  lemma GuestLeaves(d: State, j: nat)
    requires Wf(d) && d.policy.Lottery? && d.current == Some(j) && d.ready == [] && j < |d.procs|
    requires d.procs[j].remaining == 1
    ensures var e := CheckIOBurst(ExecuteCurrent(d)); var p := e.procs[j];
            && e == d.(gantt := e.gantt, used := e.used, procs := d.procs[j := p], events := e.events, current := None)
            && p.state == Terminated
            && ExpiryAsks(d) == None && RunStage(d) == e
            && AdvanceClock(e) == e.(time := e.time + 1)
  {
    hide AddGantt, VStep;
    var e := CheckIOBurst(ExecuteCurrent(d));
    assert AdvanceClock(e).procs == e.procs;
  }

  lemma GuestTick(s: State, quantum: int, rng: Rng, bounds: seq<int>, n: int, cut: int, j: nat, word: Word, other: Word)
    requires Wf(s) && Between(s, Lottery(quantum, rng), Guests(bounds, n, cut), j, word) && j < |bounds| && Positive(bounds)
    ensures Between(Tick(s), Lottery(quantum, rng), Guests(bounds, n, cut), j + 1, rng.next(word, bounds[j]))
    ensures WordAfterTick(s, other) == rng.next(other, bounds[j])
  {
    hide Admitted, Dispatched, RunStage, AdvanceClock, Answered, CheckIOBurst, ExecuteCurrent, DispatchAsks, ExpiryAsks,
      Positive, Tickets;
    GuestDispatched(s, quantum, rng, bounds, n, cut, j, word, other);
    GuestLeaves(Dispatched(s), j);
  }

  lemma {:induction false} WordViaMore(rng: Rng, w: Word, bounds: seq<int>, n: int)
    ensures WordVia(rng, w, bounds + [n]) == rng.next(WordVia(rng, w, bounds), n)
    decreases |bounds|
  {
    if bounds != [] {
      assert (bounds + [n])[1..] == bounds[1..] + [n];
      WordViaMore(rng, rng.next(w, bounds[0]), bounds[1..], n);
    } else {
      assert WordVia(rng, w, [n]) == WordVia(rng, rng.next(w, n), [n][1..]);
    }
  }

  lemma {:induction false} GuestsRun(quantum: int, rng: Rng, w: Word, w': Word, bounds: seq<int>, n: int, cut: int, j: nat)
    requires Positive(bounds) && j <= |bounds|
    ensures var policy := Lottery(quantum, rng); var procs := Guests(bounds, n, cut); var s0 := Initial(policy, w, procs);
            && Between(Run(s0, j), policy, procs, j, WordVia(rng, w, bounds[..j]))
            && Followed(s0, w', j) == WordVia(rng, w', bounds[..j])
  {
    hide Tick, Between, WordAfterTick, Positive;
    var policy := Lottery(quantum, rng);
    var s0 := Initial(policy, w, Guests(bounds, n, cut));
    if j == 0 {
      assert bounds[..0] == [];
      StartsBetween(policy, w, Guests(bounds, n, cut));
    } else {
      GuestsRun(quantum, rng, w, w', bounds, n, cut, j - 1);
      assert bounds[..j] == bounds[..j - 1] + [bounds[j - 1]];
      WordViaMore(rng, w, bounds[..j - 1], bounds[j - 1]);
      WordViaMore(rng, w', bounds[..j - 1], bounds[j - 1]);
      GuestTick(Run(s0, j - 1), quantum, rng, bounds, n, cut, j - 1, WordVia(rng, w, bounds[..j - 1]),
                WordVia(rng, w', bounds[..j - 1]));
    }
  }

  lemma StartsBetween(policy: Policy, w: Word, procs: seq<Proc>)
    ensures Between(Initial(policy, w, procs), policy, procs, 0, w)
  {
  }

  /** The last draw, for the two: it goes to the first below `cut` and to the second from there on. */
  lemma LastDrawDiffers(s: State, quantum: int, rng: Rng, bounds: seq<int>, n: int, cut: int, word: Word, other: Word)
    requires Wf(s) && Between(s, Lottery(quantum, rng), Guests(bounds, n, cut), |bounds|, word)
    requires 1 <= cut < n
    requires Place(rng.draw(word, n), n) < cut <==> Place(rng.draw(other, n), n) >= cut
    ensures !SameDraws(s, other)
  {
    hide Admitted, Dispatched, ExpiryAsks, Tickets, Holder, Place;
    var k := |bounds|;
    TwoArrive(s.procs, s.time, k);
    AdmissionIs(s, [k, k + 1]);
    var a := Admitted(s);
    PairDraws(a.procs, k, n, cut, rng.draw(word, n));
    PairDraws(a.procs, k, n, cut, rng.draw(other, n));
    assert DispatchAsks(a) == Some(a);
    assert !SamePick(a, other);
  }

  lemma PairDraws(procs: seq<Proc>, k: nat, n: int, cut: int, d: int)
    requires |procs| == k + 2 && procs[k].weight == cut && procs[k + 1].weight == n - cut && 1 <= cut < n
    ensures var q := [k, k + 1];
            && InRange(procs, q) && Tickets(procs, q) == n
            && Holder(procs, q, d) == if Place(d, n) < cut then 0 else 1
  {
    var q := [k, k + 1];
    assert q[..1] == [k] && [k][..0] == [];
    assert Tickets(procs, []) == 0 && Tickets(procs, [k]) == cut;
  }

  /** From two words between which the source tells, some lottery logs different runs. */
  lemma DifferentStreamShows(quantum: int, rng: Rng, w: Word, w': Word, bounds: seq<int>, n: int)
    requires quantum >= 1 && Positive(bounds) && n > 0
    requires Place(rng.draw(WordVia(rng, w, bounds), n), n) != Place(rng.draw(WordVia(rng, w', bounds), n), n)
    ensures exists procs: seq<Proc>, m: nat :: !SameLog(Lottery(quantum, rng), w, w', procs, m)
  {
    hide Tick, Between, SameDraws, Invariants.Startable, Invariants.DistinctPids, Runs.OnTrack, Followed, SameDrawsFor;
    var policy := Lottery(quantum, rng);
    var c, c' := Place(rng.draw(WordVia(rng, w, bounds), n), n), Place(rng.draw(WordVia(rng, w', bounds), n), n);
    var cut := if c < c' then c' else c;
    var k := |bounds|;
    var procs := Guests(bounds, n, cut);
    var s0 := Initial(policy, w, procs);
    GuestsStartable(policy, bounds, n, cut);
    GuestsRun(quantum, rng, w, w', bounds, n, cut, k);
    assert bounds[..k] == bounds;
    LastDrawDiffers(Run(s0, k), quantum, rng, bounds, n, cut, WordVia(rng, w, bounds), WordVia(rng, w', bounds));
    SameDrawsMore(s0, w', k + 1);
    Runs.OnTrackRun(policy, w, procs, 0);
    assert Run(s0, 0) == s0;
    SameLogIff(procs, s0, w', k + 1);
    assert !SameLog(policy, w, w', procs, k + 1);
  }

  lemma SameStreamLogs(quantum: int, rng: Rng, w: Word, w': Word, procs: seq<Proc>, m: nat)
    requires SameStream(rng, w, w')
    ensures SameLog(Lottery(quantum, rng), w, w', procs, m)
  {
    hide Tick, SameStream, SameDrawsFor;
    var policy := Lottery(quantum, rng);
    if Invariants.Startable(policy, procs) && Invariants.DistinctPids(procs) {
      StreamRun(Initial(policy, w, procs), w', m);
      TwinRun(Initial(policy, w, procs), w', m);
    }
  }

  /** Every workload logs the same from both words if and only if the source draws alike from both. */
  lemma AlwaysSameLogIff(quantum: int, rng: Rng, w: Word, w': Word)
    requires quantum >= 1
    ensures SameStream(rng, w, w') <==> AlwaysSameLog(Lottery(quantum, rng), w, w')
  {
    hide SameLog;
    if SameStream(rng, w, w') {
      hide SameStream;
      forall procs: seq<Proc>, m: nat
        ensures SameLog(Lottery(quantum, rng), w, w', procs, m)
      {
        SameStreamLogs(quantum, rng, w, w', procs, m);
      }
    } else {
      var bounds: seq<int>, n: int :| Positive(bounds) && n > 0 &&
        Place(rng.draw(WordVia(rng, w, bounds), n), n) != Place(rng.draw(WordVia(rng, w', bounds), n), n);
      DifferentStreamShows(quantum, rng, w, w', bounds, n);
    }
  }

  // ---------- After any number of draws ----------

  /** However often it has been drawn from, the source goes on as it began. */
  ghost predicate StartsOver(rng: Rng, seed: Word) {
    forall bounds: seq<int> | Positive(bounds) :: SameStream(rng, seed, WordVia(rng, seed, bounds))
  }

  /** Every workload logs the same whatever has been drawn before if and only if the source goes on as it began. */
  lemma StartsOverIff(quantum: int, rng: Rng, seed: Word)
    requires quantum >= 1
    ensures StartsOver(rng, seed) <==>
            forall bounds: seq<int> | Positive(bounds) ::
              AlwaysSameLog(Lottery(quantum, rng), seed, WordVia(rng, seed, bounds))
  {
    hide AlwaysSameLog, SameStream, WordVia, Positive;
    forall bounds: seq<int> | Positive(bounds)
      ensures SameStream(rng, seed, WordVia(rng, seed, bounds)) <==>
              AlwaysSameLog(Lottery(quantum, rng), seed, WordVia(rng, seed, bounds))
    {
      AlwaysSameLogIff(quantum, rng, seed, WordVia(rng, seed, bounds));
    }
  }

  lemma {:induction false} WordViaJoin(rng: Rng, w: Word, a: seq<int>, b: seq<int>)
    requires Positive(a) && Positive(b)
    ensures Positive(a + b) && WordVia(rng, w, a + b) == WordVia(rng, WordVia(rng, w, a), b)
    decreases |a|
  {
    if a == [] {
      assert a + b == b;
    } else {
      assert (a + b)[1..] == a[1..] + b;
      WordViaJoin(rng, rng.next(w, a[0]), a[1..], b);
    }
  }

  lemma AnswerDraws(x: State) returns (bounds: seq<int>)
    requires Wf(x) && x.policy.Lottery?
    ensures Positive(bounds) && Answered(x, x.word) == WordVia(x.policy.rng, x.word, bounds)
  {
    if x.ready == [] {
      bounds := [];
    } else {
      bounds := [Tickets(x.procs, x.ready)];
      assert bounds[1..] == [];
    }
  }

  /** A tick moves the source by drawing below positive bounds, and in no other way. */
  lemma TickDraws(s: State) returns (bounds: seq<int>)
    requires Wf(s) && s.policy.Lottery?
    ensures Positive(bounds) && Tick(s).policy == s.policy && Tick(s).word == WordVia(s.policy.rng, s.word, bounds)
  {
    hide ScheduleNext, Answered, Admitted, ExecuteCurrent, CheckIOBurst, PreemptCurrent, Requeue, RunStage, DispatchStage,
      DispatchAsks, ExpiryAsks, Positive;
    var a := Admitted(s);
    var first: seq<int>, second: seq<int> := [], [];
    assert Positive([]) by { NoBounds(); }
    AdmissionKeepsWord(s);
    TwinAsks(a, a.word);
    if DispatchAsks(a).Some? {
      AskingKeepsWord(a);
      ScheduleMovesWord(DispatchAsks(a).value);
      first := AnswerDraws(DispatchAsks(a).value);
    }
    var d := Dispatched(s);
    assert d.word == WordVia(s.policy.rng, s.word, first) && d.policy == s.policy;
    TwinExpiry(d, d.word);
    ExecutionKeepsWord(d);
    if ExpiryAsks(d).Some? {
      ScheduleMovesWord(ExpiryAsks(d).value);
      second := AnswerDraws(ExpiryAsks(d).value);
    }
    WordViaJoin(s.policy.rng, s.word, first, second);
    bounds := first + second;
  }

  lemma NoBounds()
    ensures Positive([])
  {
  }

  lemma {:induction false} RunDraws(s0: State, n: nat) returns (bounds: seq<int>)
    requires Wf(s0) && s0.policy.Lottery?
    ensures Positive(bounds) && Run(s0, n).policy == s0.policy && Run(s0, n).word == WordVia(s0.policy.rng, s0.word, bounds)
  {
    hide Tick, Positive;
    assert Positive([]) by { NoBounds(); }
    if n == 0 {
      bounds := [];
    } else {
      var before := RunDraws(s0, n - 1);
      var now := TickDraws(Run(s0, n - 1));
      WordViaJoin(s0.policy.rng, s0.word, before, now);
      bounds := before + now;
    }
  }

  /** In particular such a source replays every workload after every reset. */
  lemma StartsOverReplays(quantum: int, rng: Rng, seed: Word, procs: seq<Proc>, n: nat, m: nat)
    requires Invariants.Startable(Lottery(quantum, rng), procs) && StartsOver(rng, seed)
    ensures var s0 := Initial(Lottery(quantum, rng), seed, procs);
            Run(Reset(Run(s0, n)), m) == Run(s0, m).(word := Run(Reset(Run(s0, n)), m).word)
  {
    hide Run, Reset, Invariants.Startable, SameStream;
    var policy := Lottery(quantum, rng);
    var s0 := Initial(policy, seed, procs);
    var bounds := RunDraws(s0, n);
    Replay.ResetIsTwin(policy, seed, procs, n);
    assert SameStream(rng, seed, WordVia(rng, seed, bounds));
    assert WordVia(rng, seed, []) == seed && Positive([]);
    assert SameStream(rng, seed, WordVia(rng, seed, []));
    Replay.SameStreamReplays(policy, seed, procs, n, m);
  }
}
