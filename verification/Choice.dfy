/** What the scheduler's choice means: a ranking policy dispatches the first lowest-ranked process. */
module Choice {
  import opened Processes
  import opened Policies
  import opened Engine
  import Invariants
  import Effects

  /** Ranks are totally ordered: not being beaten is transitive. */
  lemma LessOrder(a: Key, b: Key, c: Key)
    ensures !Less(a, b) && Less(c, b) ==> Less(c, a) && !Less(a, c)
    ensures !Less(a, b) && !Less(b, c) ==> !Less(a, c)
    ensures Less(a, b) && Less(b, c) ==> Less(a, c)
    ensures !Less(a, a)
  {
  }

  /** The scan returns the head-most of the lowest-ranked entries of the queue. */
  lemma {:induction false} BestIsFirstLowest(policy: Policy, now: int, procs: seq<Proc>, q: seq<nat>) returns (k: nat)
    requires q != [] && InRange(procs, q)
    ensures k < |q| && q[k] == Best(policy, now, procs, q)
    ensures forall j | 0 <= j < |q| :: !Less(Rank(policy, now, procs[q[j]]), Rank(policy, now, procs[q[k]]))
    ensures forall j | 0 <= j < k :: Less(Rank(policy, now, procs[q[k]]), Rank(policy, now, procs[q[j]]))
  {
    hide Rank, Less;
    if |q| == 1 {
      k := 0;
      LessOrder(Rank(policy, now, procs[q[0]]), Rank(policy, now, procs[q[0]]), Rank(policy, now, procs[q[0]]));
    } else {
      var n := |q| - 1;
      var h := BestIsFirstLowest(policy, now, procs, q[..n]);
      var best, last := Rank(policy, now, procs[q[h]]), Rank(policy, now, procs[q[n]]);
      k := if Less(last, best) then n else h;
      forall j | 0 <= j < |q|
        ensures !Less(Rank(policy, now, procs[q[j]]), Rank(policy, now, procs[q[k]]))
        ensures j < k ==> Less(Rank(policy, now, procs[q[k]]), Rank(policy, now, procs[q[j]]))
      {
        if j < n {
          assert q[..n][j] == q[j];
        }
        LessOrder(Rank(policy, now, procs[q[j]]), best, last);
      }
    }
  }

  /** Ranks ignore where a process is queued. */
  lemma RankIgnoresPlace(policy: Policy, now: int, p: Proc, q: Proc)
    requires q == p.(state := q.state)
    ensures Rank(policy, now, p) == Rank(policy, now, q)
  {
  }

  /** A process that takes the CPU by dispatch is ranked no worse than any process competing for it. */
  ghost predicate LowestActive(s: State, m: nat, now: int)
    requires m < |s.procs|
  {
    && Effects.Active(s.procs[m])
    && forall j | 0 <= j < |s.procs| && Effects.Active(s.procs[j]) ::
         !Less(Rank(s.policy, now, s.procs[j]), Rank(s.policy, now, s.procs[m]))
  }

  lemma ScheduledIsLowest(s: State)
    requires Invariants.Inv(s) && s.current.None? && s.ready != [] && !s.policy.Lottery?
    ensures var m := Pick(s.policy, s.time, s.procs, s.ready, s.word);
            ScheduleNext(s).current == Some(m) && m in s.ready && LowestActive(s, m, s.time)
  {
    hide Rank;
    var k := BestIsFirstLowest(s.policy, s.time, s.procs, s.ready);
    var m := s.ready[k];
    assert m in s.ready && Invariants.InPlace(s, m);
    forall j | 0 <= j < |s.procs| && Effects.Active(s.procs[j])
      ensures !Less(Rank(s.policy, s.time, s.procs[j]), Rank(s.policy, s.time, s.procs[m]))
    {
      assert Invariants.InPlace(s, j);
      var i :| 0 <= i < |s.ready| && s.ready[i] == j;
    }
  }

  lemma LowestAfterPreempt(s: State, m: nat)
    requires Invariants.Inv(s) && s.current.Some?
    requires var p := PreemptCurrent(s); m < |p.procs| && LowestActive(p, m, s.time)
    ensures LowestActive(s, m, s.time)
  {
    hide Rank;
    var p := PreemptCurrent(s);
    assert Invariants.InPlace(s, s.current.value);
    forall j | 0 <= j < |s.procs|
      ensures Rank(s.policy, s.time, s.procs[j]) == Rank(s.policy, s.time, p.procs[j])
      ensures Effects.Active(s.procs[j]) <==> Effects.Active(p.procs[j])
    {
      RankIgnoresPlace(s.policy, s.time, s.procs[j], p.procs[j]);
    }
  }

  /** Who runs, for the nine ranking policies: the process already on the CPU when it is not
      preempted, otherwise a lowest-ranked one among all that compete. */
  lemma RunnerChoice(s: State)
    requires Invariants.Inv(s) && !s.policy.Lottery?
    ensures var a := Admitted(s); var r := Runner(s);
            && Invariants.Inv(a) && a.current == s.current && a.policy == s.policy && a.time == s.time
            && (a.current.Some? && !Preempts(a.policy, a.time, a.procs, a.current.value, a.ready) ==> r == a.current)
            && ((a.current.None? || Preempts(a.policy, a.time, a.procs, a.current.value, a.ready)) && r.Some? ==>
                  r.value < |a.procs| && LowestActive(a, r.value, s.time))
  {
    hide Rank, Preempts, Admitted, Pick;
    Effects.ViewAdmitted(s);
    var a := Admitted(s);
    if a.current.None? {
      if a.ready != [] {
        ScheduledIsLowest(a);
      }
    } else {
      assert Invariants.InPlace(a, a.current.value);
      if Preempts(a.policy, a.time, a.procs, a.current.value, a.ready) {
        Effects.ViewReplacement(a);
        ScheduledIsLowest(PreemptCurrent(a));
        LowestAfterPreempt(a, Runner(s).value);
      }
    }
  }
}
