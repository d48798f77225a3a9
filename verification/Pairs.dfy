/** Admission in small cases: nobody new, two processes, everybody at once. */
module Pairs {
  import opened RandomWords
  import opened Processes
  import opened Policies
  import opened Engine

  lemma ArrivingOfTwo(procs: seq<Proc>, now: int)
    requires |procs| == 2
    ensures Arriving(procs, now, 2) ==
            (if Arrives(procs[0], now) then [0] else []) + (if Arrives(procs[1], now) then [1] else [])
  {
    hide Arrives;
    assert Arriving(procs, now, 1) == if Arrives(procs[0], now) then [0] else [];
  }

  lemma {:induction false} NoArrivals(procs: seq<Proc>, now: int, n: nat)
    requires n <= |procs| && forall i | 0 <= i < n :: !Arrives(procs[i], now)
    ensures Arriving(procs, now, n) == []
  {
    if n > 0 {
      NoArrivals(procs, now, n - 1);
    }
  }

  /** Nobody arrives and nobody is blocked. */
  lemma QuietAdmission(s: State)
    requires Wf(s) && s.io == []
    requires forall i | 0 <= i < |s.procs| :: !Arrives(s.procs[i], s.time)
    ensures Admitted(s) == s
  {
    hide Arriving, Arrives;
    NoArrivals(s.procs, s.time, |s.procs|);
    var b := CheckArrivals(s);
    assert b.procs == s.procs && b.ready == s.ready;
    var a := TickIOQueue(b);
    assert a.procs == s.procs && a.ready == s.ready;
  }

  /** Ready from the first tick on. */
  lemma BothAdmitted(policy: Policy, seed: Word, procs: seq<Proc>)
    requires |procs| == 2 && procs[0].arrival == procs[1].arrival == 0 && procs[0].state == procs[1].state == New
    ensures var a := Admitted(Initial(policy, seed, procs));
            && a.procs == [Admit(policy, procs[0]), Admit(policy, procs[1])]
            && a.ready == [0, 1] && a.io == [] && a.current == None && a.policy == policy && a.used == 0 && a.time == 0
  {
    hide Arriving, Enlist;
    ArrivingOfTwo(procs, 0);
    var b := CheckArrivals(Initial(policy, seed, procs));
    assert b.procs == [Admit(policy, procs[0]), Admit(policy, procs[1])];
    assert TickIOQueue(b).procs == b.procs;
  }

  /** The second process is blocked. */
  lemma OneBlocked(s: State)
    requires Wf(s) && |s.procs| == 2 && s.io == [1]
    requires !Arrives(s.procs[0], s.time) && !Arrives(s.procs[1], s.time)
    ensures var a := Admitted(s); var back := Returns(s.procs[1]);
            a == s.(procs := [s.procs[0], CountDown(s.policy, s.procs[1])], events := a.events,
                    ready := s.ready + (if back then [1] else []), io := if back then [] else [1])
  {
    hide Arriving, Arrives, CountDown, Returns;
    ArrivingOfTwo(s.procs, s.time);
    var b := CheckArrivals(s);
    assert b.procs == s.procs && b.ready == s.ready;
    assert s.io[..0] == [];
    assert Returning(s.procs, []) == [] && StillBlocked(s.procs, []) == [];
    var a := TickIOQueue(b);
    assert a.procs == [s.procs[0], CountDown(s.policy, s.procs[1])];
  }

  function UpTo(n: nat): (q: seq<nat>)
    ensures |q| == n && forall k | 0 <= k < n :: q[k] == k
  {
    if n == 0 then [] else UpTo(n - 1) + [n - 1]
  }

  lemma {:induction false} AllArrive(procs: seq<Proc>, now: int, n: nat)
    requires n <= |procs| && forall i | 0 <= i < n :: Arrives(procs[i], now)
    ensures Arriving(procs, now, n) == UpTo(n)
  {
    if n > 0 {
      AllArrive(procs, now, n - 1);
    }
  }

  /** All ready from the first tick on. */
  lemma AllAdmitted(policy: Policy, seed: Word, procs: seq<Proc>)
    requires forall i | 0 <= i < |procs| :: Arrives(procs[i], 0)
    ensures var s := Initial(policy, seed, procs); var a := Admitted(s);
            && |a.procs| == |procs| && (forall i | 0 <= i < |procs| :: a.procs[i] == Admit(policy, procs[i]))
            && a == s.(procs := a.procs, ready := UpTo(|procs|), events := a.events)
  {
    hide Arriving, Arrives, Enlist, UpTo;
    AllArrive(procs, 0, |procs|);
    var b := CheckArrivals(Initial(policy, seed, procs));
    assert TickIOQueue(b).procs == b.procs;
    assert TickIOQueue(b).ready == b.ready;
  }
}
