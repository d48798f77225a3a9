/** From every seed of the built-in random source there is a lottery, whatever its quantum, in which the process
    whose quantum expires is not drawn again at once. */
module LotteryCounter {
  import opened RandomWords
  import opened Processes
  import opened Policies
  import opened Engine
  import Invariants
  import Levels
  import Accounting
  import Pairs
  import LotteryFairness
  import Slices

  // ---------- Tickets ----------

  lemma {:induction false} TicketsJoin(procs: seq<Proc>, a: seq<nat>, b: seq<nat>)
    requires InRange(procs, a) && InRange(procs, b)
    ensures InRange(procs, a + b) && Tickets(procs, a + b) == Tickets(procs, a) + Tickets(procs, b)
  {
    if b == [] {
      assert a + b == a;
    } else {
      var n := |b| - 1;
      assert (a + b)[..|a + b| - 1] == a + b[..n];
      TicketsJoin(procs, a, b[..n]);
    }
  }

  lemma {:induction false} SameTickets(procs: seq<Proc>, procs': seq<Proc>, q: seq<nat>)
    requires InRange(procs, q) && |procs'| == |procs|
    requires forall i | 0 <= i < |procs| :: procs'[i].weight == procs[i].weight
    ensures InRange(procs', q) && Tickets(procs', q) == Tickets(procs, q)
  {
    if q != [] {
      SameTickets(procs, procs', q[..|q| - 1]);
    }
  }

  lemma TicketsWithout(procs: seq<Proc>, q: seq<nat>, k: nat)
    requires InRange(procs, q) && Invariants.NoDup(q) && k < |q|
    ensures RemoveFirst(q, q[k]) == q[..k] + q[k + 1..] && InRange(procs, q[..k] + q[k + 1..])
    ensures Tickets(procs, RemoveFirst(q, q[k])) == Tickets(procs, q) - TicketsOf(procs[q[k]])
  {
    Slices.RemoveFirstSplits(q, q[k], k);
    assert q == q[..k] + ([q[k]] + q[k + 1..]);
    TicketsJoin(procs, q[..k], q[k + 1..]);
    TicketsJoin(procs, [q[k]], q[k + 1..]);
    TicketsJoin(procs, q[..k], [q[k]] + q[k + 1..]);
    assert [q[k]][..0] == [];
    assert Tickets(procs, [q[k]]) == TicketsOf(procs[q[k]]);
  }

  // ---------- A ticket total for two draws ----------

  /** A total of at least two whose last ticket is not the one that `x` draws. It is at most four or about a third of
      `x`, so that the weights of 64-bit draws fit a machine integer. */
  function Total(x: nat): (t: int)
    ensures t >= 2 && (t <= 4 || 3 * t <= x + 4)
    ensures x % t < t - 1
  {
    if x % 2 == 0 then 2
    else if x % 3 != 2 then 3
    else if x == 5 then 4
    else ThirdIsSpared(x); (x + 1) / 3 + 1
  }

  lemma ThirdIsSpared(x: nat)
    requires x % 3 == 2 && x != 5 && x % 2 == 1
    ensures var t := (x + 1) / 3 + 1; x % t == t - 4
  {
    var k := (x + 1) / 3;
    assert x == 3 * k - 1 && k >= 4;
    TwiceIn(x, k + 1);
  }

  lemma TwiceIn(x: int, t: int)
    requires t > 0 && 2 * t <= x < 3 * t
    ensures x % t == x - 2 * t
  {
    var d := x / t;
    assert x == d * t + x % t;
    if d <= 1 {
      Product(1 - d, t);
    } else if d >= 3 {
      Product(d - 3, t);
    }
  }

  lemma Product(a: int, b: int)
    requires a >= 0 && b >= 0
    ensures a * b >= 0
  {
  }

  // ---------- The processes ----------

  function Contender(pid: int, burst: int, weight: int): Proc {
    Proc(pid, 0, burst, 0, weight, burst, New, false, -1, 0, 0, 0, 0, 0, 0, [], 0, 0, None)
  }

  /** Two or three weights with sum `total`, of which the one that holds ticket `u` is one. */
  function Weights(u: int, total: int): (w: seq<int>)
    requires 0 <= u < total && total >= 2
    ensures 2 <= |w| <= 3 && forall k | 0 <= k < |w| :: w[k] >= 1
  {
    (if u > 0 then [u] else []) + [1] + (if u < total - 1 then [total - 1 - u] else [])
  }

  function Winner(u: int): nat {
    if u > 0 then 1 else 0
  }

  function Field(u: int, total: int, burst: int): (procs: seq<Proc>)
    requires 0 <= u < total && total >= 2
    ensures |procs| == |Weights(u, total)|
    ensures forall k | 0 <= k < |procs| :: procs[k] == Contender(k + 1, burst, Weights(u, total)[k])
  {
    var w := Weights(u, total);
    seq(|w|, k requires 0 <= k < |w| => Contender(k + 1, burst, w[k]))
  }

  lemma ContenderIsFresh(pid: int, burst: int, weight: int)
    requires pid >= 0 && burst >= 1 && weight >= 1
    ensures Fresh(Contender(pid, burst, weight))
  {
    assert ClearBursts([]) == [];
  }

  lemma FieldStartable(policy: Policy, u: int, total: int, burst: int)
    requires ValidPolicy(policy) && 0 <= u < total && total >= 2 && burst >= 1
    ensures Invariants.Startable(policy, Field(u, total, burst)) && Invariants.DistinctPids(Field(u, total, burst))
    ensures Winner(u) < |Field(u, total, burst)|
  {
    hide Fresh;
    var procs := Field(u, total, burst);
    forall k | 0 <= k < |procs|
      ensures Fresh(procs[k])
    {
      ContenderIsFresh(k + 1, burst, Weights(u, total)[k]);
    }
  }

  lemma TicketsOfFew(procs: seq<Proc>)
    requires |procs| >= 2
    ensures Tickets(procs, []) == 0 && Tickets(procs, [0]) == TicketsOf(procs[0])
    ensures Tickets(procs, [0, 1]) == TicketsOf(procs[0]) + TicketsOf(procs[1])
    ensures |procs| >= 3 ==> Tickets(procs, [0, 1, 2]) == TicketsOf(procs[0]) + TicketsOf(procs[1]) + TicketsOf(procs[2])
  {
    assert [0][..0] == [] && [0, 1][..1] == [0] && [0, 1, 2][..2] == [0, 1];
    assert Tickets(procs, [0]) == Tickets(procs, []) + TicketsOf(procs[0]);
    assert Tickets(procs, [0, 1]) == Tickets(procs, [0]) + TicketsOf(procs[1]);
  }

  /** All tickets of the field, and those before the winner. */
  lemma FieldTickets(procs: seq<Proc>, u: int, total: int)
    requires 0 <= u < total && total >= 2 && |procs| == |Weights(u, total)|
    requires forall k | 0 <= k < |procs| :: procs[k].weight == Weights(u, total)[k]
    ensures var q := Pairs.UpTo(|procs|);
            && InRange(procs, q) && Winner(u) < |procs|
            && Tickets(procs, q) == total && Tickets(procs, q[..Winner(u)]) == u && TicketsOf(procs[Winner(u)]) == 1
  {
    hide Tickets, Pairs.UpTo;
    var q := Pairs.UpTo(|procs|);
    TicketsOfFew(procs);
    assert q == if |procs| == 2 then [0, 1] else [0, 1, 2];
    assert q[..0] == [] && q[..1] == [0];
  }

  // ---------- From the first draw to the second ----------

  /** Process `c`, with a single ticket, is on the CPU with `left` ticks to go; everybody else is ready. */
  ghost predicate Crowd(d: State, quantum: int, c: nat, total: int, word: Word, used: int, left: int) {
    && d.policy == Lottery(quantum, DEFAULT_RNG) && d.current == Some(c) && d.io == [] && d.used == used && d.word == word
    && c < |d.procs| && d.procs[c].state == Running && d.procs[c].io == [] && d.procs[c].ioIndex == 0
    && d.procs[c].remaining == left && TicketsOf(d.procs[c]) == 1
    && (forall i | 0 <= i < |d.procs| && i != c :: d.procs[i].state == Ready)
    && InRange(d.procs, d.ready) && c !in d.ready && Tickets(d.procs, d.ready) == total - 1
  }

  lemma CrowdExecutes(d: State, quantum: int, c: nat, total: int, word: Word, used: int, left: int)
    requires Wf(d) && Crowd(d, quantum, c, total, word, used, left) && left >= 2
    ensures var e := CheckIOBurst(ExecuteCurrent(d));
            Crowd(e, quantum, c, total, word, used + 1, left - 1) && e.ready == d.ready && |e.procs| == |d.procs|
  {
    hide AddGantt, VStep, Tickets;
    var p := Execute(d.procs[c], d.time, 1);
    assert NextBurst(p.io, p.ioIndex) == 0;
    SameTickets(d.procs, d.procs[c := p], d.ready);
    var e := CheckIOBurst(ExecuteCurrent(d));
    assert e.procs == d.procs[c := p];
  }

  lemma ClockKeepsCrowd(e: State, quantum: int, c: nat, total: int, word: Word, used: int, left: int)
    requires Wf(e) && Crowd(e, quantum, c, total, word, used, left)
    ensures Crowd(AdvanceClock(e), quantum, c, total, word, used, left)
  {
    hide Tickets;
    SameTickets(e.procs, AdvanceClock(e).procs, e.ready);
  }

  lemma CrowdStays(s: State, quantum: int, c: nat, total: int, word: Word, used: int, left: int)
    requires Wf(s) && Crowd(s, quantum, c, total, word, used, left) && left >= 1
    ensures Crowd(Dispatched(s), quantum, c, total, word, used, left)
  {
    hide Admitted, ScheduleNext, PreemptCurrent, Tickets;
    Pairs.QuietAdmission(s);
  }

  lemma CrowdGoesOn(s: State, quantum: int, c: nat, total: int, word: Word, used: int, left: int)
    requires Wf(s) && Crowd(Dispatched(s), quantum, c, total, word, used, left)
    requires 0 <= used && used + 1 < quantum && left >= 2
    ensures Crowd(Dispatched(Tick(s)), quantum, c, total, word, used + 1, left - 1)
  {
    hide Dispatched, CheckIOBurst, ExecuteCurrent, AdvanceClock, Tickets;
    var d := Dispatched(s);
    CrowdExecutes(d, quantum, c, total, word, used, left);
    var e := CheckIOBurst(ExecuteCurrent(d));
    assert !QuantumOver(e);
    ClockKeepsCrowd(e, quantum, c, total, word, used + 1, left - 1);
    CrowdStays(AdvanceClock(e), quantum, c, total, word, used + 1, left - 1);
  }

  /** The quantum expires and the draw goes to somebody else. */
  lemma CrowdEnds(s: State, quantum: int, c: nat, total: int, word: Word, used: int, left: int)
    requires Wf(s) && Crowd(Dispatched(s), quantum, c, total, word, used, left)
    requires used + 1 == quantum && used >= 0 && left >= 2 && total >= 2
    requires (NextWord(word) as int) % total < total - 1
    ensures Levels.ExpiredIn(s) == Some(c) && Accounting.Redispatched(s) != c
  {
    hide Dispatched, CheckIOBurst, ExecuteCurrent, Tickets, NextWord;
    var d := Dispatched(s);
    CrowdExecutes(d, quantum, c, total, word, used, left);
    var e := CheckIOBurst(ExecuteCurrent(d));
    assert QuantumOver(e);
    var q := Requeue(e);
    SameTickets(e.procs, q.procs, e.ready);
    OtherDrawn(q.procs, e.ready, c, total, (NextWord(word) as int) % total);
  }

  lemma OtherDrawn(procs: seq<Proc>, ready: seq<nat>, c: nat, total: int, winner: int)
    requires InRange(procs, ready) && c < |procs| && c !in ready
    requires TicketsOf(procs[c]) == 1 && Tickets(procs, ready) == total - 1 && 0 <= winner < total - 1
    ensures var q := ready + [c];
            && InRange(procs, q) && Tickets(procs, q) == total
            && q[Holder(procs, q, winner)] != c
  {
    var q := ready + [c];
    assert q[..|ready|] == ready;
    assert ready != [];
    assert q[Holder(procs, q, winner)] == ready[Holder(procs, ready, winner)];
    assert ready[Holder(procs, ready, winner)] in ready;
  }

  lemma {:induction false} CrowdReaches(s0: State, n: nat, quantum: int, c: nat, total: int, word: Word, used: int, left: int)
    returns (m: nat)
    requires Wf(s0) && Crowd(Dispatched(Run(s0, n)), quantum, c, total, word, used, left)
    requires 0 <= used < quantum < left + used && total >= 2 && (NextWord(word) as int) % total < total - 1
    ensures Levels.ExpiredIn(Run(s0, m)) == Some(c) && Accounting.Redispatched(Run(s0, m)) != c
    ensures Dispatched(Run(s0, m)).current == Some(c) && c < |Dispatched(Run(s0, m)).procs|
    ensures Dispatched(Run(s0, m)).procs[c].remaining >= 2
    decreases quantum - used
  {
    hide Tick, Dispatched, Levels.ExpiredIn, Accounting.Redispatched, NextWord, Tickets;
    if used + 1 == quantum {
      CrowdEnds(Run(s0, n), quantum, c, total, word, used, left);
      m := n;
    } else {
      CrowdGoesOn(Run(s0, n), quantum, c, total, word, used, left);
      m := CrowdReaches(s0, n + 1, quantum, c, total, word, used + 1, left - 1);
    }
  }

  /** The first draw takes the process with a single ticket. */
  lemma WinnerPicked(quantum: int, seed: Word, total: int, burst: int)
    requires quantum >= 1 && total >= 2 && burst >= 1
    ensures var policy := Lottery(quantum, DEFAULT_RNG); var u := (NextWord(seed) as int) % total; var c := Winner(u);
            var a := Admitted(Initial(policy, seed, Field(u, total, burst)));
            && a.ready == Pairs.UpTo(|a.procs|) && c < |a.procs| && a.word == seed && InRange(a.procs, a.ready)
            && Pick(policy, a.time, a.procs, a.ready, a.word) == c && PickWord(policy, a.procs, a.ready, a.word) == NextWord(seed)
            && Tickets(a.procs, a.ready) == total && TicketsOf(a.procs[c]) == 1
  {
    hide Admitted, Tickets, NextWord, Holder, Weights, Pairs.UpTo, Enlist;
    var policy := Lottery(quantum, DEFAULT_RNG);
    var u := (NextWord(seed) as int) % total;
    var procs := Field(u, total, burst);
    Pairs.AllAdmitted(policy, seed, procs);
    var a := Admitted(Initial(policy, seed, procs));
    FieldTickets(a.procs, u, total);
    LotteryFairness.DrawSelectsBlock(a.procs, a.ready, u, Winner(u));
  }

  /** A dispatch that takes a process out of the crowd. */
  lemma CrowdForms(a: State, quantum: int, c: nat, total: int, word: Word, burst: int)
    requires Wf(a) && a.policy == Lottery(quantum, DEFAULT_RNG) && a.current == None && a.io == [] && burst >= 1
    requires a.ready == Pairs.UpTo(|a.procs|) && c < |a.procs| && TicketsOf(a.procs[c]) == 1 && Tickets(a.procs, a.ready) == total
    requires Pick(a.policy, a.time, a.procs, a.ready, a.word) == c && PickWord(a.policy, a.procs, a.ready, a.word) == word
    requires forall i | 0 <= i < |a.procs| :: a.procs[i].state == Ready
    requires a.procs[c].io == [] && a.procs[c].ioIndex == 0 && a.procs[c].remaining == burst
    ensures Crowd(ScheduleNext(a), quantum, c, total, word, 0, burst)
  {
    hide Tickets, Pick, PickWord, RemoveFirst, Pairs.UpTo;
    assert Invariants.NoDup(a.ready);
    TicketsWithout(a.procs, a.ready, c);
    Invariants.RemoveMembers(a.ready, c);
    var d := ScheduleNext(a);
    SameTickets(a.procs, d.procs, d.ready);
  }

  lemma CrowdStarts(quantum: int, seed: Word, total: int, burst: int)
    requires quantum >= 1 && total >= 2 && burst >= 1
    ensures var u := (NextWord(seed) as int) % total;
            Crowd(Dispatched(Initial(Lottery(quantum, DEFAULT_RNG), seed, Field(u, total, burst))), quantum, Winner(u), total,
                  NextWord(seed), 0, burst)
  {
    hide Admitted, Tickets, NextWord, Pick, PickWord, Weights, Pairs.UpTo, ScheduleNext, Crowd, TicketsOf, Enlist;
    var policy := Lottery(quantum, DEFAULT_RNG);
    var u := (NextWord(seed) as int) % total;
    var procs := Field(u, total, burst);
    Pairs.AllAdmitted(policy, seed, procs);
    WinnerPicked(quantum, seed, total, burst);
    CrowdForms(Admitted(Initial(policy, seed, procs)), quantum, Winner(u), total, NextWord(seed), burst);
  }

  /** Whatever the quantum and the seed: some process loses the CPU to its quantum, and somebody else is drawn. */
  lemma LotteryDrifts(quantum: int, seed: Word) returns (procs: seq<Proc>, c: nat, m: nat)
    requires quantum >= 1
    ensures var policy := Lottery(quantum, DEFAULT_RNG); var s := Run(Initial(policy, seed, procs), m);
            && Invariants.Startable(policy, procs) && Invariants.DistinctPids(procs) && c < |procs| && procs[c].arrival == 0
            && Levels.ExpiredIn(s) == Some(c) && Accounting.Redispatched(s) != c
            && Dispatched(s).current == Some(c) && c < |Dispatched(s).procs| && Dispatched(s).procs[c].remaining >= 2
  {
    hide Dispatched, Tick, Levels.ExpiredIn, Accounting.Redispatched, Crowd, NextWord, Weights, Invariants.Startable,
      Invariants.DistinctPids, Total;
    var policy := Lottery(quantum, DEFAULT_RNG);
    var word := NextWord(seed);
    var total := Total(NextWord(word) as int);
    var u := (word as int) % total;
    procs, c := Field(u, total, quantum + 2), Winner(u);
    FieldStartable(policy, u, total, quantum + 2);
    CrowdStarts(quantum, seed, total, quantum + 2);
    m := CrowdReaches(Initial(policy, seed, procs), 0, quantum, c, total, word, 0, quantum + 2);
  }
}
