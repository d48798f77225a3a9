/** Lottery scheduling: tickets translate into winning draws exactly. */
module LotteryFairness {
  import opened Processes
  import opened Policies

  /** Tickets of the first `k` entries of the queue. */
  function TicketsBefore(procs: seq<Proc>, q: seq<nat>, k: nat): int
    requires InRange(procs, q) && k <= |q|
  {
    Tickets(procs, q[..k])
  }

  lemma {:induction false} TicketsMonotone(procs: seq<Proc>, q: seq<nat>, j: nat, k: nat)
    requires InRange(procs, q) && j <= k <= |q|
    ensures 0 <= TicketsBefore(procs, q, j) <= TicketsBefore(procs, q, k)
    ensures j < k ==> TicketsBefore(procs, q, k) >= TicketsBefore(procs, q, j) + TicketsOf(procs[q[j]])
  {
    if j < k {
      TicketsMonotone(procs, q, j, k - 1);
      assert q[..k][..k - 1] == q[..k - 1];
      if j == k - 1 {
        assert TicketsBefore(procs, q, k) == TicketsBefore(procs, q, j) + TicketsOf(procs[q[j]]);
      }
    }
  }

  /** A draw below the total selects position `k` exactly when it falls in that entry's block of tickets. */
  lemma {:induction false} DrawSelectsBlock(procs: seq<Proc>, q: seq<nat>, winner: int, k: nat)
    requires InRange(procs, q) && k < |q|
    requires 0 <= winner < Tickets(procs, q)
    ensures Holder(procs, q, winner) == k <==>
            TicketsBefore(procs, q, k) <= winner < TicketsBefore(procs, q, k) + TicketsOf(procs[q[k]])
  {
    var n := |q| - 1;
    assert q[..|q|] == q;
    TicketsMonotone(procs, q, k, n);
    if winner < Tickets(procs, q[..n]) {
      assert n > 0;
      if k < n {
        DrawSelectsBlock(procs, q[..n], winner, k);
        assert q[..n][..k] == q[..k];
      }
    }
  }

  ghost function Interval(lo: int, hi: int): (r: set<int>)
    requires lo <= hi
    ensures |r| == hi - lo
    ensures forall w :: w in r <==> lo <= w < hi
    decreases hi - lo
  {
    if lo == hi then {} else Interval(lo, hi - 1) + {hi - 1}
  }

  /** The draws that make position `k` win. */
  ghost function WinningDraws(procs: seq<Proc>, q: seq<nat>, k: nat): set<int>
    requires InRange(procs, q) && k < |q|
  {
    set w | 0 <= w < Tickets(procs, q) && Holder(procs, q, w) == k
  }

  /** Over all equally likely draws, each queued process wins exactly as often as it holds tickets. */
  lemma LotteryIsProportional(procs: seq<Proc>, q: seq<nat>, k: nat)
    requires InRange(procs, q) && k < |q|
    ensures |WinningDraws(procs, q, k)| == if procs[q[k]].weight <= 0 then 1 else procs[q[k]].weight
  {
    var lo := TicketsBefore(procs, q, k);
    var hi := lo + TicketsOf(procs[q[k]]);
    assert q[..|q|] == q;
    TicketsMonotone(procs, q, k, |q|);
    forall w
      ensures w in WinningDraws(procs, q, k) <==> w in Interval(lo, hi)
    {
      if 0 <= w < Tickets(procs, q) {
        DrawSelectsBlock(procs, q, w, k);
      }
    }
    assert WinningDraws(procs, q, k) == Interval(lo, hi);
  }
}
