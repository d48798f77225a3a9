/** The two slice idioms of the simulator on their backing arrays: both overwrite the array they read, and
    still compute the order-preserving queue operations of the engine. */
module Slices {
  import opened Processes
  import opened Policies
  import opened Engine

  lemma {:induction false} RemoveFirstSplits(q: seq<nat>, x: nat, k: nat)
    requires k < |q| && q[k] == x && x !in q[..k]
    ensures RemoveFirst(q, x) == q[..k] + q[k + 1..]
  {
    if k > 0 {
      assert q[0] in q[..k];
      assert q[1..][..k - 1] == q[..k][1..];
      RemoveFirstSplits(q[1..], x, k - 1);
    }
  }

  lemma {:induction false} RemoveAbsent(q: seq<nat>, x: nat)
    requires x !in q
    ensures RemoveFirst(q, x) == q
  {
    if q != [] {
      RemoveAbsent(q[1..], x);
    }
  }

  /** `append(q[:i], q[i+1:]...)` at the first occurrence of `x`: the tail moves one place down in the same array. */
  method RemoveInPlace(a: array<nat>, n: nat, x: nat) returns (m: nat)
    requires n <= a.Length
    modifies a
    ensures m <= n && a[..m] == RemoveFirst(old(a[..n]), x)
    ensures m == if x in old(a[..n]) then n - 1 else n
    ensures a[n..] == old(a[n..])
  {
    ghost var q := a[..n];
    var i := 0;
    while i < n && a[i] != x
      invariant i <= n && x !in q[..i]
      invariant a[..] == old(a[..])
    {
      i := i + 1;
    }
    if i == n {
      assert q[..n] == q;
      RemoveAbsent(q, x);
      return n;
    }
    RemoveFirstSplits(q, x, i);
    var j := i;
    while j + 1 < n
      invariant i <= j < n
      invariant forall k | 0 <= k < i :: a[k] == q[k]
      invariant forall k | i <= k < j :: a[k] == q[k + 1]
      invariant forall k | j < k < n :: a[k] == q[k]
      invariant a[n..] == old(a[n..])
    {
      a[j] := a[j + 1];
      j := j + 1;
    }
    m := n - 1;
    assert a[..m] == q[..i] + q[i + 1..];
  }

  /** `live := q[:0]` and appending while ranging over `q`: entries that stay are written over entries already
      read; the ones that return are handed out in order. */
  method CompactInPlace(a: array<nat>, n: nat, procs: seq<Proc>) returns (w: nat, back: seq<nat>)
    requires n <= a.Length && InRange(procs, a[..n])
    modifies a
    ensures InRange(procs, old(a[..n]))
    ensures w <= n && a[..w] == StillBlocked(procs, old(a[..n]))
    ensures back == Returning(procs, old(a[..n]))
    ensures a[n..] == old(a[n..])
  {
    ghost var q := a[..n];
    w, back := 0, [];
    for k := 0 to n
      invariant w <= k
      invariant a[..w] == StillBlocked(procs, q[..k]) && back == Returning(procs, q[..k])
      invariant forall j | k <= j < n :: a[j] == q[j]
      invariant a[n..] == old(a[n..])
    {
      assert q[..k + 1][..k] == q[..k];
      var p := a[k];
      if Returns(procs[p]) {
        back := back + [p];
      } else {
        a[w] := p;
        assert a[..w + 1] == a[..w] + [p];
        w := w + 1;
      }
    }
    assert q[..n] == q;
  }
}
