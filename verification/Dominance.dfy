/** A comparison of load vectors that counts leftover jobs: `x` dominates `y` when, however many jobs
    may be struck out of `y`, striking out no more of `x` leaves no more work. Serving the smallest
    positive entry keeps it against any other service, and arrivals keep it. */
module Dominance {
  import Sums

  function Masked(x: seq<int>, r: set<nat>): seq<int> {
    seq(|x|, i requires 0 <= i < |x| => if i in r then 0 else x[i])
  }

  function SumExcept(x: seq<int>, r: set<nat>): int {
    Sums.Sum(Masked(x, r))
  }

  ghost predicate NonNegative(x: seq<int>) {
    forall i | 0 <= i < |x| :: x[i] >= 0
  }

  ghost predicate Covered(x: seq<int>, y: seq<int>, r: set<nat>) {
    exists r': set<nat> :: |r'| <= |r| && SumExcept(x, r') <= SumExcept(y, r)
  }

  ghost predicate Dominates(x: seq<int>, y: seq<int>) {
    forall r: set<nat> :: Covered(x, y, r)
  }

  function Pending(x: seq<int>): seq<int> {
    seq(|x|, i requires 0 <= i < |x| => if x[i] > 0 then 1 else 0)
  }

  ghost function Positives(x: seq<int>): set<nat> {
    set i: nat | i < |x| && x[i] > 0
  }

  lemma {:induction false} PendingCount(x: seq<int>)
    ensures Sums.Sum(Pending(x)) == |Positives(x)|
  {
    if x == [] {
      assert Positives(x) == {};
    } else {
      var n := |x| - 1;
      PendingCount(x[..n]);
      assert Pending(x)[..n] == Pending(x[..n]);
      assert Positives(x) == Positives(x[..n]) + (if x[n] > 0 then {n} else {});
    }
  }

  lemma SubsetCardinality(a: set<nat>, b: set<nat>)
    requires a <= b
    ensures |a| <= |b|
  {
    assert b == a + (b - a);
  }

  lemma MaskedNonNegative(x: seq<int>, r: set<nat>)
    requires NonNegative(x)
    ensures SumExcept(x, r) >= 0
    ensures SumExcept(x, r) == 0 <==> forall i: nat | i < |x| && x[i] > 0 :: i in r
  {
    Sums.SumNonNegative(Masked(x, r));
    assert forall i: nat | i < |x| :: Masked(x, r)[i] == 0 <==> (i in r || x[i] == 0);
  }

  lemma DominatesItself(x: seq<int>)
    ensures Dominates(x, x)
  {
    forall r: set<nat>
      ensures Covered(x, x, r)
    {
      var left := SumExcept(x, r);
      assert |r| <= |r| && SumExcept(x, r) <= left;
    }
  }

  /** Domination bounds the number of unfinished jobs. */
  lemma DominatesCounts(x: seq<int>, y: seq<int>)
    requires NonNegative(x) && NonNegative(y) && Dominates(x, y)
    ensures Sums.Sum(Pending(x)) <= Sums.Sum(Pending(y))
  {
    var r := Positives(y);
    assert Covered(x, y, r);
    var r': set<nat> :| |r'| <= |r| && SumExcept(x, r') <= SumExcept(y, r);
    MaskedNonNegative(y, r);
    MaskedNonNegative(x, r');
    assert Positives(x) <= r';
    SubsetCardinality(Positives(x), r');
    PendingCount(x);
    PendingCount(y);
  }

  // ---------- Arrivals ----------

  /** `x'` is `x` with the jobs of `added` added, none of them in `x` yet. */
  ghost predicate Adds(x: seq<int>, x': seq<int>, b: seq<int>, added: set<nat>) {
    && |x| == |x'| == |b|
    && NonNegative(b)
    && forall i: nat | i < |x| ::
         if i in added then x[i] == 0 && x'[i] == b[i] else x'[i] == x[i]
  }

  /** The added jobs that are not struck out. */
  function Extra(b: seq<int>, added: set<nat>, r: set<nat>): seq<int> {
    seq(|b|, i requires 0 <= i < |b| => if i in added && i !in r then b[i] else 0)
  }

  lemma ArrivalsKeepDomination(x: seq<int>, x': seq<int>, y: seq<int>, y': seq<int>, b: seq<int>, added: set<nat>)
    requires NonNegative(x) && NonNegative(y) && Dominates(x, y)
    requires Adds(x, x', b, added) && Adds(y, y', b, added)
    ensures Dominates(x', y')
  {
    forall r: set<nat>
      ensures Covered(x', y', r)
    {
      var kept := r - added;
      assert Covered(x, y, kept);
      var w: set<nat> :| |w| <= |kept| && SumExcept(x, w) <= SumExcept(y, kept);
      var r' := w + (r * added);
      assert r == kept + (r * added);
      assert |r'| <= |w| + |r * added| by { UnionCardinality(w, r * added); }
      assert |r| == |kept| + |r * added|;
      Sums.SumAdd(Masked(y, kept), Extra(b, added, r), Masked(y', r));
      var all := seq(|x|, i requires 0 <= i < |x| => Masked(x, w)[i] + Extra(b, added, r)[i]);
      Sums.SumAdd(Masked(x, w), Extra(b, added, r), all);
      Sums.SumMonotone(Masked(x', r'), all);
    }
  }

  lemma UnionCardinality(a: set<nat>, b: set<nat>)
    ensures |a + b| <= |a| + |b|
  {
    assert a + b == a + (b - a);
    SubsetCardinality(b - a, b);
  }

  // ---------- Service ----------

  /** `y'` is `y` with at most one positive entry served once. */
  ghost predicate Serves(y: seq<int>, y': seq<int>, choice: nat) {
    && |y| == |y'|
    && forall i: nat | i < |y| :: y'[i] == if i == choice && y[i] > 0 then y[i] - 1 else y[i]
  }

  /** `m` is a smallest positive entry, if there is any. */
  ghost predicate Shortest(x: seq<int>, m: nat) {
    forall i: nat | i < |x| && x[i] > 0 :: m < |x| && 0 < x[m] <= x[i]
  }

  /** One service lowers what is left outside any struck-out set by at most one. */
  lemma ServiceLowersByOne(y: seq<int>, y': seq<int>, choice: nat, r: set<nat>)
    requires NonNegative(y) && Serves(y, y', choice)
    ensures SumExcept(y', r) >= SumExcept(y, r) - 1
    ensures SumExcept(y', r) >= 0
    ensures SumExcept(y', r) <= SumExcept(y, r)
    ensures choice < |y| && y[choice] > 0 && choice !in r ==> SumExcept(y', r) == SumExcept(y, r) - 1
  {
    MaskedNonNegative(y', r);
    Sums.SumMonotone(Masked(y', r), Masked(y, r));
    if choice < |y| {
      Sums.SumChange(Masked(y, r), Masked(y', r), choice);
    } else {
      assert Masked(y', r) == Masked(y, r);
    }
  }

  /** Trading a struck-out smallest job for another one strikes out at least as much. */
  lemma TradeStruckOut(x: seq<int>, r: set<nat>, m: nat, j: nat)
    requires m < |x| && j < |x| && m in r && j !in r && x[m] <= x[j]
    ensures var t := r - {m} + {j};
            |t| == |r| && m !in t && SumExcept(x, t) <= SumExcept(x, r)
  {
    var t := r - {m} + {j};
    var a, c := Masked(x, r), Masked(x, t);
    var mid := a[m := x[m]];
    Sums.SumChange(a, mid, m);
    Sums.SumChange(mid, c, j);
    assert |r - {m}| == |r| - 1;
  }

  lemma ShortestFirstCovers(x: seq<int>, x': seq<int>, m: nat, r: set<nat>) returns (r': set<nat>)
    requires NonNegative(x) && Shortest(x, m) && Serves(x, x', m)
    ensures |r'| == |r|
    ensures SumExcept(x', r') <= SumExcept(x, r) - 1 || SumExcept(x', r') == 0
  {
    r' := r;
    ServiceLowersByOne(x, x', m, r);
    MaskedNonNegative(x, r);
    if j: nat :| j < |x| && x[j] > 0 && j !in r {
      if m in r {
        TradeStruckOut(x, r, m, j);
        r' := r - {m} + {j};
        ServiceLowersByOne(x, x', m, r');
      }
    }
  }

  /** Shortest-first service keeps domination over any other service. */
  lemma ServiceKeepsDomination(x: seq<int>, x': seq<int>, m: nat, y: seq<int>, y': seq<int>, choice: nat)
    requires NonNegative(x) && NonNegative(y) && Dominates(x, y)
    requires Shortest(x, m) && Serves(x, x', m) && Serves(y, y', choice)
    ensures Dominates(x', y')
  {
    forall r: set<nat>
      ensures Covered(x', y', r)
    {
      assert Covered(x, y, r);
      var w: set<nat> :| |w| <= |r| && SumExcept(x, w) <= SumExcept(y, r);
      var r' := ShortestFirstCovers(x, x', m, w);
      ServiceLowersByOne(y, y', choice, r);
    }
  }
}
