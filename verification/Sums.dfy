/** Sums of integer sequences, and how they react to pointwise changes. */
module Sums {

  function Sum(a: seq<int>): int {
    if a == [] then 0 else Sum(a[..|a| - 1]) + a[|a| - 1]
  }

  /** Changing one entry changes the sum by the same amount. */
  lemma {:induction false} SumChange(a: seq<int>, b: seq<int>, i: nat)
    requires |a| == |b| && i < |a|
    requires forall j | 0 <= j < |a| && j != i :: a[j] == b[j]
    ensures Sum(b) - Sum(a) == b[i] - a[i]
  {
    var n := |a| - 1;
    if i == n {
      assert a[..n] == b[..n];
    } else {
      SumChange(a[..n], b[..n], i);
    }
  }

  lemma {:induction false} SumMonotone(a: seq<int>, b: seq<int>)
    requires |a| == |b|
    requires forall j | 0 <= j < |a| :: a[j] <= b[j]
    ensures Sum(a) <= Sum(b)
  {
    if a != [] {
      var n := |a| - 1;
      SumMonotone(a[..n], b[..n]);
    }
  }

  /** Pointwise at most, and smaller by `d` at one place. */
  lemma SumDrop(a: seq<int>, b: seq<int>, i: nat, d: int)
    requires |a| == |b| && i < |a|
    requires forall j | 0 <= j < |a| :: a[j] <= b[j]
    requires a[i] <= b[i] - d
    ensures Sum(a) <= Sum(b) - d
  {
    var c := b[i := a[i]];
    SumMonotone(a, c);
    SumChange(b, c, i);
  }

  lemma {:induction false} SumAdd(a: seq<int>, b: seq<int>, c: seq<int>)
    requires |a| == |b| == |c|
    requires forall j | 0 <= j < |a| :: c[j] == a[j] + b[j]
    ensures Sum(c) == Sum(a) + Sum(b)
  {
    if a != [] {
      var n := |a| - 1;
      SumAdd(a[..n], b[..n], c[..n]);
    }
  }

  lemma {:induction false} SumZero(a: seq<int>)
    requires forall j | 0 <= j < |a| :: a[j] == 0
    ensures Sum(a) == 0
  {
    if a != [] {
      SumZero(a[..|a| - 1]);
    }
  }

  /** A sum of non-negative entries is zero only if every entry is. */
  lemma SumNonNegative(a: seq<int>)
    requires forall j | 0 <= j < |a| :: a[j] >= 0
    ensures Sum(a) >= 0
    ensures Sum(a) == 0 <==> forall j | 0 <= j < |a| :: a[j] == 0
  {
    var zero := seq(|a|, _ => 0);
    SumZero(zero);
    SumMonotone(zero, a);
    if forall j | 0 <= j < |a| :: a[j] == 0 {
      SumZero(a);
    } else {
      var j :| 0 <= j < |a| && a[j] != 0;
      SumDrop(zero, a, j, 1);
    }
  }
}
