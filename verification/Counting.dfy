/** Sums over the threads of a protocol, and how one thread's step changes them. */
module Counting {

  function Sum<T>(xs: seq<T>, weight: T -> nat): nat {
    if xs == [] then 0 else Sum(xs[..|xs| - 1], weight) + weight(xs[|xs| - 1])
  }

  lemma {:induction false} SumUpdate<T>(xs: seq<T>, i: nat, x: T, weight: T -> nat)
    requires i < |xs|
    ensures Sum(xs[i := x], weight) + weight(xs[i]) == Sum(xs, weight) + weight(x)
  {
    var n := |xs| - 1;
    if i == n {
      assert xs[i := x][..n] == xs[..n];
    } else {
      SumUpdate(xs[..n], i, x, weight);
      assert xs[i := x][..n] == xs[..n][i := x];
    }
  }

  lemma {:induction false} SumAtLeast<T>(xs: seq<T>, i: nat, weight: T -> nat)
    requires i < |xs|
    ensures Sum(xs, weight) >= weight(xs[i])
  {
    var n := |xs| - 1;
    if i < n {
      SumAtLeast(xs[..n], i, weight);
    }
  }

  lemma {:induction false} SumAtMost<T>(xs: seq<T>, weight: T -> nat, k: nat)
    requires forall x | x in xs :: weight(x) <= k
    ensures Sum(xs, weight) <= k * |xs|
  {
    if xs != [] {
      SumAtMost(xs[..|xs| - 1], weight, k);
      assert xs[|xs| - 1] in xs;
      assert k * |xs| == k * (|xs| - 1) + k;
    }
  }

  /** When everyone but thread `i` weighs one at most. */
  lemma {:induction false} SumOthers<T>(xs: seq<T>, i: nat, weight: T -> nat)
    requires i < |xs| && weight(xs[i]) == 0
    requires forall x | x in xs :: weight(x) <= 1
    ensures Sum(xs, weight) <= |xs| - 1
  {
    var n := |xs| - 1;
    if i == n {
      SumAtMost(xs[..n], weight, 1);
    } else {
      SumOthers(xs[..n], i, weight);
      assert xs[n] in xs;
    }
  }

  lemma {:induction false} SumPointwise<T>(xs: seq<T>, ys: seq<T>, weight: T -> nat)
    requires |xs| == |ys|
    requires forall i | 0 <= i < |xs| :: weight(xs[i]) == weight(ys[i])
    ensures Sum(xs, weight) == Sum(ys, weight)
  {
    if xs != [] {
      SumPointwise(xs[..|xs| - 1], ys[..|ys| - 1], weight);
    }
  }
}
