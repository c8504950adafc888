/** Sums over the threads (or files) of a system, and how one step changes them. */
module Sums {

  function SumOf<A>(f: A -> nat, xs: seq<A>): nat {
    if xs == [] then 0 else f(xs[0]) + SumOf(f, xs[1..])
  }

  lemma {:induction false} SumUpdate<A>(f: A -> nat, xs: seq<A>, i: nat, y: A)
    requires i < |xs|
    ensures SumOf(f, xs[i := y]) + f(xs[i]) == SumOf(f, xs) + f(y)
  {
    if i == 0 {
      assert xs[i := y][1..] == xs[1..];
    } else {
      assert xs[i := y][1..] == xs[1..][i - 1 := y];
      SumUpdate(f, xs[1..], i - 1, y);
    }
  }

  lemma {:induction false} SumAppend<A>(f: A -> nat, xs: seq<A>, ys: seq<A>)
    ensures SumOf(f, xs + ys) == SumOf(f, xs) + SumOf(f, ys)
  {
    if xs == [] {
      assert xs + ys == ys;
    } else {
      assert (xs + ys)[1..] == xs[1..] + ys;
      SumAppend(f, xs[1..], ys);
    }
  }

  lemma SumOne<A>(f: A -> nat, x: A)
    ensures SumOf(f, [x]) == f(x)
  {
    assert [x][1..] == [];
  }

  lemma {:induction false} SumAt<A>(f: A -> nat, xs: seq<A>, i: nat)
    requires i < |xs|
    ensures f(xs[i]) <= SumOf(f, xs)
  {
    if i > 0 {
      SumAt(f, xs[1..], i - 1);
    }
  }

  /** Two sequences of the same length whose elements differ by at most `k` each. */
  lemma {:induction false} SumWithin<A>(f: A -> nat, xs: seq<A>, ys: seq<A>, k: nat)
    requires |xs| == |ys|
    requires forall i :: 0 <= i < |xs| ==> f(xs[i]) <= f(ys[i]) + k
    ensures SumOf(f, xs) <= SumOf(f, ys) + k * |xs|
  {
    if xs != [] {
      SumWithin(f, xs[1..], ys[1..], k);
      assert k * |xs| == k * |xs[1..]| + k;
    }
  }

  lemma {:induction false} SumSame<A, B>(f: A -> nat, xs: seq<A>, g: B -> nat, ys: seq<B>)
    requires |xs| == |ys|
    requires forall i :: 0 <= i < |xs| ==> f(xs[i]) == g(ys[i])
    ensures SumOf(f, xs) == SumOf(g, ys)
  {
    if xs != [] {
      SumSame(f, xs[1..], g, ys[1..]);
    }
  }

  lemma {:induction false} SumBound<A>(f: A -> nat, xs: seq<A>, k: nat)
    requires forall i :: 0 <= i < |xs| ==> f(xs[i]) <= k
    ensures SumOf(f, xs) <= k * |xs|
  {
    if xs != [] {
      SumBound(f, xs[1..], k);
      assert k * |xs| == k * |xs[1..]| + k;
    }
  }

  /** A sum that reaches its bound has every element at the bound. */
  lemma {:induction false} SumFull<A>(f: A -> nat, xs: seq<A>, i: nat)
    requires forall j :: 0 <= j < |xs| ==> f(xs[j]) <= 1
    requires SumOf(f, xs) == |xs| && i < |xs|
    ensures f(xs[i]) == 1
  {
    SumBound(f, xs[1..], 1);
    if i > 0 {
      SumFull(f, xs[1..], i - 1);
    }
  }

  /** A sum counts at least the places at which it adds something. */
  lemma {:induction false} SumCounts<A>(f: A -> nat, xs: seq<A>, places: set<int>)
    requires forall i :: i in places ==> 0 <= i < |xs| && 1 <= f(xs[i])
    ensures |places| <= SumOf(f, xs)
    decreases |xs|
  {
    if xs == [] {
      forall i ensures i !in places {}
    } else {
      var n := |xs| - 1;
      assert xs == xs[..n] + [xs[n]];
      SumAppend(f, xs[..n], [xs[n]]);
      SumOne(f, xs[n]);
      SumCounts(f, xs[..n], places - {n});
      assert places <= (places - {n}) + {n};
    }
  }

  /** A positive sum has a positive element. */
  lemma {:induction false} SumWitness<A>(f: A -> nat, xs: seq<A>) returns (i: nat)
    requires 0 < SumOf(f, xs)
    ensures i < |xs| && 0 < f(xs[i])
  {
    if 0 < f(xs[0]) {
      i := 0;
    } else {
      var j := SumWitness(f, xs[1..]);
      i := j + 1;
    }
  }
}
