/** Sums over the elements of a list. */
module Counting {

  function Total<T>(xs: seq<T>, weight: T -> nat): nat {
    if xs == [] then 0 else Total(xs[..|xs| - 1], weight) + weight(xs[|xs| - 1])
  }

  /** Replacing one element changes the sum by the difference. */
  lemma {:induction false} TotalAfterUpdate<T>(xs: seq<T>, weight: T -> nat, i: nat, x: T)
    requires i < |xs|
    ensures Total(xs[i := x], weight) + weight(xs[i]) == Total(xs, weight) + weight(x)
  {
    var last := |xs| - 1;
    if i == last {
      assert xs[i := x][..last] == xs[..last];
    } else {
      assert xs[i := x][..last] == xs[..last][i := x];
      TotalAfterUpdate(xs[..last], weight, i, x);
    }
  }

  lemma {:induction false} TotalAtLeast<T>(xs: seq<T>, weight: T -> nat, i: nat)
    requires i < |xs|
    ensures Total(xs, weight) >= weight(xs[i])
  {
    var last := |xs| - 1;
    if i < last {
      TotalAtLeast(xs[..last], weight, i);
    }
  }

  lemma {:induction false} TotalAtMost<T>(xs: seq<T>, weight: T -> nat, most: nat)
    requires forall i :: 0 <= i < |xs| ==> weight(xs[i]) <= most
    ensures Total(xs, weight) <= |xs| * most
  {
    if xs != [] {
      TotalAtMost(xs[..|xs| - 1], weight, most);
    }
  }

  /** A sum of zero has only zero terms, and the other way round. */
  lemma {:induction false} TotalZero<T>(xs: seq<T>, weight: T -> nat)
    ensures Total(xs, weight) == 0 <==> forall i :: 0 <= i < |xs| ==> weight(xs[i]) == 0
  {
    if xs != [] {
      TotalZero(xs[..|xs| - 1], weight);
      assert forall i :: 0 <= i < |xs| - 1 ==> xs[..|xs| - 1][i] == xs[i];
    }
  }

  lemma {:induction false} TotalOfEqual<T>(n: nat, x: T, weight: T -> nat)
    ensures Total(seq(n, i => x), weight) == n * weight(x)
  {
    if n > 0 {
      assert seq(n, i => x)[..n - 1] == seq(n - 1, i => x);
      TotalOfEqual(n - 1, x, weight);
    }
  }

  // ----- Pigeonholes -----

  /** The numbers below n. */
  function Below(n: nat): (s: set<nat>)
    ensures |s| == n
    ensures forall i: nat :: i in s <==> i < n
  {
    if n == 0 then {} else Below(n - 1) + {n - 1}
  }

  function Members(xs: seq<nat>): (s: set<nat>)
    ensures forall x :: x in s <==> x in xs
  {
    if xs == [] then {} else
      assert xs == xs[..|xs| - 1] + [xs[|xs| - 1]];
      Members(xs[..|xs| - 1]) + {xs[|xs| - 1]}
  }

  lemma {:induction false} SizeOfDistinct(xs: seq<nat>)
    requires forall i, j :: 0 <= i < j < |xs| ==> xs[i] != xs[j]
    ensures |Members(xs)| == |xs|
  {
    if xs != [] {
      SizeOfDistinct(xs[..|xs| - 1]);
      assert xs[|xs| - 1] !in xs[..|xs| - 1];
    }
  }

  /** As many different numbers as there are below a bound are all of them. */
  lemma DistinctCovers(xs: seq<nat>, i: nat)
    requires forall j, k :: 0 <= j < k < |xs| ==> xs[j] != xs[k]
    requires forall k :: 0 <= k < |xs| ==> xs[k] < |xs|
    requires i < |xs|
    ensures i in xs
  {
    SizeOfDistinct(xs);
    var rest := Below(|xs|) - Members(xs);
    assert Members(xs) <= Below(|xs|);
    assert Below(|xs|) == Members(xs) + rest;
    assert |rest| == 0;
    assert i in Below(|xs|);
  }
}
