/** Orders: the byte order of Go strings, and what makes a sorted list unique. */
module Ordering {

  /** Strings in the order of Go's < operator. */
  predicate StrLess(a: string, b: string) {
    if b == "" then false
    else if a == "" then true
    else if a[0] != b[0] then a[0] < b[0]
    else StrLess(a[1..], b[1..])
  }

  /** a and b agree up to n, and there a ends or has the smaller character. */
  predicate SmallerAt(a: string, b: string, n: nat) {
    && n <= |a| && n < |b| && a[..n] == b[..n]
    && (n == |a| || a[n] < b[n])
  }

  /** The order is the lexicographic one: a proper prefix comes first, and otherwise
      the first difference decides. */
  lemma StrLessExactly(a: string, b: string)
    ensures StrLess(a, b) <==> exists n: nat :: SmallerAt(a, b, n)
  {
    if StrLess(a, b) {
      var n := WhereSmaller(a, b);
    }
    if n: nat :| SmallerAt(a, b, n) {
      SmallerIsLess(a, b, n);
    }
  }

  lemma {:induction false} WhereSmaller(a: string, b: string) returns (n: nat)
    requires StrLess(a, b)
    ensures SmallerAt(a, b, n)
  {
    if a == "" || a[0] != b[0] {
      n := 0;
    } else {
      var m := WhereSmaller(a[1..], b[1..]);
      n := m + 1;
      assert a[..n] == [a[0]] + a[1..][..m] && b[..n] == [b[0]] + b[1..][..m];
    }
  }

  lemma {:induction false} SmallerIsLess(a: string, b: string, n: nat)
    requires SmallerAt(a, b, n)
    ensures StrLess(a, b)
  {
    if n > 0 {
      assert a[0] == a[..n][0] && b[0] == b[..n][0];
      assert a[1..][..n - 1] == a[..n][1..] && b[1..][..n - 1] == b[..n][1..];
      SmallerIsLess(a[1..], b[1..], n - 1);
    }
  }

  lemma {:induction false} StrLessIrreflexive(a: string)
    ensures !StrLess(a, a)
  {
    if a != "" {
      StrLessIrreflexive(a[1..]);
    }
  }

  lemma {:induction false} StrLessTransitive(a: string, b: string, c: string)
    requires StrLess(a, b) && StrLess(b, c)
    ensures StrLess(a, c)
  {
    if a != "" && a[0] == b[0] && b[0] == c[0] {
      StrLessTransitive(a[1..], b[1..], c[1..]);
    }
  }

  lemma {:induction false} StrLessTotal(a: string, b: string)
    ensures StrLess(a, b) || a == b || StrLess(b, a)
  {
    if a != "" && b != "" && a[0] == b[0] {
      StrLessTotal(a[1..], b[1..]);
      assert a == [a[0]] + a[1..] && b == [b[0]] + b[1..];
    }
  }

  // ----- Sorted lists -----

  /** A comparison the library's sorts accept: elements that neither precedes the
      other count as equal. */
  ghost predicate WeakOrder<T(!new)>(less: (T, T) -> bool) {
    && (forall x :: !less(x, x))
    && (forall x, y, z {:trigger less(x, y), less(y, z)} :: less(x, y) && less(y, z) ==> less(x, z))
    && (forall x, y, z {:trigger less(x, y), less(y, z)} :: !less(x, y) && !less(y, z) ==> !less(x, z))
  }

  ghost predicate Sorted<T>(xs: seq<T>, less: (T, T) -> bool) {
    forall i, j :: 0 <= i < j < |xs| ==> !less(xs[j], xs[i])
  }

  ghost predicate StrictlySorted<T>(xs: seq<T>, less: (T, T) -> bool) {
    forall i, j :: 0 <= i < j < |xs| ==> less(xs[i], xs[j])
  }

  lemma StringOrder()
    ensures WeakOrder(StrLess)
    ensures forall a, b :: a != b ==> StrLess(a, b) || StrLess(b, a)
  {
    forall x ensures !StrLess(x, x) { StrLessIrreflexive(x); }
    forall x, y, z | StrLess(x, y) && StrLess(y, z) ensures StrLess(x, z) { StrLessTransitive(x, y, z); }
    forall a, b ensures a == b || StrLess(a, b) || StrLess(b, a) { StrLessTotal(a, b); }
  }

  /** Two strictly sorted lists with the same members are the same list. */
  lemma {:induction false} SortedListIsUnique<T(!new)>(xs: seq<T>, ys: seq<T>, less: (T, T) -> bool)
    requires WeakOrder(less) && StrictlySorted(xs, less) && StrictlySorted(ys, less)
    requires forall x :: x in xs <==> x in ys
    ensures xs == ys
  {
    if xs == [] {
      assert forall k :: 0 <= k < |ys| ==> ys[k] in xs;
    } else {
      assert xs[0] in ys && ys[0] in xs;
      var i :| 0 <= i < |ys| && ys[i] == xs[0];
      var j :| 0 <= j < |xs| && xs[j] == ys[0];
      assert i == 0;
      forall x ensures x in xs[1..] <==> x in ys[1..] {
        if x in xs[1..] { assert x in ys && x != ys[0]; }
        if x in ys[1..] { assert x in xs && x != xs[0]; }
      }
      SortedListIsUnique(xs[1..], ys[1..], less);
      assert xs == [xs[0]] + xs[1..] && ys == [ys[0]] + ys[1..];
    }
  }

  lemma NotBoth<T(!new)>(x: T, y: T, less: (T, T) -> bool)
    requires WeakOrder(less) && less(x, y)
    ensures !less(y, x)
  {
  }

  /** Put x after everything it does not precede. */
  method Insert<T(!new)>(xs: seq<T>, x: T, less: (T, T) -> bool) returns (ys: seq<T>)
    requires WeakOrder(less) && Sorted(xs, less)
    ensures Sorted(ys, less)
    ensures multiset(ys) == multiset(xs) + multiset{x}
  {
    var i := |xs|;
    while 0 < i && less(x, xs[i - 1])
      invariant 0 <= i <= |xs|
      invariant forall k :: i <= k < |xs| ==> !less(xs[k], x)
    {
      i := i - 1;
      NotBoth(x, xs[i], less);
    }
    forall k | 0 <= k < i ensures !less(x, xs[k]) {
      assert !less(x, xs[i - 1]);
    }
    ys := xs[..i] + [x] + xs[i..];
    MultisetInserted(xs, i, x);
    StaysSorted(xs, i, x, less);
  }

  lemma MultisetInserted<T>(xs: seq<T>, i: nat, x: T)
    requires i <= |xs|
    ensures multiset(xs[..i] + [x] + xs[i..]) == multiset(xs) + multiset{x}
  {
    assert xs == xs[..i] + xs[i..];
  }

  lemma StaysSorted<T(!new)>(xs: seq<T>, i: nat, x: T, less: (T, T) -> bool)
    requires Sorted(xs, less) && i <= |xs|
    requires forall k :: 0 <= k < i ==> !less(x, xs[k])
    requires forall k :: i <= k < |xs| ==> !less(xs[k], x)
    ensures Sorted(xs[..i] + [x] + xs[i..], less)
  {
  }

  /** The library's stable sort. */
  method StableSort<T(!new)>(xs: seq<T>, less: (T, T) -> bool) returns (ys: seq<T>)
    requires WeakOrder(less)
    ensures Sorted(ys, less)
    ensures multiset(ys) == multiset(xs)
  {
    ys := [];
    for i := 0 to |xs|
      invariant Sorted(ys, less)
      invariant multiset(ys) == multiset(xs[..i])
    {
      ys := Insert(ys, xs[i], less);
      assert xs[..i + 1] == xs[..i] + [xs[i]];
    }
    assert xs[..|xs|] == xs;
  }

  /** Equal multisets have the same members and the same length, and if the
      members of one list are pairwise different so are those of the other. */
  lemma SameMembers<T>(xs: seq<T>, ys: seq<T>)
    requires multiset(xs) == multiset(ys)
    ensures |xs| == |ys|
    ensures forall x :: x in xs <==> x in ys
  {
    assert |multiset(xs)| == |multiset(ys)|;
    forall x ensures x in xs <==> x in ys {
      assert x in xs <==> x in multiset(xs);
    }
  }

  lemma {:induction false} NoTwice<T>(xs: seq<T>, i: int, j: int)
    requires 0 <= i < j < |xs| && xs[i] == xs[j]
    ensures multiset(xs)[xs[i]] >= 2
  {
    assert xs == xs[..j] + [xs[j]] + xs[j + 1..];
    assert xs[..j][i] == xs[i];
    assert xs[i] in multiset(xs[..j]);
  }

  lemma DistinctAfterSort<T>(xs: seq<T>, ys: seq<T>)
    requires multiset(xs) == multiset(ys)
    requires forall i, j :: 0 <= i < j < |xs| ==> xs[i] != xs[j]
    ensures forall i, j :: 0 <= i < j < |ys| ==> ys[i] != ys[j]
  {
    forall i, j | 0 <= i < j < |ys| && ys[i] == ys[j] ensures false {
      NoTwice(ys, i, j);
      AtMostOnce(xs, ys[i]);
    }
  }

  lemma {:induction false} AtMostOnce<T>(xs: seq<T>, x: T)
    requires forall i, j :: 0 <= i < j < |xs| ==> xs[i] != xs[j]
    ensures multiset(xs)[x] <= 1
  {
    if xs != [] {
      assert xs == [xs[0]] + xs[1..];
      AtMostOnce(xs[1..], x);
      if x == xs[0] {
        assert x !in xs[1..];
        assert x !in multiset(xs[1..]);
      }
    }
  }

  /** The strings that are not empty, each once, in order of first appearance. */
  function UniqueOf(xs: seq<string>): seq<string> {
    if xs == [] then []
    else
      var before, x := UniqueOf(xs[..|xs| - 1]), xs[|xs| - 1];
      if x == "" || x in before then before else before + [x]
  }

  lemma {:induction false} UniqueMeans(xs: seq<string>)
    ensures forall i, j :: 0 <= i < j < |UniqueOf(xs)| ==> UniqueOf(xs)[i] != UniqueOf(xs)[j]
    ensures forall x :: x in UniqueOf(xs) <==> x in xs && x != ""
  {
    if xs != [] {
      UniqueMeans(xs[..|xs| - 1]);
      assert xs == xs[..|xs| - 1] + [xs[|xs| - 1]];
    }
  }

  /** The first place of x in the list. */
  predicate FirstPlace(xs: seq<string>, x: string, i: nat) {
    i < |xs| && xs[i] == x && x !in xs[..i]
  }

  lemma FirstPlaceLater(xs: seq<string>, x: string, i: nat)
    requires xs != [] && FirstPlace(xs[..|xs| - 1], x, i)
    ensures FirstPlace(xs, x, i)
  {
    assert xs[..|xs| - 1][..i] == xs[..i];
  }

  /** Of two kept strings the one that first appeared earlier comes earlier. */
  lemma {:induction false} UniqueInOrder(xs: seq<string>, a: nat, b: nat) returns (i: nat, j: nat)
    requires a < b < |UniqueOf(xs)|
    ensures i < j && FirstPlace(xs, UniqueOf(xs)[a], i) && FirstPlace(xs, UniqueOf(xs)[b], j)
  {
    var most, kept := xs[..|xs| - 1], UniqueOf(xs);
    if b < |UniqueOf(most)| {
      i, j := UniqueInOrder(most, a, b);
      FirstPlaceLater(xs, kept[b], j);
    } else {
      i := PlaceOf(most, kept[a]);
      j := |most|;
      UniqueMeans(most);
    }
    FirstPlaceLater(xs, kept[a], i);
  }

  lemma {:induction false} PlaceOf(xs: seq<string>, x: string) returns (i: nat)
    requires x in UniqueOf(xs)
    ensures FirstPlace(xs, x, i)
  {
    UniqueMeans(xs);
    i :| i < |xs| && xs[i] == x;
    if x in xs[..i] {
      var front := xs[..i];
      UniqueMeans(front);
      i := PlaceOf(front, x);
      assert front[..i] == xs[..i];
    }
  }

  lemma {:induction false} UniqueStaysSorted(xs: seq<string>)
    requires Sorted(xs, StrLess)
    ensures StrictlySorted(UniqueOf(xs), StrLess)
  {
    if xs != [] {
      var most, x := xs[..|xs| - 1], xs[|xs| - 1];
      UniqueStaysSorted(most);
      UniqueMeans(most);
      StringOrder();
      forall u | u in UniqueOf(most) && u != x ensures StrLess(u, x) {
        var i :| 0 <= i < |most| && most[i] == u;
        assert !StrLess(xs[|xs| - 1], xs[i]);
      }
    }
  }

  function Without<T>(ys: seq<T>, i: nat): seq<T>
    requires i < |ys|
  {
    ys[..i] + ys[i + 1..]
  }

  lemma WithoutLast<T>(ys: seq<T>, i: nat)
    requires i < |ys|
    ensures i == |ys| - 1 ==> Without(ys, i) == ys[..i]
    ensures i < |ys| - 1 ==> Without(ys, i) == Without(ys[..|ys| - 1], i) + [ys[|ys| - 1]]
  {
  }

  /** The last element of a list has a place in any rearrangement, and taking it
      out of both leaves a rearrangement. */
  lemma LastElsewhere<T>(xs: seq<T>, ys: seq<T>) returns (i: nat)
    requires xs != [] && multiset(xs) == multiset(ys)
    ensures i < |ys| && ys[i] == xs[|xs| - 1]
    ensures multiset(xs[..|xs| - 1]) == multiset(Without(ys, i))
  {
    var last := xs[|xs| - 1];
    assert last in multiset(xs);
    assert last in ys;
    i :| 0 <= i < |ys| && ys[i] == last;
    MultisetWithout(xs, |xs| - 1);
    MultisetWithout(ys, i);
    WithoutLast(xs, |xs| - 1);
  }

  lemma MultisetWithout<T>(ys: seq<T>, i: nat)
    requires i < |ys|
    ensures multiset(Without(ys, i)) == multiset(ys) - multiset{ys[i]}
  {
    assert ys == ys[..i] + ([ys[i]] + ys[i + 1..]);
  }
}
