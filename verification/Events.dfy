/** Merging event records that tell of the same thing (internal/events/service.go). */
module Events {
  import opened Wrappers
  import opened Ordering

  /** Times count from Go's zero time, which stands for a time that is not set.
      kept is what merging never touches: type, namespace, category and the like. */
  datatype Record = Record(involved: string, reason: string, message: string, count: int, first: nat, last: nat,
                           kept: string)

  datatype Key = Key(involved: string, reason: string, message: string)

  function KeyOf(r: Record): Key {
    Key(r.involved, r.reason, r.message)
  }

  function Combine(a: Record, r: Record): Record {
    a.(count := a.count + r.count,
       last := if r.last > a.last then r.last else a.last,
       first := if r.first != 0 && (a.first == 0 || r.first < a.first) then r.first else a.first)
  }

  function Find(out: seq<Record>, k: Key): (at: Option<nat>)
    ensures at.Some? ==> at.value < |out| && KeyOf(out[at.value]) == k
    ensures at.None? ==> forall i :: 0 <= i < |out| ==> KeyOf(out[i]) != k
  {
    if out == [] then None
    else if KeyOf(out[|out| - 1]) == k then Some(|out| - 1)
    else Find(out[..|out| - 1], k)
  }

  function Add(out: seq<Record>, r: Record): seq<Record> {
    match Find(out, KeyOf(r))
    case Some(i) => out[i := Combine(out[i], r)]
    case None => out + [r]
  }

  /** Adding the records one by one to what is there. */
  function Onto(out: seq<Record>, rs: seq<Record>): seq<Record> {
    if rs == [] then out else Add(Onto(out, rs[..|rs| - 1]), rs[|rs| - 1])
  }

  function Aggregated(rs: seq<Record>): seq<Record> {
    Onto([], rs)
  }

  ghost predicate DistinctKeys(out: seq<Record>) {
    forall i, j :: 0 <= i < j < |out| ==> KeyOf(out[i]) != KeyOf(out[j])
  }

  /** The index says where each key is. */
  ghost predicate Indexes(seen: map<Key, nat>, out: seq<Record>) {
    && (forall k :: k in seen ==> seen[k] < |out| && KeyOf(out[seen[k]]) == k)
    && (forall i :: 0 <= i < |out| ==> KeyOf(out[i]) in seen && seen[KeyOf(out[i])] == i)
  }

  method Aggregate(rs: seq<Record>) returns (out: seq<Record>)
    ensures out == Aggregated(rs)
  {
    var seen: map<Key, nat> := map[];
    out := [];
    for n := 0 to |rs|
      invariant out == Aggregated(rs[..n]) && Indexes(seen, out)
    {
      assert rs[..n + 1][..n] == rs[..n];
      out, seen := AddOne(out, seen, rs[n]);
    }
    assert rs[..|rs|] == rs;
  }

  /** The body of the loop. */
  method AddOne(out: seq<Record>, seen: map<Key, nat>, r: Record) returns (out': seq<Record>, seen': map<Key, nat>)
    requires Indexes(seen, out)
    ensures out' == Add(out, r) && Indexes(seen', out')
  {
    var k := KeyOf(r);
    out', seen' := out, seen;
    if k in seen {
      var i := seen[k];
      assert Find(out, k) == Some(i);
      var a := out[i].(count := out[i].count + r.count);
      if r.last > a.last {
        a := a.(last := r.last);
      }
      if r.first != 0 && (a.first == 0 || r.first < a.first) {
        a := a.(first := r.first);
      }
      out' := out[i := a];
      return;
    }
    assert Find(out, k) == None;
    seen' := seen[k := |out|];
    out' := out + [r];
  }

  // ----- Merging in stages -----

  lemma AddStaysDistinct(out: seq<Record>, r: Record)
    requires DistinctKeys(out)
    ensures DistinctKeys(Add(out, r))
  {
  }

  lemma {:induction false} OntoStaysDistinct(out: seq<Record>, rs: seq<Record>)
    requires DistinctKeys(out)
    ensures DistinctKeys(Onto(out, rs))
  {
    if rs != [] {
      OntoStaysDistinct(out, rs[..|rs| - 1]);
      AddStaysDistinct(Onto(out, rs[..|rs| - 1]), rs[|rs| - 1]);
    }
  }

  lemma {:induction false} OntoTogether(out: seq<Record>, xs: seq<Record>, ys: seq<Record>)
    ensures Onto(out, xs + ys) == Onto(Onto(out, xs), ys)
    decreases |ys|
  {
    if ys == [] {
      assert xs + ys == xs;
    } else {
      assert (xs + ys)[..|xs + ys| - 1] == xs + ys[..|ys| - 1];
      OntoTogether(out, xs, ys[..|ys| - 1]);
    }
  }

  /** What is merged already stays as it is. */
  lemma {:induction false} AggregatedAlready(rs: seq<Record>)
    requires DistinctKeys(rs)
    ensures Aggregated(rs) == rs
  {
    if rs != [] {
      AggregatedAlready(rs[..|rs| - 1]);
      assert Find(rs[..|rs| - 1], KeyOf(rs[|rs| - 1])) == None;
    }
  }

  /** Merging a first batch, then that with a second, is merging all at once. */
  lemma AggregateInStages(xs: seq<Record>, ys: seq<Record>)
    ensures Aggregated(xs + ys) == Aggregated(Aggregated(xs) + ys)
    ensures Aggregated(Aggregated(xs)) == Aggregated(xs)
    ensures DistinctKeys(Aggregated(xs))
  {
    OntoStaysDistinct([], xs);
    AggregatedAlready(Aggregated(xs));
    OntoTogether([], xs, ys);
    OntoTogether([], Aggregated(xs), ys);
  }

  // ----- What is kept of each key -----

  function CountOf(rs: seq<Record>, k: Key): int {
    if rs == [] then 0
    else CountOf(rs[..|rs| - 1], k) + if KeyOf(rs[|rs| - 1]) == k then rs[|rs| - 1].count else 0
  }

  function TotalCount(rs: seq<Record>): int {
    if rs == [] then 0 else TotalCount(rs[..|rs| - 1]) + rs[|rs| - 1].count
  }

  /** The latest time of a key. */
  predicate IsLatest(rs: seq<Record>, k: Key, t: nat) {
    && (exists r :: r in rs && KeyOf(r) == k && r.last == t)
    && (forall r :: r in rs && KeyOf(r) == k ==> r.last <= t)
  }

  /** The earliest time of a key that is set; not set if none is. */
  predicate IsEarliest(rs: seq<Record>, k: Key, t: nat) {
    && (exists r :: r in rs && KeyOf(r) == k && r.first == t)
    && (forall r :: r in rs && KeyOf(r) == k && r.first != 0 ==> t != 0 && t <= r.first)
  }

  /** What merging owes each key: the sum of its counts, its latest and its
      earliest time. */
  predicate IsSummary(rs: seq<Record>, a: Record) {
    a.count == CountOf(rs, KeyOf(a)) && IsLatest(rs, KeyOf(a), a.last) && IsEarliest(rs, KeyOf(a), a.first)
  }

  ghost predicate Summarizes(out: seq<Record>, rs: seq<Record>) {
    && DistinctKeys(out)
    && (forall a :: a in out ==> IsSummary(rs, a))
    && (forall r :: r in rs ==> Find(out, KeyOf(r)).Some?)
  }

  lemma {:induction false} NoCount(rs: seq<Record>, k: Key)
    requires forall r :: r in rs ==> KeyOf(r) != k
    ensures CountOf(rs, k) == 0
  {
    if rs != [] {
      NoCount(rs[..|rs| - 1], k);
    }
  }

  lemma OtherKeyStays(rs: seq<Record>, r: Record, a: Record)
    requires IsSummary(rs, a) && KeyOf(a) != KeyOf(r)
    ensures IsSummary(rs + [r], a)
  {
    assert (rs + [r])[..|rs|] == rs;
    assert forall x :: x in rs + [r] <==> x in rs || x == r;
  }

  lemma SameKeyCombines(rs: seq<Record>, r: Record, a: Record)
    requires IsSummary(rs, a) && KeyOf(a) == KeyOf(r)
    ensures IsSummary(rs + [r], Combine(a, r))
  {
    assert (rs + [r])[..|rs|] == rs;
    assert r in rs + [r];
    assert forall x :: x in rs + [r] <==> x in rs || x == r;
  }

  lemma NewKeyStarts(rs: seq<Record>, r: Record)
    requires forall x :: x in rs ==> KeyOf(x) != KeyOf(r)
    ensures IsSummary(rs + [r], r)
  {
    assert (rs + [r])[..|rs|] == rs;
    assert r in rs + [r];
    NoCount(rs, KeyOf(r));
  }

  lemma AddIsSummary(out: seq<Record>, rs: seq<Record>, r: Record, a: Record)
    requires Summarizes(out, rs) && a in Add(out, r)
    ensures IsSummary(rs + [r], a)
  {
    match Find(out, KeyOf(r)) {
      case Some(i) =>
        if a == Combine(out[i], r) {
          SameKeyCombines(rs, r, out[i]);
        } else {
          var j :| 0 <= j < |out| && out[j] == a && j != i;
          OtherKeyStays(rs, r, a);
        }
      case None =>
        if a in out {
          OtherKeyStays(rs, r, a);
        } else {
          forall x | x in rs ensures KeyOf(x) != KeyOf(r) {
            assert Find(out, KeyOf(x)).Some?;
          }
          NewKeyStarts(rs, r);
        }
    }
  }

  lemma FoundAfterAdd(out: seq<Record>, r: Record, k: Key)
    requires Find(out, k).Some? || k == KeyOf(r)
    ensures Find(Add(out, r), k).Some?
  {
    var i := if Find(out, k).Some? then Find(out, k).value else |out|;
    assert Find(Add(out, r), k).None? ==> KeyOf(Add(out, r)[i]) != k;
  }

  lemma AddSummarizes(out: seq<Record>, rs: seq<Record>, r: Record)
    requires Summarizes(out, rs)
    ensures Summarizes(Add(out, r), rs + [r])
  {
    AddStaysDistinct(out, r);
    forall a | a in Add(out, r) ensures IsSummary(rs + [r], a) {
      AddIsSummary(out, rs, r, a);
    }
    forall x | x in rs + [r] ensures Find(Add(out, r), KeyOf(x)).Some? {
      FoundAfterAdd(out, r, KeyOf(x));
    }
  }

  /** Every key is there once, with the sum of its counts, the latest of its last
      times and the earliest of its first times that are set. */
  lemma {:induction false} AggregateSummarizes(rs: seq<Record>)
    ensures Summarizes(Aggregated(rs), rs)
  {
    if rs != [] {
      var most, r := rs[..|rs| - 1], rs[|rs| - 1];
      AggregateSummarizes(most);
      AddSummarizes(Aggregated(most), most, r);
      assert rs == most + [r];
    }
  }

  lemma {:induction false} TotalAfterCombine(out: seq<Record>, i: nat, a: Record)
    requires i < |out|
    ensures TotalCount(out[i := a]) == TotalCount(out) + a.count - out[i].count
  {
    var last := |out| - 1;
    if i == last {
      assert out[i := a][..last] == out[..last];
    } else {
      assert out[i := a][..last] == out[..last][i := a];
      TotalAfterCombine(out[..last], i, a);
    }
  }

  /** No occurrence is lost. */
  lemma {:induction false} CountConserved(rs: seq<Record>)
    ensures TotalCount(Aggregated(rs)) == TotalCount(rs)
  {
    if rs != [] {
      var out, r := Aggregated(rs[..|rs| - 1]), rs[|rs| - 1];
      CountConserved(rs[..|rs| - 1]);
      match Find(out, KeyOf(r)) {
        case Some(i) => TotalAfterCombine(out, i, Combine(out[i], r));
        case None => assert (out + [r])[..|out|] == out;
      }
    }
  }

  lemma {:induction false} CountIgnoresOrder(xs: seq<Record>, ys: seq<Record>, k: Key)
    requires multiset(xs) == multiset(ys)
    ensures CountOf(xs, k) == CountOf(ys, k)
    decreases |xs|
  {
    if xs == [] {
      assert |multiset(ys)| == 0;
    } else {
      var i := LastElsewhere(xs, ys);
      CountIgnoresOrder(xs[..|xs| - 1], Without(ys, i), k);
      CountWithout(ys, i, k);
    }
  }

  lemma {:induction false} CountWithout(ys: seq<Record>, i: nat, k: Key)
    requires i < |ys|
    ensures CountOf(ys, k) == CountOf(Without(ys, i), k) + if KeyOf(ys[i]) == k then ys[i].count else 0
  {
    WithoutLast(ys, i);
    if i < |ys| - 1 {
      CountWithout(ys[..|ys| - 1], i, k);
      var rest := Without(ys[..|ys| - 1], i);
      assert (rest + [ys[|ys| - 1]])[..|rest|] == rest;
    }
  }

  /** In whatever order the records come, each key ends with the same count and
      times. */
  lemma MergedAlikeInAnyOrder(xs: seq<Record>, ys: seq<Record>, a: Record) returns (b: Record)
    requires multiset(xs) == multiset(ys) && a in Aggregated(xs)
    ensures b in Aggregated(ys)
    ensures KeyOf(a) == KeyOf(b) && a.count == b.count && a.first == b.first && a.last == b.last
  {
    AggregateSummarizes(xs);
    AggregateSummarizes(ys);
    SameMembers(xs, ys);
    b := SameKeyIn(xs, Aggregated(ys), ys, a);
    CountIgnoresOrder(xs, ys, KeyOf(a));
    SameTimes(xs, ys, a, b);
  }

  lemma SameKeyIn(xs: seq<Record>, out: seq<Record>, ys: seq<Record>, a: Record) returns (b: Record)
    requires IsSummary(xs, a) && Summarizes(out, ys) && forall r :: r in xs <==> r in ys
    ensures b in out && KeyOf(b) == KeyOf(a)
  {
    var r :| r in xs && KeyOf(r) == KeyOf(a) && r.last == a.last;
    assert r in ys;
    b := out[Find(out, KeyOf(r)).value];
  }

  lemma SameTimes(xs: seq<Record>, ys: seq<Record>, a: Record, b: Record)
    requires KeyOf(a) == KeyOf(b) && forall r :: r in xs <==> r in ys
    requires IsSummary(xs, a) && IsSummary(ys, b)
    ensures a.first == b.first && a.last == b.last
  {
    var x :| x in xs && KeyOf(x) == KeyOf(a) && x.last == a.last;
    var y :| y in ys && KeyOf(y) == KeyOf(b) && y.last == b.last;
    assert x in ys && y in xs;
    var v :| v in xs && KeyOf(v) == KeyOf(a) && v.first == a.first;
    var w :| w in ys && KeyOf(w) == KeyOf(b) && w.first == b.first;
    assert v in ys && w in xs;
  }

  // ----- What is merged -----

  predicate SameThing(a: Record, b: Record) {
    a.involved == b.involved && a.reason == b.reason && a.message == b.message
  }

  /** Two records in the result differ in their object, reason or message, and every
      record has one in the result that does not. */
  lemma MergedByObjectReasonMessage(rs: seq<Record>)
    ensures forall i, j :: 0 <= i < j < |Aggregated(rs)| ==>
              var a, b := Aggregated(rs)[i], Aggregated(rs)[j];
              !SameThing(a, b)
    ensures forall r :: r in rs ==>
              exists a :: a in Aggregated(rs) && SameThing(a, r)
  {
    AggregateSummarizes(rs);
    var out := Aggregated(rs);
    forall i, j | 0 <= i < j < |out|
      ensures !SameThing(out[i], out[j])
    {
      assert KeyOf(out[i]) != KeyOf(out[j]);
    }
    forall r | r in rs
      ensures exists a :: a in out && SameThing(a, r)
    {
      var i := Find(out, KeyOf(r)).value;
      assert out[i] in out && KeyOf(out[i]) == KeyOf(r);
    }
  }

  /** Record i is the first of its key. */
  predicate FirstOfKey(rs: seq<Record>, i: nat) {
    i < |rs| && forall j :: 0 <= j < i ==> KeyOf(rs[j]) != KeyOf(rs[i])
  }

  /** What merging never touches is that of the first record of the key. */
  lemma {:induction false} TheRestIsTheFirsts(rs: seq<Record>, a: Record) returns (i: nat)
    requires a in Aggregated(rs)
    ensures FirstOfKey(rs, i) && KeyOf(rs[i]) == KeyOf(a) && rs[i].kept == a.kept
  {
    var front, r := rs[..|rs| - 1], rs[|rs| - 1];
    var before := Aggregated(front);
    if Find(before, KeyOf(r)).None? && a == r {
      i := |rs| - 1;
      LastIsFirst(front, r);
      assert rs == front + [r];
    } else {
      var b := KeptInPlace(before, r, a);
      i := TheRestIsTheFirsts(front, b);
      assert rs == front + [r];
    }
  }

  lemma LastIsFirst(front: seq<Record>, r: Record)
    requires Find(Aggregated(front), KeyOf(r)).None?
    ensures FirstOfKey(front + [r], |front|)
  {
    AggregateSummarizes(front);
    forall j | 0 <= j < |front| ensures KeyOf((front + [r])[j]) != KeyOf(r) {
      assert front[j] in front;
    }
  }

  lemma KeptInPlace(out: seq<Record>, r: Record, a: Record) returns (b: Record)
    requires a in Add(out, r) && !(Find(out, KeyOf(r)).None? && a == r)
    ensures b in out && KeyOf(b) == KeyOf(a) && b.kept == a.kept
  {
    var k :| 0 <= k < |Add(out, r)| && Add(out, r)[k] == a;
    b := out[k];
  }
}
