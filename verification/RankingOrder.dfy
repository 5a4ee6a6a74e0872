/** Exactly when the ranking does not depend on the order of its signals. */
module RankingOrder {
  import opened Wrappers
  import opened Ordering
  import opened Signals
  import opened Correlation
  import opened Ranking

  /** Two arrangements of the signals give the same lines, under every table. */
  ghost predicate OrderFree(xs: seq<Signal>) {
    forall rules: Rules, ys, zs, hy, hz {:trigger IsRanking(rules, Dedup(ys), hy), IsRanking(rules, Dedup(zs), hz)} ::
      multiset(ys) == multiset(xs) && multiset(zs) == multiset(xs)
      && IsRanking(rules, Dedup(ys), hy) && IsRanking(rules, Dedup(zs), hz) ==>
        Lines(hy) == Lines(hz)
  }

  ghost predicate EventsHaveIds(xs: seq<Signal>) {
    forall s :: s in xs && s.source == Event ==> s.id != ""
  }

  /** The order of the signals shows in no ranking if and only if events that are
      merged have the same category and severity. */
  lemma OrderFreeExactly(xs: seq<Signal>)
    requires EventsHaveIds(xs)
    ensures OrderFree(xs) <==> EventsAgree(xs)
  {
    if EventsAgree(xs) {
      AgreementSuffices(xs);
    } else {
      var a, b :| a in xs && b in xs && a.source == Event && b.source == Event && KeyOf(a) == KeyOf(b)
                  && ViewOf(a) != ViewOf(b);
      var ys, zs := DisagreementShows(xs, a, b);
      var hy := SomeRanking(a, Dedup(ys));
      var hz := SomeRanking(a, Dedup(zs));
    }
  }

  lemma AgreementSuffices(xs: seq<Signal>)
    requires EventsAgree(xs)
    ensures OrderFree(xs)
  {
    forall rules: Rules, ys, zs, hy, hz | multiset(ys) == multiset(xs) && multiset(zs) == multiset(xs)
                                   && IsRanking(rules, Dedup(ys), hy) && IsRanking(rules, Dedup(zs), hz)
      ensures Lines(hy) == Lines(hz)
    {
      SameMembers(xs, ys);
      RankingIgnoresOrder(rules, ys, zs, hy, hz);
    }
  }

  // ----- Of the events with one key the first decides -----

  function FirstOf(xs: seq<Signal>, k: EventKey): Option<Signal> {
    if xs == [] then None
    else if FirstOf(xs[..|xs| - 1], k).Some? then FirstOf(xs[..|xs| - 1], k)
    else if xs[|xs| - 1].source == Event && KeyOf(xs[|xs| - 1]) == k then Some(xs[|xs| - 1])
    else None
  }

  lemma {:induction false} FirstOfBoth(xs: seq<Signal>, ys: seq<Signal>, k: EventKey)
    ensures FirstOf(xs + ys, k) == if FirstOf(xs, k).Some? then FirstOf(xs, k) else FirstOf(ys, k)
  {
    if ys == [] {
      assert xs + ys == xs;
    } else {
      assert (xs + ys)[..|xs + ys| - 1] == xs + ys[..|ys| - 1];
      FirstOfBoth(xs, ys[..|ys| - 1], k);
    }
  }

  lemma FirstOfOne(s: Signal, k: EventKey)
    ensures FirstOf([s], k) == if s.source == Event && KeyOf(s) == k then Some(s) else None
  {
    assert [s][..0] == [];
  }

  /** What is kept for a key is the first event that has it, but for its count. */
  lemma {:induction false} FirstIsKept(xs: seq<Signal>, k: EventKey)
    ensures Kept(Dedup(xs), k).Some? <==> FirstOf(xs, k).Some?
    ensures Kept(Dedup(xs), k).Some? ==>
              ViewOf(Dedup(xs)[Kept(Dedup(xs), k).value]) == ViewOf(FirstOf(xs, k).value)
  {
    if xs != [] {
      FirstIsKept(xs[..|xs| - 1], k);
      MergeKeepsFirst(Dedup(xs[..|xs| - 1]), xs[|xs| - 1], k);
    }
  }

  /** What merging one more signal does to the place kept for a key. */
  ghost predicate KeepsFirst(kept: seq<Signal>, after: seq<Signal>, s: Signal, k: EventKey) {
    match Kept(kept, k)
    case Some(i) => Kept(after, k) == Some(i) && ViewOf(after[i]) == ViewOf(kept[i])
    case None =>
      if s.source == Event && KeyOf(s) == k then
        Kept(after, k) == Some(|kept|) && ViewOf(after[|kept|]) == ViewOf(s)
      else Kept(after, k) == None
  }

  lemma CountKeepsFirst(kept: seq<Signal>, i: nat, n: int, s: Signal, k: EventKey)
    requires i < |kept| && kept[i].source == Event && KeyOf(kept[i]) == KeyOf(s)
    ensures KeepsFirst(kept, kept[i := kept[i].(count := n)], s, k)
  {
    KeptAfterCount(kept, i, n, k);
  }

  lemma AppendKeepsFirst(kept: seq<Signal>, s: Signal, t: Signal, k: EventKey)
    requires ViewOf(t) == ViewOf(s) && KeyOf(t) == KeyOf(s)
    requires s.source == Event ==> Kept(kept, KeyOf(s)).None?
    ensures KeepsFirst(kept, kept + [t], s, k)
  {
    KeptAfterAppend(kept, t, k);
  }

  lemma MergeKeepsFirst(kept: seq<Signal>, s: Signal, k: EventKey)
    ensures KeepsFirst(kept, Merge(kept, s), s, k)
  {
    if s.source == Event && Kept(kept, KeyOf(s)).Some? {
      var i := Kept(kept, KeyOf(s)).value;
      CountKeepsFirst(kept, i, kept[i].count + Max(s.count, 1), s, k);
    } else {
      AppendKeepsFirst(kept, s, if s.source == Event && s.count == 0 then s.(count := 1) else s, k);
    }
  }

  lemma {:induction false} DedupIsDistinct(xs: seq<Signal>)
    ensures EventsDistinct(Dedup(xs))
  {
    if xs != [] {
      DedupIsDistinct(xs[..|xs| - 1]);
      MergeStaysDistinct(Dedup(xs[..|xs| - 1]), xs[|xs| - 1]);
    }
  }

  lemma KeptForItsKey(kept: seq<Signal>, i: nat)
    requires EventsDistinct(kept) && i < |kept| && kept[i].source == Event
    ensures Kept(kept, KeyOf(kept[i])) == Some(i)
  {
    var j := Kept(kept, KeyOf(kept[i])).value;
    assert !(i < j) && !(j < i);
  }

  // ----- A table that tells two events apart -----

  predicate LooksLike(a: Signal, s: Signal) {
    s.source == a.source && s.category == a.category && s.reason == a.reason && s.message == a.message
    && s.severity == a.severity
  }

  /** The table with one category, for signals that look like a. */
  function Only(a: Signal): Rules {
    Rules((source, category, reason, message, severity) =>
            if source == a.source && category == a.category && reason == a.reason && message == a.message
               && severity == a.severity then Some(a.category) else None,
          (cat, source, reason, message) => false,
          (cat, source, reason, message, severity) => false,
          cat => 0,
          cat => [])
  }

  lemma OnlyMeans(a: Signal, s: Signal)
    ensures Classify(Only(a), s) == if LooksLike(a, s) then Some(a.category) else None
    ensures !SpeaksAgainst(Only(a), a.category, s)
  {
  }

  /** The resources counted for the category. */
  function Counted(a: Signal, xs: seq<Signal>): set<string> {
    RefKeys(Bucket(Only(a), a.category, Dedup(xs)))
  }

  /** A resource is counted if and only if the first event about it with a's reason
      and message looks like a. */
  lemma CountedExactly(a: Signal, xs: seq<Signal>, r: string)
    requires a.source == Event
    ensures r in Counted(a, xs) <==>
            FirstOf(xs, EventKey(a.reason, a.message, r)).Some?
            && LooksLike(a, FirstOf(xs, EventKey(a.reason, a.message, r)).value)
  {
    var k, kept, rules := EventKey(a.reason, a.message, r), Dedup(xs), Only(a);
    FirstIsKept(xs, k);
    if r in Counted(a, xs) {
      var s :| s in Bucket(rules, a.category, kept) && RefString(s.resource) == r;
      InBucket(rules, a.category, kept, s);
      OnlyMeans(a, s);
      var i :| 0 <= i < |kept| && kept[i] == s;
      DedupIsDistinct(xs);
      KeptForItsKey(kept, i);
    }
    if Kept(kept, k).Some? && LooksLike(a, FirstOf(xs, k).value) {
      var s := kept[Kept(kept, k).value];
      OnlyMeans(a, s);
      InBucket(rules, a.category, kept, s);
      assert s in Bucket(rules, a.category, kept);
    }
  }

  /** The list with its i-th element moved to the front. */
  function ToFront<T>(xs: seq<T>, i: nat): seq<T>
    requires i < |xs|
  {
    [xs[i]] + Without(xs, i)
  }

  lemma ToFrontRearranges<T>(xs: seq<T>, i: nat)
    requires i < |xs|
    ensures multiset(ToFront(xs, i)) == multiset(xs)
  {
    assert xs == xs[..i] + ([xs[i]] + xs[i + 1..]);
  }

  lemma FirstOfToFront(xs: seq<Signal>, i: nat, k: EventKey)
    requires i < |xs| && xs[i].source == Event
    ensures FirstOf(ToFront(xs, i), k) == if KeyOf(xs[i]) == k then Some(xs[i]) else FirstOf(xs, k)
  {
    FirstOfBoth([xs[i]], Without(xs, i), k);
    FirstOfOne(xs[i], k);
    FirstOfBoth(xs[..i], xs[i + 1..], k);
    assert xs == xs[..i] + ([xs[i]] + xs[i + 1..]);
    FirstOfBoth(xs[..i], [xs[i]] + xs[i + 1..], k);
    FirstOfBoth([xs[i]], xs[i + 1..], k);
  }

  lemma CountedInFront(a: Signal, xs: seq<Signal>, i: nat, r: string)
    requires i < |xs| && a.source == Event && xs[i].source == Event && KeyOf(xs[i]) == KeyOf(a)
    ensures r in Counted(a, ToFront(xs, i)) <==>
            if r == RefString(a.resource) then LooksLike(a, xs[i]) else r in Counted(a, xs)
  {
    CountedExactly(a, ToFront(xs, i), r);
    CountedExactly(a, xs, r);
    FirstOfToFront(xs, i, EventKey(a.reason, a.message, r));
  }

  /** Two events with one key that differ: moving the one or the other to the front
      of the list gives two arrangements with no ranking in common. */
  lemma DisagreementShows(xs: seq<Signal>, a: Signal, b: Signal) returns (ys: seq<Signal>, zs: seq<Signal>)
    requires EventsHaveIds(xs) && a in xs && b in xs && a.source == Event && b.source == Event
    requires KeyOf(a) == KeyOf(b) && ViewOf(a) != ViewOf(b)
    ensures multiset(ys) == multiset(xs) && multiset(zs) == multiset(xs)
    ensures forall hy, hz :: IsRanking(Only(a), Dedup(ys), hy) && IsRanking(Only(a), Dedup(zs), hz) ==>
                               Lines(hy) != Lines(hz)
  {
    var i :| 0 <= i < |xs| && xs[i] == a;
    var j :| 0 <= j < |xs| && xs[j] == b;
    ys, zs := ToFront(xs, i), ToFront(xs, j);
    ToFrontRearranges(xs, i);
    ToFrontRearranges(xs, j);
    OneMoreCounted(xs, i, j);
    forall hy, hz | IsRanking(Only(a), Dedup(ys), hy) && IsRanking(Only(a), Dedup(zs), hz)
      ensures Lines(hy) != Lines(hz)
    {
      MoreCountedOtherLines(a, ys, zs, hy, hz);
    }
  }

  /** With the one in front its resource is counted, with the other it is not, and
      nothing else differs. */
  lemma OneMoreCounted(xs: seq<Signal>, i: nat, j: nat)
    requires i < |xs| && j < |xs| && xs[i].source == Event && xs[j].source == Event && KeyOf(xs[i]) == KeyOf(xs[j])
    requires !LooksLike(xs[i], xs[j])
    ensures |Counted(xs[i], ToFront(xs, i))| == |Counted(xs[i], ToFront(xs, j))| + 1
  {
    var a := xs[i];
    var r := RefString(a.resource);
    var with, without := Counted(a, ToFront(xs, i)), Counted(a, ToFront(xs, j));
    CountedInFront(a, xs, j, r);
    forall t ensures t in with <==> t in without || t == r {
      CountedInFront(a, xs, i, t);
      CountedInFront(a, xs, j, t);
    }
    assert with == without + {r};
  }

  lemma MoreCountedOtherLines(a: Signal, ys: seq<Signal>, zs: seq<Signal>, hy: seq<Hypothesis>, hz: seq<Hypothesis>)
    requires |Counted(a, ys)| == |Counted(a, zs)| + 1
    requires IsRanking(Only(a), Dedup(ys), hy) && IsRanking(Only(a), Dedup(zs), hz)
    ensures Lines(hy) != Lines(hz)
  {
    var r :| r in Counted(a, ys);
    var s :| s in Bucket(Only(a), a.category, Dedup(ys)) && RefString(s.resource) == r;
    InBucket(Only(a), a.category, Dedup(ys), s);
    var i := HasCategory(Only(a), Dedup(ys), hy, a.category);
    Graded(Only(a), Dedup(ys), hy, hy[i]);
    assert Lines(hy)[i] == Line(a.category, hy[i].confidence, |Counted(a, ys)|);
    if Lines(hy) == Lines(hz) {
      assert Lines(hz)[i] == LineOf(hz[i]);
      Graded(Only(a), Dedup(zs), hz, hz[i]);
    }
  }

  // ----- Every list has a ranking under such a table -----

  lemma {:induction false} InsertRef(refs: seq<Ref>, r: Ref) returns (out: seq<Ref>)
    requires UniqueAndSorted(refs) && RefString(r) !in Strings(refs)
    ensures UniqueAndSorted(out) && Strings(out) == Strings(refs) + {RefString(r)} && |out| == |refs| + 1
    ensures forall x :: x in out <==> x in refs || x == r
  {
    if refs == [] {
      out := [r];
    } else {
      StringsInFront(refs[0], refs[1..]);
      assert refs == [refs[0]] + refs[1..];
      StrLessTotal(RefString(r), RefString(refs[0]));
      if StrLess(RefString(r), RefString(refs[0])) {
        out := [r] + refs;
        StringsInFront(r, refs);
        Prepended(r, refs);
      } else {
        var rest := InsertRef(refs[1..], r);
        out := [refs[0]] + rest;
        StringsInFront(refs[0], rest);
        BelowAll(refs);
        SortedInFront(refs[0], rest);
      }
    }
  }

  lemma StringsInFront(r: Ref, refs: seq<Ref>)
    ensures Strings([r] + refs) == {RefString(r)} + Strings(refs)
  {
    assert forall t :: t in [r] + refs <==> t == r || t in refs;
  }

  lemma BelowAll(refs: seq<Ref>)
    requires UniqueAndSorted(refs) && refs != []
    ensures forall t :: t in Strings(refs[1..]) ==> StrLess(RefString(refs[0]), t)
  {
    forall t | t in Strings(refs[1..]) ensures StrLess(RefString(refs[0]), t) {
      var s :| s in refs[1..] && RefString(s) == t;
    }
  }

  lemma SortedInFront(r: Ref, refs: seq<Ref>)
    requires UniqueAndSorted(refs) && forall t :: t in Strings(refs) ==> StrLess(RefString(r), t)
    ensures UniqueAndSorted([r] + refs)
  {
    forall i | 0 <= i < |refs| ensures StrLess(RefString(r), RefString(refs[i])) {
      assert refs[i] in refs;
    }
  }

  lemma Prepended(r: Ref, refs: seq<Ref>)
    requires UniqueAndSorted(refs) && refs != [] && StrLess(RefString(r), RefString(refs[0]))
    ensures UniqueAndSorted([r] + refs)
  {
    forall t | t in Strings(refs) ensures StrLess(RefString(r), t) {
      var s :| s in refs && RefString(s) == t;
      var i :| 0 <= i < |refs| && refs[i] == s;
      if i > 0 {
        StrLessTransitive(RefString(r), RefString(refs[0]), t);
      }
    }
    SortedInFront(r, refs);
  }

  /** out is what a hypothesis with this evidence shows as affected. */
  ghost predicate IsAffected(out: seq<Ref>, ss: seq<Signal>) {
    UniqueAndSorted(out) && Strings(out) == RefKeys(ss) && |out| == |RefKeys(ss)| && FirstOnes(out, Refs(ss))
  }

  lemma {:induction false} AffectedExists(ss: seq<Signal>) returns (out: seq<Ref>)
    ensures IsAffected(out, ss)
  {
    if ss == [] {
      out := [];
    } else {
      var front, s := ss[..|ss| - 1], ss[|ss| - 1];
      assert ss == front + [s];
      var most := AffectedExists(front);
      out := AffectedMore(front, s, most);
    }
  }

  lemma AffectedMore(ss: seq<Signal>, s: Signal, most: seq<Ref>) returns (out: seq<Ref>)
    requires IsAffected(most, ss)
    ensures IsAffected(out, ss + [s])
  {
    RefKeysAppend(ss, s);
    RefsAppend(ss, s);
    out := OneMoreRef(most, Refs(ss), s.resource);
  }

  lemma RefsAppend(ss: seq<Signal>, s: Signal)
    ensures Refs(ss + [s]) == Refs(ss) + [s.resource]
  {
  }

  lemma OneMoreRef(out: seq<Ref>, refs: seq<Ref>, r: Ref) returns (out': seq<Ref>)
    requires UniqueAndSorted(out) && |out| == |Strings(out)| && FirstOnes(out, refs) && Strings(out) == Strings(refs)
    ensures UniqueAndSorted(out') && Strings(out') == Strings(out) + {RefString(r)} && |out'| == |Strings(out')|
    ensures FirstOnes(out', refs + [r])
  {
    if RefString(r) in Strings(out) {
      out' := out;
    } else {
      out' := InsertRef(out, r);
    }
    StillFirst(out, refs, r);
  }

  lemma StillFirst(out: seq<Ref>, refs: seq<Ref>, r: Ref)
    requires FirstOnes(out, refs)
    ensures FirstOnes(out, refs + [r])
    ensures RefString(r) !in Strings(refs) ==> FirstRef(refs + [r], RefString(r)) == Some(r)
  {
    FirstRefMeans(refs, RefString(r));
    assert (refs + [r])[..|refs|] == refs;
  }

  lemma RefKeysAppend(ss: seq<Signal>, s: Signal)
    ensures RefKeys(ss + [s]) == RefKeys(ss) + {RefString(s.resource)}
    ensures Strings(Refs(ss)) == RefKeys(ss)
  {
    assert forall t :: t in ss + [s] <==> t in ss || t == s;
    RefsOfBucket(ss);
  }

  lemma SomeRanking(a: Signal, kept: seq<Signal>) returns (hyps: seq<Hypothesis>)
    ensures IsRanking(Only(a), kept, hyps)
  {
    var rules, ss := Only(a), Bucket(Only(a), a.category, kept);
    forall s ensures Classify(rules, s) == if LooksLike(a, s) then Some(a.category) else None
             ensures !SpeaksAgainst(rules, a.category, s)
    {
      OnlyMeans(a, s);
    }
    if exists s :: s in kept && LooksLike(a, s) {
      var affected := AffectedExists(ss);
      var h := Hypothesis(a.category, ConfidenceOf(rules, a.category, ss, kept), affected, Ids(ss), [], |affected|);
      hyps := [h];
      assert Categories(rules, kept) == {a.category};
      assert h in hyps;
    } else {
      hyps := [];
    }
  }
}
