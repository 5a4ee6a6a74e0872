/** What the ranking is, whatever order its inputs come in: properties of the
    correlation pipeline over all signals. */
module Ranking {
  import opened Wrappers
  import opened Ordering
  import opened Signals
  import opened Correlation

  // ----- Merging events -----

  /** Everything about a signal that ranking looks at. */
  datatype View = View(source: Source, category: string, reason: string, severity: Severity,
                       resource: string, message: string, citable: bool)

  function ViewOf(s: Signal): View {
    View(s.source, s.category, s.reason, s.severity, RefString(s.resource), s.message, s.id != "")
  }

  function Views(xs: seq<Signal>): set<View> {
    set s | s in xs :: ViewOf(s)
  }

  /** Events that will be merged agree on what their key does not say. */
  ghost predicate EventsAgree(xs: seq<Signal>) {
    forall a, b :: a in xs && b in xs && a.source == Event && b.source == Event && KeyOf(a) == KeyOf(b) ==>
      ViewOf(a) == ViewOf(b)
  }

  lemma {:induction false} DedupKeepsViews(xs: seq<Signal>)
    requires EventsAgree(xs)
    ensures Views(Dedup(xs)) == Views(xs)
  {
    if xs != [] {
      var front, s := xs[..|xs| - 1], xs[|xs| - 1];
      assert xs == front + [s];
      DedupKeepsViews(front);
      MergeKeepsViews(Dedup(front), front, s);
    }
  }

  lemma ViewsAppend(xs: seq<Signal>, s: Signal)
    ensures Views(xs + [s]) == Views(xs) + {ViewOf(s)}
  {
    assert forall x :: x in xs + [s] <==> x in xs || x == s;
  }

  lemma MergeKeepsViews(kept: seq<Signal>, front: seq<Signal>, s: Signal)
    requires EventsAgree(front + [s]) && Views(kept) == Views(front)
    ensures Views(Merge(kept, s)) == Views(front + [s])
  {
    ViewsAppend(front, s);
    if s.source == Event && Kept(kept, KeyOf(s)).Some? {
      var i := Kept(kept, KeyOf(s)).value;
      assert kept[i] in kept && ViewOf(kept[i]) in Views(front);
      var a :| a in front && ViewOf(a) == ViewOf(kept[i]);
      assert a in front + [s] && s in front + [s];
      CountKeepsViews(kept, i, kept[i].count + Max(s.count, 1));
    } else {
      ViewsAppend(kept, if s.source == Event && s.count == 0 then s.(count := 1) else s);
    }
  }

  lemma CountKeepsViews(kept: seq<Signal>, i: nat, n: int)
    requires i < |kept|
    ensures Views(kept[i := kept[i].(count := n)]) == Views(kept)
  {
    var kept' := kept[i := kept[i].(count := n)];
    forall s | s in kept ensures ViewOf(s) in Views(kept') {
      var j :| 0 <= j < |kept| && kept[j] == s;
      assert kept'[j] in kept';
    }
    forall s | s in kept' ensures ViewOf(s) in Views(kept) {
      var j :| 0 <= j < |kept| && kept'[j] == s;
      assert kept[j] in kept;
    }
  }

  /** How often the events of a list happened. */
  function Occurrences(xs: seq<Signal>): int {
    if xs == [] then 0
    else Occurrences(xs[..|xs| - 1]) + (if xs[|xs| - 1].source == Event then Max(xs[|xs| - 1].count, 1) else 0)
  }

  lemma {:induction false} OccurrencesAfterCount(kept: seq<Signal>, i: nat, n: int)
    requires i < |kept| && kept[i].source == Event && kept[i].count >= 1 && n >= 1
    ensures Occurrences(kept[i := kept[i].(count := n)]) == Occurrences(kept) + n - kept[i].count
  {
    var kept', last := kept[i := kept[i].(count := n)], |kept| - 1;
    if i == last {
      assert kept'[..last] == kept[..last];
    } else {
      assert kept'[..last] == kept[..last][i := kept[i].(count := n)];
      OccurrencesAfterCount(kept[..last], i, n);
    }
  }

  ghost predicate EventsDistinct(kept: seq<Signal>) {
    forall i, j :: 0 <= i < j < |kept| && kept[i].source == Event && kept[j].source == Event ==>
      KeyOf(kept[i]) != KeyOf(kept[j])
  }

  ghost predicate EventsCounted(kept: seq<Signal>) {
    forall i :: 0 <= i < |kept| && kept[i].source == Event ==> kept[i].count >= 1
  }

  lemma MergeConserves(kept: seq<Signal>, s: Signal)
    requires s.source == Event ==> s.count >= 0
    requires EventsCounted(kept)
    ensures Occurrences(Merge(kept, s)) == Occurrences(kept) + if s.source == Event then Max(s.count, 1) else 0
    ensures EventsCounted(Merge(kept, s))
    ensures NonEvents(Merge(kept, s)) == NonEvents(kept) + if s.source == Event then [] else [s]
  {
    if s.source == Event && Kept(kept, KeyOf(s)).Some? {
      var i := Kept(kept, KeyOf(s)).value;
      OccurrencesAfterCount(kept, i, kept[i].count + Max(s.count, 1));
      NonEventsAfterCount(kept, i, kept[i].count + Max(s.count, 1));
    } else {
      assert Merge(kept, s)[..|kept|] == kept;
    }
  }

  lemma MergeStaysDistinct(kept: seq<Signal>, s: Signal)
    requires EventsDistinct(kept)
    ensures EventsDistinct(Merge(kept, s))
  {
  }

  /** Merging loses no occurrence, keeps every other signal in order, and leaves
      no two events with one key. */
  lemma {:induction false} DedupConserves(xs: seq<Signal>)
    requires forall s :: s in xs && s.source == Event ==> s.count >= 0
    ensures Occurrences(Dedup(xs)) == Occurrences(xs)
    ensures NonEvents(Dedup(xs)) == NonEvents(xs)
    ensures EventsCounted(Dedup(xs)) && EventsDistinct(Dedup(xs))
  {
    if xs != [] {
      assert xs == xs[..|xs| - 1] + [xs[|xs| - 1]];
      DedupConserves(xs[..|xs| - 1]);
      MergeConserves(Dedup(xs[..|xs| - 1]), xs[|xs| - 1]);
      MergeStaysDistinct(Dedup(xs[..|xs| - 1]), xs[|xs| - 1]);
    }
  }

  function NonEvents(xs: seq<Signal>): seq<Signal> {
    if xs == [] then []
    else NonEvents(xs[..|xs| - 1]) + (if xs[|xs| - 1].source == Event then [] else [xs[|xs| - 1]])
  }

  lemma {:induction false} NonEventsAfterCount(kept: seq<Signal>, i: nat, n: int)
    requires i < |kept| && kept[i].source == Event
    ensures NonEvents(kept[i := kept[i].(count := n)]) == NonEvents(kept)
  {
    var kept', last := kept[i := kept[i].(count := n)], |kept| - 1;
    if i == last {
      assert kept'[..last] == kept[..last];
    } else {
      assert kept'[..last] == kept[..last][i := kept[i].(count := n)];
      NonEventsAfterCount(kept[..last], i, n);
    }
  }

  /** No two events that are kept have one reason, message and resource string. */
  lemma KeptEventsDiffer(xs: seq<Signal>, i: nat, j: nat)
    requires i < j < |Dedup(xs)| && Dedup(xs)[i].source == Event && Dedup(xs)[j].source == Event
    requires forall s :: s in xs && s.source == Event ==> s.count >= 0
    ensures var a, b := Dedup(xs)[i], Dedup(xs)[j];
            a.reason != b.reason || a.message != b.message || RefString(a.resource) != RefString(b.resource)
  {
    DedupConserves(xs);
    assert KeyOf(Dedup(xs)[i]) != KeyOf(Dedup(xs)[j]);
  }

  // ----- Ranking depends on the views alone -----

  lemma {:induction false} InBucket(rules: Rules, cat: string, xs: seq<Signal>, s: Signal)
    ensures s in Bucket(rules, cat, xs) <==> s in xs && Classify(rules, s) == Some(cat)
  {
    if xs != [] {
      assert xs == xs[..|xs| - 1] + [xs[|xs| - 1]];
      InBucket(rules, cat, xs[..|xs| - 1], s);
    }
  }

  lemma Twin(xs: seq<Signal>, ys: seq<Signal>, s: Signal) returns (t: Signal)
    requires s in xs && Views(xs) <= Views(ys)
    ensures t in ys && ViewOf(t) == ViewOf(s)
  {
    assert ViewOf(s) in Views(ys);
    t :| t in ys && ViewOf(t) == ViewOf(s);
  }

  lemma TwinInBucket(rules: Rules, cat: string, xs: seq<Signal>, ys: seq<Signal>, s: Signal) returns (t: Signal)
    requires s in Bucket(rules, cat, xs) && Views(xs) <= Views(ys)
    ensures t in Bucket(rules, cat, ys) && ViewOf(t) == ViewOf(s)
  {
    InBucket(rules, cat, xs, s);
    t := Twin(xs, ys, s);
    InBucket(rules, cat, ys, t);
  }

  lemma BucketFactsCarryOver(rules: Rules, cat: string, xs: seq<Signal>, ys: seq<Signal>)
    requires Views(xs) <= Views(ys)
    ensures Settled(rules, cat, Bucket(rules, cat, xs)) ==> Settled(rules, cat, Bucket(rules, cat, ys))
    ensures Corroborated(Bucket(rules, cat, xs)) ==> Corroborated(Bucket(rules, cat, ys))
    ensures OnlyLogs(Bucket(rules, cat, ys)) ==> OnlyLogs(Bucket(rules, cat, xs))
    ensures Contradicted(rules, cat, xs) ==> Contradicted(rules, cat, ys)
    ensures RefKeys(Bucket(rules, cat, xs)) <= RefKeys(Bucket(rules, cat, ys))
  {
    var bucketX, bucketY := Bucket(rules, cat, xs), Bucket(rules, cat, ys);
    forall s | s in bucketX ensures exists t :: t in bucketY && ViewOf(t) == ViewOf(s) {
      var t := TwinInBucket(rules, cat, xs, ys, s);
    }
    if Contradicted(rules, cat, xs) {
      var s :| s in xs && SpeaksAgainst(rules, cat, s);
      var t := Twin(xs, ys, s);
      assert SpeaksAgainst(rules, cat, t);
    }
  }

  lemma CategoriesCarryOver(rules: Rules, xs: seq<Signal>, ys: seq<Signal>)
    requires Views(xs) <= Views(ys)
    ensures Categories(rules, xs) <= Categories(rules, ys)
  {
    forall s | s in xs && Classify(rules, s).Some? ensures Classify(rules, s).value in Categories(rules, ys) {
      var t := Twin(xs, ys, s);
      assert Classify(rules, t) == Classify(rules, s);
    }
  }

  /** What a caller can see of the order: category, confidence and the number of
      affected resources. */
  datatype Line = Line(category: string, confidence: Confidence, replicas: int)

  function LineOf(h: Hypothesis): Line {
    Line(h.category, h.confidence, h.replicas)
  }

  function Lines(hyps: seq<Hypothesis>): seq<Line> {
    seq(|hyps|, i requires 0 <= i < |hyps| => LineOf(hyps[i]))
  }

  lemma SameLine(rules: Rules, cat: string, xs: seq<Signal>, ys: seq<Signal>, g: Hypothesis, h: Hypothesis)
    requires Views(xs) == Views(ys)
    requires IsGraded(rules, cat, xs, g) && IsGraded(rules, cat, ys, h)
    ensures LineOf(g) == LineOf(h)
  {
    SameGrade(rules, cat, xs, ys);
  }

  lemma SameGrade(rules: Rules, cat: string, xs: seq<Signal>, ys: seq<Signal>)
    requires Views(xs) == Views(ys)
    ensures RefKeys(Bucket(rules, cat, xs)) == RefKeys(Bucket(rules, cat, ys))
    ensures ConfidenceOf(rules, cat, Bucket(rules, cat, xs), xs) == ConfidenceOf(rules, cat, Bucket(rules, cat, ys), ys)
  {
    BucketFactsCarryOver(rules, cat, xs, ys);
    BucketFactsCarryOver(rules, cat, ys, xs);
  }

  lemma Graded(rules: Rules, kept: seq<Signal>, hyps: seq<Hypothesis>, h: Hypothesis)
    requires IsRanking(rules, kept, hyps) && h in hyps
    ensures IsGraded(rules, h.category, kept, h) && h.category in Categories(rules, kept)
  {
    assert IsHypothesis(rules, h.category, kept, h);
    assert h.category in CategoriesOf(hyps);
  }

  lemma HasCategory(rules: Rules, kept: seq<Signal>, hyps: seq<Hypothesis>, cat: string) returns (i: nat)
    requires IsRanking(rules, kept, hyps) && cat in Categories(rules, kept)
    ensures i < |hyps| && hyps[i].category == cat
  {
    assert cat in CategoriesOf(hyps);
    var h :| h in hyps && h.category == cat;
    i :| 0 <= i < |hyps| && hyps[i] == h;
  }

  lemma LineIsThere(rules: Rules, xs: seq<Signal>, ys: seq<Signal>, hx: seq<Hypothesis>, hy: seq<Hypothesis>, i: nat)
    returns (j: nat)
    requires Views(xs) == Views(ys) && IsRanking(rules, xs, hx) && IsRanking(rules, ys, hy)
    requires i < |hx|
    ensures j < |hy| && LineOf(hy[j]) == LineOf(hx[i])
  {
    CategoriesCarryOver(rules, xs, ys);
    Graded(rules, xs, hx, hx[i]);
    j := HasCategory(rules, ys, hy, hx[i].category);
    Graded(rules, ys, hy, hy[j]);
    SameLine(rules, hx[i].category, xs, ys, hx[i], hy[j]);
  }

  /** Rank order, on lines. */
  predicate LineBefore(rules: Rules, a: Line, b: Line) {
    RanksBefore(rules, Hypothesis(a.category, a.confidence, [], [], [], a.replicas),
                Hypothesis(b.category, b.confidence, [], [], [], b.replicas))
  }

  function ByLine(rules: Rules): (Line, Line) -> bool {
    (a, b) => LineBefore(rules, a, b)
  }

  lemma LinesAreSorted(rules: Rules, hyps: seq<Hypothesis>)
    requires StrictlySorted(hyps, ByRank(rules))
    ensures StrictlySorted(Lines(hyps), ByLine(rules)) && WeakOrder(ByLine(rules))
  {
    var less := ByLine(rules);
    StringOrder();
    forall x, y, z | less(x, y) && less(y, z) ensures less(x, z) {}
    forall x, y, z | !less(x, y) && !less(y, z) ensures !less(x, z) {}
    forall i, j | 0 <= i < j < |hyps| ensures less(Lines(hyps)[i], Lines(hyps)[j]) {
      assert ByRank(rules)(hyps[i], hyps[j]);
    }
  }

  lemma SameViewsSameLines(rules: Rules, xs: seq<Signal>, ys: seq<Signal>, hx: seq<Hypothesis>, hy: seq<Hypothesis>)
    requires Views(xs) == Views(ys) && IsRanking(rules, xs, hx) && IsRanking(rules, ys, hy)
    ensures Lines(hx) == Lines(hy)
  {
    LinesAreSorted(rules, hx);
    LinesAreSorted(rules, hy);
    forall l ensures l in Lines(hx) <==> l in Lines(hy) {
      if l in Lines(hx) {
        var i :| 0 <= i < |hx| && Lines(hx)[i] == l;
        var j := LineIsThere(rules, xs, ys, hx, hy, i);
        assert Lines(hy)[j] == l;
      }
      if l in Lines(hy) {
        var i :| 0 <= i < |hy| && Lines(hy)[i] == l;
        var j := LineIsThere(rules, ys, xs, hy, hx, i);
        assert Lines(hx)[j] == l;
      }
    }
    SortedListIsUnique(Lines(hx), Lines(hy), ByLine(rules));
  }

  /** One input has one ranking: where only the order of the map can vary, nothing
      in the answer varies. */
  lemma MapOrderDoesNotMatter(rules: Rules, kept: seq<Signal>, hx: seq<Hypothesis>, hy: seq<Hypothesis>)
    requires IsRanking(rules, kept, hx) && IsRanking(rules, kept, hy)
    ensures hx == hy
  {
    SameViewsSameLines(rules, kept, kept, hx, hy);
    assert |Lines(hx)| == |Lines(hy)|;
    forall i | 0 <= i < |hx| ensures hx[i] == hy[i] {
      assert Lines(hx)[i] == Lines(hy)[i];
      OneHypothesis(rules, kept, hx[i], hy[i]) by {
        assert IsHypothesis(rules, hx[i].category, kept, hx[i]);
        assert IsHypothesis(rules, hy[i].category, kept, hy[i]);
      }
    }
  }

  lemma OneHypothesis(rules: Rules, kept: seq<Signal>, g: Hypothesis, h: Hypothesis)
    requires LineOf(g) == LineOf(h)
    requires IsHypothesis(rules, g.category, kept, g) && IsHypothesis(rules, h.category, kept, h)
    ensures g == h
  {
    StringOrder();
    forall id ensures id in g.contradicting <==> id in h.contradicting {
      assert id in Elements(g.contradicting) <==> id in Elements(h.contradicting);
    }
    SortedListIsUnique(g.contradicting, h.contradicting, StrLess);
    SameRefs(g.affected, h.affected, Refs(Bucket(rules, g.category, kept)));
  }

  function RefStrings(refs: seq<Ref>): seq<string> {
    seq(|refs|, i requires 0 <= i < |refs| => RefString(refs[i]))
  }

  /** Sorted lists of the first references to the same strings are the same. */
  lemma SameRefs(xs: seq<Ref>, ys: seq<Ref>, refs: seq<Ref>)
    requires UniqueAndSorted(xs) && UniqueAndSorted(ys) && Strings(xs) == Strings(ys)
    requires FirstOnes(xs, refs) && FirstOnes(ys, refs)
    ensures xs == ys
  {
    RefStringsMeans(xs);
    RefStringsMeans(ys);
    StringOrder();
    SortedListIsUnique(RefStrings(xs), RefStrings(ys), StrLess);
    assert |RefStrings(xs)| == |RefStrings(ys)|;
    forall i | 0 <= i < |xs| ensures xs[i] == ys[i] {
      assert RefStrings(xs)[i] == RefStrings(ys)[i];
      assert xs[i] in xs && ys[i] in ys;
    }
  }

  lemma RefStringsMeans(refs: seq<Ref>)
    requires UniqueAndSorted(refs)
    ensures StrictlySorted(RefStrings(refs), StrLess)
    ensures forall k :: k in RefStrings(refs) <==> k in Strings(refs)
  {
    forall k | k in Strings(refs) ensures k in RefStrings(refs) {
      var r :| r in refs && RefString(r) == k;
      var i :| 0 <= i < |refs| && refs[i] == r;
      assert RefStrings(refs)[i] == k;
    }
    forall k | k in RefStrings(refs) ensures k in Strings(refs) {
      var i :| 0 <= i < |refs| && RefStrings(refs)[i] == k;
      assert refs[i] in refs;
    }
  }

  /** The ranking does not depend on the order of the signals, nor on the order
      in which the buckets come out of the map: any two answers for the same
      signals in any two orders show the same list of categories, confidences and
      affected counts, provided events that are merged agree. */
  lemma RankingIgnoresOrder(rules: Rules, xs: seq<Signal>, ys: seq<Signal>, hx: seq<Hypothesis>, hy: seq<Hypothesis>)
    requires multiset(xs) == multiset(ys) && EventsAgree(xs)
    requires IsRanking(rules, Dedup(xs), hx) && IsRanking(rules, Dedup(ys), hy)
    ensures Lines(hx) == Lines(hy)
  {
    SameMembers(xs, ys);
    DedupKeepsViews(xs);
    DedupKeepsViews(ys);
    assert Views(xs) == Views(ys);
    SameViewsSameLines(rules, Dedup(xs), Dedup(ys), hx, hy);
  }

  /** Why they must agree: of two events with one key the first decides, so when
      they fall in different categories the order of the two decides the answer. */
  lemma FirstEventDecides(rules: Rules, a: Signal, b: Signal, hab: seq<Hypothesis>, hba: seq<Hypothesis>)
    requires a.source == Event && b.source == Event && KeyOf(a) == KeyOf(b)
    requires Classify(rules, a).Some? && Classify(rules, b).Some?
    requires IsRanking(rules, Dedup([a, b]), hab) && IsRanking(rules, Dedup([b, a]), hba)
    ensures |hab| == |hba| == 1
    ensures hab[0].category == Classify(rules, a).value && hba[0].category == Classify(rules, b).value
  {
    OneEventLeft(rules, a, b, hab);
    OneEventLeft(rules, b, a, hba);
  }

  lemma OneEventLeft(rules: Rules, a: Signal, b: Signal, hyps: seq<Hypothesis>)
    requires a.source == Event && b.source == Event && KeyOf(a) == KeyOf(b) && Classify(rules, a).Some?
    requires IsRanking(rules, Dedup([a, b]), hyps)
    ensures |hyps| == 1 && hyps[0].category == Classify(rules, a).value
  {
    var c, kept := Classify(rules, a).value, Dedup([a, b]);
    DedupOfTwo(rules, a, b);
    var k := HasCategory(rules, kept, hyps, c);
    forall h | h in hyps ensures h.category in {c} {
      Graded(rules, kept, hyps, h);
    }
    CategoryListAt(hyps);
    OneOnly(CategoryList(hyps), c);
  }

  lemma OneOnly(cats: seq<string>, c: string)
    requires |cats| > 0 && forall i, j :: 0 <= i < j < |cats| ==> cats[i] != cats[j]
    requires forall i :: 0 <= i < |cats| ==> cats[i] == c
    ensures |cats| == 1
  {
    AtMostOnce(cats, c);
    if |cats| > 1 {
      NoTwice(cats, 0, 1);
    }
  }

  lemma DedupOfTwo(rules: Rules, a: Signal, b: Signal)
    requires a.source == Event && b.source == Event && KeyOf(a) == KeyOf(b) && Classify(rules, a).Some?
    ensures Categories(rules, Dedup([a, b])) == {Classify(rules, a).value}
  {
    var first := if a.count == 0 then a.(count := 1) else a;
    assert [a, b][..1] == [a] && [a][..0] == [];
    assert Dedup([a]) == Merge([], a) == [first];
    assert Kept([first], KeyOf(b)) == Some(0);
    var kept := Dedup([a, b]);
    assert kept == Merge([first], b) && |kept| == 1 && Classify(rules, kept[0]) == Classify(rules, a);
    assert kept[0] in kept;
    assert forall s :: s in kept ==> s == kept[0];
  }

  // ----- The evidence is partitioned -----

  /** All supporting IDs, with multiplicity. */
  function Support(hyps: seq<Hypothesis>): multiset<string> {
    if hyps == [] then multiset{} else multiset(hyps[0].supporting) + Support(hyps[1..])
  }

  function Evidence(rules: Rules, kept: seq<Signal>): multiset<string> {
    if kept == [] then multiset{}
    else
      var s := kept[|kept| - 1];
      Evidence(rules, kept[..|kept| - 1]) + if Classify(rules, s).Some? then multiset{s.id} else multiset{}
  }

  function BucketIds(rules: Rules, cats: seq<string>, kept: seq<Signal>): multiset<string> {
    if cats == [] then multiset{}
    else multiset(Ids(Bucket(rules, cats[0], kept))) + BucketIds(rules, cats[1..], kept)
  }

  lemma IdsAppend(xs: seq<Signal>, s: Signal)
    ensures Ids(xs + [s]) == Ids(xs) + [s.id]
  {
  }

  lemma OneBucketStep(rules: Rules, c: string, kept: seq<Signal>, s: Signal)
    ensures multiset(Ids(Bucket(rules, c, kept + [s]))) ==
            multiset(Ids(Bucket(rules, c, kept))) + if Classify(rules, s) == Some(c) then multiset{s.id} else multiset{}
  {
    BucketStep(rules, kept, s);
    IdsAppend(Bucket(rules, c, kept), s);
  }

  /** What one more signal adds to the buckets of these categories. */
  function Added(rules: Rules, cats: seq<string>, s: Signal): multiset<string> {
    if Classify(rules, s).Some? && Classify(rules, s).value in cats then multiset{s.id} else multiset{}
  }

  lemma AddedToOne(rules: Rules, cats: seq<string>, s: Signal)
    requires cats != [] && cats[0] !in cats[1..]
    ensures Added(rules, cats, s) ==
            (if Classify(rules, s) == Some(cats[0]) then multiset{s.id} else multiset{}) + Added(rules, cats[1..], s)
  {
    assert forall c :: c in cats <==> c == cats[0] || c in cats[1..];
  }

  lemma Regroup<T>(a: multiset<T>, x: multiset<T>, b: multiset<T>, y: multiset<T>)
    ensures (a + x) + (b + y) == (a + b) + (x + y)
  {
  }

  lemma {:induction false} BucketIdsStep(rules: Rules, cats: seq<string>, kept: seq<Signal>, s: Signal)
    requires forall i, j :: 0 <= i < j < |cats| ==> cats[i] != cats[j]
    ensures BucketIds(rules, cats, kept + [s]) == BucketIds(rules, cats, kept) + Added(rules, cats, s)
    decreases |cats|
  {
    if cats != [] {
      var c, rest := cats[0], cats[1..];
      BucketIdsStep(rules, rest, kept, s);
      OneBucketStep(rules, c, kept, s);
      AddedToOne(rules, cats, s);
      Regroup(multiset(Ids(Bucket(rules, c, kept))),
              if Classify(rules, s) == Some(c) then multiset{s.id} else multiset{},
              BucketIds(rules, rest, kept), Added(rules, rest, s));
    }
  }

  lemma {:induction false} BucketIdsAreEvidence(rules: Rules, cats: seq<string>, kept: seq<Signal>)
    requires forall i, j :: 0 <= i < j < |cats| ==> cats[i] != cats[j]
    requires forall s :: s in kept && Classify(rules, s).Some? ==> Classify(rules, s).value in cats
    ensures BucketIds(rules, cats, kept) == Evidence(rules, kept)
    decreases |kept|
  {
    if kept == [] {
      NoBucketIds(rules, cats);
    } else {
      var front, s := kept[..|kept| - 1], kept[|kept| - 1];
      assert kept == front + [s];
      assert s in kept;
      BucketIdsAreEvidence(rules, cats, front);
      BucketIdsStep(rules, cats, front, s);
    }
  }

  lemma {:induction false} NoBucketIds(rules: Rules, cats: seq<string>)
    ensures BucketIds(rules, cats, []) == multiset{}
  {
    if cats != [] {
      NoBucketIds(rules, cats[1..]);
      assert Ids(Bucket(rules, cats[0], [])) == [];
    }
  }

  function CategoryList(hyps: seq<Hypothesis>): seq<string> {
    if hyps == [] then [] else [hyps[0].category] + CategoryList(hyps[1..])
  }

  lemma {:induction false} CategoryListAt(hyps: seq<Hypothesis>)
    ensures |CategoryList(hyps)| == |hyps|
    ensures forall i :: 0 <= i < |hyps| ==> CategoryList(hyps)[i] == hyps[i].category
  {
    if hyps != [] {
      CategoryListAt(hyps[1..]);
    }
  }

  lemma {:induction false} SupportIsBucketIds(rules: Rules, kept: seq<Signal>, hyps: seq<Hypothesis>)
    requires forall h :: h in hyps ==> h.supporting == Ids(Bucket(rules, h.category, kept))
    ensures Support(hyps) == BucketIds(rules, CategoryList(hyps), kept)
  {
    if hyps != [] {
      assert hyps[0] in hyps;
      SupportIsBucketIds(rules, kept, hyps[1..]);
    }
  }

  /** Every kept signal that is not dropped supports exactly one hypothesis, and
      nothing else does; no hypothesis is without support; and each cites against
      itself only signals that are there. */
  lemma EvidenceIsPartitioned(rules: Rules, kept: seq<Signal>, hyps: seq<Hypothesis>)
    requires IsRanking(rules, kept, hyps)
    ensures Support(hyps) == Evidence(rules, kept)
    ensures forall h :: h in hyps ==> |h.supporting| > 0
    ensures forall h, id :: h in hyps && (id in h.supporting || id in h.contradicting) ==>
              exists s :: s in kept && s.id == id
  {
    SupportIsEvidence(rules, kept, hyps);
    forall h | h in hyps ensures |h.supporting| > 0 {
      assert IsHypothesis(rules, h.category, kept, h);
      Graded(rules, kept, hyps, h);
      var s :| s in kept && Classify(rules, s) == Some(h.category);
      InBucket(rules, h.category, kept, s);
    }
    forall h, id | h in hyps && (id in h.supporting || id in h.contradicting)
      ensures exists s :: s in kept && s.id == id
    {
      assert IsHypothesis(rules, h.category, kept, h);
      CitedIsKept(rules, kept, h, id);
    }
  }

  lemma SupportIsEvidence(rules: Rules, kept: seq<Signal>, hyps: seq<Hypothesis>)
    requires IsRanking(rules, kept, hyps)
    ensures Support(hyps) == Evidence(rules, kept)
  {
    CategoryListAt(hyps);
    forall h | h in hyps ensures h.supporting == Ids(Bucket(rules, h.category, kept)) {
      assert IsHypothesis(rules, h.category, kept, h);
    }
    SupportIsBucketIds(rules, kept, hyps);
    var cats := CategoryList(hyps);
    forall s | s in kept && Classify(rules, s).Some? ensures Classify(rules, s).value in cats {
      var i := HasCategory(rules, kept, hyps, Classify(rules, s).value);
      assert cats[i] == Classify(rules, s).value;
    }
    BucketIdsAreEvidence(rules, cats, kept);
  }

  lemma CitedIsKept(rules: Rules, kept: seq<Signal>, h: Hypothesis, id: string)
    requires IsHypothesis(rules, h.category, kept, h)
    requires id in h.supporting || id in h.contradicting
    ensures exists s :: s in kept && s.id == id
  {
    var ss := Bucket(rules, h.category, kept);
    if id in h.supporting {
      var i :| 0 <= i < |ss| && ss[i].id == id;
      InBucket(rules, h.category, kept, ss[i]);
    } else {
      assert id in Elements(h.contradicting);
      assert id in AgainstIds(rules, h.category, kept);
    }
  }

  // ----- Confidence -----

  /** Exactly when a hypothesis is confirmed, and that logs alone earn the lowest
      confidence, in terms of the kept signals. */
  lemma ConfidenceIsEarned(rules: Rules, kept: seq<Signal>, h: Hypothesis)
    requires IsHypothesis(rules, h.category, kept, h)
    ensures h.confidence == Confirmed <==>
              && (exists s :: s in kept && Classify(rules, s) == Some(h.category) && Settles(rules, h.category, s))
              && h.contradicting == []
    ensures (forall s :: s in kept && Classify(rules, s) == Some(h.category) ==> s.source == Log) <==>
            h.confidence == Low
  {
    var cat := h.category;
    forall s ensures s in Bucket(rules, cat, kept) <==> s in kept && Classify(rules, s) == Some(cat) {
      InBucket(rules, cat, kept, s);
    }
    AgainstIffContradicted(rules, cat, kept, h.contradicting);
    if Settled(rules, cat, Bucket(rules, cat, kept)) {
      var s :| s in Bucket(rules, cat, kept) && Settles(rules, cat, s);
      assert s in kept;
    }
  }

  /** Some kept signal of the category comes from one of these sources. */
  predicate HasSource(rules: Rules, kept: seq<Signal>, cat: string, sources: set<Source>) {
    exists s :: s in kept && Classify(rules, s) == Some(cat) && s.source in sources
  }

  /** A status or condition of the category that its table calls authoritative. */
  predicate HasVerdict(rules: Rules, kept: seq<Signal>, cat: string) {
    exists s :: s in kept && Classify(rules, s) == Some(cat) && s.source in {Status, Condition}
                && rules.authoritative(cat, s.source, s.reason, s.message)
  }

  /** Any kept signal with an ID that speaks against the category. */
  predicate HasObjection(rules: Rules, kept: seq<Signal>, cat: string) {
    exists s :: s in kept && s.id != "" && rules.contradicts(cat, s.source, s.reason, s.message, s.severity)
  }

  /** All four confidences, exactly, in terms of the kept signals. */
  lemma ConfidenceExactly(rules: Rules, kept: seq<Signal>, h: Hypothesis)
    requires IsHypothesis(rules, h.category, kept, h)
    ensures var cat := h.category;
            var verdict, objection := HasVerdict(rules, kept, cat), HasObjection(rules, kept, cat);
            var both := HasSource(rules, kept, cat, {Status, Condition}) && HasSource(rules, kept, cat, {Event});
            var logs := forall s :: s in kept && Classify(rules, s) == Some(cat) ==> s.source == Log;
            && (h.confidence == Confirmed <==> verdict && !objection)
            && (h.confidence == High <==> (verdict && objection) || (!verdict && both && !objection))
            && (h.confidence == Medium <==> !verdict && !logs && (both ==> objection))
            && (h.confidence == Low <==> logs)
  {
    var cat, ss := h.category, Bucket(rules, h.category, kept);
    InWholeBucket(rules, cat, kept);
    VerdictSettles(rules, cat, kept);
    SourcesCorroborate(rules, cat, kept);
    ObjectionContradicts(rules, cat, kept);
    assert OnlyLogs(ss) <==> forall s :: s in kept && Classify(rules, s) == Some(cat) ==> s.source == Log;
  }

  lemma InWholeBucket(rules: Rules, cat: string, kept: seq<Signal>)
    ensures forall s :: s in Bucket(rules, cat, kept) <==> s in kept && Classify(rules, s) == Some(cat)
  {
    forall s ensures s in Bucket(rules, cat, kept) <==> s in kept && Classify(rules, s) == Some(cat) {
      InBucket(rules, cat, kept, s);
    }
  }

  lemma VerdictSettles(rules: Rules, cat: string, kept: seq<Signal>)
    ensures Settled(rules, cat, Bucket(rules, cat, kept)) <==> HasVerdict(rules, kept, cat)
  {
    InWholeBucket(rules, cat, kept);
    if HasVerdict(rules, kept, cat) {
      var s :| s in kept && Classify(rules, s) == Some(cat) && s.source in {Status, Condition}
               && rules.authoritative(cat, s.source, s.reason, s.message);
      assert s in Bucket(rules, cat, kept) && Settles(rules, cat, s);
    }
  }

  lemma SourcesCorroborate(rules: Rules, cat: string, kept: seq<Signal>)
    ensures Corroborated(Bucket(rules, cat, kept)) <==>
            HasSource(rules, kept, cat, {Status, Condition}) && HasSource(rules, kept, cat, {Event})
  {
    InWholeBucket(rules, cat, kept);
    if HasSource(rules, kept, cat, {Status, Condition}) && HasSource(rules, kept, cat, {Event}) {
      var s :| s in kept && Classify(rules, s) == Some(cat) && s.source in {Status, Condition};
      var t :| t in kept && Classify(rules, t) == Some(cat) && t.source in {Event};
      assert s in Bucket(rules, cat, kept) && FromStatus(s) && t in Bucket(rules, cat, kept);
    }
  }

  lemma ObjectionContradicts(rules: Rules, cat: string, kept: seq<Signal>)
    ensures Contradicted(rules, cat, kept) <==> HasObjection(rules, kept, cat)
  {
    if HasObjection(rules, kept, cat) {
      var s :| s in kept && s.id != "" && rules.contradicts(cat, s.source, s.reason, s.message, s.severity);
      assert SpeaksAgainst(rules, cat, s);
    }
  }

  // ----- Rank -----

  /** Confirmed before high before medium before low. */
  predicate Surer(c: Confidence, d: Confidence) {
    match c
    case Confirmed => d != Confirmed
    case High => d == Medium || d == Low
    case Medium => d == Low
    case Low => false
  }

  lemma ScoreIsSureness(c: Confidence, d: Confidence)
    ensures Score(c) > Score(d) <==> Surer(c, d)
    ensures Score(c) == Score(d) <==> c == d
  {
  }

  /** What comes first in an answer: the surer hypothesis; of equally sure ones the
      one with more affected resources and category bonus together; and of those the
      one whose category is smaller, letter by letter. */
  lemma RankedExactly(rules: Rules, kept: seq<Signal>, hyps: seq<Hypothesis>, i: nat, j: nat)
    requires IsRanking(rules, kept, hyps) && i < |hyps| && j < |hyps|
    ensures var g, h := hyps[i], hyps[j];
            var weight, other := g.replicas + rules.bonus(g.category), h.replicas + rules.bonus(h.category);
            i < j <==> || Surer(g.confidence, h.confidence)
                       || (g.confidence == h.confidence
                           && (weight > other
                               || (weight == other && exists n: nat :: SmallerAt(g.category, h.category, n))))
  {
    var g, h := hyps[i], hyps[j];
    ScoreIsSureness(g.confidence, h.confidence);
    StrLessExactly(g.category, h.category);
    RankIsAnOrder(rules);
    if i < j {
      assert ByRank(rules)(g, h);
    } else if j < i {
      assert ByRank(rules)(h, g) && !ByRank(rules)(g, h);
    } else {
      StrLessIrreflexive(g.category);
    }
  }

  /** More evidence, with no new contradiction, never lowers a confidence. */
  lemma MoreSupportNeverLowers(rules: Rules, cat: string, before: seq<Signal>, after: seq<Signal>,
                               g: Hypothesis, h: Hypothesis)
    requires Views(before) <= Views(after)
    requires Contradicted(rules, cat, after) ==> Contradicted(rules, cat, before)
    requires IsGraded(rules, cat, before, g) && IsGraded(rules, cat, after, h)
    ensures Score(g.confidence) <= Score(h.confidence)
  {
    BucketFactsCarryOver(rules, cat, before, after);
  }

  // ----- Demotion for prefix matches -----

  function Demoted(h: Hypothesis): Hypothesis {
    if h.confidence == Confirmed then h.(confidence := High) else h
  }

  function DemotedCause(rootCause: Option<Hypothesis>): Option<Hypothesis> {
    if rootCause.Some? then Some(Demoted(rootCause.value)) else None
  }

  /** Confirmed becomes high, in place in the list and in the root cause, which is a
      copy of its own; so a root cause that was the first of the list still is. */
  method DemoteConfirmed(rootCause: Option<Hypothesis>, hyps: array<Hypothesis>)
    returns (rootCause': Option<Hypothesis>)
    modifies hyps
    ensures rootCause' == DemotedCause(rootCause)
    ensures forall i :: 0 <= i < hyps.Length ==> hyps[i] == Demoted(old(hyps[i]))
    ensures hyps.Length > 0 && rootCause == Some(old(hyps[0])) ==> rootCause' == Some(hyps[0])
  {
    rootCause' := rootCause;
    if rootCause.Some? && rootCause.value.confidence == Confirmed {
      rootCause' := Some(rootCause.value.(confidence := High));
    }
    for i := 0 to hyps.Length
      invariant forall j :: 0 <= j < i ==> hyps[j] == Demoted(old(hyps[j]))
      invariant forall j :: i <= j < hyps.Length ==> hyps[j] == old(hyps[j])
    {
      if hyps[i].confidence == Confirmed {
        hyps[i] := hyps[i].(confidence := High);
      }
    }
  }

  /** Demotion leaves nothing confirmed and the list still non-increasing in
      confidence. */
  lemma DemotionKeepsConfidenceOrder(rules: Rules, hyps: seq<Hypothesis>)
    requires StrictlySorted(hyps, ByRank(rules))
    ensures forall i :: 0 <= i < |hyps| ==> Demoted(hyps[i]).confidence != Confirmed
    ensures forall i, j :: 0 <= i < j < |hyps| ==>
              Score(Demoted(hyps[i]).confidence) >= Score(Demoted(hyps[j]).confidence)
  {
    forall i, j | 0 <= i < j < |hyps|
      ensures Score(Demoted(hyps[i]).confidence) >= Score(Demoted(hyps[j]).confidence)
    {
      assert ByRank(rules)(hyps[i], hyps[j]);
    }
  }

  /** It keeps the full rank order of a pair in order exactly when the pair was
      not a confirmed one before a high one that outranks it without the
      confidence: the list is not sorted again. */
  lemma DemotionKeepsRankExactly(rules: Rules, g: Hypothesis, h: Hypothesis)
    requires RanksBefore(rules, g, h) && g.category != h.category
    ensures RanksBefore(rules, Demoted(g), Demoted(h)) <==>
            !(g.confidence == Confirmed && h.confidence == High &&
              (g.replicas + rules.bonus(g.category) < h.replicas + rules.bonus(h.category) ||
               (g.replicas + rules.bonus(g.category) == h.replicas + rules.bonus(h.category)
                && StrLess(h.category, g.category))))
  {
    StringOrder();
  }
}
