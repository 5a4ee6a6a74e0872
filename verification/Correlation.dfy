/** Correlation and ranking: the pipeline of internal/correlation/engine.go.

    The string tables are given by a Rules value: which category a signal falls
    in (None for the categories the pipeline drops), which signals settle a
    category, which speak against it, the ranking bonus of a category and what is
    advised for it. Each is
    a function of exactly the fields the program reads. */
module Correlation {
  import opened Wrappers
  import opened Ordering
  import opened Signals

  datatype Rules = Rules(
    classify: (Source, string, string, string, Severity) -> Option<string>, // category, reason, message
    authoritative: (string, Source, string, string) -> bool,                // reason, message
    contradicts: (string, Source, string, string, Severity) -> bool,        // reason, message
    bonus: string -> int,
    advice: string -> seq<Advice>)

  datatype Advice = Advice(priority: int, action: string, tool: string, command: string, restart: bool)

  datatype Hypothesis = Hypothesis(
    category: string, confidence: Confidence, affected: seq<Ref>, supporting: seq<string>,
    contradicting: seq<string>, replicas: int)

  function Classify(rules: Rules, s: Signal): Option<string> {
    rules.classify(s.source, s.category, s.reason, s.message, s.severity)
  }

  // ----- Merging repeated events -----

  datatype EventKey = EventKey(reason: string, message: string, resource: string)

  function KeyOf(s: Signal): EventKey {
    EventKey(s.reason, s.message, RefString(s.resource))
  }

  /** Where the event with this key is kept, if it is. */
  function Kept(kept: seq<Signal>, k: EventKey): Option<nat>
    ensures Kept(kept, k).Some? ==>
              var i := Kept(kept, k).value;
              i < |kept| && kept[i].source == Event && KeyOf(kept[i]) == k
    ensures Kept(kept, k).None? ==> forall i :: 0 <= i < |kept| && kept[i].source == Event ==> KeyOf(kept[i]) != k
  {
    if kept == [] then None
    else if kept[|kept| - 1].source == Event && KeyOf(kept[|kept| - 1]) == k then Some(|kept| - 1)
    else Kept(kept[..|kept| - 1], k)
  }

  function Merge(kept: seq<Signal>, s: Signal): seq<Signal> {
    if s.source != Event then kept + [s]
    else match Kept(kept, KeyOf(s))
      case Some(i) => kept[i := kept[i].(count := kept[i].count + Max(s.count, 1))]
      case None => kept + [if s.count == 0 then s.(count := 1) else s]
  }

  function Dedup(xs: seq<Signal>): seq<Signal> {
    if xs == [] then [] else Merge(Dedup(xs[..|xs| - 1]), xs[|xs| - 1])
  }

  lemma {:induction false} KeptAfterCount(kept: seq<Signal>, i: nat, n: int, k: EventKey)
    requires i < |kept|
    ensures Kept(kept[i := kept[i].(count := n)], k) == Kept(kept, k)
  {
    var front, s, last := kept[..|kept| - 1], kept[|kept| - 1], |kept| - 1;
    assert kept == front + [s];
    if i == last {
      assert kept[i := s.(count := n)] == front + [s.(count := n)];
      KeptAfterAppend(front, s.(count := n), k);
    } else {
      assert kept[i := kept[i].(count := n)] == front[i := front[i].(count := n)] + [s];
      KeptAfterCount(front, i, n, k);
      KeptAfterAppend(front[i := front[i].(count := n)], s, k);
    }
    KeptAfterAppend(front, s, k);
  }

  lemma KeptAfterAppend(kept: seq<Signal>, s: Signal, k: EventKey)
    ensures Kept(kept + [s], k) == if s.source == Event && KeyOf(s) == k then Some(|kept|) else Kept(kept, k)
  {
    assert (kept + [s])[..|kept|] == kept;
  }

  type Index = map<EventKey, nat>

  /** The index finds exactly the kept events. */
  ghost predicate Finds(index: Index, kept: seq<Signal>) {
    forall k {:trigger Kept(kept, k)} :: Kept(kept, k) == if k in index then Some(index[k]) else None
  }

  lemma FindsAfterAppend(index: Index, kept: seq<Signal>, s: Signal)
    requires Finds(index, kept)
    ensures s.source != Event ==> Finds(index, kept + [s])
    ensures s.source == Event ==> Finds(index[KeyOf(s) := |kept|], kept + [s])
  {
    forall k ensures Kept(kept + [s], k) == if s.source == Event && KeyOf(s) == k then Some(|kept|)
                                            else if k in index then Some(index[k]) else None {
      KeptAfterAppend(kept, s, k);
    }
  }

  lemma FindsAfterCount(index: Index, kept: seq<Signal>, i: nat, n: int)
    requires Finds(index, kept) && i < |kept|
    ensures Finds(index, kept[i := kept[i].(count := n)])
  {
    forall k ensures Kept(kept[i := kept[i].(count := n)], k) == if k in index then Some(index[k]) else None {
      KeptAfterCount(kept, i, n, k);
    }
  }

  lemma DedupStep(xs: seq<Signal>, n: nat)
    requires n < |xs|
    ensures Dedup(xs[..n + 1]) == Merge(Dedup(xs[..n]), xs[n])
  {
    assert xs[..n + 1][..n] == xs[..n];
  }

  method DedupEvents(xs: seq<Signal>) returns (order: seq<Signal>)
    ensures order == Dedup(xs)
  {
    order := [];
    var index: Index := map[];
    for n := 0 to |xs|
      invariant order == Dedup(xs[..n])
      invariant Finds(index, order)
    {
      DedupStep(xs, n);
      order, index := MergeOne(order, index, xs[n]);
    }
    assert xs[..|xs|] == xs;
  }

  /** The body of the loop. */
  method MergeOne(order: seq<Signal>, index: Index, s: Signal) returns (order': seq<Signal>, index': Index)
    requires Finds(index, order)
    ensures order' == Merge(order, s) && Finds(index', order')
  {
    order', index' := order, index;
    if s.source != Event {
      FindsAfterAppend(index, order, s);
      order' := order + [s];
      return;
    }
    var k := KeyOf(s);
    assert Kept(order, k) == if k in index then Some(index[k]) else None;
    if k in index {
      var i := index[k];
      FindsAfterCount(index, order, i, order[i].count + Max(s.count, 1));
      order' := order[i := order[i].(count := order[i].count + Max(s.count, 1))];
      return;
    }
    var s' := if s.count == 0 then s.(count := 1) else s;
    FindsAfterAppend(index, order, s');
    index' := index[k := |order|];
    order' := order + [s'];
  }

  // ----- One hypothesis per category -----

  function Bucket(rules: Rules, cat: string, xs: seq<Signal>): seq<Signal> {
    if xs == [] then []
    else
      var rest := Bucket(rules, cat, xs[..|xs| - 1]);
      if Classify(rules, xs[|xs| - 1]) == Some(cat) then rest + [xs[|xs| - 1]] else rest
  }

  function Ids(xs: seq<Signal>): seq<string> {
    seq(|xs|, i requires 0 <= i < |xs| => xs[i].id)
  }

  predicate FromStatus(s: Signal) {
    s.source == Status || s.source == Condition
  }

  predicate Settles(rules: Rules, cat: string, s: Signal) {
    FromStatus(s) && rules.authoritative(cat, s.source, s.reason, s.message)
  }

  /** The signal speaks against the category and can be cited. */
  predicate SpeaksAgainst(rules: Rules, cat: string, s: Signal) {
    rules.contradicts(cat, s.source, s.reason, s.message, s.severity) && s.id != ""
  }

  predicate Settled(rules: Rules, cat: string, ss: seq<Signal>) {
    exists s :: s in ss && Settles(rules, cat, s)
  }

  predicate Corroborated(ss: seq<Signal>) {
    (exists s :: s in ss && FromStatus(s)) && (exists s :: s in ss && s.source == Event)
  }

  predicate OnlyLogs(ss: seq<Signal>) {
    forall s :: s in ss ==> s.source == Log
  }

  predicate Contradicted(rules: Rules, cat: string, all: seq<Signal>) {
    exists s :: s in all && SpeaksAgainst(rules, cat, s)
  }

  /** The confidence a category earns, read off its own evidence and whether
      anything speaks against it. */
  function ConfidenceOf(rules: Rules, cat: string, ss: seq<Signal>, all: seq<Signal>): Confidence {
    if Settled(rules, cat, ss) then
      if Contradicted(rules, cat, all) then High else Confirmed
    else if Corroborated(ss) then
      if Contradicted(rules, cat, all) then Medium else High
    else if OnlyLogs(ss) then Low
    else Medium
  }

  function RefKeys(ss: seq<Signal>): set<string> {
    set s | s in ss :: RefString(s.resource)
  }

  /** The citable IDs of the signals that speak against the category. */
  function AgainstIds(rules: Rules, cat: string, all: seq<Signal>): set<string> {
    set s | s in all && SpeaksAgainst(rules, cat, s) :: s.id
  }

  /** The category and what it earned: confidence and affected resources. */
  ghost predicate IsGraded(rules: Rules, cat: string, all: seq<Signal>, h: Hypothesis) {
    var ss := Bucket(rules, cat, all);
    && h.category == cat
    && h.confidence == ConfidenceOf(rules, cat, ss, all)
    && h.replicas == |RefKeys(ss)|
  }

  /** What it cites: its whole bucket in order, each affected resource once, as the
      bucket first refers to it, and
      every citable signal against it once. */
  ghost predicate IsCited(rules: Rules, cat: string, all: seq<Signal>, h: Hypothesis) {
    var ss := Bucket(rules, cat, all);
    && h.supporting == Ids(ss)
    && UniqueAndSorted(h.affected) && Strings(h.affected) == RefKeys(ss) && |h.affected| == h.replicas
    && FirstOnes(h.affected, Refs(ss))
    && StrictlySorted(h.contradicting, StrLess)
    && Elements(h.contradicting) == AgainstIds(rules, cat, all)
  }

  ghost predicate IsHypothesis(rules: Rules, cat: string, all: seq<Signal>, h: Hypothesis) {
    IsGraded(rules, cat, all, h) && IsCited(rules, cat, all, h)
  }

  function Elements(xs: seq<string>): set<string> {
    set x | x in xs
  }

  function Strings(refs: seq<Ref>): set<string> {
    set r | r in refs :: RefString(r)
  }

  lemma StringsStep(refs: seq<Ref>, i: nat)
    requires i < |refs|
    ensures Strings(refs[..i + 1]) == Strings(refs[..i]) + {RefString(refs[i])}
  {
    assert refs[..i + 1] == refs[..i] + [refs[i]];
  }

  /** The first reference with this string. */
  function FirstRef(refs: seq<Ref>, k: string): Option<Ref> {
    if refs == [] then None
    else if FirstRef(refs[..|refs| - 1], k).Some? then FirstRef(refs[..|refs| - 1], k)
    else if RefString(refs[|refs| - 1]) == k then Some(refs[|refs| - 1])
    else None
  }

  lemma {:induction false} FirstRefMeans(refs: seq<Ref>, k: string)
    ensures FirstRef(refs, k).Some? <==> k in Strings(refs)
    ensures FirstRef(refs, k).Some? ==> RefString(FirstRef(refs, k).value) == k && FirstRef(refs, k).value in refs
  {
    if refs != [] {
      FirstRefMeans(refs[..|refs| - 1], k);
      StringsStep(refs, |refs| - 1);
      assert refs[..|refs| - 1 + 1] == refs;
    }
  }

  /** The i-th reference is the first one with its string. */
  predicate FirstAt(refs: seq<Ref>, k: string, i: nat) {
    i < |refs| && RefString(refs[i]) == k && forall j :: 0 <= j < i ==> RefString(refs[j]) != k
  }

  lemma {:induction false} FirstRefIsFirst(refs: seq<Ref>, k: string, i: nat)
    requires FirstAt(refs, k, i)
    ensures FirstRef(refs, k) == Some(refs[i])
  {
    var most := refs[..|refs| - 1];
    if i < |most| {
      assert RefString(most[i]) == k;
      FirstRefIsFirst(most, k, i);
    } else {
      FirstRefMeans(most, k);
      assert k !in Strings(most) by {
        forall r | r in most ensures RefString(r) != k {
          var j :| 0 <= j < |most| && most[j] == r;
          assert refs[j] == r;
        }
      }
    }
  }

  lemma FirstRefStep(refs: seq<Ref>, i: nat, k: string)
    requires i < |refs|
    ensures FirstRef(refs[..i + 1], k) ==
            if FirstRef(refs[..i], k).Some? then FirstRef(refs[..i], k)
            else if RefString(refs[i]) == k then Some(refs[i]) else None
  {
    assert refs[..i + 1][..i] == refs[..i];
  }

  ghost predicate FirstOnes(out: seq<Ref>, refs: seq<Ref>) {
    forall r :: r in out ==> FirstRef(refs, RefString(r)) == Some(r)
  }

  /** Each key leads to the first reference that has it as its string. */
  ghost predicate Indexes(idx: map<string, Ref>, refs: seq<Ref>) {
    forall k {:trigger FirstRef(refs, k)} :: FirstRef(refs, k) == if k in idx.Keys then Some(idx[k]) else None
  }

  ghost predicate Lists(keys: seq<string>, all: set<string>) {
    && |keys| == |all|
    && (forall k :: k in keys <==> k in all)
    && (forall a, b :: 0 <= a < b < |keys| ==> keys[a] != keys[b])
  }

  lemma ListsOneMore(keys: seq<string>, all: set<string>, k: string)
    requires Lists(keys, all) && k !in all
    ensures Lists(keys + [k], all + {k})
  {
  }

  lemma IndexesOneMore(idx: map<string, Ref>, refs: seq<Ref>, i: nat)
    requires i < |refs| && Indexes(idx, refs[..i])
    ensures RefString(refs[i]) in idx ==> Indexes(idx, refs[..i + 1])
    ensures RefString(refs[i]) !in idx ==> Indexes(idx[RefString(refs[i]) := refs[i]], refs[..i + 1])
  {
    forall k ensures FirstRef(refs[..i + 1], k) ==
                     if k in idx.Keys then Some(idx[k]) else if RefString(refs[i]) == k then Some(refs[i]) else None
    {
      FirstRefStep(refs, i, k);
    }
  }

  /** The different strings of the references, each with the first reference
      that has it. */
  method FirstRefs(refs: seq<Ref>) returns (keys: seq<string>, idx: map<string, Ref>)
    ensures idx.Keys == Strings(refs) && Lists(keys, idx.Keys) && Indexes(idx, refs)
  {
    keys, idx := [], map[];
    for i := 0 to |refs|
      invariant idx.Keys == Strings(refs[..i]) && Lists(keys, idx.Keys) && Indexes(idx, refs[..i])
    {
      var k := RefString(refs[i]);
      StringsStep(refs, i);
      IndexesOneMore(idx, refs, i);
      if k in idx {
        continue;
      }
      ListsOneMore(keys, idx.Keys, k);
      keys := keys + [k];
      idx := idx[k := refs[i]];
    }
    assert refs[..|refs|] == refs;
  }

  ghost predicate UniqueAndSorted(refs: seq<Ref>) {
    forall i, j :: 0 <= i < j < |refs| ==> StrLess(RefString(refs[i]), RefString(refs[j]))
  }

  /** Sorted by string, for each string the first reference that has it. */
  method UniqueRefs(refs: seq<Ref>) returns (out: seq<Ref>)
    ensures UniqueAndSorted(out) && FirstOnes(out, refs)
    ensures Strings(out) == Strings(refs) && |out| == |Strings(refs)|
  {
    var keys, idx := FirstRefs(refs);
    keys := SortedStrings(keys);
    out := LookUp(keys, idx, refs);
    AllFirst(out, keys, refs);
    StringsOf(out, keys, Strings(refs));
  }

  predicate IsFirst(r: Ref, k: string, refs: seq<Ref>) {
    FirstRef(refs, k) == Some(r)
  }

  method LookUp(keys: seq<string>, idx: map<string, Ref>, refs: seq<Ref>) returns (out: seq<Ref>)
    requires forall k :: k in keys ==> k in idx.Keys
    requires Indexes(idx, refs)
    ensures |out| == |keys| && forall j :: 0 <= j < |keys| ==> IsFirst(out[j], keys[j], refs)
  {
    out := [];
    for i := 0 to |keys|
      invariant |out| == i && forall j :: 0 <= j < i ==> IsFirst(out[j], keys[j], refs)
    {
      var k := keys[i];
      assert k in idx.Keys;
      out := out + [idx[k]];
    }
  }

  lemma AllFirst(out: seq<Ref>, keys: seq<string>, refs: seq<Ref>)
    requires |out| == |keys| && forall j :: 0 <= j < |keys| ==> IsFirst(out[j], keys[j], refs)
    ensures forall j :: 0 <= j < |keys| ==> RefString(out[j]) == keys[j]
    ensures FirstOnes(out, refs)
  {
    forall j | 0 <= j < |keys| ensures RefString(out[j]) == keys[j] {
      FirstRefMeans(refs, keys[j]);
    }
  }

  lemma StringsOf(out: seq<Ref>, keys: seq<string>, all: set<string>)
    requires |out| == |keys| && forall j :: 0 <= j < |keys| ==> RefString(out[j]) == keys[j]
    requires forall k :: k in keys <==> k in all
    ensures Strings(out) == all
  {
    forall k | k in all ensures k in Strings(out) {
      var j :| 0 <= j < |keys| && keys[j] == k;
      assert out[j] in out;
    }
    forall r | r in out ensures RefString(r) in all {
      var j :| 0 <= j < |out| && out[j] == r;
      assert keys[j] in keys;
    }
  }

  /** sort.Strings on pairwise different strings. */
  method SortedStrings(keys: seq<string>) returns (out: seq<string>)
    requires forall a, b :: 0 <= a < b < |keys| ==> keys[a] != keys[b]
    ensures StrictlySorted(out, StrLess)
    ensures |out| == |keys| && forall k :: k in out <==> k in keys
  {
    StringOrder();
    out := StableSort(keys, StrLess);
    SameMembers(out, keys);
    DistinctAfterSort(keys, out);
  }

  method UniqueStrings(xs: seq<string>) returns (out: seq<string>)
    ensures out == UniqueOf(xs)
  {
    var seen: set<string> := {};
    out := [];
    for i := 0 to |xs|
      invariant out == UniqueOf(xs[..i])
      invariant forall x :: x in seen <==> x in out
    {
      assert xs[..i + 1][..i] == xs[..i];
      if xs[i] == "" {
        continue;
      }
      if xs[i] in seen {
        continue;
      }
      seen := seen + {xs[i]};
      out := out + [xs[i]];
    }
    assert xs[..|xs|] == xs;
  }

  method Contradictions(rules: Rules, cat: string, all: seq<Signal>) returns (out: seq<string>)
    ensures StrictlySorted(out, StrLess)
    ensures Elements(out) == AgainstIds(rules, cat, all)
  {
    var found: seq<string> := [];
    for i := 0 to |all|
      invariant forall id :: id in found && id != "" ==> id in AgainstIds(rules, cat, all)
      invariant forall j :: 0 <= j < i && SpeaksAgainst(rules, cat, all[j]) ==> all[j].id in found
    {
      var s := all[i];
      if rules.contradicts(cat, s.source, s.reason, s.message, s.severity) {
        found := found + [s.id];
      }
    }
    StringOrder();
    var sorted := StableSort(found, StrLess);
    SameMembers(sorted, found);
    UniqueMeans(sorted);
    UniqueStaysSorted(sorted);
    out := UniqueStrings(sorted);
  }

  /** How many of the signals come from each source. */
  type Counters = map<Source, nat>

  ghost predicate Counts(independent: Counters, ss: seq<Signal>) {
    independent.Keys == Sources(ss) && forall src :: src in independent ==> independent[src] > 0
  }

  lemma CountsStep(independent: Counters, ss: seq<Signal>, s: Signal, n: nat)
    requires Counts(independent, ss) && n > 0
    ensures Counts(independent[s.source := n], ss + [s])
  {
    assert Sources(ss + [s]) == Sources(ss) + {s.source};
  }

  function Refs(ss: seq<Signal>): seq<Ref> {
    seq(|ss|, i requires 0 <= i < |ss| => ss[i].resource)
  }

  lemma PrefixStep<T>(xs: seq<T>, i: nat)
    requires i < |xs|
    ensures xs[..i + 1] == xs[..i] + [xs[i]]
  {
  }

  /** The loop over a bucket. */
  method Tally(rules: Rules, cat: string, ss: seq<Signal>)
    returns (ids: seq<string>, refs: seq<Ref>, independent: Counters, authStatus: bool, onlyLogs: bool)
    ensures ids == Ids(ss) && refs == Refs(ss) && Counts(independent, ss)
    ensures authStatus <==> Settled(rules, cat, ss)
    ensures onlyLogs <==> OnlyLogs(ss)
  {
    ids, refs, independent, authStatus, onlyLogs := [], [], map[], false, true;
    for i := 0 to |ss|
      invariant ids == Ids(ss[..i]) && refs == Refs(ss[..i]) && Counts(independent, ss[..i])
      invariant onlyLogs <==> OnlyLogs(ss[..i])
      invariant authStatus <==> Settled(rules, cat, ss[..i])
    {
      var s := ss[i];
      PrefixStep(ss, i);
      OneMoreSignal(rules, cat, ss[..i], s);
      ids := ids + [s.id];
      var n: nat := if s.source in independent then independent[s.source] else 0;
      CountsStep(independent, ss[..i], s, n + 1);
      independent := independent[s.source := n + 1];
      refs := refs + [s.resource];
      if s.source != Log {
        onlyLogs := false;
      }
      if (s.source == Status || s.source == Condition) && rules.authoritative(cat, s.source, s.reason, s.message) {
        authStatus := true;
      }
    }
    assert ss[..|ss|] == ss;
  }

  function Sources(ss: seq<Signal>): set<Source> {
    set s | s in ss :: s.source
  }

  lemma OneMoreSignal(rules: Rules, cat: string, ss: seq<Signal>, s: Signal)
    ensures Ids(ss + [s]) == Ids(ss) + [s.id]
    ensures Refs(ss + [s]) == Refs(ss) + [s.resource]
    ensures OnlyLogs(ss + [s]) <==> OnlyLogs(ss) && s.source == Log
    ensures Settled(rules, cat, ss + [s]) <==> Settled(rules, cat, ss) || Settles(rules, cat, s)
  {
    assert forall t :: t in ss + [s] <==> t in ss || t == s;
  }

  method Build(rules: Rules, cat: string, ss: seq<Signal>, all: seq<Signal>) returns (h: Hypothesis)
    requires ss == Bucket(rules, cat, all)
    ensures IsHypothesis(rules, cat, all, h)
  {
    var ids, refs, independent, authStatus, onlyLogs := Tally(rules, cat, ss);
    var conf := BaseConfidence(rules, cat, ss, independent, authStatus, onlyLogs);
    var affected := UniqueRefs(refs);
    var against := Contradictions(rules, cat, all);
    AgainstIffContradicted(rules, cat, all, against);
    if |against| > 0 {
      if conf == Confirmed {
        conf := High;
      } else if conf == High {
        conf := Medium;
      }
    }
    RefsOfBucket(ss);
    h := Hypothesis(cat, conf, affected, ids, against, |affected|);
  }

  /** The confidence before contradictions are looked at. */
  method BaseConfidence(rules: Rules, cat: string, ss: seq<Signal>, independent: Counters,
                        authStatus: bool, onlyLogs: bool)
    returns (conf: Confidence)
    requires Counts(independent, ss)
    requires authStatus <==> Settled(rules, cat, ss)
    requires onlyLogs <==> OnlyLogs(ss)
    ensures conf == ConfidenceOf(rules, cat, ss, [])
  {
    conf := Medium;
    if onlyLogs {
      conf := Low;
    }
    var status := (if Status in independent then independent[Status] else 0)
                  + (if Condition in independent then independent[Condition] else 0);
    TwoSources(independent);
    assert status > 0 <==> exists s :: s in ss && FromStatus(s);
    if |independent| >= 2 && status > 0 && Event in independent {
      conf := High;
    }
    if authStatus {
      conf := Confirmed;
    }
    if onlyLogs && conf == Confirmed {
      conf := Low;
    }
    if !authStatus && conf == Confirmed {
      conf := High;
    }
  }

  lemma RefsOfBucket(ss: seq<Signal>)
    ensures Strings(Refs(ss)) == RefKeys(ss)
  {
    forall s | s in ss ensures s.resource in Refs(ss) {
      var j :| 0 <= j < |ss| && ss[j] == s;
      assert Refs(ss)[j] == s.resource;
    }
  }

  lemma TwoSources(independent: Counters)
    ensures Event in independent && (Status in independent || Condition in independent) ==> |independent| >= 2
  {
    if Event in independent && (Status in independent || Condition in independent) {
      var other := if Status in independent then Status else Condition;
      assert {Event, other} <= independent.Keys;
      assert |independent.Keys - {Event, other}| == |independent.Keys| - 2;
    }
  }

  lemma AgainstIffContradicted(rules: Rules, cat: string, all: seq<Signal>, against: seq<string>)
    requires Elements(against) == AgainstIds(rules, cat, all)
    ensures |against| > 0 <==> Contradicted(rules, cat, all)
  {
    if |against| > 0 {
      assert against[0] in AgainstIds(rules, cat, all);
    }
    if Contradicted(rules, cat, all) {
      var s :| s in all && SpeaksAgainst(rules, cat, s);
      assert s.id in AgainstIds(rules, cat, all);
      assert s.id in Elements(against);
    }
  }

  // ----- Ranking -----

  function WeightedScore(rules: Rules, h: Hypothesis): int {
    h.replicas + Score(h.confidence) * 10 + rules.bonus(h.category)
  }

  predicate RanksBefore(rules: Rules, g: Hypothesis, h: Hypothesis) {
    if Score(g.confidence) != Score(h.confidence) then Score(g.confidence) > Score(h.confidence)
    else if WeightedScore(rules, g) != WeightedScore(rules, h) then WeightedScore(rules, g) > WeightedScore(rules, h)
    else StrLess(g.category, h.category)
  }

  function ByRank(rules: Rules): (Hypothesis, Hypothesis) -> bool {
    (g, h) => RanksBefore(rules, g, h)
  }

  lemma RankIsAnOrder(rules: Rules)
    ensures WeakOrder(ByRank(rules))
    ensures forall g: Hypothesis, h: Hypothesis :: g.category != h.category ==>
            ByRank(rules)(g, h) || ByRank(rules)(h, g)
  {
    StringOrder();
    var less := ByRank(rules);
    forall x, y, z | less(x, y) && less(y, z) ensures less(x, z) {}
    forall x, y, z | !less(x, y) && !less(y, z) ensures !less(x, z) {}
  }

  /** The categories with evidence. */
  function Categories(rules: Rules, xs: seq<Signal>): set<string> {
    set s | s in xs && Classify(rules, s).Some? :: Classify(rules, s).value
  }

  function CategoriesOf(hyps: seq<Hypothesis>): set<string> {
    set h | h in hyps :: h.category
  }

  /** hyps is the answer for these deduplicated signals: one hypothesis for every
      category with evidence, built from all of its evidence, in strict rank
      order. */
  ghost predicate IsRanking(rules: Rules, kept: seq<Signal>, hyps: seq<Hypothesis>) {
    && StrictlySorted(hyps, ByRank(rules))
    && (forall h {:trigger IsHypothesis(rules, h.category, kept, h)} :: h in hyps ==>
          IsHypothesis(rules, h.category, kept, h))
    && CategoriesOf(hyps) == Categories(rules, kept)
    && (forall i, j :: 0 <= i < j < |hyps| ==> hyps[i].category != hyps[j].category)
  }

  ghost predicate Grouped(rules: Rules, buckets: map<string, seq<Signal>>, xs: seq<Signal>) {
    buckets.Keys == Categories(rules, xs) && forall c :: c in buckets ==> buckets[c] == Bucket(rules, c, xs)
  }

  method Group(rules: Rules, deduped: seq<Signal>) returns (buckets: map<string, seq<Signal>>)
    ensures Grouped(rules, buckets, deduped)
  {
    buckets := map[];
    for i := 0 to |deduped|
      invariant Grouped(rules, buckets, deduped[..i])
    {
      var s := deduped[i];
      assert deduped[..i + 1] == deduped[..i] + [s];
      BucketStep(rules, deduped[..i], s);
      match Classify(rules, s) {
        case None =>
        case Some(cat) =>
          buckets := buckets[cat := (if cat in buckets then buckets[cat] else []) + [s]];
      }
    }
    assert deduped[..|deduped|] == deduped;
  }

  method BuildAll(rules: Rules, cats: seq<string>, buckets: map<string, seq<Signal>>, deduped: seq<Signal>)
    returns (hyps: seq<Hypothesis>)
    requires forall c :: c in cats ==> c in buckets
    requires forall c :: c in buckets ==> buckets[c] == Bucket(rules, c, deduped)
    ensures |hyps| == |cats|
    ensures forall j :: 0 <= j < |cats| ==>
            hyps[j].category == cats[j] && IsHypothesis(rules, cats[j], deduped, hyps[j])
  {
    hyps := [];
    for i := 0 to |cats|
      invariant |hyps| == i
      invariant forall j :: 0 <= j < i ==> hyps[j].category == cats[j] && IsHypothesis(rules, cats[j], deduped, hyps[j])
    {
      var h := Build(rules, cats[i], buckets[cats[i]], deduped);
      hyps := hyps + [h];
    }
  }

  /** The buckets are a Go map, so the categories come out of it in any order. */
  method Correlate(rules: Rules, signals: seq<Signal>) returns (hyps: seq<Hypothesis>)
    ensures IsRanking(rules, Dedup(signals), hyps)
  {
    var deduped := DedupEvents(signals);
    var buckets := Group(rules, deduped);
    var cats := AnyOrder(buckets.Keys);
    cats := SortedStrings(cats);
    hyps := BuildAll(rules, cats, buckets, deduped);
    ghost var built := hyps;
    BuiltOnce(rules, deduped, cats, built);
    RankIsAnOrder(rules);
    hyps := StableSort(hyps, ByRank(rules));
    RankedFrom(rules, deduped, built, hyps);
  }

  lemma BuiltOnce(rules: Rules, kept: seq<Signal>, cats: seq<string>, built: seq<Hypothesis>)
    requires StrictlySorted(cats, StrLess) && forall c :: c in cats <==> c in Categories(rules, kept)
    requires |built| == |cats| && forall j :: 0 <= j < |cats| ==> built[j].category == cats[j]
    ensures forall i, j :: 0 <= i < j < |built| ==> built[i].category != built[j].category
    ensures CategoriesOf(built) == Categories(rules, kept)
  {
    StringOrder();
    forall i, j | 0 <= i < j < |built| ensures built[i].category != built[j].category {
      assert StrLess(cats[i], cats[j]);
    }
    forall c | c in Categories(rules, kept) ensures c in CategoriesOf(built) {
      var j :| 0 <= j < |cats| && cats[j] == c;
      assert built[j] in built;
    }
  }

  lemma RankedFrom(rules: Rules, kept: seq<Signal>, built: seq<Hypothesis>, hyps: seq<Hypothesis>)
    requires multiset(built) == multiset(hyps) && Sorted(hyps, ByRank(rules))
    requires forall i, j :: 0 <= i < j < |built| ==> built[i].category != built[j].category
    requires forall j :: 0 <= j < |built| ==> IsHypothesis(rules, built[j].category, kept, built[j])
    requires CategoriesOf(built) == Categories(rules, kept)
    ensures IsRanking(rules, kept, hyps)
  {
    SameMembers(built, hyps);
    DistinctAfterSort(built, hyps);
    RankIsAnOrder(rules);
    forall i, j | 0 <= i < j < |hyps| ensures hyps[i].category != hyps[j].category {
      assert hyps[i] in built && hyps[j] in built;
    }
    assert forall h :: h in hyps <==> h in built;
  }

  method AnyOrder(s: set<string>) returns (out: seq<string>)
    ensures forall x :: x in out <==> x in s
    ensures forall a, b :: 0 <= a < b < |out| ==> out[a] != out[b]
  {
    var todo := s;
    out := [];
    while todo != {}
      invariant todo <= s
      invariant forall x :: x in out <==> x in s - todo
      invariant forall a, b :: 0 <= a < b < |out| ==> out[a] != out[b]
    {
      var x :| x in todo;
      assert forall a :: 0 <= a < |out| ==> out[a] in out && out[a] != x;
      todo := todo - {x};
      out := out + [x];
    }
  }

  lemma BucketStep(rules: Rules, xs: seq<Signal>, s: Signal)
    ensures forall c :: Bucket(rules, c, xs + [s]) ==
                        if Classify(rules, s) == Some(c) then Bucket(rules, c, xs) + [s] else Bucket(rules, c, xs)
    ensures Categories(rules, xs + [s]) ==
            Categories(rules, xs) + (if Classify(rules, s).Some? then {Classify(rules, s).value} else {})
    ensures forall c :: c !in Categories(rules, xs) ==> Bucket(rules, c, xs) == []
  {
    assert (xs + [s])[..|xs|] == xs;
    forall c | c !in Categories(rules, xs) ensures Bucket(rules, c, xs) == [] {
      EmptyBucket(rules, c, xs);
    }
  }

  lemma {:induction false} EmptyBucket(rules: Rules, cat: string, xs: seq<Signal>)
    requires cat !in Categories(rules, xs)
    ensures Bucket(rules, cat, xs) == []
  {
    if xs != [] {
      var front := xs[..|xs| - 1];
      assert xs == front + [xs[|xs| - 1]];
      assert xs[|xs| - 1] in xs;
      EmptyBucket(rules, cat, front);
    }
  }
}
