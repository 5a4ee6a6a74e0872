/** What the cluster report adds up to, over all inventories. */
module ClusterAccounting {
  import opened Wrappers
  import opened Ordering
  import opened Health
  import opened ClusterHealth

  /** Counted objects that are not healthy, as the report's own counters give it. */
  function Unhealthy(t: Tallies): int {
    var w := Workloads(t);
    (t.nodes.total - t.nodes.healthy) + (t.pods.total - t.pods.healthy)
    + (w.total - w.healthy) + (t.storage.total - t.storage.healthy)
  }

  lemma {:induction false} FoundIsUnhealthy(f: Found, obs: seq<Observation>)
    ensures |Finding(f, obs).issues| == |f.issues| + |obs| - Healthies(obs)
    ensures |Finding(f, obs).candidates| == |f.candidates| + |obs| - Healthies(obs)
  {
    if obs != [] {
      FoundIsUnhealthy(f, obs[..|obs| - 1]);
    }
  }

  lemma FoundInWorkloads(f: Found, inv: Inventory)
    ensures var w := Workloads(TalliesOf(inv));
            && |FindingWorkloads(f, inv).issues| == |f.issues| + w.total - w.healthy
            && |FindingWorkloads(f, inv).candidates| == |f.candidates| + w.total - w.healthy
  {
    var d := Finding(f, DeploymentPart(inv));
    var s := Finding(d, StatefulSetPart(inv));
    var ds := Finding(s, DaemonSetPart(inv));
    FoundIsUnhealthy(f, DeploymentPart(inv));
    FoundIsUnhealthy(d, StatefulSetPart(inv));
    FoundIsUnhealthy(s, DaemonSetPart(inv));
    FoundIsUnhealthy(ds, JobPart(inv));
  }

  lemma FoundInAll(inv: Inventory)
    ensures |FindingAll(inv).issues| == |FindingAll(inv).candidates| == Unhealthy(TalliesOf(inv))
  {
    var n := Finding(NOTHING, NodePart(inv));
    var p := Finding(n, PodPart(inv));
    FoundIsUnhealthy(NOTHING, NodePart(inv));
    FoundIsUnhealthy(n, PodPart(inv));
    FoundInWorkloads(p, inv);
    FoundIsUnhealthy(FindingWorkloads(p, inv), ClaimPart(inv));
  }

  /** The listed issues are as many as the counters say are unhealthy, up to the
      limit, and the report says so when it left some out. */
  lemma ListedIssuesAddUp(inv: Inventory, rep: Report)
    requires rep.Shows(FindingAll(inv))
    ensures |rep.critical| + |rep.warnings| == Min(rep.limit, Unhealthy(TalliesOf(inv)))
    ensures Unhealthy(TalliesOf(inv)) > rep.limit ==> rep.truncated
    ensures !rep.includeHealthy ==> (rep.truncated <==> Unhealthy(TalliesOf(inv)) > rep.limit)
    ensures forall it :: it in rep.critical ==> it.health == CriticalHealth && it in FindingAll(inv).issues
    ensures forall it :: it in rep.warnings ==> it.health != CriticalHealth && it in FindingAll(inv).issues
  {
    FoundInAll(inv);
    var listed := First(FindingAll(inv).issues, rep.limit);
    OnlySplits(listed);
    OnlyKeeps(listed, true);
    OnlyKeeps(listed, false);
  }

  lemma {:induction false} OnlyKeeps(items: seq<Item>, critical: bool)
    ensures forall it :: it in Only(items, critical) ==> it in items && (it.health == CriticalHealth) == critical
  {
    if items != [] {
      OnlyKeeps(items[..|items| - 1], critical);
    }
  }

  /** Every unhealthy object is diagnosed or counted as skipped. */
  lemma SkippedAddsUp(inv: Inventory, maxDeep: int, kept: seq<Candidate>)
    requires AreLeast(kept, FindingAll(inv).candidates, OrDefault(maxDeep, 8))
    ensures |kept| == Min(OrDefault(maxDeep, 8), Unhealthy(TalliesOf(inv)))
    ensures |FindingAll(inv).candidates| - |kept| == Max(0, Unhealthy(TalliesOf(inv)) - OrDefault(maxDeep, 8))
  {
    FoundInAll(inv);
    var all := FindingAll(inv).candidates;
    var sorted: seq<Candidate> :|
      multiset(sorted) == multiset(all) && Sorted(sorted, CandidateBefore)
      && kept == First(sorted, OrDefault(maxDeep, 8));
    assert |multiset(sorted)| == |sorted| && |multiset(all)| == |all|;
  }

  // ----- The verdict -----

  predicate AllHealthy(obs: seq<Observation>) {
    forall o :: o in obs ==> o.item.health == Healthy
  }

  lemma {:induction false} AllHealthyCounts(obs: seq<Observation>)
    ensures AllHealthy(obs) <==> Healthies(obs) == |obs|
  {
    if obs != [] {
      var last := |obs| - 1;
      AllHealthyCounts(obs[..last]);
      assert obs == obs[..last] + [obs[last]];
    }
  }

  /** A part is critical when it was listed, holds something, and nothing in it is
      healthy. */
  predicate NothingHealthy(c: Counts, listed: bool) {
    listed && c.total > 0 && c.healthy == 0
  }

  lemma PartHealthyExactly(obs: seq<Observation>, listed: bool)
    ensures PartHealth(CountsOf(obs), listed) == Healthy <==> listed && AllHealthy(obs)
  {
    AllHealthyCounts(obs);
  }

  lemma WorkloadsHealthyExactly(inv: Inventory)
    ensures PartHealth(Workloads(TalliesOf(inv)), WorkloadsListed(inv)) == Healthy <==>
            && WorkloadsListed(inv)
            && AllHealthy(DeploymentPart(inv)) && AllHealthy(StatefulSetPart(inv)) && AllHealthy(DaemonSetPart(inv))
            && AllHealthy(JobPart(inv))
  {
    AllHealthyCounts(DeploymentPart(inv));
    AllHealthyCounts(StatefulSetPart(inv));
    AllHealthyCounts(DaemonSetPart(inv));
    AllHealthyCounts(JobPart(inv));
  }

  /** The verdict is healthy exactly when all seven lists succeeded and every
      counted object was healthy. */
  lemma HealthyExactly(inv: Inventory)
    ensures VerdictOf(inv) == Healthy <==>
            && AllListed(inv)
            && AllHealthy(NodePart(inv)) && AllHealthy(PodPart(inv))
            && AllHealthy(DeploymentPart(inv)) && AllHealthy(StatefulSetPart(inv)) && AllHealthy(DaemonSetPart(inv))
            && AllHealthy(JobPart(inv)) && AllHealthy(ClaimPart(inv))
  {
    PartHealthyExactly(NodePart(inv), inv.nodes.Some?);
    PartHealthyExactly(PodPart(inv), inv.pods.Some?);
    WorkloadsHealthyExactly(inv);
    PartHealthyExactly(ClaimPart(inv), inv.claims.Some?);
    var t := TalliesOf(inv);
    FourParts(PartHealth(t.nodes, inv.nodes.Some?), PartHealth(t.pods, inv.pods.Some?),
              PartHealth(Workloads(t), WorkloadsListed(inv)), PartHealth(t.storage, inv.claims.Some?));
  }

  /** The verdict is critical exactly when one of the four parts has nothing
      healthy left: one critical object is not enough. */
  lemma CriticalExactly(inv: Inventory)
    ensures var t := TalliesOf(inv);
            VerdictOf(inv) == CriticalHealth <==>
            || NothingHealthy(t.nodes, inv.nodes.Some?) || NothingHealthy(t.pods, inv.pods.Some?)
            || NothingHealthy(Workloads(t), WorkloadsListed(inv)) || NothingHealthy(t.storage, inv.claims.Some?)
  {
    var t := TalliesOf(inv);
    FourParts(PartHealth(t.nodes, inv.nodes.Some?), PartHealth(t.pods, inv.pods.Some?),
              PartHealth(Workloads(t), WorkloadsListed(inv)), PartHealth(t.storage, inv.claims.Some?));
  }

  /** Some of what was listed is healthy and some is not. */
  predicate Mixed(c: Counts, listed: bool) {
    listed && 0 < c.healthy < c.total
  }

  lemma PartDegradedExactly(c: Counts, listed: bool)
    ensures PartHealth(c, listed) == Degraded <==> Mixed(c, listed)
  {
  }

  /** The verdict is degraded exactly when some part is mixed and none has nothing
      healthy left; what could not be listed does not hide it. */
  lemma DegradedExactly(inv: Inventory)
    ensures var t := TalliesOf(inv);
            VerdictOf(inv) == Degraded <==>
            && VerdictOf(inv) != CriticalHealth
            && (|| Mixed(t.nodes, inv.nodes.Some?) || Mixed(t.pods, inv.pods.Some?)
                || Mixed(Workloads(t), WorkloadsListed(inv)) || Mixed(t.storage, inv.claims.Some?))
  {
    var t := TalliesOf(inv);
    PartDegradedExactly(t.nodes, inv.nodes.Some?);
    PartDegradedExactly(t.pods, inv.pods.Some?);
    PartDegradedExactly(Workloads(t), WorkloadsListed(inv));
    PartDegradedExactly(t.storage, inv.claims.Some?);
    FourParts(PartHealth(t.nodes, inv.nodes.Some?), PartHealth(t.pods, inv.pods.Some?),
              PartHealth(Workloads(t), WorkloadsListed(inv)), PartHealth(t.storage, inv.claims.Some?));
  }

  lemma FourParts(n: Health, p: Health, w: Health, s: Health)
    ensures Combined([n, p, w, s]) == Healthy <==> n == p == w == s == Healthy
    ensures Combined([n, p, w, s]) == CriticalHealth <==>
            n == CriticalHealth || p == CriticalHealth || w == CriticalHealth || s == CriticalHealth
    ensures Combined([n, p, w, s]) == Degraded <==>
            Combined([n, p, w, s]) != CriticalHealth
            && (n == Degraded || p == Degraded || w == Degraded || s == Degraded)
  {
    var states := [n, p, w, s];
    assert states[0] == n && states[1] == p && states[2] == w && states[3] == s;
    assert forall h :: h in states <==> h == n || h == p || h == w || h == s;
  }

  // ----- The candidates kept -----

  /** No two candidates are the same object. */
  ghost predicate DistinctKeys(all: seq<Candidate>) {
    forall i, j :: 0 <= i < j < |all| ==> !SameObject(all[i], all[j])
  }

  predicate SameObject(a: Candidate, b: Candidate) {
    a.kind == b.kind && a.ns == b.ns && a.name == b.name
  }

  lemma KeysOrder(a: Candidate, b: Candidate)
    requires !SameObject(a, b) && !CandidateBefore(b, a)
    ensures CandidateBefore(a, b)
  {
    StringOrder();
  }

  lemma StrictOnceSorted(xs: seq<Candidate>, all: seq<Candidate>)
    requires multiset(xs) == multiset(all) && DistinctKeys(all) && Sorted(xs, CandidateBefore)
    ensures StrictlySorted(xs, CandidateBefore)
  {
    DistinctAfterSort(all, xs);
    SameMembers(xs, all);
    forall i, j | 0 <= i < j < |xs| ensures CandidateBefore(xs[i], xs[j]) {
      assert xs[i] in all && xs[j] in all;
      var p :| 0 <= p < |all| && all[p] == xs[i];
      var q :| 0 <= q < |all| && all[q] == xs[j];
      assert p != q;
      KeysOrder(xs[i], xs[j]);
    }
  }

  /** Whichever way the candidates were found, and however the sort treats equal
      ones, the same are kept in the same order. */
  lemma KeptIsDetermined(kept: seq<Candidate>, other: seq<Candidate>, all: seq<Candidate>, all': seq<Candidate>, n: nat)
    requires DistinctKeys(all) && multiset(all) == multiset(all')
    requires AreLeast(kept, all, n) && AreLeast(other, all', n)
    ensures kept == other
  {
    var xs: seq<Candidate> :|
      multiset(xs) == multiset(all) && Sorted(xs, CandidateBefore) && kept == First(xs, n);
    var ys: seq<Candidate> :|
      multiset(ys) == multiset(all') && Sorted(ys, CandidateBefore) && other == First(ys, n);
    StrictOnceSorted(xs, all);
    StrictOnceSorted(ys, all);
    CandidateOrder();
    SameMembers(xs, ys);
    SortedListIsUnique(xs, ys, CandidateBefore);
  }

  /** Every candidate is kept or left out, and none that is left out comes before
      or ties with one that is kept. */
  lemma KeptComeFirst(kept: seq<Candidate>, all: seq<Candidate>, n: nat) returns (rest: seq<Candidate>)
    requires DistinctKeys(all) && AreLeast(kept, all, n)
    ensures multiset(kept) + multiset(rest) == multiset(all)
    ensures StrictlySorted(kept, CandidateBefore)
    ensures forall i, j :: 0 <= i < |kept| && 0 <= j < |rest| ==> CandidateBefore(kept[i], rest[j])
  {
    var xs: seq<Candidate> :|
      multiset(xs) == multiset(all) && Sorted(xs, CandidateBefore) && kept == First(xs, n);
    StrictOnceSorted(xs, all);
    rest := if |xs| <= n then [] else xs[n..];
    assert xs == kept + rest;
    SortedInTwo(kept, rest);
  }

  lemma SortedInTwo(kept: seq<Candidate>, rest: seq<Candidate>)
    requires StrictlySorted(kept + rest, CandidateBefore)
    ensures StrictlySorted(kept, CandidateBefore)
    ensures forall i, j :: 0 <= i < |kept| && 0 <= j < |rest| ==> CandidateBefore(kept[i], rest[j])
  {
    var xs := kept + rest;
    forall i, j | 0 <= i < j < |kept| ensures CandidateBefore(kept[i], kept[j]) {
      assert CandidateBefore(xs[i], xs[j]);
    }
    forall i, j | 0 <= i < |kept| && 0 <= j < |rest| ensures CandidateBefore(kept[i], rest[j]) {
      assert CandidateBefore(xs[i], xs[|kept| + j]);
    }
  }
}
