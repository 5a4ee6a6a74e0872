/** From the lists to the filled-in report: scan, selection, worker pool and
    fill-in together (internal/health/cluster.go). */
module ClusterPipeline {
  import opened Wrappers
  import opened Ordering
  import opened Health
  import opened ClusterHealth
  import ClusterAccounting
  import DeepDiagnosis

  // ----- What an API server promises of its lists -----

  predicate SameName(ns: string, name: string, ns': string, name': string) {
    ns == ns' && name == name'
  }

  /** Within one list no two objects share namespace and name. */
  ghost predicate NamesUnique(inv: Inventory) {
    && (inv.nodes.Some? ==> forall i, j :: 0 <= i < j < |inv.nodes.value| ==>
          inv.nodes.value[i].name != inv.nodes.value[j].name)
    && (inv.pods.Some? ==> PodsUnique(inv.pods.value))
    && WorkloadsUnique(inv.deployments) && WorkloadsUnique(inv.statefulSets) && WorkloadsUnique(inv.daemonSets)
    && (inv.jobs.Some? ==> JobsUnique(inv.jobs.value))
    && (inv.claims.Some? ==> ClaimsUnique(inv.claims.value))
  }

  ghost predicate JobsUnique(jobs: seq<JobItem>) {
    forall i, j :: 0 <= i < j < |jobs| ==> !SameName(jobs[i].ns, jobs[i].name, jobs[j].ns, jobs[j].name)
  }

  ghost predicate ClaimsUnique(claims: seq<Claim>) {
    forall i, j :: 0 <= i < j < |claims| ==> !SameName(claims[i].ns, claims[i].name, claims[j].ns, claims[j].name)
  }

  ghost predicate PodsUnique(pods: seq<PodItem>) {
    forall i, j :: 0 <= i < j < |pods| ==> !SameName(pods[i].ns, pods[i].name, pods[j].ns, pods[j].name)
  }

  ghost predicate WorkloadsUnique(ws: Option<seq<Workload>>) {
    ws.Some? ==> forall i, j :: 0 <= i < j < |ws.value| ==>
      !SameName(ws.value[i].ns, ws.value[i].name, ws.value[j].ns, ws.value[j].name)
  }

  /** The same objects were listed, in whatever order. */
  ghost predicate SameListed<T(!new)>(a: Option<seq<T>>, b: Option<seq<T>>) {
    && (a.Some? <==> b.Some?)
    && (a.Some? ==> forall x :: x in a.value <==> x in b.value)
  }

  ghost predicate SameObjects(inv: Inventory, other: Inventory) {
    && SameListed(inv.nodes, other.nodes) && SameListed(inv.pods, other.pods)
    && SameListed(inv.deployments, other.deployments) && SameListed(inv.statefulSets, other.statefulSets)
    && SameListed(inv.daemonSets, other.daemonSets) && SameListed(inv.jobs, other.jobs)
    && SameListed(inv.claims, other.claims)
  }

  // ----- Everything that is looked at -----

  function Observed(inv: Inventory): seq<Observation> {
    NodePart(inv) + PodPart(inv) + DeploymentPart(inv) + StatefulSetPart(inv) + DaemonSetPart(inv) + JobPart(inv)
    + ClaimPart(inv)
  }

  lemma {:induction false} FindingBoth(f: Found, a: seq<Observation>, b: seq<Observation>)
    ensures Finding(f, a + b) == Finding(Finding(f, a), b)
  {
    if b == [] {
      assert a + b == a;
    } else {
      assert (a + b)[..|a + b| - 1] == a + b[..|b| - 1];
      FindingBoth(f, a, b[..|b| - 1]);
    }
  }

  lemma FindingObserved(inv: Inventory)
    ensures FindingAll(inv) == Finding(NOTHING, Observed(inv))
  {
    var n, p, d, s, ds, j, c := NodePart(inv), PodPart(inv), DeploymentPart(inv), StatefulSetPart(inv),
                                DaemonSetPart(inv), JobPart(inv), ClaimPart(inv);
    FindingBoth(NOTHING, n, p);
    FindingBoth(NOTHING, n + p, d);
    FindingBoth(NOTHING, n + p + d, s);
    FindingBoth(NOTHING, n + p + d + s, ds);
    FindingBoth(NOTHING, n + p + d + s + ds, j);
    FindingBoth(NOTHING, n + p + d + s + ds + j, c);
  }

  predicate SameSubject(a: Observation, b: Observation) {
    a.deepKind == b.deepKind && SameName(a.item.ns, a.item.name, b.item.ns, b.item.name)
  }

  ghost predicate Distinct(obs: seq<Observation>) {
    forall i, j :: 0 <= i < j < |obs| ==> !SameSubject(obs[i], obs[j])
  }

  ghost predicate KindsIn(obs: seq<Observation>, kinds: set<string>) {
    forall o :: o in obs ==> o.deepKind in kinds
  }

  lemma DistinctBoth(a: seq<Observation>, b: seq<Observation>, kinds: set<string>, kind: string)
    requires Distinct(a) && Distinct(b) && KindsIn(a, kinds) && KindsIn(b, {kind}) && kind !in kinds
    ensures Distinct(a + b) && KindsIn(a + b, kinds + {kind})
  {
    forall i, j | 0 <= i < j < |a + b| ensures !SameSubject((a + b)[i], (a + b)[j]) {
      if i < |a| <= j {
        assert a[i] in a && b[j - |a|] in b;
      }
    }
  }

  lemma {:induction false} EachAt<T>(xs: seq<T>, see: T -> Observation)
    ensures |Each(xs, see)| == |xs| && forall i :: 0 <= i < |xs| ==> Each(xs, see)[i] == see(xs[i])
  {
    if xs != [] {
      EachAt(xs[..|xs| - 1], see);
    }
  }

  lemma {:induction false} EachWorkloadAt(kind: string, offered: bool, ws: seq<Workload>)
    ensures |EachWorkload(kind, offered, ws)| == |ws|
    ensures forall i :: 0 <= i < |ws| ==> EachWorkload(kind, offered, ws)[i] == SeeWorkload(kind, offered, ws[i])
  {
    if ws != [] {
      EachWorkloadAt(kind, offered, ws[..|ws| - 1]);
    }
  }

  lemma {:induction false} CountedMeans(pods: seq<PodItem>)
    ensures forall p :: p in Counted(pods) <==> p in pods && p.status.phase != Succeeded
  {
    if pods != [] {
      CountedMeans(pods[..|pods| - 1]);
      assert pods == pods[..|pods| - 1] + [pods[|pods| - 1]];
    }
  }

  lemma {:induction false} CountedUnique(pods: seq<PodItem>)
    requires PodsUnique(pods)
    ensures PodsUnique(Counted(pods))
  {
    if pods != [] {
      var most, last := pods[..|pods| - 1], pods[|pods| - 1];
      CountedUnique(most);
      CountedMeans(most);
      forall p | p in Counted(most) ensures !SameName(p.ns, p.name, last.ns, last.name) {
        var k :| 0 <= k < |most| && most[k] == p;
        assert pods[k] == p;
      }
    }
  }

  lemma NodesDistinct(inv: Inventory)
    requires NamesUnique(inv)
    ensures Distinct(NodePart(inv)) && KindsIn(NodePart(inv), {"Node"})
  {
    if inv.nodes.Some? {
      EachAt(inv.nodes.value, SeeNode);
    }
  }

  lemma PodsDistinct(inv: Inventory)
    requires NamesUnique(inv)
    ensures Distinct(PodPart(inv)) && KindsIn(PodPart(inv), {"Pod"})
  {
    if inv.pods.Some? {
      CountedUnique(inv.pods.value);
      EachAt(Counted(inv.pods.value), SeePod);
    }
  }

  lemma WorkloadsDistinct(kind: string, offered: bool, ws: Option<seq<Workload>>)
    requires WorkloadsUnique(ws)
    ensures Distinct(WorkloadPart(kind, offered, ws)) && KindsIn(WorkloadPart(kind, offered, ws), {kind})
  {
    if ws.Some? {
      EachWorkloadAt(kind, offered, ws.value);
    }
  }

  lemma JobsDistinct(inv: Inventory)
    requires NamesUnique(inv)
    ensures Distinct(JobPart(inv)) && KindsIn(JobPart(inv), {"Job"})
  {
    if inv.jobs.Some? {
      EachAt(inv.jobs.value, SeeJob);
    }
  }

  lemma ClaimsDistinct(inv: Inventory)
    requires NamesUnique(inv)
    ensures Distinct(ClaimPart(inv)) && KindsIn(ClaimPart(inv), {"PersistentVolumeClaim"})
  {
    if inv.claims.Some? {
      EachAt(inv.claims.value, SeeClaim);
    }
  }

  /** The kinds of the lists are different, so nothing is looked at twice. */
  lemma ObservedDistinct(inv: Inventory)
    requires NamesUnique(inv)
    ensures Distinct(Observed(inv))
  {
    NodesDistinct(inv);
    PodsDistinct(inv);
    WorkloadsDistinct("Deployment", true, inv.deployments);
    WorkloadsDistinct("StatefulSet", false, inv.statefulSets);
    WorkloadsDistinct("DaemonSet", false, inv.daemonSets);
    JobsDistinct(inv);
    ClaimsDistinct(inv);
    var a := NodePart(inv) + PodPart(inv);
    DistinctBoth(NodePart(inv), PodPart(inv), {"Node"}, "Pod");
    var b := a + DeploymentPart(inv);
    DistinctBoth(a, DeploymentPart(inv), {"Node", "Pod"}, "Deployment");
    var c := b + StatefulSetPart(inv);
    DistinctBoth(b, StatefulSetPart(inv), {"Node", "Pod", "Deployment"}, "StatefulSet");
    var d := c + DaemonSetPart(inv);
    DistinctBoth(c, DaemonSetPart(inv), {"Node", "Pod", "Deployment", "StatefulSet"}, "DaemonSet");
    var e := d + JobPart(inv);
    DistinctBoth(d, JobPart(inv), {"Node", "Pod", "Deployment", "StatefulSet", "DaemonSet"}, "Job");
    DistinctBoth(e, ClaimPart(inv), {"Node", "Pod", "Deployment", "StatefulSet", "DaemonSet", "Job"},
                 "PersistentVolumeClaim");
  }

  // ----- The candidates -----

  ghost predicate FoundIn(obs: seq<Observation>, c: Candidate) {
    exists o :: o in obs && o.item.health != Healthy && CandidateOf(o) == c
  }

  lemma {:induction false} CandidatesAreFound(obs: seq<Observation>)
    ensures forall c :: c in Finding(NOTHING, obs).candidates <==> FoundIn(obs, c)
  {
    if obs != [] {
      CandidatesAreFound(obs[..|obs| - 1]);
      assert obs == obs[..|obs| - 1] + [obs[|obs| - 1]];
    }
  }

  lemma {:induction false} DistinctCandidates(obs: seq<Observation>)
    requires Distinct(obs)
    ensures ClusterAccounting.DistinctKeys(Finding(NOTHING, obs).candidates)
  {
    if obs != [] {
      var most, last := obs[..|obs| - 1], obs[|obs| - 1];
      DistinctCandidates(most);
      CandidatesAreFound(most);
      var before := Finding(NOTHING, most).candidates;
      forall i | 0 <= i < |before| ensures !ClusterAccounting.SameObject(before[i], CandidateOf(last)) {
        assert before[i] in before;
        var o :| o in most && o.item.health != Healthy && CandidateOf(o) == before[i];
        var k :| 0 <= k < |most| && most[k] == o;
        assert !SameSubject(obs[k], obs[|obs| - 1]);
      }
    }
  }

  /** Names that are unique within each list make the candidates different objects. */
  lemma CandidatesAreDistinct(inv: Inventory)
    requires NamesUnique(inv)
    ensures ClusterAccounting.DistinctKeys(FindingAll(inv).candidates)
  {
    FindingObserved(inv);
    ObservedDistinct(inv);
    DistinctCandidates(Observed(inv));
  }

  // ----- Which candidates come first -----

  /** Workloads with nothing ready, then failed jobs, then nodes with a bad condition,
      then the less grave of all three, then claims, then pods. */
  function Urgency(kind: string, health: Health): nat {
    if kind == "Pod" then 5
    else if kind == "PersistentVolumeClaim" then 4
    else if health != CriticalHealth then 3
    else if kind == "Node" then 2
    else if kind == "Job" then 1
    else 0
  }

  ghost predicate Ranked(obs: seq<Observation>) {
    forall o :: o in obs ==> o.item.health != Healthy ==> o.priority == Urgency(o.deepKind, o.item.health)
  }

  lemma RankedBoth(a: seq<Observation>, b: seq<Observation>)
    requires Ranked(a) && Ranked(b)
    ensures Ranked(a + b)
  {
  }

  lemma {:induction false} EachRanked<T>(xs: seq<T>, see: T -> Observation)
    requires forall x :: see(x).item.health != Healthy ==>
             see(x).priority == Urgency(see(x).deepKind, see(x).item.health)
    ensures Ranked(Each(xs, see))
  {
    if xs != [] {
      EachRanked(xs[..|xs| - 1], see);
    }
  }

  lemma {:induction false} WorkloadsRanked(kind: string, offered: bool, ws: seq<Workload>)
    requires kind in {"Deployment", "StatefulSet", "DaemonSet"}
    ensures Ranked(EachWorkload(kind, offered, ws))
  {
    if ws != [] {
      WorkloadsRanked(kind, offered, ws[..|ws| - 1]);
      OneWorkloadRanked(kind, offered, ws[|ws| - 1]);
    }
  }

  lemma OneWorkloadRanked(kind: string, offered: bool, w: Workload)
    requires kind in {"Deployment", "StatefulSet", "DaemonSet"}
    ensures var o := SeeWorkload(kind, offered, w); o.priority == Urgency(o.deepKind, o.item.health)
  {
    assert kind[0] == 'D' || kind[0] == 'S';
    assert "Pod"[0] == 'P' && "PersistentVolumeClaim"[0] == 'P' && "Node"[0] == 'N' && "Job"[0] == 'J';
  }

  lemma WorkloadPartsRanked(inv: Inventory)
    ensures Ranked(DeploymentPart(inv)) && Ranked(StatefulSetPart(inv)) && Ranked(DaemonSetPart(inv))
  {
    if inv.deployments.Some? {
      WorkloadsRanked("Deployment", true, inv.deployments.value);
    }
    if inv.statefulSets.Some? {
      WorkloadsRanked("StatefulSet", false, inv.statefulSets.value);
    }
    if inv.daemonSets.Some? {
      WorkloadsRanked("DaemonSet", false, inv.daemonSets.value);
    }
  }

  lemma OtherPartsRanked(inv: Inventory)
    ensures Ranked(NodePart(inv)) && Ranked(PodPart(inv)) && Ranked(JobPart(inv)) && Ranked(ClaimPart(inv))
  {
    assert "Node"[0] == 'N' && "Pod"[1] == 'o' && "Job"[0] == 'J' && "PersistentVolumeClaim"[1] == 'e';
    if inv.nodes.Some? {
      EachRanked(inv.nodes.value, SeeNode);
    }
    if inv.pods.Some? {
      EachRanked(Counted(inv.pods.value), SeePod);
    }
    if inv.jobs.Some? {
      EachRanked(inv.jobs.value, SeeJob);
    }
    if inv.claims.Some? {
      EachRanked(inv.claims.value, SeeClaim);
    }
  }

  lemma CandidatesRanked(inv: Inventory)
    ensures forall c :: c in FindingAll(inv).candidates ==> c.priority == Urgency(c.kind, c.health)
  {
    FindingObserved(inv);
    CandidatesAreFound(Observed(inv));
    WorkloadPartsRanked(inv);
    OtherPartsRanked(inv);
    var a := NodePart(inv) + PodPart(inv);
    RankedBoth(NodePart(inv), PodPart(inv));
    RankedBoth(a, DeploymentPart(inv));
    RankedBoth(a + DeploymentPart(inv), StatefulSetPart(inv));
    RankedBoth(a + DeploymentPart(inv) + StatefulSetPart(inv), DaemonSetPart(inv));
    RankedBoth(a + DeploymentPart(inv) + StatefulSetPart(inv) + DaemonSetPart(inv), JobPart(inv));
    RankedBoth(a + DeploymentPart(inv) + StatefulSetPart(inv) + DaemonSetPart(inv) + JobPart(inv), ClaimPart(inv));
  }

  /** The more urgent first, and equally urgent ones by kind, namespace and name,
      letter by letter. */
  ghost predicate Sooner(a: Candidate, b: Candidate) {
    var u, v := Urgency(a.kind, a.health), Urgency(b.kind, b.health);
    || u < v
    || (u == v && (exists n: nat :: SmallerAt(a.kind, b.kind, n)))
    || (u == v && a.kind == b.kind && (exists n: nat :: SmallerAt(a.ns, b.ns, n)))
    || (u == v && a.kind == b.kind && a.ns == b.ns && (exists n: nat :: SmallerAt(a.name, b.name, n)))
  }

  lemma BeforeIsSooner(a: Candidate, b: Candidate)
    requires CandidateBefore(a, b)
    requires a.priority == Urgency(a.kind, a.health) && b.priority == Urgency(b.kind, b.health)
    ensures Sooner(a, b)
  {
    StrLessExactly(a.kind, b.kind);
    StrLessExactly(a.ns, b.ns);
    StrLessExactly(a.name, b.name);
  }

  /** The candidates kept are in this order, and every one left out would come after
      all of them. */
  lemma KeptInOrder(inv: Inventory, kept: seq<Candidate>, n: nat) returns (rest: seq<Candidate>)
    requires NamesUnique(inv) && AreLeast(kept, FindingAll(inv).candidates, n)
    ensures multiset(kept) + multiset(rest) == multiset(FindingAll(inv).candidates)
    ensures forall i, j :: 0 <= i < j < |kept| ==> Sooner(kept[i], kept[j])
    ensures forall i, j :: 0 <= i < |kept| && 0 <= j < |rest| ==> Sooner(kept[i], rest[j])
  {
    var all := FindingAll(inv).candidates;
    CandidatesAreDistinct(inv);
    CandidatesRanked(inv);
    rest := ClusterAccounting.KeptComeFirst(kept, all, n);
    forall c | c in kept || c in rest ensures c.priority == Urgency(c.kind, c.health) {
      assert c in multiset(kept) + multiset(rest);
      assert c in all;
    }
    forall i, j | 0 <= i < j < |kept| ensures Sooner(kept[i], kept[j]) {
      BeforeIsSooner(kept[i], kept[j]);
    }
    forall i, j | 0 <= i < |kept| && 0 <= j < |rest| ensures Sooner(kept[i], rest[j]) {
      BeforeIsSooner(kept[i], rest[j]);
    }
  }

  // ----- The lists in another order -----

  lemma SameEach<T(!new)>(a: Option<seq<T>>, b: Option<seq<T>>, see: T -> Observation)
    requires SameListed(a, b) && a.Some?
    ensures SameMembersIn(Each(a.value, see), Each(b.value, see))
  {
    EachHasIts(a.value, see);
    EachHasIts(b.value, see);
  }

  lemma EachHasIts<T(!new)>(xs: seq<T>, see: T -> Observation)
    ensures forall o :: o in Each(xs, see) <==> exists x :: x in xs && see(x) == o
  {
    EachAt(xs, see);
    forall x | x in xs ensures see(x) in Each(xs, see) {
      var i :| 0 <= i < |xs| && xs[i] == x;
      assert Each(xs, see)[i] == see(x);
    }
  }

  lemma SameWorkloads(kind: string, offered: bool, a: Option<seq<Workload>>, b: Option<seq<Workload>>)
    requires SameListed(a, b)
    ensures SameMembersIn(WorkloadPart(kind, offered, a), WorkloadPart(kind, offered, b))
  {
    if a.Some? {
      WorkloadsHaveTheirs(kind, offered, a.value);
      WorkloadsHaveTheirs(kind, offered, b.value);
    }
  }

  lemma WorkloadsHaveTheirs(kind: string, offered: bool, ws: seq<Workload>)
    ensures forall o :: o in EachWorkload(kind, offered, ws) <==>
                        exists w :: w in ws && SeeWorkload(kind, offered, w) == o
  {
    EachWorkloadAt(kind, offered, ws);
    forall w | w in ws ensures SeeWorkload(kind, offered, w) in EachWorkload(kind, offered, ws) {
      var i :| 0 <= i < |ws| && ws[i] == w;
      assert EachWorkload(kind, offered, ws)[i] == SeeWorkload(kind, offered, w);
    }
  }

  lemma SamePods(inv: Inventory, other: Inventory)
    requires SameListed(inv.pods, other.pods)
    ensures SameMembersIn(PodPart(inv), PodPart(other))
  {
    if inv.pods.Some? {
      CountedMeans(inv.pods.value);
      CountedMeans(other.pods.value);
      SameEach(Some(Counted(inv.pods.value)), Some(Counted(other.pods.value)), SeePod);
    }
  }

  ghost predicate SameMembersIn(a: seq<Observation>, b: seq<Observation>) {
    forall o :: o in a <==> o in b
  }

  lemma SameParts(inv: Inventory, other: Inventory)
    requires SameObjects(inv, other)
    ensures SameMembersIn(NodePart(inv), NodePart(other)) && SameMembersIn(JobPart(inv), JobPart(other))
    ensures SameMembersIn(ClaimPart(inv), ClaimPart(other)) && SameMembersIn(PodPart(inv), PodPart(other))
  {
    if inv.nodes.Some? {
      SameEach(inv.nodes, other.nodes, SeeNode);
    }
    if inv.jobs.Some? {
      SameEach(inv.jobs, other.jobs, SeeJob);
    }
    if inv.claims.Some? {
      SameEach(inv.claims, other.claims, SeeClaim);
    }
    SamePods(inv, other);
  }

  lemma SameBoth(a: seq<Observation>, a': seq<Observation>, b: seq<Observation>, b': seq<Observation>)
    requires SameMembersIn(a, a') && SameMembersIn(b, b')
    ensures SameMembersIn(a + b, a' + b')
  {
  }

  lemma SameObserved(inv: Inventory, other: Inventory)
    requires SameObjects(inv, other)
    ensures SameMembersIn(Observed(inv), Observed(other))
  {
    SameParts(inv, other);
    SameWorkloads("Deployment", true, inv.deployments, other.deployments);
    SameWorkloads("StatefulSet", false, inv.statefulSets, other.statefulSets);
    SameWorkloads("DaemonSet", false, inv.daemonSets, other.daemonSets);
    var a, a' := NodePart(inv) + PodPart(inv), NodePart(other) + PodPart(other);
    SameBoth(NodePart(inv), NodePart(other), PodPart(inv), PodPart(other));
    var b, b' := a + DeploymentPart(inv), a' + DeploymentPart(other);
    SameBoth(a, a', DeploymentPart(inv), DeploymentPart(other));
    var c, c' := b + StatefulSetPart(inv), b' + StatefulSetPart(other);
    SameBoth(b, b', StatefulSetPart(inv), StatefulSetPart(other));
    var d, d' := c + DaemonSetPart(inv), c' + DaemonSetPart(other);
    SameBoth(c, c', DaemonSetPart(inv), DaemonSetPart(other));
    SameBoth(d, d', JobPart(inv), JobPart(other));
    SameBoth(d + JobPart(inv), d' + JobPart(other), ClaimPart(inv), ClaimPart(other));
  }

  /** Lists without repetition and with the same members are rearrangements. */
  lemma SameMultiset<T(!new)>(xs: seq<T>, ys: seq<T>)
    requires forall i, j :: 0 <= i < j < |xs| ==> xs[i] != xs[j]
    requires forall i, j :: 0 <= i < j < |ys| ==> ys[i] != ys[j]
    requires forall x :: x in xs <==> x in ys
    ensures multiset(xs) == multiset(ys)
  {
    forall x ensures multiset(xs)[x] == multiset(ys)[x] {
      AtMostOnce(xs, x);
      AtMostOnce(ys, x);
      assert (x in xs <==> x in multiset(xs)) && (x in ys <==> x in multiset(ys));
    }
  }

  lemma DifferentElements(all: seq<Candidate>)
    requires ClusterAccounting.DistinctKeys(all)
    ensures forall i, j :: 0 <= i < j < |all| ==> all[i] != all[j]
  {
    forall i, j | 0 <= i < j < |all| ensures all[i] != all[j] {
      assert !ClusterAccounting.SameObject(all[i], all[j]);
    }
  }

  lemma SameFound(inv: Inventory, other: Inventory)
    requires SameObjects(inv, other)
    ensures forall c :: c in FindingAll(inv).candidates <==> c in FindingAll(other).candidates
  {
    FindingObserved(inv);
    FindingObserved(other);
    SameObserved(inv, other);
    CandidatesAreFound(Observed(inv));
    CandidatesAreFound(Observed(other));
    SameFoundIn(Observed(inv), Observed(other));
  }

  lemma SameFoundIn(obs: seq<Observation>, other: seq<Observation>)
    requires SameMembersIn(obs, other)
    ensures forall c :: FoundIn(obs, c) <==> FoundIn(other, c)
  {
  }

  lemma SameCandidates(inv: Inventory, other: Inventory)
    requires NamesUnique(inv) && NamesUnique(other) && SameObjects(inv, other)
    ensures multiset(FindingAll(inv).candidates) == multiset(FindingAll(other).candidates)
  {
    CandidatesAreDistinct(inv);
    CandidatesAreDistinct(other);
    DifferentElements(FindingAll(inv).candidates);
    DifferentElements(FindingAll(other).candidates);
    SameFound(inv, other);
    SameMultiset(FindingAll(inv).candidates, FindingAll(other).candidates);
  }

  /** Two scans of the same objects keep the same candidates in the same order. */
  lemma SameKept(inv: Inventory, other: Inventory, kept: seq<Candidate>, kept': seq<Candidate>, n: nat)
    requires NamesUnique(inv) && NamesUnique(other) && SameObjects(inv, other)
    requires AreLeast(kept, FindingAll(inv).candidates, n) && AreLeast(kept', FindingAll(other).candidates, n)
    ensures kept == kept'
  {
    CandidatesAreDistinct(inv);
    SameCandidates(inv, other);
    ClusterAccounting.KeptIsDetermined(kept, kept', FindingAll(inv).candidates, FindingAll(other).candidates, n);
  }

  // ----- The keys of the pool -----

  ghost predicate NamespacesPlain(obs: seq<Observation>) {
    forall o :: o in obs ==> DeepDiagnosis.Plain(o.item.ns)
  }

  lemma KeptAreFound(kept: seq<Candidate>, all: seq<Candidate>, n: nat)
    requires ClusterAccounting.DistinctKeys(all) && AreLeast(kept, all, n)
    ensures StrictlySorted(kept, CandidateBefore) && forall c :: c in kept ==> c in all
  {
    var rest := ClusterAccounting.KeptComeFirst(kept, all, n);
    forall c | c in kept ensures c in all {
      assert c in multiset(kept) + multiset(rest);
    }
  }

  /** Names unique within each list and namespaces without a slash give every kept
      candidate a key of its own. */
  lemma KeysAreDistinct(inv: Inventory, n: nat, p: DeepDiagnosis.Pool)
    requires NamesUnique(inv) && NamespacesPlain(Observed(inv))
    requires AreLeast(p.candidates, FindingAll(inv).candidates, n)
    ensures DeepDiagnosis.DistinctKeys(p)
  {
    var all := FindingAll(inv).candidates;
    CandidatesAreDistinct(inv);
    KeptAreFound(p.candidates, all, n);
    DeepDiagnosis.CandidatesDiagnosedAs(inv);
    PlainCandidates(inv);
    CandidateOrder();
    forall i, j | 0 <= i < j < |p.candidates|
      ensures DeepDiagnosis.CandidateKey(p.candidates[i]) != DeepDiagnosis.CandidateKey(p.candidates[j])
    {
      var a, b := p.candidates[i], p.candidates[j];
      assert a in p.candidates && b in p.candidates && CandidateBefore(a, b);
      OtherObject(a, b, all);
      DeepDiagnosis.KeyTellsAll(a.kind, a.ns, a.name, b.kind, b.ns, b.name);
    }
  }

  lemma OtherObject(a: Candidate, b: Candidate, all: seq<Candidate>)
    requires ClusterAccounting.DistinctKeys(all) && a in all && b in all && CandidateBefore(a, b)
    ensures !ClusterAccounting.SameObject(a, b)
  {
    var i :| 0 <= i < |all| && all[i] == a;
    var j :| 0 <= j < |all| && all[j] == b;
    CandidateOrder();
    assert i != j;
  }

  lemma PlainCandidates(inv: Inventory)
    requires NamespacesPlain(Observed(inv))
    ensures forall c :: c in FindingAll(inv).candidates ==> DeepDiagnosis.Plain(c.ns)
  {
    FindingObserved(inv);
    CandidatesAreFound(Observed(inv));
  }

  // ----- From the lists to the filled-in report -----

  /** What a diagnosis comes to depends on the candidate alone. */
  ghost predicate Diagnoses(p: DeepDiagnosis.Pool, diagnosis: Candidate -> DeepDiagnosis.Diagnosis) {
    forall i :: 0 <= i < |p.candidates| ==> p.diagnose(i) == diagnosis(p.candidates[i])
  }

  /** A scan of inv, and a run of the pool over what it kept that received every
      result without a cancellation. */
  ghost predicate Completed(inv: Inventory, n: nat, diagnosis: Candidate -> DeepDiagnosis.Diagnosis,
                            p: DeepDiagnosis.Pool, states: seq<DeepDiagnosis.State>, events: seq<DeepDiagnosis.Event>) {
    && NamesUnique(inv) && NamespacesPlain(Observed(inv))
    && AreLeast(p.candidates, FindingAll(inv).candidates, n)
    && Diagnoses(p, diagnosis)
    && DeepDiagnosis.IsRun(p, states, events)
    && DeepDiagnosis.Done(p, states[|events|]) && !states[|events|].cancelled
  }

  /** Two reports on the same objects are filled in alike: whatever order the lists
      came in, however many workers ran at once and in whatever order they
      reported, every line gets the same cause and impact. */
  lemma SameReport(inv: Inventory, other: Inventory, n: nat, diagnosis: Candidate -> DeepDiagnosis.Diagnosis,
                   p: DeepDiagnosis.Pool, xs: seq<DeepDiagnosis.State>, es: seq<DeepDiagnosis.Event>,
                   q: DeepDiagnosis.Pool, ys: seq<DeepDiagnosis.State>, fs: seq<DeepDiagnosis.Event>,
                   line: DeepDiagnosis.Line)
    requires SameObjects(inv, other)
    requires Completed(inv, n, diagnosis, p, xs, es) && Completed(other, n, diagnosis, q, ys, fs)
    ensures p.candidates == q.candidates
    ensures xs[|es|].enriched == ys[|fs|].enriched
    ensures DeepDiagnosis.Enriched(line, xs[|es|].enriched) == DeepDiagnosis.Enriched(line, ys[|fs|].enriched)
  {
    SameKept(inv, other, p.candidates, q.candidates, n);
    KeysAreDistinct(inv, n, p);
    KeysAreDistinct(other, n, q);
    DeepDiagnosis.InvAlways(p, xs, es, |es|);
    DeepDiagnosis.InvAlways(q, ys, fs, |fs|);
    SameTables(p, xs[|es|], q, ys[|fs|], diagnosis);
  }

  lemma SameTables(p: DeepDiagnosis.Pool, s: DeepDiagnosis.State, q: DeepDiagnosis.Pool, t: DeepDiagnosis.State,
                   diagnosis: Candidate -> DeepDiagnosis.Diagnosis)
    requires p.candidates == q.candidates && Diagnoses(p, diagnosis) && Diagnoses(q, diagnosis)
    requires DeepDiagnosis.Inv(p, s) && DeepDiagnosis.Done(p, s) && !s.cancelled && DeepDiagnosis.DistinctKeys(p)
    requires DeepDiagnosis.Inv(q, t) && DeepDiagnosis.Done(q, t) && !t.cancelled && DeepDiagnosis.DistinctKeys(q)
    ensures s.enriched == t.enriched
  {
    DeepDiagnosis.ArrivalOrderDoesNotMatter(p, s);
    DeepDiagnosis.ArrivalOrderDoesNotMatter(q, t);
    forall i | 0 <= i < |p.candidates| ensures DeepDiagnosis.FullResult(p, i) == DeepDiagnosis.FullResult(q, i) {
      assert p.diagnose(i) == q.diagnose(i) == diagnosis(p.candidates[i]);
    }
    DeepDiagnosis.SameTables(p.candidates, s.enriched, t.enriched);
  }
}
