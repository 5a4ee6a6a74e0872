/** The cluster health scan: seven inventories, the issues listed, and the
    candidates kept for deep diagnosis (internal/health/cluster.go). */
module ClusterHealth {
  import opened Wrappers
  import opened Ordering
  import opened Health

  /** One line of the report. */
  datatype Item = Item(kind: string, ns: string, name: string, health: Health)

  datatype Candidate = Candidate(kind: string, ns: string, name: string, health: Health, priority: int)

  /** One counted object: its line, how it is called and ranked as a candidate,
      and whether it is listed when healthy objects are asked for. */
  datatype Observation = Observation(item: Item, deepKind: string, priority: int, offered: bool)

  function CandidateOf(o: Observation): Candidate {
    Candidate(o.deepKind, o.item.ns, o.item.name, o.item.health, o.priority)
  }

  /** What the scan has found so far: the issues, the healthy objects it would
      list, and the candidates for deep diagnosis. */
  datatype Found = Found(issues: seq<Item>, offered: seq<Item>, candidates: seq<Candidate>)

  const NOTHING := Found([], [], [])

  function Grow(f: Found, o: Observation): Found {
    if o.item.health != Healthy then f.(issues := f.issues + [o.item], candidates := f.candidates + [CandidateOf(o)])
    else if o.offered then f.(offered := f.offered + [o.item])
    else f
  }

  function Finding(f: Found, obs: seq<Observation>): Found {
    if obs == [] then f else Grow(Finding(f, obs[..|obs| - 1]), obs[|obs| - 1])
  }

  function Healthies(obs: seq<Observation>): (n: nat)
    ensures n <= |obs|
  {
    if obs == [] then 0 else Healthies(obs[..|obs| - 1]) + if obs[|obs| - 1].item.health == Healthy then 1 else 0
  }

  function CountsOf(obs: seq<Observation>): Counts {
    Counts(|obs|, Healthies(obs))
  }

  /** The critical ones, or the others, in order. */
  function Only(items: seq<Item>, critical: bool): seq<Item> {
    if items == [] then []
    else
      var it := items[|items| - 1];
      Only(items[..|items| - 1], critical) + if (it.health == CriticalHealth) == critical then [it] else []
  }

  // ----- The report -----

  class Report {
    const limit: nat
    const includeHealthy: bool
    var critical: seq<Item>
    var warnings: seq<Item>
    var healthy: seq<Item>
    var truncated: bool

    /** The report after this much: the first issues found, split by gravity, and
        the first healthy objects if asked for. */
    ghost predicate Shows(f: Found)
      reads this
    {
      && critical == Only(First(f.issues, limit), true)
      && warnings == Only(First(f.issues, limit), false)
      && healthy == (if includeHealthy then First(f.offered, limit) else [])
      && (truncated <==> |f.issues| > limit || (includeHealthy && |f.offered| > limit))
    }

    constructor (limit: nat, includeHealthy: bool)
      ensures Shows(NOTHING) && this.limit == limit && this.includeHealthy == includeHealthy
    {
      this.limit, this.includeHealthy := limit, includeHealthy;
      critical, warnings, healthy, truncated := [], [], [], false;
    }

    method PushIssue(item: Item, ghost f: Found)
      requires Shows(f)
      modifies this
      ensures Shows(f.(issues := f.issues + [item]))
    {
      FirstOneMore(f.issues, item, limit);
      if |critical| + |warnings| >= limit {
        truncated := true;
        return;
      }
      if item.health == CriticalHealth {
        critical := critical + [item];
      } else {
        warnings := warnings + [item];
      }
    }

    method PushHealthy(item: Item, ghost f: Found)
      requires Shows(f) && includeHealthy
      modifies this
      ensures Shows(f.(offered := f.offered + [item]))
    {
      if |healthy| >= limit {
        truncated := true;
        return;
      }
      healthy := healthy + [item];
    }

    /** What every inventory loop does with the objects it has looked at; there
        are none if the list failed. */
    method Tally(part: seq<Observation>, candidates: seq<Candidate>, ghost start: Found)
      returns (counts: Counts, candidates': seq<Candidate>)
      requires Shows(start) && candidates == start.candidates
      modifies this
      ensures Shows(Finding(start, part)) && candidates' == Finding(start, part).candidates
      ensures counts == CountsOf(part)
    {
      counts, candidates' := Counts(0, 0), candidates;
      ghost var f := start;
      for i := 0 to |part|
        invariant f == Finding(start, part[..i])
        invariant Shows(f) && candidates' == f.candidates
        invariant counts == CountsOf(part[..i])
      {
        var o := part[i];
        assert part[..i + 1][..i] == part[..i];
        counts := counts.(total := counts.total + 1);
        if o.item.health == Healthy {
          counts := counts.(healthy := counts.healthy + 1);
        }
        candidates' := Take(o, candidates', f);
        f := Grow(f, o);
      }
      assert part[..|part|] == part;
    }

    method Take(o: Observation, candidates: seq<Candidate>, ghost f: Found) returns (candidates': seq<Candidate>)
      requires Shows(f) && candidates == f.candidates
      modifies this
      ensures Shows(Grow(f, o)) && candidates' == Grow(f, o).candidates
    {
      candidates' := candidates;
      if o.item.health == Healthy {
        if includeHealthy && o.offered {
          PushHealthy(o.item, f);
        }
      } else {
        PushIssue(o.item, f);
        candidates' := candidates + [CandidateOf(o)];
      }
    }
  }

  lemma {:induction false} OnlySplits(items: seq<Item>)
    ensures |Only(items, true)| + |Only(items, false)| == |items|
  {
    if items != [] {
      OnlySplits(items[..|items| - 1]);
    }
  }

  lemma FirstOneMore(items: seq<Item>, it: Item, limit: nat)
    ensures forall critical :: Only(First(items + [it], limit), critical) ==
                               Only(First(items, limit), critical) +
                               if |items| < limit && (it.health == CriticalHealth) == critical then [it] else []
    ensures |Only(First(items, limit), true)| + |Only(First(items, limit), false)| == Min(|items|, limit)
  {
    OnlySplits(First(items, limit));
    assert (items + [it])[..|items|] == items;
    if |items| >= limit {
      assert First(items + [it], limit) == First(items, limit);
    }
  }

  // ----- The inventories -----

  datatype NodeItem = NodeItem(name: string, status: NodeStatus)
  datatype PodItem = PodItem(ns: string, name: string, status: PodStatus)
  datatype Workload = Workload(ns: string, name: string, desired: Option<int>, ready: int)
  datatype JobItem = JobItem(ns: string, name: string, status: JobStatus)
  datatype Claim = Claim(ns: string, name: string, bound: bool)

  /** What the seven lists return; None is a list that failed. */
  datatype Inventory = Inventory(
    nodes: Option<seq<NodeItem>>, pods: Option<seq<PodItem>>, deployments: Option<seq<Workload>>,
    statefulSets: Option<seq<Workload>>, daemonSets: Option<seq<Workload>>, jobs: Option<seq<JobItem>>,
    claims: Option<seq<Claim>>)

  function SeeNode(n: NodeItem): Observation {
    var h := NodeHealth(n.status);
    Observation(Item("Node", "", n.name, h), "Node", if h == CriticalHealth then 2 else 3, true)
  }

  function SeePod(p: PodItem): Observation {
    Observation(Item("Pod", p.ns, p.name, PodHealth(p.status)), "Pod", 5, true)
  }

  function SeeWorkload(kind: string, offered: bool, w: Workload): Observation {
    var h := FromCounts(if w.desired.Some? then w.desired.value else 1, w.ready, false);
    Observation(Item(kind, w.ns, w.name, h), kind, if h == CriticalHealth then 0 else 3, offered)
  }

  function SeeJob(j: JobItem): Observation {
    var h := JobHealth(j.status);
    Observation(Item("Job", j.ns, j.name, h), "Job", if h == CriticalHealth then 1 else 3, false)
  }

  /** A claim is listed under one kind and diagnosed under another. */
  function SeeClaim(c: Claim): Observation {
    Observation(Item("PVC", c.ns, c.name, if c.bound then Healthy else CriticalHealth), "PersistentVolumeClaim", 4,
                false)
  }

  function Each<T>(xs: seq<T>, see: T -> Observation): seq<Observation> {
    if xs == [] then [] else Each(xs[..|xs| - 1], see) + [see(xs[|xs| - 1])]
  }

  function EachWorkload(kind: string, offered: bool, ws: seq<Workload>): seq<Observation> {
    if ws == [] then []
    else EachWorkload(kind, offered, ws[..|ws| - 1]) + [SeeWorkload(kind, offered, ws[|ws| - 1])]
  }

  /** Pods that have succeeded are not counted. */
  function Counted(pods: seq<PodItem>): seq<PodItem> {
    if pods == [] then []
    else
      Counted(pods[..|pods| - 1]) + if pods[|pods| - 1].status.phase == Succeeded then [] else [pods[|pods| - 1]]
  }

  lemma EachOneMore<T>(xs: seq<T>, x: T, see: T -> Observation)
    ensures Each(xs + [x], see) == Each(xs, see) + [see(x)]
  {
    assert (xs + [x])[..|xs|] == xs;
  }

  method SeeNodes(nodes: seq<NodeItem>) returns (obs: seq<Observation>)
    ensures obs == Each(nodes, SeeNode)
  {
    obs := [];
    for i := 0 to |nodes|
      invariant obs == Each(nodes[..i], SeeNode)
    {
      var n := nodes[i];
      assert nodes[..i + 1][..i] == nodes[..i];
      var h := FromNode(n.status);
      var pri := 2;
      if h != CriticalHealth {
        pri := 3;
      }
      obs := obs + [Observation(Item("Node", "", n.name, h), "Node", pri, true)];
    }
    assert nodes[..|nodes|] == nodes;
  }

  method SeePods(pods: seq<PodItem>) returns (obs: seq<Observation>)
    ensures obs == Each(Counted(pods), SeePod)
  {
    obs := [];
    for i := 0 to |pods|
      invariant obs == Each(Counted(pods[..i]), SeePod)
    {
      var p := pods[i];
      assert pods[..i + 1][..i] == pods[..i];
      if p.status.phase == Succeeded {
        assert Counted(pods[..i + 1]) == Counted(pods[..i]);
        continue;
      }
      EachOneMore(Counted(pods[..i]), p, SeePod);
      assert Counted(pods[..i + 1]) == Counted(pods[..i]) + [p];
      var h := FromPod(p.status);
      obs := obs + [Observation(Item("Pod", p.ns, p.name, h), "Pod", 5, true)];
    }
    assert pods[..|pods|] == pods;
  }

  /** Deployments, stateful sets and daemon sets. */
  method SeeWorkloads(kind: string, offered: bool, ws: seq<Workload>) returns (obs: seq<Observation>)
    ensures obs == EachWorkload(kind, offered, ws)
  {
    obs := [];
    for i := 0 to |ws|
      invariant obs == EachWorkload(kind, offered, ws[..i])
    {
      var w := ws[i];
      assert ws[..i + 1][..i] == ws[..i];
      var desired := 1;
      if w.desired.Some? {
        desired := w.desired.value;
      }
      var h := FromCounts(desired, w.ready, false);
      var pri := 3;
      if h == CriticalHealth {
        pri := 0;
      }
      obs := obs + [Observation(Item(kind, w.ns, w.name, h), kind, pri, offered)];
    }
    assert ws[..|ws|] == ws;
  }

  method SeeJobs(jobs: seq<JobItem>) returns (obs: seq<Observation>)
    ensures obs == Each(jobs, SeeJob)
  {
    obs := [];
    for i := 0 to |jobs|
      invariant obs == Each(jobs[..i], SeeJob)
    {
      var j := jobs[i];
      assert jobs[..i + 1][..i] == jobs[..i];
      var h := FromJob(j.status);
      var pri := 1;
      if h != CriticalHealth {
        pri := 3;
      }
      obs := obs + [Observation(Item("Job", j.ns, j.name, h), "Job", pri, false)];
    }
    assert jobs[..|jobs|] == jobs;
  }

  method SeeClaims(claims: seq<Claim>) returns (obs: seq<Observation>)
    ensures obs == Each(claims, SeeClaim)
  {
    obs := [];
    for i := 0 to |claims|
      invariant obs == Each(claims[..i], SeeClaim)
    {
      var c := claims[i];
      assert claims[..i + 1][..i] == claims[..i];
      var h := Healthy;
      if !c.bound {
        h := CriticalHealth;
      }
      obs := obs + [Observation(Item("PVC", c.ns, c.name, h), "PersistentVolumeClaim", 4, false)];
    }
    assert claims[..|claims|] == claims;
  }

  // ----- The scan -----

  datatype Tallies = Tallies(
    nodes: Counts, pods: Counts, deployments: Counts, statefulSets: Counts, daemonSets: Counts, jobs: Counts,
    storage: Counts)

  function NodePart(inv: Inventory): seq<Observation> {
    if inv.nodes.None? then [] else Each(inv.nodes.value, SeeNode)
  }

  function PodPart(inv: Inventory): seq<Observation> {
    if inv.pods.None? then [] else Each(Counted(inv.pods.value), SeePod)
  }

  function WorkloadPart(kind: string, offered: bool, ws: Option<seq<Workload>>): seq<Observation> {
    if ws.None? then [] else EachWorkload(kind, offered, ws.value)
  }

  function DeploymentPart(inv: Inventory): seq<Observation> {
    WorkloadPart("Deployment", true, inv.deployments)
  }

  function StatefulSetPart(inv: Inventory): seq<Observation> {
    WorkloadPart("StatefulSet", false, inv.statefulSets)
  }

  function DaemonSetPart(inv: Inventory): seq<Observation> {
    WorkloadPart("DaemonSet", false, inv.daemonSets)
  }

  function JobPart(inv: Inventory): seq<Observation> {
    if inv.jobs.None? then [] else Each(inv.jobs.value, SeeJob)
  }

  function ClaimPart(inv: Inventory): seq<Observation> {
    if inv.claims.None? then [] else Each(inv.claims.value, SeeClaim)
  }

  function TalliesOf(inv: Inventory): Tallies {
    Tallies(CountsOf(NodePart(inv)), CountsOf(PodPart(inv)), CountsOf(DeploymentPart(inv)),
            CountsOf(StatefulSetPart(inv)), CountsOf(DaemonSetPart(inv)), CountsOf(JobPart(inv)),
            CountsOf(ClaimPart(inv)))
  }

  function Workloads(t: Tallies): Counts {
    Counts(t.deployments.total + t.statefulSets.total + t.daemonSets.total + t.jobs.total,
           t.deployments.healthy + t.statefulSets.healthy + t.daemonSets.healthy + t.jobs.healthy)
  }

  predicate WorkloadsListed(inv: Inventory) {
    inv.deployments.Some? && inv.statefulSets.Some? && inv.daemonSets.Some? && inv.jobs.Some?
  }

  predicate AllListed(inv: Inventory) {
    inv.nodes.Some? && inv.pods.Some? && WorkloadsListed(inv) && inv.claims.Some?
  }

  /** Which lists succeeded. */
  datatype Lists = Lists(nodes: bool, pods: bool, deployments: bool, statefulSets: bool, daemonSets: bool, jobs: bool,
                         claims: bool)

  function ListsOf(inv: Inventory): Lists {
    Lists(inv.nodes.Some?, inv.pods.Some?, inv.deployments.Some?, inv.statefulSets.Some?, inv.daemonSets.Some?,
          inv.jobs.Some?, inv.claims.Some?)
  }

  predicate Limited(l: Lists) {
    !(l.nodes && l.pods && l.deployments && l.statefulSets && l.daemonSets && l.jobs && l.claims)
  }

  /** All the scan finds in workloads, and in everything, in its order. */
  function FindingWorkloads(f: Found, inv: Inventory): Found {
    Finding(Finding(Finding(Finding(f, DeploymentPart(inv)), StatefulSetPart(inv)), DaemonSetPart(inv)), JobPart(inv))
  }

  function FindingAll(inv: Inventory): Found {
    Finding(FindingWorkloads(Finding(Finding(NOTHING, NodePart(inv)), PodPart(inv)), inv), ClaimPart(inv))
  }

  method ScanWorkloads(rep: Report, inv: Inventory, candidates: seq<Candidate>, lists: Lists, ghost start: Found)
    returns (d: Counts, s: Counts, ds: Counts, j: Counts, lists': Lists, candidates': seq<Candidate>)
    requires rep.Shows(start) && candidates == start.candidates
    modifies rep
    ensures rep.Shows(FindingWorkloads(start, inv)) && candidates' == FindingWorkloads(start, inv).candidates
    ensures lists' == lists.(deployments := inv.deployments.Some?, statefulSets := inv.statefulSets.Some?,
                             daemonSets := inv.daemonSets.Some?, jobs := inv.jobs.Some?)
    ensures d == CountsOf(DeploymentPart(inv)) && s == CountsOf(StatefulSetPart(inv))
    ensures ds == CountsOf(DaemonSetPart(inv)) && j == CountsOf(JobPart(inv))
  {
    ghost var f := start;
    var listed1, listed2, listed3;
    d, listed1, candidates' := ScanKind(rep, "Deployment", true, inv.deployments, candidates, f);
    f := Finding(f, DeploymentPart(inv));
    s, listed2, candidates' := ScanKind(rep, "StatefulSet", false, inv.statefulSets, candidates', f);
    f := Finding(f, StatefulSetPart(inv));
    ds, listed3, candidates' := ScanKind(rep, "DaemonSet", false, inv.daemonSets, candidates', f);
    f := Finding(f, DaemonSetPart(inv));
    var part: seq<Observation> := [];
    if inv.jobs.Some? {
      part := SeeJobs(inv.jobs.value);
    }
    j, candidates' := rep.Tally(part, candidates', f);
    lists' := lists.(deployments := listed1, statefulSets := listed2, daemonSets := listed3, jobs := inv.jobs.Some?);
  }

  method ScanKind(rep: Report, kind: string, offered: bool, ws: Option<seq<Workload>>, candidates: seq<Candidate>,
                  ghost start: Found)
    returns (counts: Counts, listed: bool, candidates': seq<Candidate>)
    requires rep.Shows(start) && candidates == start.candidates
    modifies rep
    ensures listed == ws.Some?
    ensures rep.Shows(Finding(start, WorkloadPart(kind, offered, ws)))
    ensures candidates' == Finding(start, WorkloadPart(kind, offered, ws)).candidates
    ensures counts == CountsOf(WorkloadPart(kind, offered, ws))
  {
    var part: seq<Observation> := [];
    listed := false;
    if ws.Some? {
      part := SeeWorkloads(kind, offered, ws.value);
      listed := true;
    }
    counts, candidates' := rep.Tally(part, candidates, start);
  }

  method ScanNodes(rep: Report, inv: Inventory, candidates: seq<Candidate>, ghost start: Found)
    returns (counts: Counts, listed: bool, candidates': seq<Candidate>)
    requires rep.Shows(start) && candidates == start.candidates
    modifies rep
    ensures listed == inv.nodes.Some? && counts == CountsOf(NodePart(inv))
    ensures rep.Shows(Finding(start, NodePart(inv))) && candidates' == Finding(start, NodePart(inv)).candidates
  {
    var part: seq<Observation> := [];
    listed := false;
    if inv.nodes.Some? {
      part := SeeNodes(inv.nodes.value);
      listed := true;
    }
    counts, candidates' := rep.Tally(part, candidates, start);
  }

  method ScanPods(rep: Report, inv: Inventory, candidates: seq<Candidate>, ghost start: Found)
    returns (counts: Counts, listed: bool, candidates': seq<Candidate>)
    requires rep.Shows(start) && candidates == start.candidates
    modifies rep
    ensures listed == inv.pods.Some? && counts == CountsOf(PodPart(inv))
    ensures rep.Shows(Finding(start, PodPart(inv))) && candidates' == Finding(start, PodPart(inv)).candidates
  {
    var part: seq<Observation> := [];
    listed := false;
    if inv.pods.Some? {
      part := SeePods(inv.pods.value);
      listed := true;
    }
    counts, candidates' := rep.Tally(part, candidates, start);
  }

  method ScanClaims(rep: Report, inv: Inventory, candidates: seq<Candidate>, ghost start: Found)
    returns (counts: Counts, listed: bool, candidates': seq<Candidate>)
    requires rep.Shows(start) && candidates == start.candidates
    modifies rep
    ensures listed == inv.claims.Some? && counts == CountsOf(ClaimPart(inv))
    ensures rep.Shows(Finding(start, ClaimPart(inv))) && candidates' == Finding(start, ClaimPart(inv)).candidates
  {
    var part: seq<Observation> := [];
    listed := false;
    if inv.claims.Some? {
      part := SeeClaims(inv.claims.value);
      listed := true;
    }
    counts, candidates' := rep.Tally(part, candidates, start);
  }

  method ScanAll(inv: Inventory, limit: nat, includeHealthy: bool)
    returns (rep: Report, tallies: Tallies, lists: Lists, candidates: seq<Candidate>)
    ensures fresh(rep) && rep.limit == limit && rep.includeHealthy == includeHealthy
    ensures rep.Shows(FindingAll(inv)) && candidates == FindingAll(inv).candidates
    ensures tallies == TalliesOf(inv) && lists == ListsOf(inv)
  {
    rep := new Report(limit, includeHealthy);
    ghost var f := NOTHING;
    var nodes, nodesListed, more := ScanNodes(rep, inv, [], f);
    f := Finding(f, NodePart(inv));
    var pods, podsListed;
    pods, podsListed, more := ScanPods(rep, inv, more, f);
    f := Finding(f, PodPart(inv));
    lists := Lists(nodesListed, podsListed, true, true, true, true, true);
    var d, s, ds, j;
    d, s, ds, j, lists, more := ScanWorkloads(rep, inv, more, lists, f);
    f := FindingWorkloads(f, inv);
    var storage, claimsListed;
    storage, claimsListed, candidates := ScanClaims(rep, inv, more, f);
    lists := lists.(claims := claimsListed);
    tallies := Tallies(nodes, pods, d, s, ds, j, storage);
  }

  // ----- The verdict and the cut -----

  predicate CandidateBefore(a: Candidate, b: Candidate) {
    if a.priority != b.priority then a.priority < b.priority
    else if a.kind != b.kind then StrLess(a.kind, b.kind)
    else if a.ns != b.ns then StrLess(a.ns, b.ns)
    else StrLess(a.name, b.name)
  }

  lemma CandidateOrder()
    ensures WeakOrder(CandidateBefore)
  {
    StringOrder();
    forall x, y, z | CandidateBefore(x, y) && CandidateBefore(y, z) ensures CandidateBefore(x, z) {}
    forall x, y, z | !CandidateBefore(x, y) && !CandidateBefore(y, z) ensures !CandidateBefore(x, z) {}
  }

  /** The first n of the candidates in order. */
  ghost predicate AreLeast(kept: seq<Candidate>, all: seq<Candidate>, n: nat) {
    exists sorted: seq<Candidate> ::
      multiset(sorted) == multiset(all) && Sorted(sorted, CandidateBefore) && kept == First(sorted, n)
  }

  /** A bound that is not positive stands for its default. */
  function OrDefault(n: int, default: nat): nat {
    if n <= 0 then default else n
  }

  datatype Summary = Summary(
    partial: bool, lists: Lists, health: Health, tallies: Tallies, workloads: Counts,
    deepTruncated: bool, skipped: nat, kept: seq<Candidate>)

  function VerdictOf(inv: Inventory): Health {
    var t := TalliesOf(inv);
    Combined([PartHealth(t.nodes, inv.nodes.Some?), PartHealth(t.pods, inv.pods.Some?),
              PartHealth(Workloads(t), WorkloadsListed(inv)), PartHealth(t.storage, inv.claims.Some?)])
  }

  /** The scan up to the candidates that are diagnosed, if there is a diagnoser. */
  method Cluster(inv: Inventory, includeHealthy: bool, maxProblems: int, maxDeep: int, deep: bool)
    returns (rep: Report, s: Summary)
    ensures fresh(rep) && rep.limit == OrDefault(maxProblems, 50) && rep.includeHealthy == includeHealthy
    ensures rep.Shows(FindingAll(inv))
    ensures s.tallies == TalliesOf(inv) && s.workloads == Workloads(s.tallies)
    ensures s.lists == ListsOf(inv) && (s.partial <==> !AllListed(inv))
    ensures s.health == VerdictOf(inv)
    ensures if deep then AreLeast(s.kept, FindingAll(inv).candidates, OrDefault(maxDeep, 8)) else s.kept == []
    ensures s.skipped == if deep then |FindingAll(inv).candidates| - |s.kept| else 0
    ensures s.deepTruncated <==> s.skipped > 0
  {
    var limit := maxProblems;
    if limit <= 0 {
      limit := 50;
    }
    var tallies, lists, candidates;
    rep, tallies, lists, candidates := ScanAll(inv, limit, includeHealthy);
    var health := Judge(inv, tallies, lists);
    var kept, truncated, skipped := [], false, 0;
    if deep {
      kept, truncated, skipped := Cut(candidates, maxDeep);
    }
    s := Summary(Limited(lists), lists, health, tallies, Workloads(tallies), truncated, skipped, kept);
  }

  method Judge(inv: Inventory, tallies: Tallies, lists: Lists) returns (health: Health)
    requires tallies == TalliesOf(inv) && lists == ListsOf(inv)
    ensures health == VerdictOf(inv)
  {
    var workloadsListed := lists.deployments && lists.statefulSets && lists.daemonSets && lists.jobs;
    var workloads := PartHealth(Workloads(tallies), workloadsListed);
    health := Combine([PartHealth(tallies.nodes, lists.nodes), PartHealth(tallies.pods, lists.pods), workloads,
                       PartHealth(tallies.storage, lists.claims)]);
  }

  method Cut(candidates: seq<Candidate>, maxDeep: int) returns (kept: seq<Candidate>, truncated: bool, skipped: nat)
    ensures AreLeast(kept, candidates, OrDefault(maxDeep, 8))
    ensures |kept| == Min(|candidates|, OrDefault(maxDeep, 8))
    ensures skipped == |candidates| - |kept| && (truncated <==> skipped > 0)
  {
    var bound := maxDeep;
    if bound <= 0 {
      bound := 8;
    }
    truncated, skipped, kept := false, 0, candidates;
    if |candidates| > 0 {
      CandidateOrder();
      kept := StableSort(candidates, CandidateBefore);
    }
    ghost var sorted := kept;
    assert multiset(sorted) == multiset(candidates) && Sorted(sorted, CandidateBefore);
    assert |multiset(sorted)| == |multiset(candidates)|;
    if |kept| > bound {
      truncated := true;
      skipped := |kept| - bound;
      kept := kept[..bound];
    }
    assert kept == First(sorted, bound);
  }
}
