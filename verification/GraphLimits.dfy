/** Exactly when a deployment's graph is truncated, in terms of the limits and of
    the graph it would have without them (internal/graph/dependencies.go). */
module GraphLimits {
  import opened Wrappers
  import opened Signals
  import opened Graph
  import opened GraphBuilder
  import opened DeploymentGraph

  // ----- The graph without limits -----

  function AllSeen(rss: seq<ReplicaSet>): seq<nat> {
    seq(|rss|, k requires 0 <= k < |rss| => |Pods(rss[k])|)
  }

  /** The edges before the turn of the k-th replica set, nothing left out. */
  function BeforeSet(d: Deployment, rss: seq<ReplicaSet>, k: nat): seq<Edge>
    requires k <= |rss|
  {
    SetsEdges(d, rss, AllSeen(rss)[..k])
  }

  /** The edges before the turn of the i-th pod of the k-th replica set. */
  function BeforePod(d: Deployment, rss: seq<ReplicaSet>, k: nat, i: nat): seq<Edge>
    requires k < |rss| && i <= |Pods(rss[k])|
  {
    BeforeSet(d, rss, k) + Mirror(DeployRef(d), SetRef(d.ns, rss[k]))
    + PodsEdges(d.ns, SetRef(d.ns, rss[k]), Pods(rss[k])[..i], rss[k].uid)
  }

  /** The number of nodes a graph of these edges has. */
  function Size(d: Deployment, edges: seq<Edge>): nat {
    |NodesPlus([DeployRef(d)], edges)|
  }

  /** The k-th replica set belongs to the deployment. */
  predicate OwnedSet(d: Deployment, rss: seq<ReplicaSet>, k: nat) {
    k < |rss| && d.uid in rss[k].owners
  }

  /** The i-th pod listed for it belongs to it. */
  predicate OwnedPod(d: Deployment, rss: seq<ReplicaSet>, k: nat, i: nat) {
    OwnedSet(d, rss, k) && i < |Pods(rss[k])| && rss[k].uid in Pods(rss[k])[i].owners
  }

  // ----- When it is truncated -----

  /** Pods are two steps away from the deployment, so a depth of one leaves no room
      for any. */
  ghost predicate TooDeep(lim: Limits, d: Deployment, rss: seq<ReplicaSet>) {
    lim.maxDepth == 1 && exists k: nat, i: nat :: OwnedPod(d, rss, k, i)
  }

  /** There are as many nodes as are allowed, and something owned is still to come. */
  ghost predicate TooMany(lim: Limits, d: Deployment, rss: seq<ReplicaSet>) {
    lim.maxNodes > 0
    && ((exists k: nat :: OwnedSet(d, rss, k) && Size(d, BeforeSet(d, rss, k)) >= lim.maxNodes)
        || (exists k: nat, i: nat :: OwnedPod(d, rss, k, i) && Size(d, BeforePod(d, rss, k, i)) >= lim.maxNodes))
  }

  /** Every owned replica set before k was seen to the end of its pods. */
  ghost predicate CompleteTo(d: Deployment, rss: seq<ReplicaSet>, seen: seq<nat>, k: nat)
    requires k <= |seen| <= |rss|
  {
    forall j :: 0 <= j < k && d.uid in rss[j].owners ==> seen[j] == |Pods(rss[j])|
  }

  lemma {:induction false} SameAsComplete(d: Deployment, rss: seq<ReplicaSet>, seen: seq<nat>, k: nat)
    requires k <= |seen| <= |rss| && CompleteTo(d, rss, seen, k)
    ensures SetsEdges(d, rss, seen[..k]) == BeforeSet(d, rss, k)
  {
    if k > 0 {
      SameAsComplete(d, rss, seen, k - 1);
      assert seen[..k][..k - 1] == seen[..k - 1];
      assert AllSeen(rss)[..k][..k - 1] == AllSeen(rss)[..k - 1];
    }
  }

  /** The first owned replica set that was not seen to the end. */
  lemma FirstSkip(d: Deployment, rss: seq<ReplicaSet>, seen: seq<nat>) returns (k: nat)
    requires Seen(d, rss, seen) && PodSkipped(d, rss, seen)
    ensures k < |seen| && d.uid in rss[k].owners && seen[k] < |Pods(rss[k])| && CompleteTo(d, rss, seen, k)
  {
    var last :| 0 <= last < |seen| && d.uid in rss[last].owners && seen[last] < |Pods(rss[last])|;
    k := 0;
    while !(d.uid in rss[k].owners && seen[k] < |Pods(rss[k])|)
      invariant k <= last && CompleteTo(d, rss, seen, k)
      decreases last - k
    {
      k := k + 1;
    }
  }

  lemma StoppedAtPod(lim: Limits, d: Deployment, rss: seq<ReplicaSet>, seen: seq<nat>, k: nat)
    requires Seen(d, rss, seen) && SetsFit(lim, d, rss, seen)
    requires k < |seen| && d.uid in rss[k].owners && seen[k] < |Pods(rss[k])| && CompleteTo(d, rss, seen, k)
    ensures TooDeep(lim, d, rss) || TooMany(lim, d, rss)
  {
    assert TurnFits(lim, d, rss, seen, k);
    SameAsComplete(d, rss, seen, k);
    assert OwnedPod(d, rss, k, seen[k]);
  }

  lemma StoppedAtSet(lim: Limits, d: Deployment, rss: seq<ReplicaSet>, seen: seq<nat>)
    requires |seen| < |rss| && d.uid in rss[|seen|].owners && CompleteTo(d, rss, seen, |seen|)
    requires Full(lim, DeployRef(d), 1, SetsEdges(d, rss, seen))
    ensures TooMany(lim, d, rss)
  {
    SameAsComplete(d, rss, seen, |seen|);
    assert seen[..|seen|] == seen;
    assert OwnedSet(d, rss, |seen|);
  }

  lemma NothingInTheWay(lim: Limits, d: Deployment, rss: seq<ReplicaSet>, seen: seq<nat>)
    requires |seen| == |rss| && SetsFit(lim, d, rss, seen) && CompleteTo(d, rss, seen, |seen|)
    ensures !TooDeep(lim, d, rss) && !TooMany(lim, d, rss)
  {
    forall k: nat | OwnedSet(d, rss, k) ensures lim.maxNodes > 0 ==> Size(d, BeforeSet(d, rss, k)) < lim.maxNodes {
      assert TurnFits(lim, d, rss, seen, k);
      SameAsComplete(d, rss, seen, k);
    }
    forall k: nat, i: nat | OwnedPod(d, rss, k, i)
      ensures lim.maxDepth != 1 && (lim.maxNodes > 0 ==> Size(d, BeforePod(d, rss, k, i)) < lim.maxNodes)
    {
      assert TurnFits(lim, d, rss, seen, k);
      SameAsComplete(d, rss, seen, k);
    }
  }

  /** A graph whose lists did not fail is truncated if and only if the deployment has
      a pod and only a depth of one is allowed, or the graph without limits reaches
      the allowed number of nodes before the turn of a replica set or pod. */
  lemma TruncatedExactly(lim: Limits, d: Deployment, rss: seq<ReplicaSet>, hpas: Option<seq<HPA>>,
                         pdbs: Option<seq<PDB>>, edges: seq<Edge>, truncated: bool, err: bool, seen: seq<nat>,
                         cap: bool)
    requires IsBuild(lim, d, rss, hpas, pdbs, edges, truncated, err, seen, cap, false)
    ensures truncated <==> TooDeep(lim, d, rss) || TooMany(lim, d, rss)
  {
    if PodSkipped(d, rss, seen) {
      var k := FirstSkip(d, rss, seen);
      StoppedAtPod(lim, d, rss, seen, k);
    } else if cap {
      StoppedAtSet(lim, d, rss, seen);
    } else {
      NothingInTheWay(lim, d, rss, seen);
    }
  }

  // ----- A graph that fits -----

  lemma {:induction false} NeverFewer(nodes: seq<Ref>, a: seq<Edge>, b: seq<Edge>)
    requires a <= b
    ensures |NodesPlus(nodes, a)| <= |NodesPlus(nodes, b)|
    decreases |b|
  {
    if |a| < |b| {
      NeverFewer(nodes, a, b[..|b| - 1]);
    } else {
      assert a == b;
    }
  }

  lemma {:induction false} PodsInOrder(ns: string, owner: Ref, pods: seq<Pod>, uid: string, i: nat)
    requires i <= |pods|
    ensures PodsEdges(ns, owner, pods[..i], uid) <= PodsEdges(ns, owner, pods, uid)
  {
    if i < |pods| {
      PodsInOrder(ns, owner, pods[..|pods| - 1], uid, i);
      assert pods[..|pods| - 1][..i] == pods[..i];
    } else {
      assert pods[..i] == pods;
    }
  }

  lemma {:induction false} SetsInOrder(d: Deployment, rss: seq<ReplicaSet>, k: nat, n: nat)
    requires k <= n <= |rss|
    ensures BeforeSet(d, rss, k) <= BeforeSet(d, rss, n)
    decreases n
  {
    if k < n {
      SetsInOrder(d, rss, k, n - 1);
      assert AllSeen(rss)[..n][..n - 1] == AllSeen(rss)[..n - 1];
    }
  }

  lemma PodsBeforeTheEnd(d: Deployment, rss: seq<ReplicaSet>, k: nat, i: nat)
    requires OwnedPod(d, rss, k, i)
    ensures BeforePod(d, rss, k, i) <= BeforeSet(d, rss, k + 1)
  {
    var rs := rss[k];
    PodsInOrder(d.ns, SetRef(d.ns, rs), Pods(rs), rs.uid, i);
    assert First(Pods(rs), |Pods(rs)|) == Pods(rs);
    assert AllSeen(rss)[..k + 1][..k] == AllSeen(rss)[..k];
    assert BeforeSet(d, rss, k + 1) == BeforeSet(d, rss, k) + SetEdges(d, rs, |Pods(rs)|);
  }

  /** A graph that stays below the allowed number of nodes, with room for pods, is
      never truncated. */
  lemma FittingIsNotTruncated(lim: Limits, d: Deployment, rss: seq<ReplicaSet>, hpas: Option<seq<HPA>>,
                              pdbs: Option<seq<PDB>>, edges: seq<Edge>, truncated: bool, err: bool, seen: seq<nat>,
                              cap: bool)
    requires IsBuild(lim, d, rss, hpas, pdbs, edges, truncated, err, seen, cap, false)
    requires lim.maxDepth != 1 && (lim.maxNodes > 0 ==> Size(d, BeforeSet(d, rss, |rss|)) < lim.maxNodes)
    ensures !truncated
  {
    TruncatedExactly(lim, d, rss, hpas, pdbs, edges, truncated, err, seen, cap);
    forall k: nat | OwnedSet(d, rss, k) ensures Size(d, BeforeSet(d, rss, k)) <= Size(d, BeforeSet(d, rss, |rss|)) {
      SetsInOrder(d, rss, k, |rss|);
      NeverFewer([DeployRef(d)], BeforeSet(d, rss, k), BeforeSet(d, rss, |rss|));
    }
    forall k: nat, i: nat | OwnedPod(d, rss, k, i)
      ensures Size(d, BeforePod(d, rss, k, i)) <= Size(d, BeforeSet(d, rss, |rss|))
    {
      PodsBeforeTheEnd(d, rss, k, i);
      SetsInOrder(d, rss, k + 1, |rss|);
      NeverFewer([DeployRef(d)], BeforePod(d, rss, k, i), BeforeSet(d, rss, |rss|));
    }
  }
}
