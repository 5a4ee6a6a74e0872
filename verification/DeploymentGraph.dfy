/** The graph of a deployment: its replica sets and their pods as far as the
    limits allow, then what its template uses and what scales and protects it
    (internal/graph/dependencies.go). */
module DeploymentGraph {
  import opened Wrappers
  import opened Signals
  import opened Graph
  import opened GraphBuilder

  datatype Pod = Pod(ns: string, name: string, uid: string, owners: seq<string>, spec: PodSpec)

  /** With the pods listed for it; None is a list that failed. */
  datatype ReplicaSet = ReplicaSet(name: string, uid: string, owners: seq<string>, pods: Option<seq<Pod>>)

  datatype Deployment = Deployment(ns: string, name: string, uid: string, hasSelector: bool, template: PodSpec)

  datatype HPA = HPA(targetKind: string, targetName: string, name: string, uid: string)

  /** covers is what the label library says of the budget and the deployment. */
  datatype PDB = PDB(covers: bool, name: string, uid: string)

  function PodRef(p: Pod): Ref {
    Ref("v1", "Pod", p.ns, p.name, p.uid)
  }

  function DeployRef(d: Deployment): Ref {
    Ref("apps/v1", "Deployment", d.ns, d.name, d.uid)
  }

  function SetRef(ns: string, rs: ReplicaSet): Ref {
    Ref("apps/v1", "ReplicaSet", ns, rs.name, rs.uid)
  }

  function Pods(rs: ReplicaSet): seq<Pod> {
    if rs.pods.None? then [] else rs.pods.value
  }

  // ----- The edges -----

  function Mirror(owner: Ref, owned: Ref): seq<Edge> {
    [Edge(Owns, owner, owned), Edge(OwnedBy, owned, owner)]
  }

  function PodEdges(ns: string, owner: Ref, p: Pod): seq<Edge> {
    Mirror(owner, PodRef(p)) + From(PodRef(p), Links(ns, p.spec))
  }

  /** The edges of the pods that uid owns, in list order. */
  function PodsEdges(ns: string, owner: Ref, pods: seq<Pod>, uid: string): seq<Edge> {
    if pods == [] then []
    else
      var before, p := PodsEdges(ns, owner, pods[..|pods| - 1], uid), pods[|pods| - 1];
      if uid in p.owners then before + PodEdges(ns, owner, p) else before
  }

  /** A replica set and those of its first n listed pods that it owns. */
  function SetEdges(d: Deployment, rs: ReplicaSet, n: nat): seq<Edge> {
    Mirror(DeployRef(d), SetRef(d.ns, rs)) + PodsEdges(d.ns, SetRef(d.ns, rs), First(Pods(rs), n), rs.uid)
  }

  /** The owned ones of the replica sets reached, each with its pods as far as
      they were seen. */
  function SetsEdges(d: Deployment, rss: seq<ReplicaSet>, seen: seq<nat>): seq<Edge>
    requires |seen| <= |rss|
  {
    if seen == [] then []
    else
      var last := |seen| - 1;
      var before := SetsEdges(d, rss, seen[..last]);
      if d.uid in rss[last].owners then before + SetEdges(d, rss[last], seen[last]) else before
  }

  // ----- How much a graph grows -----

  lemma {:induction false} NodesTogether(nodes: seq<Ref>, a: seq<Edge>, b: seq<Edge>)
    ensures NodesPlus(nodes, a + b) == NodesPlus(NodesPlus(nodes, a), b)
    decreases |b|
  {
    if b == [] {
      assert a + b == a;
    } else {
      assert (a + b)[..|a + b| - 1] == a + b[..|b| - 1];
      NodesTogether(nodes, a, b[..|b| - 1]);
    }
  }

  /** Edges whose source is there add at most one node each, and no edge takes a
      node away. */
  lemma {:induction false} LinksGrow(nodes: seq<Ref>, src: Ref, links: seq<Link>, m: Ref)
    requires Represented(nodes, src)
    ensures |NodesPlus(nodes, From(src, links))| <= |nodes| + |links|
    ensures Represented(NodesPlus(nodes, From(src, links)), src)
    ensures Represented(nodes, m) ==> Represented(NodesPlus(nodes, From(src, links)), m)
  {
    if links != [] {
      var most, last := links[..|links| - 1], links[|links| - 1];
      LinksGrow(nodes, src, most, m);
      var before := NodesPlus(nodes, From(src, most));
      assert From(src, links)[..|links| - 1] == From(src, most);
      assert NodesPlus(nodes, From(src, links)) == WithNode(WithNode(before, src), last.dst);
      StaysRepresented(before, last.dst, src);
      StaysRepresented(before, last.dst, m);
    }
  }

  lemma MirrorGrows(nodes: seq<Ref>, owner: Ref, owned: Ref, m: Ref)
    requires Represented(nodes, owner)
    ensures |NodesPlus(nodes, Mirror(owner, owned))| <= |nodes| + 1
    ensures Represented(NodesPlus(nodes, Mirror(owner, owned)), owned)
    ensures Represented(nodes, m) ==> Represented(NodesPlus(nodes, Mirror(owner, owned)), m)
  {
    var one := [Edge(Owns, owner, owned)];
    NodesStep(nodes, [], Edge(Owns, owner, owned));
    NodesStep(nodes, one, Edge(OwnedBy, owned, owner));
    assert [] + one == one && one + [Edge(OwnedBy, owned, owner)] == Mirror(owner, owned);
    StaysRepresented(nodes, owned, owner);
    StaysRepresented(nodes, owned, m);
  }

  lemma PodGrows(nodes: seq<Ref>, ns: string, owner: Ref, p: Pod, m: Ref)
    requires Represented(nodes, owner)
    ensures |NodesPlus(nodes, PodEdges(ns, owner, p))| <= |nodes| + 1 + |Links(ns, p.spec)|
    ensures Represented(nodes, m) ==> Represented(NodesPlus(nodes, PodEdges(ns, owner, p)), m)
  {
    MirrorGrows(nodes, owner, PodRef(p), m);
    LinksGrow(NodesPlus(nodes, Mirror(owner, PodRef(p))), PodRef(p), Links(ns, p.spec), m);
    NodesTogether(nodes, Mirror(owner, PodRef(p)), From(PodRef(p), Links(ns, p.spec)));
  }

  // ----- The loops -----

  /** No pod that uid owns refers to more than this many resources. */
  ghost predicate AtMost(ns: string, pods: seq<Pod>, uid: string, most: nat) {
    forall p :: p in pods && uid in p.owners ==> |Links(ns, p.spec)| <= most
  }

  ghost predicate WithinCap(lim: Limits, size: nat, most: nat) {
    lim.maxNodes > 0 ==> size <= lim.maxNodes + most
  }

  /** One owned pod: its two edges and everything its spec refers to. */
  method AddPod(g: Graph, ns: string, owner: Ref, p: Pod)
    requires Grown(g)
    modifies g`nodes, g`visited, g`edges
    ensures Grown(g) && g.edges == old(g.edges) + PodEdges(ns, owner, p)
  {
    Assoc(g.edges, Mirror(owner, PodRef(p)), From(PodRef(p), Links(ns, p.spec)));
    AddMirror(g, owner, PodRef(p));
    FromPodSpec(g, ns, PodRef(p), p.spec);
  }

  method AddMirror(g: Graph, owner: Ref, owned: Ref)
    requires Grown(g)
    modifies g`nodes, g`visited, g`edges
    ensures Grown(g) && g.edges == old(g.edges) + Mirror(owner, owned)
  {
    NodesStep([g.root], g.edges, Edge(Owns, owner, owned));
    NodesStep([g.root], g.edges + [Edge(Owns, owner, owned)], Edge(OwnedBy, owned, owner));
    g.AddEdge(Owns, owner, owned);
    g.AddEdge(OwnedBy, owned, owner);
  }

  /** Nothing more fits at this depth into a graph with this root and these edges. */
  ghost predicate Full(lim: Limits, root: Ref, depth: int, edges: seq<Edge>) {
    || (lim.maxDepth > 0 && depth > lim.maxDepth)
    || (lim.maxNodes > 0 && |NodesPlus([root], edges)| >= lim.maxNodes)
  }

  /** The first n pods, as far as they are owned, fitted when their turn came. */
  ghost predicate FirstFit(lim: Limits, root: Ref, depth: int, start: seq<Edge>, ns: string, owner: Ref, pods: seq<Pod>,
                           uid: string, n: nat)
    requires n <= |pods|
  {
    forall i :: 0 <= i < n && uid in pods[i].owners ==>
      !Full(lim, root, depth, start + PodsEdges(ns, owner, pods[..i], uid))
  }

  /** Each owned pod that was seen fitted when its turn came, and where the loop
      stopped nothing more did. */
  ghost predicate PodsFit(lim: Limits, root: Ref, depth: int, start: seq<Edge>, ns: string, owner: Ref, pods: seq<Pod>,
                          uid: string, seen: nat) {
    && seen <= |pods| && FirstFit(lim, root, depth, start, ns, owner, pods, uid, seen)
    && (seen < |pods| ==> Full(lim, root, depth, start + PodsEdges(ns, owner, pods[..seen], uid)))
  }

  lemma FirstFitMore(lim: Limits, root: Ref, depth: int, start: seq<Edge>, ns: string, owner: Ref, pods: seq<Pod>,
                     uid: string, n: nat)
    requires n < |pods| && FirstFit(lim, root, depth, start, ns, owner, pods, uid, n)
    requires uid in pods[n].owners ==> !Full(lim, root, depth, start + PodsEdges(ns, owner, pods[..n], uid))
    ensures FirstFit(lim, root, depth, start, ns, owner, pods, uid, n + 1)
  {
  }

  /** The limits come first: a pod that no longer fits is not added. */
  method TakePod(g: Graph, lim: Limits, ns: string, owner: Ref, p: Pod, depth: int, ghost most: nat)
    returns (cap: bool)
    requires Grown(g) && Represented(g.nodes, owner) && WithinCap(lim, |g.nodes|, most)
    requires |Links(ns, p.spec)| <= most
    modifies g
    ensures cap <==> Full(lim, g.root, depth, old(g.edges))
    ensures Grown(g) && Represented(g.nodes, owner) && WithinCap(lim, |g.nodes|, most)
    ensures g.edges == if cap then old(g.edges) else old(g.edges) + PodEdges(ns, owner, p)
    ensures g.truncated <==> old(g.truncated) || cap
  {
    cap := g.CapReachedAt(lim, depth);
    if !cap {
      PodGrows(g.nodes, ns, owner, p, owner);
      NodesTogether([g.root], g.edges, PodEdges(ns, owner, p));
      AddPod(g, ns, owner, p);
    }
  }

  /** The pods of one owner, up to the first that no longer fits. */
  method AddPodsByOwner(g: Graph, lim: Limits, ns: string, rs: ReplicaSet, owner: Ref, depth: int, ghost most: nat)
    returns (err: bool, ghost seen: nat)
    requires Grown(g) && Represented(g.nodes, owner) && WithinCap(lim, |g.nodes|, most)
    requires AtMost(ns, Pods(rs), rs.uid, most)
    modifies g
    ensures Grown(g) && WithinCap(lim, |g.nodes|, most)
    ensures err <==> rs.pods.None?
    ensures seen <= |Pods(rs)| && g.edges == old(g.edges) + PodsEdges(ns, owner, First(Pods(rs), seen), rs.uid)
    ensures g.truncated <==> old(g.truncated) || seen < |Pods(rs)|
    ensures seen < |Pods(rs)| ==> rs.uid in Pods(rs)[seen].owners
    ensures PodsFit(lim, g.root, depth, old(g.edges), ns, owner, Pods(rs), rs.uid, seen)
  {
    err, seen := rs.pods.None?, 0;
    if rs.pods.None? {
      assert g.edges + [] == g.edges;
    } else {
      seen := AddOwned(g, lim, ns, rs.pods.value, rs.uid, owner, depth, most);
      assert First(Pods(rs), seen) == rs.pods.value[..seen];
    }
  }

  method AddOwned(g: Graph, lim: Limits, ns: string, pods: seq<Pod>, uid: string, owner: Ref, depth: int,
                  ghost most: nat)
    returns (ghost seen: nat)
    requires Grown(g) && Represented(g.nodes, owner) && WithinCap(lim, |g.nodes|, most)
    requires AtMost(ns, pods, uid, most)
    modifies g
    ensures Grown(g) && WithinCap(lim, |g.nodes|, most)
    ensures seen <= |pods| && g.edges == old(g.edges) + PodsEdges(ns, owner, pods[..seen], uid)
    ensures g.truncated <==> old(g.truncated) || seen < |pods|
    ensures seen < |pods| ==> uid in pods[seen].owners
    ensures PodsFit(lim, g.root, depth, old(g.edges), ns, owner, pods, uid, seen)
  {
    assert g.edges + [] == g.edges;
    for i := 0 to |pods|
      invariant Grown(g) && WithinCap(lim, |g.nodes|, most) && Represented(g.nodes, owner)
      invariant g.edges == old(g.edges) + PodsEdges(ns, owner, pods[..i], uid)
      invariant g.truncated == old(g.truncated)
      invariant FirstFit(lim, g.root, depth, old(g.edges), ns, owner, pods, uid, i)
    {
      PodsStep(ns, owner, pods, i, uid, old(g.edges));
      if uid !in pods[i].owners {
        FirstFitMore(lim, g.root, depth, old(g.edges), ns, owner, pods, uid, i);
        continue;
      }
      var cap := TakePod(g, lim, ns, owner, pods[i], depth, most);
      if cap {
        return i;
      }
      FirstFitMore(lim, g.root, depth, old(g.edges), ns, owner, pods, uid, i);
    }
    assert pods[..|pods|] == pods;
    return |pods|;
  }

  lemma PodsStep(ns: string, owner: Ref, pods: seq<Pod>, i: nat, uid: string, start: seq<Edge>)
    requires i < |pods|
    ensures start + PodsEdges(ns, owner, pods[..i + 1], uid) ==
            if uid in pods[i].owners then start + PodsEdges(ns, owner, pods[..i], uid) + PodEdges(ns, owner, pods[i])
            else start + PodsEdges(ns, owner, pods[..i], uid)
  {
    assert pods[..i + 1][..i] == pods[..i];
    Assoc(start, PodsEdges(ns, owner, pods[..i], uid), PodEdges(ns, owner, pods[i]));
  }

  /** One owned replica set, if the limits allow it. */
  method TakeSet(g: Graph, lim: Limits, d: Deployment, rs: ReplicaSet, ghost most: nat)
    returns (cap: bool, err: bool, ghost seen: nat)
    requires Grown(g) && g.root == DeployRef(d) && WithinCap(lim, |g.nodes|, most)
    requires AtMost(d.ns, Pods(rs), rs.uid, most)
    modifies g
    ensures Grown(g) && WithinCap(lim, |g.nodes|, most)
    ensures cap <==> Full(lim, g.root, 1, old(g.edges))
    ensures !cap ==> PodsFit(lim, g.root, 2, old(g.edges) + Mirror(g.root, SetRef(d.ns, rs)), d.ns, SetRef(d.ns, rs),
                             Pods(rs), rs.uid, seen)
    ensures cap ==> g.edges == old(g.edges) && g.truncated && !err && seen == 0
    ensures !cap ==> && (err <==> rs.pods.None?)
                     && seen <= |Pods(rs)|
                     && g.edges == old(g.edges) + SetEdges(d, rs, seen)
                     && (g.truncated <==> old(g.truncated) || seen < |Pods(rs)|)
                     && (seen < |Pods(rs)| ==> rs.uid in Pods(rs)[seen].owners)
  {
    err, seen := false, 0;
    cap := g.CapReachedAt(lim, 1);
    if cap {
      return;
    }
    var owner := SetRef(d.ns, rs);
    RootStays([g.root], g.edges);
    MirrorGrows(g.nodes, DeployRef(d), owner, owner);
    NodesTogether([g.root], g.edges, Mirror(DeployRef(d), owner));
    ghost var start := g.edges;
    AddMirror(g, DeployRef(d), owner);
    err, seen := AddPodsByOwner(g, lim, d.ns, rs, owner, 2, most);
    Assoc(start, Mirror(DeployRef(d), owner), PodsEdges(d.ns, owner, First(Pods(rs), seen), rs.uid));
  }

  lemma {:induction false} RootStays(nodes: seq<Ref>, edges: seq<Edge>)
    requires nodes != []
    ensures Represented(NodesPlus(nodes, edges), nodes[0])
  {
    if edges != [] {
      var e := edges[|edges| - 1];
      var before := NodesPlus(nodes, edges[..|edges| - 1]);
      RootStays(nodes, edges[..|edges| - 1]);
      StaysRepresented(before, e.src, nodes[0]);
      StaysRepresented(WithNode(before, e.src), e.dst, nodes[0]);
    } else {
      assert nodes[0] in nodes && StandsFor(nodes[0], nodes[0]);
    }
  }

  ghost predicate AllAtMost(d: Deployment, rss: seq<ReplicaSet>, most: nat) {
    forall rs :: rs in rss && d.uid in rs.owners ==> AtMost(d.ns, Pods(rs), rs.uid, most)
  }

  /** How far each replica set's pods were seen: never past the end, and a stop
      before the end is at a pod it owns. */
  ghost predicate Seen(d: Deployment, rss: seq<ReplicaSet>, seen: seq<nat>) {
    && |seen| <= |rss|
    && forall k :: 0 <= k < |seen| ==>
         && seen[k] <= |Pods(rss[k])|
         && (seen[k] < |Pods(rss[k])| && d.uid in rss[k].owners ==> rss[k].uid in Pods(rss[k])[seen[k]].owners)
  }

  /** Some owned pod of an owned replica set was left out. */
  ghost predicate PodSkipped(d: Deployment, rss: seq<ReplicaSet>, seen: seq<nat>)
    requires |seen| <= |rss|
  {
    exists k :: 0 <= k < |seen| && d.uid in rss[k].owners && seen[k] < |Pods(rss[k])|
  }

  /** No pod list of an owned replica set failed. */
  ghost predicate PodsListed(d: Deployment, rss: seq<ReplicaSet>, n: nat)
    requires n <= |rss|
  {
    forall k :: 0 <= k < n && d.uid in rss[k].owners ==> rss[k].pods.Some?
  }

  lemma SetsStep(d: Deployment, rss: seq<ReplicaSet>, seen: seq<nat>, n: nat)
    requires |seen| < |rss|
    ensures SetsEdges(d, rss, seen + [n]) ==
            if d.uid in rss[|seen|].owners then SetsEdges(d, rss, seen) + SetEdges(d, rss[|seen|], n)
            else SetsEdges(d, rss, seen)
  {
    assert (seen + [n])[..|seen|] == seen;
  }

  lemma SkippedStep(d: Deployment, rss: seq<ReplicaSet>, seen: seq<nat>, n: nat)
    requires |seen| < |rss|
    ensures PodSkipped(d, rss, seen + [n]) <==>
            PodSkipped(d, rss, seen) || (d.uid in rss[|seen|].owners && n < |Pods(rss[|seen|])|)
  {
    var i := |seen|;
    assert (seen + [n])[i] == n;
    assert forall k :: 0 <= k < i ==> (seen + [n])[k] == seen[k];
    if PodSkipped(d, rss, seen) {
      var k :| 0 <= k < i && d.uid in rss[k].owners && seen[k] < |Pods(rss[k])|;
      assert (seen + [n])[k] < |Pods(rss[k])|;
    }
  }

  /** The k-th replica set, if it is owned, fitted when its turn came, and its pods
      as far as they were seen. */
  ghost predicate TurnFits(lim: Limits, d: Deployment, rss: seq<ReplicaSet>, seen: seq<nat>, k: nat)
    requires k < |seen| <= |rss|
  {
    d.uid in rss[k].owners ==>
      && !Full(lim, DeployRef(d), 1, SetsEdges(d, rss, seen[..k]))
      && PodsFit(lim, DeployRef(d), 2, SetsEdges(d, rss, seen[..k]) + Mirror(DeployRef(d), SetRef(d.ns, rss[k])), d.ns,
                 SetRef(d.ns, rss[k]), Pods(rss[k]), rss[k].uid, seen[k])
  }

  ghost predicate SetsFit(lim: Limits, d: Deployment, rss: seq<ReplicaSet>, seen: seq<nat>)
    requires |seen| <= |rss|
  {
    forall k :: 0 <= k < |seen| ==> TurnFits(lim, d, rss, seen, k)
  }

  lemma FitsStep(lim: Limits, d: Deployment, rss: seq<ReplicaSet>, seen: seq<nat>, n: nat)
    requires |seen| < |rss| && SetsFit(lim, d, rss, seen)
    requires TurnFits(lim, d, rss, seen + [n], |seen|)
    ensures SetsFit(lim, d, rss, seen + [n])
  {
    forall k | 0 <= k < |seen + [n]| ensures TurnFits(lim, d, rss, seen + [n], k) {
      if k < |seen| {
        assert TurnFits(lim, d, rss, seen, k);
        assert (seen + [n])[..k] == seen[..k];
      }
    }
  }

  /** What the graph holds of the replica sets reached. */
  ghost predicate Holds(g: Graph, d: Deployment, rss: seq<ReplicaSet>, seen: seq<nat>)
    reads g
  {
    && Seen(d, rss, seen) && g.edges == SetsEdges(d, rss, seen)
    && (g.truncated <==> PodSkipped(d, rss, seen))
  }

  /** The turn of one replica set. */
  method NextSet(g: Graph, lim: Limits, d: Deployment, rss: seq<ReplicaSet>, i: nat, ghost seen: seq<nat>,
                 ghost most: nat)
    returns (cap: bool, err: bool, ghost seen': seq<nat>)
    requires Grown(g) && g.root == DeployRef(d) && WithinCap(lim, |g.nodes|, most)
    requires i == |seen| < |rss| && AllAtMost(d, rss, most) && Holds(g, d, rss, seen) && SetsFit(lim, d, rss, seen)
    modifies g
    ensures cap ==> Full(lim, DeployRef(d), 1, SetsEdges(d, rss, seen))
    ensures !cap ==> |seen'| == i + 1 && SetsFit(lim, d, rss, seen')
    ensures Grown(g) && WithinCap(lim, |g.nodes|, most)
    ensures cap ==> !err && seen' == seen && g.edges == old(g.edges) && g.truncated && d.uid in rss[i].owners
    ensures !cap ==> |seen'| == i + 1 && Holds(g, d, rss, seen')
                     && (err <==> d.uid in rss[i].owners && rss[i].pods.None?)
  {
    ghost var n := 0;
    cap, err := false, false;
    if d.uid in rss[i].owners {
      assert rss[i] in rss;
      cap, err, n := TakeSet(g, lim, d, rss[i], most);
    }
    seen' := if cap then seen else seen + [n];
    if !cap {
      assert (seen + [n])[..i] == seen;
      FitsStep(lim, d, rss, seen, n);
    }
    SetsStep(d, rss, seen, n);
    SkippedStep(d, rss, seen, n);
    SeenStep(d, rss, seen, n);
  }

  lemma SeenStep(d: Deployment, rss: seq<ReplicaSet>, seen: seq<nat>, n: nat)
    requires |seen| < |rss| && Seen(d, rss, seen)
    ensures n <= |Pods(rss[|seen|])|
            && (n < |Pods(rss[|seen|])| && d.uid in rss[|seen|].owners ==>
                  rss[|seen|].uid in Pods(rss[|seen|])[n].owners) ==>
              Seen(d, rss, seen + [n])
  {
  }

  /** The loop over the replica sets: it stops at an owned one that no longer fits
      or whose pods cannot be listed. */
  method AddSets(g: Graph, lim: Limits, d: Deployment, rss: seq<ReplicaSet>, ghost most: nat)
    returns (cap: bool, err: bool, ghost seen: seq<nat>)
    requires Grown(g) && g.root == DeployRef(d) && g.edges == [] && !g.truncated && g.nodes == [g.root]
    requires AllAtMost(d, rss, most)
    modifies g
    ensures Grown(g) && WithinCap(lim, |g.nodes|, most)
    ensures Reaches(d, rss, seen, cap, err) && g.edges == SetsEdges(d, rss, seen)
    ensures SetsFit(lim, d, rss, seen) && (cap ==> Full(lim, DeployRef(d), 1, SetsEdges(d, rss, seen)))
    ensures g.truncated <==> cap || PodSkipped(d, rss, seen)
  {
    seen, cap, err := [], false, false;
    for i := 0 to |rss|
      invariant Grown(g) && g.root == DeployRef(d) && WithinCap(lim, |g.nodes|, most)
      invariant |seen| == i && Holds(g, d, rss, seen) && PodsListed(d, rss, i) && !cap && !err
      invariant SetsFit(lim, d, rss, seen)
    {
      cap, err, seen := NextSet(g, lim, d, rss, i, seen, most);
      if cap || err {
        return;
      }
    }
  }

  /** Where the loop may stop: at the end, at an owned replica set that does not
      fit, or after one whose pods cannot be listed. */
  ghost predicate Reaches(d: Deployment, rss: seq<ReplicaSet>, seen: seq<nat>, cap: bool, err: bool) {
    && Seen(d, rss, seen) && !(cap && err)
    && (cap ==> |seen| < |rss| && d.uid in rss[|seen|].owners)
    && (err ==> |seen| > 0 && d.uid in rss[|seen| - 1].owners && rss[|seen| - 1].pods.None?)
    && (!cap && !err ==> |seen| == |rss|)
    && PodsListed(d, rss, if err then |seen| - 1 else |seen|)
  }

  // ----- Autoscalers and budgets -----

  predicate Scales(d: Deployment, h: HPA) {
    h.targetKind == "Deployment" && h.targetName == d.name
  }

  function HPALink(d: Deployment, h: HPA): Link {
    Link(ScaledByHPA, Ref("autoscaling/v2", "HorizontalPodAutoscaler", d.ns, h.name, h.uid))
  }

  function PDBLink(d: Deployment, p: PDB): Link {
    Link(ProtectedByPDB, Ref("policy/v1", "PodDisruptionBudget", d.ns, p.name, p.uid))
  }

  function HPALinks(d: Deployment, hpas: seq<HPA>): seq<Link> {
    if hpas == [] then []
    else
      HPALinks(d, hpas[..|hpas| - 1]) + If(Scales(d, hpas[|hpas| - 1]), HPALink(d, hpas[|hpas| - 1]))
  }

  function PDBLinks(d: Deployment, pdbs: seq<PDB>): seq<Link> {
    if pdbs == [] then []
    else
      PDBLinks(d, pdbs[..|pdbs| - 1]) + If(pdbs[|pdbs| - 1].covers, PDBLink(d, pdbs[|pdbs| - 1]))
  }

  /** An autoscaler list that fails adds nothing. */
  function Scalers(d: Deployment, hpas: Option<seq<HPA>>): seq<Link> {
    if hpas.None? then [] else HPALinks(d, hpas.value)
  }

  /** Budgets are looked for only with a selector. */
  function Budgets(d: Deployment, pdbs: Option<seq<PDB>>): seq<Link> {
    if !d.hasSelector || pdbs.None? then [] else PDBLinks(d, pdbs.value)
  }

  lemma HPAStep(d: Deployment, hpas: seq<HPA>, i: nat, links: seq<Link>)
    requires i < |hpas|
    ensures links + HPALinks(d, hpas[..i + 1]) ==
            links + HPALinks(d, hpas[..i]) + If(Scales(d, hpas[i]), HPALink(d, hpas[i]))
  {
    assert hpas[..i + 1][..i] == hpas[..i];
  }

  lemma PDBStep(d: Deployment, pdbs: seq<PDB>, i: nat, links: seq<Link>)
    requires i < |pdbs|
    ensures links + PDBLinks(d, pdbs[..i + 1]) == links + PDBLinks(d, pdbs[..i])
            + If(pdbs[i].covers, PDBLink(d, pdbs[i]))
  {
    assert pdbs[..i + 1][..i] == pdbs[..i];
  }

  method LinkHPA(g: Graph, d: Deployment, hpas: Option<seq<HPA>>, ghost start: seq<Edge>, ghost links: seq<Link>)
    requires Gained(g, start, g.root, links)
    modifies g`nodes, g`visited, g`edges
    ensures Gained(g, start, g.root, links + Scalers(d, hpas))
  {
    assert links + [] == links;
    if hpas.None? {
      return;
    }
    var all := hpas.value;
    for i := 0 to |all|
      invariant Gained(g, start, g.root, links + HPALinks(d, all[..i]))
    {
      HPAStep(d, all, i, links);
      AddIf(g, g.root, Scales(d, all[i]), HPALink(d, all[i]), start, links + HPALinks(d, all[..i]));
    }
    assert all[..|all|] == all;
  }

  method LinkPDB(g: Graph, d: Deployment, pdbs: Option<seq<PDB>>, ghost start: seq<Edge>, ghost links: seq<Link>)
    returns (err: bool)
    requires Gained(g, start, g.root, links)
    modifies g`nodes, g`visited, g`edges
    ensures err <==> d.hasSelector && pdbs.None?
    ensures Gained(g, start, g.root, links + Budgets(d, pdbs))
  {
    assert links + [] == links;
    if !d.hasSelector {
      return false;
    }
    if pdbs.None? {
      return true;
    }
    AddBudgets(g, d, pdbs.value, start, links);
    return false;
  }

  method AddBudgets(g: Graph, d: Deployment, pdbs: seq<PDB>, ghost start: seq<Edge>, ghost links: seq<Link>)
    requires Gained(g, start, g.root, links)
    modifies g`nodes, g`visited, g`edges
    ensures Gained(g, start, g.root, links + PDBLinks(d, pdbs))
  {
    assert links + [] == links;
    for i := 0 to |pdbs|
      invariant Gained(g, start, g.root, links + PDBLinks(d, pdbs[..i]))
    {
      PDBStep(d, pdbs, i, links);
      AddIf(g, g.root, pdbs[i].covers, PDBLink(d, pdbs[i]), start, links + PDBLinks(d, pdbs[..i]));
    }
    assert pdbs[..|pdbs|] == pdbs;
  }

  // ----- The builder -----

  /** What the template, the autoscalers and the budgets add. */
  function Tail(d: Deployment, hpas: Option<seq<HPA>>, pdbs: Option<seq<PDB>>): seq<Link> {
    Links(d.ns, d.template) + Scalers(d, hpas) + Budgets(d, pdbs)
  }

  /** A graph built for d from these lists: how far the pods of each replica set
      were seen, and whether the loop over the replica sets stopped at one that no
      longer fits (cap) or whose pods could not be listed (failed). */
  ghost predicate IsBuild(lim: Limits, d: Deployment, rss: seq<ReplicaSet>, hpas: Option<seq<HPA>>,
                          pdbs: Option<seq<PDB>>, edges: seq<Edge>, truncated: bool, err: bool, seen: seq<nat>,
                          cap: bool, failed: bool)
  {
    && Reaches(d, rss, seen, cap, failed)
    && SetsFit(lim, d, rss, seen) && (cap ==> Full(lim, DeployRef(d), 1, SetsEdges(d, rss, seen)))
    && edges == SetsEdges(d, rss, seen) + (if cap || failed then [] else From(DeployRef(d), Tail(d, hpas, pdbs)))
    && (truncated <==> cap || PodSkipped(d, rss, seen))
    && (err <==> failed || (!cap && d.hasSelector && pdbs.None?))
  }

  function MostIn(ns: string, pods: seq<Pod>, uid: string): (most: nat)
    ensures AtMost(ns, pods, uid, most)
  {
    if pods == [] then 0
    else
      var p := pods[|pods| - 1];
      assert pods == pods[..|pods| - 1] + [p];
      Max(MostIn(ns, pods[..|pods| - 1], uid), if uid in p.owners then |Links(ns, p.spec)| else 0)
  }

  /** The most resources that one owned pod refers to. */
  function Most(d: Deployment, rss: seq<ReplicaSet>): (most: nat)
    ensures AllAtMost(d, rss, most)
  {
    if rss == [] then 0
    else
      var rs := rss[|rss| - 1];
      assert rss == rss[..|rss| - 1] + [rs];
      Max(Most(d, rss[..|rss| - 1]), if d.uid in rs.owners then MostIn(d.ns, Pods(rs), rs.uid) else 0)
  }

  method Build(lim: Limits, d: Deployment, rss: Option<seq<ReplicaSet>>, hpas: Option<seq<HPA>>, pdbs: Option<seq<PDB>>)
    returns (g: Graph, err: bool, ghost seen: seq<nat>, ghost cap: bool, ghost failed: bool)
    ensures fresh(g) && Grown(g) && g.root == DeployRef(d)
    ensures rss.None? ==> err && g.edges == [] && !g.truncated
    ensures rss.Some? ==> IsBuild(lim, d, rss.value, hpas, pdbs, g.edges, g.truncated, err, seen, cap, failed)
    ensures rss.Some? && lim.maxNodes > 0 ==>
              |g.nodes| <= lim.maxNodes + Most(d, rss.value) + |Tail(d, hpas, pdbs)|
  {
    g := new Graph(DeployRef(d));
    err, seen, cap, failed := true, [], false, false;
    if rss.None? {
      return;
    }
    var full, stop;
    full, stop, seen := AddSets(g, lim, d, rss.value, Most(d, rss.value));
    cap, failed, err := full, stop, stop;
    if full || stop {
      assert g.edges + [] == g.edges;
      return;
    }
    err := AddTail(g, d, hpas, pdbs);
  }

  method AddTail(g: Graph, d: Deployment, hpas: Option<seq<HPA>>, pdbs: Option<seq<PDB>>) returns (err: bool)
    requires Grown(g) && g.root == DeployRef(d)
    modifies g`nodes, g`visited, g`edges
    ensures Grown(g) && g.edges == old(g.edges) + From(g.root, Tail(d, hpas, pdbs))
    ensures err <==> d.hasSelector && pdbs.None?
    ensures |g.nodes| <= old(|g.nodes|) + |Tail(d, hpas, pdbs)|
  {
    ghost var start, nodes := g.edges, g.nodes;
    RootStays([g.root], start);
    FromPodSpec(g, d.ns, g.root, d.template);
    LinkHPA(g, d, hpas, start, Links(d.ns, d.template));
    err := LinkPDB(g, d, pdbs, start, Links(d.ns, d.template) + Scalers(d, hpas));
    LinksGrow(nodes, g.root, Tail(d, hpas, pdbs), g.root);
    NodesTogether([g.root], start, From(g.root, Tail(d, hpas, pdbs)));
  }

  // ----- Complete, or truncated -----

  lemma {:induction false} PodsThere(ns: string, owner: Ref, pods: seq<Pod>, uid: string, p: Pod)
    requires p in pods && uid in p.owners
    ensures Edge(Owns, owner, PodRef(p)) in PodsEdges(ns, owner, pods, uid)
    ensures Edge(OwnedBy, PodRef(p), owner) in PodsEdges(ns, owner, pods, uid)
  {
    var last := pods[|pods| - 1];
    if p == last {
      assert PodEdges(ns, owner, p)[0] == Edge(Owns, owner, PodRef(p));
      assert PodEdges(ns, owner, p)[1] == Edge(OwnedBy, PodRef(p), owner);
    } else {
      assert pods == pods[..|pods| - 1] + [last];
      PodsThere(ns, owner, pods[..|pods| - 1], uid, p);
    }
  }

  lemma {:induction false} SetThere(d: Deployment, rss: seq<ReplicaSet>, seen: seq<nat>, k: nat, e: Edge)
    requires k < |seen| <= |rss| && d.uid in rss[k].owners && e in SetEdges(d, rss[k], seen[k])
    ensures e in SetsEdges(d, rss, seen)
  {
    if k < |seen| - 1 {
      SetThere(d, rss, seen[..|seen| - 1], k, e);
    }
  }

  ghost predicate Mirrored(edges: seq<Edge>, owner: Ref, owned: Ref) {
    Edge(Owns, owner, owned) in edges && Edge(OwnedBy, owned, owner) in edges
  }

  ghost predicate Complete(d: Deployment, rs: ReplicaSet, edges: seq<Edge>) {
    && Mirrored(edges, DeployRef(d), SetRef(d.ns, rs))
    && rs.pods.Some?
    && forall p :: p in rs.pods.value && rs.uid in p.owners ==> Mirrored(edges, SetRef(d.ns, rs), PodRef(p))
  }

  lemma SetComplete(d: Deployment, rss: seq<ReplicaSet>, seen: seq<nat>, k: nat)
    requires |seen| == |rss| && k < |rss| && d.uid in rss[k].owners
    requires seen[k] >= |Pods(rss[k])| && rss[k].pods.Some?
    ensures Complete(d, rss[k], SetsEdges(d, rss, seen))
  {
    var rs, edges := rss[k], SetsEdges(d, rss, seen);
    var own := SetEdges(d, rs, seen[k]);
    assert own[0] == Edge(Owns, DeployRef(d), SetRef(d.ns, rs));
    assert own[1] == Edge(OwnedBy, SetRef(d.ns, rs), DeployRef(d));
    SetThere(d, rss, seen, k, own[0]);
    SetThere(d, rss, seen, k, own[1]);
    forall p | p in rs.pods.value && rs.uid in p.owners ensures Mirrored(edges, SetRef(d.ns, rs), PodRef(p)) {
      PodsThere(d.ns, SetRef(d.ns, rs), Pods(rs), rs.uid, p);
      SetThere(d, rss, seen, k, Edge(Owns, SetRef(d.ns, rs), PodRef(p)));
      SetThere(d, rss, seen, k, Edge(OwnedBy, PodRef(p), SetRef(d.ns, rs)));
    }
  }

  // ----- Ownership both ways -----

  /** Whoever owns is also said to be the owner. */
  ghost predicate Symmetric(edges: seq<Edge>) {
    forall a, b :: Edge(Owns, a, b) in edges <==> Edge(OwnedBy, b, a) in edges
  }

  predicate NoOwnership(links: seq<Link>) {
    forall l :: l in links ==> l.rel != Owns && l.rel != OwnedBy
  }

  lemma SymmetricTogether(xs: seq<Edge>, ys: seq<Edge>)
    requires Symmetric(xs) && Symmetric(ys)
    ensures Symmetric(xs + ys)
  {
  }

  lemma MirrorSymmetric(owner: Ref, owned: Ref)
    ensures Symmetric(Mirror(owner, owned))
  {
    var m := Mirror(owner, owned);
    assert m[0] == Edge(Owns, owner, owned) && m[1] == Edge(OwnedBy, owned, owner);
  }

  lemma {:induction false} ConcatNoOwnership<T>(xs: seq<T>, f: T -> seq<Link>)
    requires forall x :: x in xs ==> NoOwnership(f(x))
    ensures NoOwnership(Concat(xs, f))
  {
    if xs != [] {
      ConcatNoOwnership(xs[..|xs| - 1], f);
    }
  }

  lemma NoOwnershipTogether(xs: seq<Link>, ys: seq<Link>)
    requires NoOwnership(xs) && NoOwnership(ys)
    ensures NoOwnership(xs + ys)
  {
  }

  lemma SpecNoOwnership(ns: string, spec: PodSpec)
    ensures NoOwnership(Links(ns, spec))
  {
    ConcatNoOwnership(spec.pullSecrets, PullSecretsIn(ns));
    ContainersNoOwnership(ns, spec.containers);
    ContainersNoOwnership(ns, spec.initContainers);
    VolumesNoOwnership(ns, spec.serviceAccount, spec.volumes);
    assert NoOwnership(OwnLinks(ns, spec));
    var some := OwnLinks(ns, spec) + Concat(spec.pullSecrets, PullSecretsIn(ns));
    NoOwnershipTogether(OwnLinks(ns, spec), Concat(spec.pullSecrets, PullSecretsIn(ns)));
    NoOwnershipTogether(some, Concat(spec.containers, ContainersIn(ns)));
    NoOwnershipTogether(some + Concat(spec.containers, ContainersIn(ns)),
                        Concat(spec.initContainers, ContainersIn(ns)));
    NoOwnershipTogether(AllButVolumes(ns, spec), Concat(spec.volumes, VolumesIn(ns, spec.serviceAccount)));
  }

  lemma VolumesNoOwnership(ns: string, account: string, vs: seq<Volume>)
    ensures NoOwnership(Concat(vs, VolumesIn(ns, account)))
  {
    forall v | v in vs ensures NoOwnership(VolumeLinks(ns, account, v)) {
      VolumeNoOwnership(ns, account, v);
    }
    ConcatNoOwnership(vs, VolumesIn(ns, account));
  }

  lemma VolumeNoOwnership(ns: string, account: string, v: Volume)
    ensures NoOwnership(VolumeLinks(ns, account, v))
  {
    var names, claim := NamesLinks(ns, v.names), If(v.claim.Some?, ClaimLink(ns, OrEmpty(v.claim)));
    var projected := Concat(v.projected, ProjectionsIn(ns, account));
    assert NoOwnership(names) && NoOwnership(claim);
    ProjectionsNoOwnership(ns, account, v.projected);
    NoOwnershipTogether(names, claim);
    NoOwnershipTogether(names + claim, projected);
  }

  lemma ProjectionsNoOwnership(ns: string, account: string, ps: seq<Projection>)
    ensures NoOwnership(Concat(ps, ProjectionsIn(ns, account)))
  {
    forall p | p in ps ensures NoOwnership(ProjectionLinks(ns, account, p)) {}
    ConcatNoOwnership(ps, ProjectionsIn(ns, account));
  }

  lemma ContainersNoOwnership(ns: string, cs: seq<Container>)
    ensures NoOwnership(Concat(cs, ContainersIn(ns)))
  {
    forall c | c in cs ensures NoOwnership(ContainerLinks(ns, c)) {
      ConcatNoOwnership(c.env, NamesIn(ns));
      ConcatNoOwnership(c.envFrom, NamesIn(ns));
    }
    ConcatNoOwnership(cs, ContainersIn(ns));
  }

  lemma {:induction false} PodsSymmetric(ns: string, owner: Ref, pods: seq<Pod>, uid: string)
    ensures Symmetric(PodsEdges(ns, owner, pods, uid))
  {
    if pods != [] {
      var p := pods[|pods| - 1];
      PodsSymmetric(ns, owner, pods[..|pods| - 1], uid);
      MirrorSymmetric(owner, PodRef(p));
      SpecNoOwnership(ns, p.spec);
      SymmetricTogether(Mirror(owner, PodRef(p)), From(PodRef(p), Links(ns, p.spec)));
      SymmetricTogether(PodsEdges(ns, owner, pods[..|pods| - 1], uid), PodEdges(ns, owner, p));
    }
  }

  lemma {:induction false} SetsSymmetric(d: Deployment, rss: seq<ReplicaSet>, seen: seq<nat>)
    requires |seen| <= |rss|
    ensures Symmetric(SetsEdges(d, rss, seen))
  {
    if seen != [] {
      var last := |seen| - 1;
      var owner := SetRef(d.ns, rss[last]);
      SetsSymmetric(d, rss, seen[..last]);
      MirrorSymmetric(DeployRef(d), owner);
      PodsSymmetric(d.ns, owner, First(Pods(rss[last]), seen[last]), rss[last].uid);
      SymmetricTogether(Mirror(DeployRef(d), owner),
                        PodsEdges(d.ns, owner, First(Pods(rss[last]), seen[last]), rss[last].uid));
      SymmetricTogether(SetsEdges(d, rss, seen[..last]), SetEdges(d, rss[last], seen[last]));
    }
  }

  lemma {:induction false} LinksNoOwnership(d: Deployment, hpas: seq<HPA>, pdbs: seq<PDB>)
    ensures NoOwnership(HPALinks(d, hpas)) && NoOwnership(PDBLinks(d, pdbs))
    decreases |hpas| + |pdbs|
  {
    if hpas != [] {
      LinksNoOwnership(d, hpas[..|hpas| - 1], pdbs);
    } else if pdbs != [] {
      LinksNoOwnership(d, hpas, pdbs[..|pdbs| - 1]);
    }
  }

  lemma TailNoOwnership(d: Deployment, hpas: Option<seq<HPA>>, pdbs: Option<seq<PDB>>)
    ensures Symmetric(From(DeployRef(d), Tail(d, hpas, pdbs)))
  {
    TailLinks(d, hpas, pdbs);
  }

  lemma TailLinks(d: Deployment, hpas: Option<seq<HPA>>, pdbs: Option<seq<PDB>>)
    ensures NoOwnership(Tail(d, hpas, pdbs))
  {
    SpecNoOwnership(d.ns, d.template);
    LinksNoOwnership(d, if hpas.Some? then hpas.value else [], if pdbs.Some? then pdbs.value else []);
    NoOwnershipTogether(Links(d.ns, d.template), Scalers(d, hpas));
    NoOwnershipTogether(Links(d.ns, d.template) + Scalers(d, hpas), Budgets(d, pdbs));
  }

  /** Truncated or not, every ownership edge of a built graph has its mirror image. */
  lemma OwnershipGoesBothWays(lim: Limits, d: Deployment, rss: seq<ReplicaSet>, hpas: Option<seq<HPA>>,
                              pdbs: Option<seq<PDB>>, edges: seq<Edge>, truncated: bool, err: bool, seen: seq<nat>,
                              cap: bool, failed: bool)
    requires IsBuild(lim, d, rss, hpas, pdbs, edges, truncated, err, seen, cap, failed)
    ensures Symmetric(edges)
  {
    SetsSymmetric(d, rss, seen);
    TailNoOwnership(d, hpas, pdbs);
    var rest := if cap || failed then [] else From(DeployRef(d), Tail(d, hpas, pdbs));
    SymmetricTogether(SetsEdges(d, rss, seen), rest);
  }

  // ----- Complete, or truncated -----

  ghost predicate DistinctPods(pods: seq<Pod>, uid: string) {
    forall i, j :: 0 <= i < j < |pods| && uid in pods[i].owners && uid in pods[j].owners ==>
      PodRef(pods[i]) != PodRef(pods[j])
  }

  /** No two replica sets of the deployment have one reference, and no two pods of
      one of them. */
  ghost predicate DistinctRefs(d: Deployment, rss: seq<ReplicaSet>) {
    && (forall i, j :: 0 <= i < j < |rss| && d.uid in rss[i].owners && d.uid in rss[j].owners ==>
          SetRef(d.ns, rss[i]) != SetRef(d.ns, rss[j]))
    && (forall rs :: rs in rss ==> DistinctPods(Pods(rs), rs.uid))
  }

  lemma FromHasNoOwns(src: Ref, links: seq<Link>, e: Edge)
    requires NoOwnership(links) && e in From(src, links)
    ensures e.rel != Owns
  {
    var i :| 0 <= i < |links| && From(src, links)[i] == e;
    assert links[i] in links;
  }

  lemma {:induction false} OwnsInPods(ns: string, owner: Ref, pods: seq<Pod>, uid: string, e: Edge) returns (i: nat)
    requires e in PodsEdges(ns, owner, pods, uid) && e.rel == Owns
    ensures i < |pods| && uid in pods[i].owners && e == Edge(Owns, owner, PodRef(pods[i]))
  {
    var last := |pods| - 1;
    if e in PodsEdges(ns, owner, pods[..last], uid) {
      i := OwnsInPods(ns, owner, pods[..last], uid, e);
    } else {
      i := last;
      SpecNoOwnership(ns, pods[last].spec);
      if e in From(PodRef(pods[last]), Links(ns, pods[last].spec)) {
        FromHasNoOwns(PodRef(pods[last]), Links(ns, pods[last].spec), e);
      }
      assert e in Mirror(owner, PodRef(pods[last]));
    }
  }

  /** Where an ownership edge of the visited replica sets comes from. */
  lemma {:induction false} OwnsInSets(d: Deployment, rss: seq<ReplicaSet>, seen: seq<nat>, e: Edge) returns (k: nat)
    requires |seen| <= |rss| && e in SetsEdges(d, rss, seen) && e.rel == Owns
    ensures k < |seen| && d.uid in rss[k].owners
    ensures e == Edge(Owns, DeployRef(d), SetRef(d.ns, rss[k])) ||
            e in PodsEdges(d.ns, SetRef(d.ns, rss[k]), First(Pods(rss[k]), seen[k]), rss[k].uid)
  {
    var last := |seen| - 1;
    if e in SetsEdges(d, rss, seen[..last]) {
      k := OwnsInSets(d, rss, seen[..last], e);
    } else {
      k := last;
      assert e in SetEdges(d, rss[last], seen[last]);
    }
  }

  lemma TailHasNoOwns(d: Deployment, hpas: Option<seq<HPA>>, pdbs: Option<seq<PDB>>, e: Edge)
    requires e in From(DeployRef(d), Tail(d, hpas, pdbs))
    ensures e.rel != Owns
  {
    TailLinks(d, hpas, pdbs);
    FromHasNoOwns(DeployRef(d), Tail(d, hpas, pdbs), e);
  }

  lemma SetAndDeploymentDiffer(d: Deployment, rs: ReplicaSet)
    ensures SetRef(d.ns, rs) != DeployRef(d)
  {
    assert |SetRef(d.ns, rs).kind| == 10 && SetRef(d.ns, rs).kind[0] == 'R' && DeployRef(d).kind[0] == 'D';
  }

  lemma MissingSet(d: Deployment, rss: seq<ReplicaSet>, seen: seq<nat>)
    requires DistinctRefs(d, rss) && |seen| < |rss| && d.uid in rss[|seen|].owners
    ensures Edge(Owns, DeployRef(d), SetRef(d.ns, rss[|seen|])) !in SetsEdges(d, rss, seen)
  {
    var e := Edge(Owns, DeployRef(d), SetRef(d.ns, rss[|seen|]));
    if e in SetsEdges(d, rss, seen) {
      var k := OwnsInSets(d, rss, seen, e);
      SetAndDeploymentDiffer(d, rss[k]);
      if e in PodsEdges(d.ns, SetRef(d.ns, rss[k]), First(Pods(rss[k]), seen[k]), rss[k].uid) {
        var i := OwnsInPods(d.ns, SetRef(d.ns, rss[k]), First(Pods(rss[k]), seen[k]), rss[k].uid, e);
      }
    }
  }

  lemma MissingPod(d: Deployment, rss: seq<ReplicaSet>, seen: seq<nat>, k: nat)
    requires DistinctRefs(d, rss) && Seen(d, rss, seen)
    requires k < |seen| && d.uid in rss[k].owners && seen[k] < |Pods(rss[k])|
    ensures Edge(Owns, SetRef(d.ns, rss[k]), PodRef(Pods(rss[k])[seen[k]])) !in SetsEdges(d, rss, seen)
  {
    var e := Edge(Owns, SetRef(d.ns, rss[k]), PodRef(Pods(rss[k])[seen[k]]));
    assert rss[k] in rss;
    NotAmongFirst(d.ns, SetRef(d.ns, rss[k]), Pods(rss[k]), rss[k].uid, seen[k]);
    if e in SetsEdges(d, rss, seen) {
      var j := OwnsInSets(d, rss, seen, e);
      SetAndDeploymentDiffer(d, rss[k]);
      var i := OwnsInPods(d.ns, SetRef(d.ns, rss[j]), First(Pods(rss[j]), seen[j]), rss[j].uid, e);
    }
  }

  lemma NotAmongFirst(ns: string, owner: Ref, pods: seq<Pod>, uid: string, n: nat)
    requires DistinctPods(pods, uid) && n < |pods| && uid in pods[n].owners
    ensures Edge(Owns, owner, PodRef(pods[n])) !in PodsEdges(ns, owner, First(pods, n), uid)
  {
    var e := Edge(Owns, owner, PodRef(pods[n]));
    if e in PodsEdges(ns, owner, First(pods, n), uid) {
      var i := OwnsInPods(ns, owner, First(pods, n), uid, e);
    }
  }

  /** An ownership edge of the replica set, or of a listed pod it owns, is missing. */
  ghost predicate Lacks(d: Deployment, rs: ReplicaSet, edges: seq<Edge>) {
    || !Mirrored(edges, DeployRef(d), SetRef(d.ns, rs))
    || exists p :: p in Pods(rs) && rs.uid in p.owners && !Mirrored(edges, SetRef(d.ns, rs), PodRef(p))
  }

  lemma SkippedIsLacking(lim: Limits, d: Deployment, rss: seq<ReplicaSet>, hpas: Option<seq<HPA>>,
                         pdbs: Option<seq<PDB>>, edges: seq<Edge>, seen: seq<nat>, cap: bool) returns (k: nat)
    requires IsBuild(lim, d, rss, hpas, pdbs, edges, true, false, seen, cap, false) && DistinctRefs(d, rss)
    ensures k < |rss| && d.uid in rss[k].owners && Lacks(d, rss[k], edges)
  {
    var rest := if cap then [] else From(DeployRef(d), Tail(d, hpas, pdbs));
    forall e | e in rest ensures e.rel != Owns {
      TailHasNoOwns(d, hpas, pdbs, e);
    }
    if cap {
      k := |seen|;
      MissingSet(d, rss, seen);
    } else {
      k :| 0 <= k < |seen| && d.uid in rss[k].owners && seen[k] < |Pods(rss[k])|;
      MissingPod(d, rss, seen, k);
      var p := Pods(rss[k])[seen[k]];
      assert p in Pods(rss[k]) && !Mirrored(edges, SetRef(d.ns, rss[k]), PodRef(p));
    }
  }

  /** A graph that is built without an error says that it is truncated exactly when
      it lacks an ownership edge: of some replica set the deployment owns, or of some
      listed pod that such a replica set owns. If it does not, it also has everything
      the template, the autoscalers and the budgets add. */
  lemma CompleteOrTruncated(lim: Limits, d: Deployment, rss: seq<ReplicaSet>, hpas: Option<seq<HPA>>,
                            pdbs: Option<seq<PDB>>, edges: seq<Edge>, truncated: bool, seen: seq<nat>, cap: bool,
                            failed: bool)
    requires IsBuild(lim, d, rss, hpas, pdbs, edges, truncated, false, seen, cap, failed)
    ensures DistinctRefs(d, rss) ==>
              (truncated <==> exists k :: 0 <= k < |rss| && d.uid in rss[k].owners && Lacks(d, rss[k], edges))
    ensures !truncated ==> forall k :: 0 <= k < |rss| && d.uid in rss[k].owners ==> Complete(d, rss[k], edges)
    ensures !truncated ==> forall e :: e in From(DeployRef(d), Tail(d, hpas, pdbs)) ==> e in edges
  {
    if !truncated {
      forall k | 0 <= k < |rss| && d.uid in rss[k].owners ensures Complete(d, rss[k], edges) {
        SetComplete(d, rss, seen, k);
      }
    } else if DistinctRefs(d, rss) {
      var k := SkippedIsLacking(lim, d, rss, hpas, pdbs, edges, seen, cap);
    }
  }

  // ----- What scales and protects it -----

  /** The link of an autoscaler whose target is the deployment. */
  predicate ScaledBy(d: Deployment, h: HPA, l: Link) {
    && h.targetKind == "Deployment" && h.targetName == d.name
    && l == Link(ScaledByHPA, Ref("autoscaling/v2", "HorizontalPodAutoscaler", d.ns, h.name, h.uid))
  }

  /** The link of a budget that covers it. */
  predicate ProtectedBy(d: Deployment, p: PDB, l: Link) {
    p.covers && l == Link(ProtectedByPDB, Ref("policy/v1", "PodDisruptionBudget", d.ns, p.name, p.uid))
  }

  lemma {:induction false} HPALinksMean(d: Deployment, hpas: seq<HPA>, l: Link)
    ensures l in HPALinks(d, hpas) <==> exists h :: h in hpas && ScaledBy(d, h, l)
  {
    if hpas != [] {
      var most, last := hpas[..|hpas| - 1], hpas[|hpas| - 1];
      HPALinksMean(d, most, l);
      assert hpas == most + [last];
      assert l in If(Scales(d, last), HPALink(d, last)) <==> ScaledBy(d, last, l);
    }
  }

  lemma {:induction false} PDBLinksMean(d: Deployment, pdbs: seq<PDB>, l: Link)
    ensures l in PDBLinks(d, pdbs) <==> exists p :: p in pdbs && ProtectedBy(d, p, l)
  {
    if pdbs != [] {
      var most, last := pdbs[..|pdbs| - 1], pdbs[|pdbs| - 1];
      PDBLinksMean(d, most, l);
      assert pdbs == most + [last];
      assert l in If(last.covers, PDBLink(d, last)) <==> ProtectedBy(d, last, l);
    }
  }

  /** What the graph gains after the replica sets: what the template refers to, the
      autoscalers that target the deployment and, if it has a selector, the budgets
      that cover it. */
  lemma TailExactly(d: Deployment, hpas: Option<seq<HPA>>, pdbs: Option<seq<PDB>>, l: Link)
    ensures l in Tail(d, hpas, pdbs) <==>
            || l in Links(d.ns, d.template)
            || (hpas.Some? && exists h :: h in hpas.value && ScaledBy(d, h, l))
            || (d.hasSelector && pdbs.Some? && exists p :: p in pdbs.value && ProtectedBy(d, p, l))
  {
    if hpas.Some? {
      HPALinksMean(d, hpas.value, l);
    }
    if pdbs.Some? {
      PDBLinksMean(d, pdbs.value, l);
    }
  }
}
