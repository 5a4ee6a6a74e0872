/** The resource graph: nodes without repeats and the edges between them
    (internal/graph/graph.go). */
module Graph {
  import opened Signals

  datatype RelType = Owns | OwnedBy | ScheduledOn | UsesConfigMap | UsesSecret | UsesPVC | UsesServiceAccount
                   | UsesImagePullSecret | ScaledByHPA | ProtectedByPDB

  datatype Edge = Edge(rel: RelType, src: Ref, dst: Ref)

  datatype Cut = NotCut | MaxDepth | MaxNodes

  datatype Limits = Limits(maxDepth: int, maxNodes: int)

  predicate SameName(a: Ref, b: Ref) {
    a.kind == b.kind && a.name == b.name && a.namespace == b.namespace
  }

  /** A node already stands for n: the one with its UID or, for an n without a
      UID, one with its kind, namespace and name. */
  predicate StandsFor(e: Ref, n: Ref) {
    if n.uid != "" then e.uid == n.uid else SameName(e, n)
  }

  predicate Represented(nodes: seq<Ref>, n: Ref) {
    exists e :: e in nodes && StandsFor(e, n)
  }

  function WithNode(nodes: seq<Ref>, n: Ref): seq<Ref> {
    if Represented(nodes, n) then nodes else nodes + [n]
  }

  /** No node stands for a later one. So no UID repeats, and no node without a UID
      repeats the kind, namespace and name of any earlier node. */
  ghost predicate NoRepeats(nodes: seq<Ref>) {
    forall i, j :: 0 <= i < j < |nodes| ==> !StandsFor(nodes[i], nodes[j])
  }

  ghost predicate EdgesRepresented(nodes: seq<Ref>, edges: seq<Edge>) {
    forall e :: e in edges ==> Represented(nodes, e.src) && Represented(nodes, e.dst)
  }

  lemma StaysRepresented(nodes: seq<Ref>, n: Ref, m: Ref)
    ensures Represented(WithNode(nodes, n), n)
    ensures Represented(nodes, m) ==> Represented(WithNode(nodes, n), m)
  {
    if !Represented(nodes, n) {
      assert StandsFor(n, n) && n in nodes + [n];
    }
    if Represented(nodes, m) {
      var e :| e in nodes && StandsFor(e, m);
      assert e in WithNode(nodes, n);
    }
  }

  class Graph {
    const root: Ref
    var nodes: seq<Ref>
    var edges: seq<Edge>
    var truncated: bool
    var reason: Cut
    var visited: set<string>

    ghost predicate Valid()
      reads this
    {
      && NoRepeats(nodes)
      && (forall u :: u in visited <==> u != "" && exists e :: e in nodes && e.uid == u)
      && EdgesRepresented(nodes, edges)
      && (truncated <==> reason != NotCut)
    }

    constructor (root: Ref)
      ensures Valid() && nodes == [root] && edges == [] && !truncated && this.root == root
    {
      this.root := root;
      nodes, edges, truncated, reason := [root], [], false, NotCut;
      visited := if root.uid != "" then {root.uid} else {};
    }

    method AddNode(n: Ref) returns (added: bool)
      requires Valid()
      modifies this`nodes, this`visited
      ensures Valid()
      ensures nodes == WithNode(old(nodes), n)
      ensures added <==> !Represented(old(nodes), n)
    {
      EdgesStayRepresented(nodes, n, edges);
      if n.uid != "" {
        if n.uid in visited {
          return false;
        }
        visited := visited + {n.uid};
      } else {
        for i := 0 to |nodes|
          invariant forall k :: 0 <= k < i ==> !SameName(nodes[k], n)
        {
          var e := nodes[i];
          if e.kind == n.kind && e.name == n.name && e.namespace == n.namespace {
            assert e in nodes && StandsFor(e, n);
            return false;
          }
        }
      }
      nodes := nodes + [n];
      return true;
    }

    method AddEdge(rel: RelType, src: Ref, dst: Ref)
      requires Valid()
      modifies this`nodes, this`visited, this`edges
      ensures Valid()
      ensures nodes == WithNode(WithNode(old(nodes), src), dst)
      ensures edges == old(edges) + [Edge(rel, src, dst)]
    {
      StaysRepresented(nodes, src, src);
      var _ := AddNode(src);
      StaysRepresented(nodes, dst, src);
      var _ := AddNode(dst);
      edges := edges + [Edge(rel, src, dst)];
    }

    /** The depth limit is looked at first, and the first reason is kept. */
    method CapReachedAt(lim: Limits, depth: int) returns (cap: bool)
      requires Valid()
      modifies this`truncated, this`reason
      ensures Valid()
      ensures cap <==> CapAt(lim, depth, |nodes|)
      ensures truncated <==> old(truncated) || cap
      ensures reason == if cap && old(reason) == NotCut then CutAt(lim, depth) else old(reason)
    {
      if lim.maxDepth > 0 && depth > lim.maxDepth {
        truncated := true;
        if reason == NotCut {
          reason := MaxDepth;
        }
        return true;
      }
      if lim.maxNodes > 0 && |nodes| >= lim.maxNodes {
        truncated := true;
        if reason == NotCut {
          reason := MaxNodes;
        }
        return true;
      }
      return false;
    }
  }

  predicate CapAt(lim: Limits, depth: int, size: nat) {
    (lim.maxDepth > 0 && depth > lim.maxDepth) || (lim.maxNodes > 0 && size >= lim.maxNodes)
  }

  function CutAt(lim: Limits, depth: int): Cut {
    if lim.maxDepth > 0 && depth > lim.maxDepth then MaxDepth else MaxNodes
  }

  lemma EdgesStayRepresented(nodes: seq<Ref>, n: Ref, edges: seq<Edge>)
    requires EdgesRepresented(nodes, edges)
    ensures EdgesRepresented(WithNode(nodes, n), edges)
  {
    forall e | e in edges ensures Represented(WithNode(nodes, n), e.src) && Represented(WithNode(nodes, n), e.dst) {
      StaysRepresented(nodes, n, e.src);
      StaysRepresented(nodes, n, e.dst);
    }
  }

  // ----- Any sequence of operations -----

  datatype Op = AddNode(n: Ref) | AddEdge(rel: RelType, src: Ref, dst: Ref)

  /** The nodes after these operations on a new graph. */
  function NodesAfter(root: Ref, ops: seq<Op>): seq<Ref> {
    if ops == [] then [root]
    else
      var before := NodesAfter(root, ops[..|ops| - 1]);
      match ops[|ops| - 1]
      case AddNode(n) => WithNode(before, n)
      case AddEdge(_, src, dst) => WithNode(WithNode(before, src), dst)
  }

  predicate Mentions(op: Op, r: Ref) {
    match op
    case AddNode(n) => r == n
    case AddEdge(_, src, dst) => r == src || r == dst
  }

  lemma WithNodeNoRepeats(nodes: seq<Ref>, n: Ref)
    requires NoRepeats(nodes)
    ensures NoRepeats(WithNode(nodes, n))
  {
  }

  /** After any operations no node repeats another, and everything an operation
      mentioned is represented. */
  lemma AfterAnyOperations(root: Ref, ops: seq<Op>)
    ensures NoRepeats(NodesAfter(root, ops))
    ensures forall k, r :: 0 <= k < |ops| && Mentions(ops[k], r) ==> Represented(NodesAfter(root, ops), r)
  {
    NoRepeatsAfter(root, ops);
    forall k, r | 0 <= k < |ops| && Mentions(ops[k], r) ensures Represented(NodesAfter(root, ops), r) {
      RepresentedAfter(root, ops, k, r);
    }
  }

  lemma {:induction false} NoRepeatsAfter(root: Ref, ops: seq<Op>)
    ensures NoRepeats(NodesAfter(root, ops))
  {
    if ops != [] {
      NoRepeatsAfter(root, ops[..|ops| - 1]);
      var before, op := NodesAfter(root, ops[..|ops| - 1]), ops[|ops| - 1];
      if op.AddNode? {
        WithNodeNoRepeats(before, op.n);
      } else {
        WithNodeNoRepeats(before, op.src);
        WithNodeNoRepeats(WithNode(before, op.src), op.dst);
      }
    }
  }

  lemma {:induction false} RepresentedAfter(root: Ref, ops: seq<Op>, k: nat, r: Ref)
    requires k < |ops| && Mentions(ops[k], r)
    ensures Represented(NodesAfter(root, ops), r)
  {
    var last := |ops| - 1;
    var before, op := NodesAfter(root, ops[..last]), ops[last];
    if k < last {
      RepresentedAfter(root, ops[..last], k, r);
    }
    if op.AddNode? {
      StaysRepresented(before, op.n, r);
    } else {
      StaysRepresented(before, op.src, r);
      StaysRepresented(WithNode(before, op.src), op.dst, r);
    }
  }

  // ----- One object, with and without its UID -----

  /** Every reference the operations mention, in order, the root first. */
  function Mentioned(root: Ref, ops: seq<Op>): seq<Ref> {
    if ops == [] then [root]
    else
      var before := Mentioned(root, ops[..|ops| - 1]);
      match ops[|ops| - 1]
      case AddNode(n) => before + [n]
      case AddEdge(_, src, dst) => before + [src] + [dst]
  }

  function NodesFrom(ms: seq<Ref>): seq<Ref> {
    if ms == [] then [] else WithNode(NodesFrom(ms[..|ms| - 1]), ms[|ms| - 1])
  }

  lemma FromStep(ms: seq<Ref>, m: Ref)
    ensures NodesFrom(ms + [m]) == WithNode(NodesFrom(ms), m)
  {
    assert (ms + [m])[..|ms|] == ms;
  }

  lemma {:induction false} NodesAreMentions(root: Ref, ops: seq<Op>)
    ensures NodesAfter(root, ops) == NodesFrom(Mentioned(root, ops))
  {
    if ops == [] {
      FromStep([], root);
      assert [] + [root] == [root];
    } else {
      var before, op := Mentioned(root, ops[..|ops| - 1]), ops[|ops| - 1];
      NodesAreMentions(root, ops[..|ops| - 1]);
      if op.AddNode? {
        FromStep(before, op.n);
      } else {
        FromStep(before, op.src);
        FromStep(before + [op.src], op.dst);
      }
    }
  }

  /** Mentions of o's name carry o's UID or none, and o's UID is nobody else's. */
  ghost predicate OneUid(ms: seq<Ref>, o: Ref) {
    && o.uid != ""
    && forall m :: m in ms ==>
         (SameName(m, o) ==> m.uid == "" || m.uid == o.uid) && (m.uid == o.uid ==> SameName(m, o))
  }

  /** The first mention of o's name. */
  function FirstNamed(ms: seq<Ref>, o: Ref): seq<Ref> {
    if ms == [] then []
    else
      var before := FirstNamed(ms[..|ms| - 1], o);
      if before == [] && SameName(ms[|ms| - 1], o) then [ms[|ms| - 1]] else before
  }

  predicate Bare(nodes: seq<Ref>, o: Ref) {
    exists e :: e in nodes && SameName(e, o) && e.uid == ""
  }

  predicate Known(nodes: seq<Ref>, o: Ref) {
    exists e :: e in nodes && e.uid == o.uid
  }

  predicate NamedIn(nodes: seq<Ref>, o: Ref) {
    exists e :: e in nodes && SameName(e, o)
  }

  lemma {:induction false} NodesAreMentioned(ms: seq<Ref>, n: Ref)
    requires n in NodesFrom(ms)
    ensures n in ms
  {
    if n != ms[|ms| - 1] {
      NodesAreMentioned(ms[..|ms| - 1], n);
    }
  }

  lemma BareStep(nodes: seq<Ref>, n: Ref, o: Ref)
    ensures Bare(WithNode(nodes, n), o) <==> Bare(nodes, o) || (SameName(n, o) && n.uid == "" && !NamedIn(nodes, o))
  {
    assert forall e :: e in nodes ==> (SameName(n, o) ==> (SameName(e, n) <==> SameName(e, o)));
    assert n in nodes + [n] && forall e :: e in nodes + [n] <==> e in nodes || e == n;
  }

  lemma KnownStep(nodes: seq<Ref>, n: Ref, o: Ref)
    requires o.uid != ""
    ensures Known(WithNode(nodes, n), o) <==> Known(nodes, o) || n.uid == o.uid
  {
    assert n in nodes + [n] && forall e :: e in nodes + [n] <==> e in nodes || e == n;
  }

  /** Under one UID, a name is there as soon as it was mentioned: as a mention with
      the UID is represented by a node of the name. */
  lemma NamedStep(nodes: seq<Ref>, n: Ref, o: Ref)
    requires OneUid(nodes + [n], o)
    ensures NamedIn(WithNode(nodes, n), o) <==> NamedIn(nodes, o) || SameName(n, o)
  {
    assert n in nodes + [n] && forall e :: e in nodes + [n] <==> e in nodes || e == n;
    if SameName(n, o) && Represented(nodes, n) {
      var e :| e in nodes && StandsFor(e, n);
      assert SameName(e, o);
    }
  }

  lemma {:induction false} ObjectInNodes(ms: seq<Ref>, o: Ref)
    requires OneUid(ms, o)
    ensures NamedIn(NodesFrom(ms), o) <==> FirstNamed(ms, o) != []
    ensures Bare(NodesFrom(ms), o) <==> exists m :: m in FirstNamed(ms, o) && m.uid == ""
    ensures Known(NodesFrom(ms), o) <==> exists m :: m in ms && m.uid == o.uid
  {
    if ms != [] {
      var most, last := ms[..|ms| - 1], ms[|ms| - 1];
      assert ms == most + [last];
      ObjectInNodes(most, o);
      var nodes := NodesFrom(most);
      forall e | e in nodes ensures e in ms {
        NodesAreMentioned(most, e);
      }
      NamedStep(nodes, last, o);
      BareStep(nodes, last, o);
      KnownStep(nodes, last, o);
      FirstNamedStep(most, last, o);
    }
  }

  lemma FirstNamedStep(ms: seq<Ref>, m: Ref, o: Ref)
    ensures FirstNamed(ms + [m], o) ==
            if FirstNamed(ms, o) == [] && SameName(m, o) then [m] else FirstNamed(ms, o)
  {
    assert (ms + [m])[..|ms|] == ms;
  }

  /** Nodes of one name come at most as a pair, the one without the UID first. */
  lemma BareComesFirst(nodes: seq<Ref>, o: Ref, i: nat, j: nat)
    requires NoRepeats(nodes) && OneUid(nodes, o)
    requires i < j < |nodes| && SameName(nodes[i], o) && SameName(nodes[j], o)
    ensures nodes[i].uid == "" && nodes[j].uid == o.uid
  {
    assert nodes[i] in nodes && nodes[j] in nodes && !StandsFor(nodes[i], nodes[j]);
  }

  ghost predicate TwoOf(nodes: seq<Ref>, o: Ref) {
    exists i, j :: 0 <= i < j < |nodes| && SameName(nodes[i], o) && SameName(nodes[j], o)
  }

  lemma TwoExactly(nodes: seq<Ref>, o: Ref)
    requires NoRepeats(nodes) && OneUid(nodes, o)
    ensures TwoOf(nodes, o) <==> Bare(nodes, o) && Known(nodes, o)
  {
    if TwoOf(nodes, o) {
      var i: nat, j: nat :| i < j < |nodes| && SameName(nodes[i], o) && SameName(nodes[j], o);
      BareComesFirst(nodes, o, i, j);
    }
    if Bare(nodes, o) && Known(nodes, o) {
      var i :| 0 <= i < |nodes| && SameName(nodes[i], o) && nodes[i].uid == "";
      var j :| 0 <= j < |nodes| && nodes[j].uid == o.uid;
      assert i != j && SameName(nodes[j], o);
    }
  }

  /** After any operations, an object with a UID is there without it exactly when it
      was first mentioned without it, and with it exactly when it ever was. So it is
      two nodes exactly when it was first mentioned without its UID and later with
      it, and it is never more. */
  lemma OneOrTwoNodes(root: Ref, ops: seq<Op>, o: Ref)
    requires OneUid(Mentioned(root, ops), o)
    ensures var ms, nodes := Mentioned(root, ops), NodesAfter(root, ops);
            && (Bare(nodes, o) <==> exists m :: m in FirstNamed(ms, o) && m.uid == "")
            && (Known(nodes, o) <==> exists m :: m in ms && m.uid == o.uid)
            && (TwoOf(nodes, o) <==> Bare(nodes, o) && Known(nodes, o))
    ensures forall i, j, k :: 0 <= i < j < k < |NodesAfter(root, ops)| ==>
              !(SameName(NodesAfter(root, ops)[i], o) && SameName(NodesAfter(root, ops)[j], o)
                && SameName(NodesAfter(root, ops)[k], o))
  {
    var ms, nodes := Mentioned(root, ops), NodesAfter(root, ops);
    NodesAreMentions(root, ops);
    ObjectInNodes(ms, o);
    NoRepeatsAfter(root, ops);
    forall n | n in nodes ensures n in ms {
      NodesAreMentioned(ms, n);
    }
    TwoExactly(nodes, o);
    forall i, j, k | 0 <= i < j < k < |nodes| && SameName(nodes[i], o) && SameName(nodes[j], o) && SameName(nodes[k], o)
      ensures false
    {
      BareComesFirst(nodes, o, i, j);
      BareComesFirst(nodes, o, j, k);
    }
  }
}
