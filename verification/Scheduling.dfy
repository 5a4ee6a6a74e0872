/** The approximate eligibility analysis of a pending pod: which candidate nodes
    could take it, and the reason that dominates when none can
    (internal/diagnostic/pod.go). */
module Scheduling {
  import opened Wrappers
  import opened Ordering
  import opened Preflight
  import Signals

  datatype Effect = AnyEffect | NoSchedule | PreferNoSchedule | NoExecute

  datatype Taint = Taint(key: string, value: string, effect: Effect)

  datatype TolerationOp = Unset | Exists | Equal | OtherOp

  datatype Toleration = Toleration(key: string, operator: TolerationOp, value: string, effect: Effect)

  datatype Operator = In | NotIn | Has | HasNot | Gt | Lt | Unknown

  datatype Requirement = Requirement(key: string, operator: Operator, values: seq<string>)

  datatype Term = Term(expressions: seq<Requirement>, fields: seq<Requirement>)

  /** Quantities are counted in their smallest unit; one that is not given is 0. */
  datatype Container = Container(cpu: int, memory: int)

  datatype Node = Node(
    name: string, labels: Labels, conditions: seq<Condition>, unschedulable: bool, cpu: int, memory: int,
    taints: seq<Taint>)

  /** What the analysis reads of a pod; affinity is its required node affinity. */
  datatype Pod = Pod(
    pending: bool, nodeName: string, containers: seq<Container>, initContainers: seq<Container>,
    nodeSelector: Option<Labels>, affinity: Option<seq<Term>>, tolerations: seq<Toleration>)

  // ----- Taints -----

  predicate Tolerates(tol: Toleration, t: Taint) {
    if tol.key != "" && tol.key != t.key then false
    else if tol.effect != AnyEffect && tol.effect != t.effect then false
    else match tol.operator
         case Exists | Unset => tol.key == "" || tol.key == t.key
         case Equal => tol.value == t.value
         case OtherOp => false
  }

  /** A toleration without an operator is taken as Exists, so its value plays no
      part; only an explicit Equal compares values. */
  lemma ToleratesMeans(tol: Toleration, t: Taint)
    ensures Tolerates(tol, t) <==>
            && (tol.key == "" || tol.key == t.key)
            && (tol.effect == AnyEffect || tol.effect == t.effect)
            && tol.operator != OtherOp && (tol.operator == Equal ==> tol.value == t.value)
    ensures tol.operator == Unset ==> Tolerates(tol, t) == Tolerates(tol.(operator := Exists), t)
  {
  }

  predicate Repels(t: Taint) {
    t.effect == NoSchedule || t.effect == NoExecute
  }

  predicate Untolerated(taints: seq<Taint>, tols: seq<Toleration>) {
    exists t :: t in taints && Repels(t) && forall tol :: tol in tols ==> !Tolerates(tol, t)
  }

  method TaintBlocks(taints: seq<Taint>, tols: seq<Toleration>) returns (blocks: bool)
    ensures blocks == Untolerated(taints, tols)
  {
    for i := 0 to |taints|
      invariant forall k :: 0 <= k < i && Repels(taints[k]) ==> exists tol :: tol in tols && Tolerates(tol, taints[k])
    {
      if taints[i].effect != NoSchedule && taints[i].effect != NoExecute {
        continue;
      }
      var matched := false;
      for j := 0 to |tols|
        invariant !matched
        invariant forall k :: 0 <= k < j ==> !Tolerates(tols[k], taints[i])
      {
        if Tolerates(tols[j], taints[i]) {
          matched := true;
          break;
        }
      }
      if !matched {
        assert taints[i] in taints;
        return true;
      }
    }
    return false;
  }

  // ----- Labels and affinity -----

  /** A label that is not there reads as the empty string. */
  function Label(labels: Labels, key: string): string {
    if key in labels then labels[key] else ""
  }

  predicate Selected(selector: Labels, labels: Labels) {
    forall k :: k in selector ==> Label(labels, k) == selector[k]
  }

  /** The selector is visited in any order. */
  method LabelsMatch(selector: Labels, labels: Labels) returns (ok: bool)
    ensures ok == Selected(selector, labels)
  {
    var left := selector.Keys;
    while left != {}
      invariant left <= selector.Keys
      invariant forall k :: k in selector && k !in left ==> Label(labels, k) == selector[k]
    {
      var k :| k in left;
      if Label(labels, k) != selector[k] {
        return false;
      }
      left := left - {k};
    }
    return true;
  }

  predicate Satisfied(e: Requirement, labels: Labels) {
    match e.operator
    case In => Label(labels, e.key) in e.values
    case NotIn => Label(labels, e.key) !in e.values
    case Has => e.key in labels
    case HasNot => e.key !in labels
    case Gt | Lt => false
    case Unknown => true
  }

  /** The one kind of field requirement the analysis understands. */
  predicate NamesNode(f: Requirement) {
    f.key == "metadata.name" && f.operator == In
  }

  predicate Unsupported(t: Term) {
    exists f :: f in t.fields && !NamesNode(f)
  }

  predicate TermMatches(t: Term, node: Node) {
    && (forall e :: e in t.expressions ==> Satisfied(e, node.labels))
    && (forall f :: f in t.fields ==> NamesNode(f) && node.name in f.values)
  }

  predicate AffinityOk(terms: seq<Term>, node: Node) {
    exists i :: 0 <= i < |terms| && TermMatches(terms[i], node)
  }

  /** The flag is set by any term looked at, and looking stops at a match. */
  predicate AffinityUnsupported(terms: seq<Term>, node: Node) {
    exists i :: 0 <= i < |terms| && Unsupported(terms[i]) && forall j :: 0 <= j < i ==> !TermMatches(terms[j], node)
  }

  method NodeAffinityMatches(terms: seq<Term>, node: Node) returns (ok: bool, unsupported: bool)
    ensures ok == AffinityOk(terms, node)
    ensures unsupported == AffinityUnsupported(terms, node)
  {
    unsupported := false;
    for i := 0 to |terms|
      invariant forall k :: 0 <= k < i ==> !TermMatches(terms[k], node)
      invariant unsupported <==> exists k :: 0 <= k < i && Unsupported(terms[k])
    {
      var termOk := Expressions(terms[i], node);
      var fields := terms[i].fields;
      ghost var before := unsupported;
      for j := 0 to |fields|
        invariant termOk <==> && (forall e :: e in terms[i].expressions ==> Satisfied(e, node.labels))
                              && forall k :: 0 <= k < j ==> NamesNode(fields[k]) && node.name in fields[k].values
        invariant unsupported <==> before || exists k :: 0 <= k < j && !NamesNode(fields[k])
      {
        if fields[j].key == "metadata.name" && fields[j].operator == In {
          if node.name !in fields[j].values {
            termOk := false;
          }
        } else {
          unsupported := true;
          termOk := false;
        }
      }
      assert termOk == TermMatches(terms[i], node);
      assert unsupported <==> before || Unsupported(terms[i]);
      if termOk {
        return true, unsupported;
      }
    }
    return false, unsupported;
  }

  method Expressions(t: Term, node: Node) returns (termOk: bool)
    ensures termOk <==> forall e :: e in t.expressions ==> Satisfied(e, node.labels)
  {
    termOk := true;
    for i := 0 to |t.expressions|
      invariant termOk <==> forall k :: 0 <= k < i ==> Satisfied(t.expressions[k], node.labels)
    {
      var e := t.expressions[i];
      var lv := Label(node.labels, e.key);
      match e.operator {
        case In =>
          if lv !in e.values {
            termOk := false;
          }
        case NotIn =>
          if lv in e.values {
            termOk := false;
          }
        case Has =>
          if e.key !in node.labels {
            termOk := false;
          }
        case HasNot =>
          if e.key in node.labels {
            termOk := false;
          }
        case Gt | Lt =>
          termOk := false;
        case Unknown =>
      }
    }
  }

  /** A node passes exactly when a term matches it before any unsupported one. */
  lemma PassesAffinity(terms: seq<Term>, node: Node)
    ensures AffinityOk(terms, node) && !AffinityUnsupported(terms, node) <==>
            exists i :: 0 <= i < |terms| && TermMatches(terms[i], node)
                        && forall j :: 0 <= j < i ==> !Unsupported(terms[j])
  {
    if AffinityOk(terms, node) {
      var i := FirstMatch(terms, node);
      assert forall f :: f in terms[i].fields ==> NamesNode(f);
      if !AffinityUnsupported(terms, node) {
        assert forall j :: 0 <= j < i ==> !Unsupported(terms[j]);
      }
    }
  }

  lemma {:induction false} FirstMatch(terms: seq<Term>, node: Node) returns (i: nat)
    requires AffinityOk(terms, node)
    ensures i < |terms| && TermMatches(terms[i], node) && forall j :: 0 <= j < i ==> !TermMatches(terms[j], node)
  {
    i := 0;
    while !TermMatches(terms[i], node)
      invariant i < |terms| && forall j :: 0 <= j < i ==> !TermMatches(terms[j], node)
      decreases |terms| - i
    {
      i := i + 1;
    }
  }

  // ----- Counting failed tests -----

  datatype Reason = NoEligibleNode | InsufficientCPU | InsufficientMemory | TaintNotTolerated | NodeSelectorMismatch
                  | NodeAffinityMismatch | UnsupportedConstraint

  function Name(r: Reason): string {
    match r
    case NoEligibleNode => "NO_ELIGIBLE_NODE"
    case InsufficientCPU => "INSUFFICIENT_CPU"
    case InsufficientMemory => "INSUFFICIENT_MEMORY"
    case TaintNotTolerated => "TAINT_NOT_TOLERATED"
    case NodeSelectorMismatch => "NODE_SELECTOR_MISMATCH"
    case NodeAffinityMismatch => "NODE_AFFINITY_MISMATCH"
    case UnsupportedConstraint => "UNSUPPORTED_SCHEDULER_CONSTRAINT"
  }

  function Priority(r: Reason): int {
    match r
    case InsufficientCPU | InsufficientMemory | TaintNotTolerated | NodeSelectorMismatch | NodeAffinityMismatch => 2
    case UnsupportedConstraint => 1
    case NoEligibleNode => 0
  }

  function Requested(cs: seq<Container>): Container {
    if cs == [] then Container(0, 0)
    else
      var rest := Requested(cs[..|cs| - 1]);
      Container(rest.cpu + cs[|cs| - 1].cpu, rest.memory + cs[|cs| - 1].memory)
  }

  method Add(sum: Container, cs: seq<Container>) returns (total: Container)
    ensures total == Container(sum.cpu + Requested(cs).cpu, sum.memory + Requested(cs).memory)
  {
    total := sum;
    for i := 0 to |cs|
      invariant total == Container(sum.cpu + Requested(cs[..i]).cpu, sum.memory + Requested(cs[..i]).memory)
    {
      assert cs[..i + 1][..i] == cs[..i];
      total := Container(total.cpu + cs[i].cpu, total.memory + cs[i].memory);
    }
    assert cs[..|cs|] == cs;
  }

  predicate NotReady(node: Node) {
    Condition("Ready", "False") in node.conditions
  }

  function Once(b: bool): nat {
    if b then 1 else 0
  }

  /** How often a node fails the test behind a reason: two tests stand behind
      NO_ELIGIBLE_NODE, one behind every other. */
  function Failures(pod: Pod, node: Node, r: Reason): nat {
    match r
    case NoEligibleNode => Once(NotReady(node)) + Once(node.unschedulable)
    case InsufficientCPU => Once(Requested(pod.containers).cpu + Requested(pod.initContainers).cpu > node.cpu)
    case InsufficientMemory =>
      Once(Requested(pod.containers).memory + Requested(pod.initContainers).memory > node.memory)
    case NodeSelectorMismatch => Once(pod.nodeSelector.Some? && !Selected(pod.nodeSelector.value, node.labels))
    case UnsupportedConstraint => Once(pod.affinity.Some? && AffinityUnsupported(pod.affinity.value, node))
    case NodeAffinityMismatch =>
      Once(pod.affinity.Some? && !AffinityUnsupported(pod.affinity.value, node)
           && !AffinityOk(pod.affinity.value, node))
    case TaintNotTolerated => Once(Untolerated(node.taints, pod.tolerations))
  }

  predicate Passes(pod: Pod, node: Node) {
    forall r :: Failures(pod, node, r) == 0
  }

  /** Failures of one test over all nodes that are given. */
  function Tally(pod: Pod, nodes: seq<Option<Node>>, r: Reason): nat {
    if nodes == [] then 0
    else
      var last := nodes[|nodes| - 1];
      Tally(pod, nodes[..|nodes| - 1], r) + if last.Some? then Failures(pod, last.value, r) else 0
  }

  type Counters = map<Reason, nat>

  function Get(reasons: Counters, r: Reason): nat {
    if r in reasons then reasons[r] else 0
  }

  function Bump(reasons: Counters, r: Reason): Counters {
    reasons[r := Get(reasons, r) + 1]
  }

  /** What the analysis counts over all nodes. */
  ghost function Counts(pod: Pod, nodes: seq<Option<Node>>): Counters {
    map r: Reason | Tally(pod, nodes, r) > 0 :: Tally(pod, nodes, r)
  }

  /** A reason is in the map exactly when it was counted. */
  ghost predicate NoZeros(reasons: Counters) {
    forall r :: r in reasons ==> reasons[r] > 0
  }

  /** These reasons' counters went up by what the node failed, and no other. */
  ghost predicate Adds(pod: Pod, node: Node, rs: set<Reason>, before: Counters, after: Counters) {
    NoZeros(after) && forall r :: Get(after, r) == Get(before, r) + if r in rs then Failures(pod, node, r) else 0
  }

  lemma AddsUp(pod: Pod, node: Node, rs: set<Reason>, qs: set<Reason>, a: Counters, b: Counters, c: Counters)
    requires Adds(pod, node, rs, a, b) && Adds(pod, node, qs, b, c) && rs !! qs
    ensures Adds(pod, node, rs + qs, a, c)
    ensures FailsOneOf(pod, node, rs + qs) <==> FailsOneOf(pod, node, rs) || FailsOneOf(pod, node, qs)
  {
  }

  ghost predicate FailsOneOf(pod: Pod, node: Node, rs: set<Reason>) {
    exists r :: r in rs && Failures(pod, node, r) > 0
  }

  const CAPACITY := {InsufficientCPU, InsufficientMemory}
  const AFFINITY := {UnsupportedConstraint, NodeAffinityMismatch}

  method CountNode(pod: Pod, request: Container, node: Node, reasons: Counters)
    returns (reasons': Counters, blocked: bool)
    requires NoZeros(reasons) && IsRequest(pod, request)
    ensures NoZeros(reasons')
    ensures forall r :: Get(reasons', r) == Get(reasons, r) + Failures(pod, node, r)
    ensures blocked <==> !Passes(pod, node)
  {
    var ready, unready := CountReady(pod, node, reasons);
    var roomy, full := CountCapacity(pod, request, node, ready);
    AddsUp(pod, node, {NoEligibleNode}, CAPACITY, reasons, ready, roomy);
    var chosen, mismatch := CountSelector(pod, node, roomy);
    AddsUp(pod, node, {NoEligibleNode} + CAPACITY, {NodeSelectorMismatch}, reasons, roomy, chosen);
    var drawn, averse := CountAffinity(pod, node, chosen);
    AddsUp(pod, node, {NoEligibleNode} + CAPACITY + {NodeSelectorMismatch}, AFFINITY, reasons, chosen, drawn);
    var repelled;
    reasons', repelled := CountTaints(pod, node, drawn);
    blocked := unready || full || mismatch || averse || repelled;
    AddsUp(pod, node, {NoEligibleNode} + CAPACITY + {NodeSelectorMismatch} + AFFINITY, {TaintNotTolerated},
           reasons, drawn, reasons');
    AddsAll(pod, node, reasons, reasons');
  }

  lemma AddsAll(pod: Pod, node: Node, before: Counters, after: Counters)
    requires Adds(pod, node, {NoEligibleNode} + CAPACITY + {NodeSelectorMismatch} + AFFINITY + {TaintNotTolerated},
                  before, after)
    ensures NoZeros(after) && forall r :: Get(after, r) == Get(before, r) + Failures(pod, node, r)
    ensures Passes(pod, node) <==>
            !FailsOneOf(pod, node, {NoEligibleNode} + CAPACITY + {NodeSelectorMismatch} + AFFINITY
                                   + {TaintNotTolerated})
  {
    AllReasons();
  }

  lemma AllReasons()
    ensures forall r :: r in {NoEligibleNode} + CAPACITY + {NodeSelectorMismatch} + AFFINITY + {TaintNotTolerated}
  {
    forall r ensures r in {NoEligibleNode} + CAPACITY + {NodeSelectorMismatch} + AFFINITY + {TaintNotTolerated} {
      match r {
        case InsufficientCPU | InsufficientMemory =>
        case UnsupportedConstraint | NodeAffinityMismatch =>
        case NoEligibleNode | NodeSelectorMismatch | TaintNotTolerated =>
      }
    }
  }

  predicate IsRequest(pod: Pod, request: Container) {
    && request.cpu == Requested(pod.containers).cpu + Requested(pod.initContainers).cpu
    && request.memory == Requested(pod.containers).memory + Requested(pod.initContainers).memory
  }

  /** A node that is both not ready and cordoned counts twice. */
  method CountReady(pod: Pod, node: Node, reasons: Counters) returns (reasons': Counters, blocked: bool)
    requires NoZeros(reasons)
    ensures Adds(pod, node, {NoEligibleNode}, reasons, reasons')
    ensures blocked <==> FailsOneOf(pod, node, {NoEligibleNode})
  {
    reasons', blocked := reasons, false;
    var ready := true;
    for i := 0 to |node.conditions|
      invariant ready <==> Condition("Ready", "False") !in node.conditions[..i]
    {
      if node.conditions[i] == Condition("Ready", "False") {
        ready := false;
      }
    }
    assert node.conditions[..|node.conditions|] == node.conditions;
    if !ready {
      reasons', blocked := Bump(reasons', NoEligibleNode), true;
    }
    if node.unschedulable {
      reasons', blocked := Bump(reasons', NoEligibleNode), true;
    }
    assert Failures(pod, node, NoEligibleNode) == Once(!ready) + Once(node.unschedulable);
  }

  method CountCapacity(pod: Pod, request: Container, node: Node, reasons: Counters)
    returns (reasons': Counters, blocked: bool)
    requires NoZeros(reasons) && IsRequest(pod, request)
    ensures Adds(pod, node, CAPACITY, reasons, reasons')
    ensures blocked <==> FailsOneOf(pod, node, CAPACITY)
  {
    reasons', blocked := reasons, false;
    if request.cpu > node.cpu {
      reasons', blocked := Bump(reasons', InsufficientCPU), true;
    }
    if request.memory > node.memory {
      reasons', blocked := Bump(reasons', InsufficientMemory), true;
    }
    assert Failures(pod, node, InsufficientCPU) == Once(request.cpu > node.cpu);
    assert Failures(pod, node, InsufficientMemory) == Once(request.memory > node.memory);
  }

  method CountSelector(pod: Pod, node: Node, reasons: Counters) returns (reasons': Counters, blocked: bool)
    requires NoZeros(reasons)
    ensures Adds(pod, node, {NodeSelectorMismatch}, reasons, reasons')
    ensures blocked <==> FailsOneOf(pod, node, {NodeSelectorMismatch})
  {
    reasons', blocked := reasons, false;
    if pod.nodeSelector.Some? {
      var selected := LabelsMatch(pod.nodeSelector.value, node.labels);
      if !selected {
        reasons', blocked := Bump(reasons', NodeSelectorMismatch), true;
      }
    }
    assert Failures(pod, node, NodeSelectorMismatch) == Once(blocked);
  }

  method CountAffinity(pod: Pod, node: Node, reasons: Counters) returns (reasons': Counters, blocked: bool)
    requires NoZeros(reasons)
    ensures Adds(pod, node, AFFINITY, reasons, reasons')
    ensures blocked <==> FailsOneOf(pod, node, AFFINITY)
  {
    reasons', blocked := reasons, false;
    if pod.affinity.Some? {
      var ok, unsupported := NodeAffinityMatches(pod.affinity.value, node);
      if unsupported {
        reasons', blocked := Bump(reasons', UnsupportedConstraint), true;
      } else if !ok {
        reasons', blocked := Bump(reasons', NodeAffinityMismatch), true;
      }
      assert Failures(pod, node, UnsupportedConstraint) == Once(unsupported);
      assert Failures(pod, node, NodeAffinityMismatch) == Once(!unsupported && !ok);
    }
  }

  method CountTaints(pod: Pod, node: Node, reasons: Counters) returns (reasons': Counters, blocked: bool)
    requires NoZeros(reasons)
    ensures Adds(pod, node, {TaintNotTolerated}, reasons, reasons')
    ensures blocked <==> FailsOneOf(pod, node, {TaintNotTolerated})
  {
    blocked := TaintBlocks(node.taints, pod.tolerations);
    reasons' := if blocked then Bump(reasons, TaintNotTolerated) else reasons;
    assert Failures(pod, node, TaintNotTolerated) == Once(blocked);
  }

  method CountNodes(pod: Pod, nodes: seq<Option<Node>>) returns (reasons: Counters, eligible: nat)
    ensures NoZeros(reasons) && reasons == Counts(pod, nodes)
    ensures eligible > 0 <==> SomeNodePasses(pod, nodes)
  {
    var request := Add(Container(0, 0), pod.containers);
    request := Add(request, pod.initContainers);
    reasons, eligible := map[], 0;
    for i := 0 to |nodes|
      invariant NoZeros(reasons)
      invariant forall r :: Get(reasons, r) == Tally(pod, nodes[..i], r)
      invariant eligible > 0 <==> SomeNodePasses(pod, nodes[..i])
    {
      assert nodes[..i + 1][..i] == nodes[..i];
      assert forall n :: n in nodes[..i + 1] <==> n in nodes[..i] || n == nodes[i];
      if nodes[i].None? {
        continue;
      }
      var blocked;
      reasons, blocked := CountNode(pod, request, nodes[i].value, reasons);
      if !blocked {
        eligible := eligible + 1;
      }
    }
    assert nodes[..|nodes|] == nodes;
  }

  predicate SomeNodePasses(pod: Pod, nodes: seq<Option<Node>>) {
    exists n :: n in nodes && n.Some? && Passes(pod, n.value)
  }

  // ----- The dominant reason -----

  /** Which of two counted reasons wins: the higher class, then the larger count,
      then the smaller name. */
  predicate Beats(j: Reason, m: nat, k: Reason, n: nat) {
    || Priority(j) > Priority(k)
    || (Priority(j) == Priority(k) && (m > n || (m == n && StrLess(Name(j), Name(k)))))
  }

  /** The reason that beats every other counted one; NO_ELIGIBLE_NODE with no
      count when nothing was counted. */
  ghost predicate IsDominant(reasons: Counters, best: Reason, n: nat) {
    if reasons == map[] then best == NoEligibleNode && n == 0
    else
      && best in reasons && n == reasons[best]
      && forall k :: k in reasons && k != best ==> Beats(best, n, k, reasons[k])
  }

  /** The map is visited in any order. */
  method Dominant(reasons: Counters) returns (best: Reason, n: nat)
    ensures IsDominant(reasons, best, n)
  {
    var winner, bestPri, left := None, -1, reasons.Keys;
    n := 0;
    while left != {}
      invariant left <= reasons.Keys
      invariant winner.None? ==> n == 0 && bestPri == -1 && left == reasons.Keys
      invariant winner.Some? ==> winner.value in reasons && winner.value !in left && n == reasons[winner.value]
                                 && bestPri == Priority(winner.value)
      invariant winner.Some? ==> forall k :: k in reasons && k !in left && k != winner.value ==>
                                               Beats(winner.value, n, k, reasons[k])
    {
      var k :| k in left;
      var v, p := reasons[k], Priority(k);
      if winner.Some? {
        Contest(reasons, left, winner.value, k);
      }
      if p > bestPri || (p == bestPri
                            && (v > n || (v == n && (winner.None? || StrLess(Name(k), Name(winner.value)))))) {
        winner, n, bestPri := Some(k), v, p;
      }
      left := left - {k};
    }
    best := if winner.None? then NoEligibleNode else winner.value;
  }

  /** The newcomer or the winner so far wins, and a newcomer that beats the winner
      beats all it has beaten. */
  lemma Contest(reasons: Counters, left: set<Reason>, winner: Reason, k: Reason)
    requires winner in reasons && k in reasons && winner != k
    requires forall j :: j in reasons && j !in left && j != winner ==> Beats(winner, reasons[winner], j, reasons[j])
    ensures Beats(winner, reasons[winner], k, reasons[k]) || Beats(k, reasons[k], winner, reasons[winner])
    ensures Beats(k, reasons[k], winner, reasons[winner]) ==>
              forall j :: j in reasons && j !in left && j != winner ==> Beats(k, reasons[k], j, reasons[j])
  {
    OneBeats(winner, reasons[winner], k, reasons[k]);
    if Beats(k, reasons[k], winner, reasons[winner]) {
      forall j | j in reasons && j !in left && j != winner ensures Beats(k, reasons[k], j, reasons[j]) {
        BeatsOn(k, reasons[k], winner, reasons[winner], j, reasons[j]);
      }
    }
  }

  lemma NamesDiffer(j: Reason, k: Reason)
    requires j != k
    ensures Name(j) != Name(k)
  {
    assert Name(InsufficientCPU)[0] == 'I' && Name(NoEligibleNode)[0] == 'N';
    assert Name(InsufficientMemory)[0] == 'I' && Name(TaintNotTolerated)[0] == 'T';
    assert Name(NodeSelectorMismatch)[5] == 'S' && Name(NodeAffinityMismatch)[5] == 'A';
  }

  lemma OneBeats(j: Reason, m: nat, k: Reason, n: nat)
    requires j != k
    ensures Beats(j, m, k, n) <==> !Beats(k, n, j, m)
  {
    NamesDiffer(j, k);
    StrLessTotal(Name(j), Name(k));
    if StrLess(Name(j), Name(k)) && StrLess(Name(k), Name(j)) {
      StrLessTransitive(Name(j), Name(k), Name(j));
      StrLessIrreflexive(Name(j));
    }
  }

  lemma BeatsOn(a: Reason, l: nat, b: Reason, m: nat, c: Reason, n: nat)
    requires Beats(a, l, b, m) && Beats(b, m, c, n)
    ensures Beats(a, l, c, n)
  {
    if StrLess(Name(a), Name(b)) && StrLess(Name(b), Name(c)) {
      StrLessTransitive(Name(a), Name(b), Name(c));
    }
  }

  /** There is only one dominant reason. */
  lemma DominantIsUnique(reasons: Counters, best: Reason, n: nat, other: Reason, m: nat)
    requires IsDominant(reasons, best, n) && IsDominant(reasons, other, m)
    ensures best == other && n == m
  {
    if best != other {
      OneBeats(best, n, other, m);
    }
  }

  // ----- The analysis -----

  datatype Detail = Constraint(text: string) | NotListed | Ineligible(nodes: nat, failed: nat)

  datatype Finding = Finding(id: nat, reason: Reason, detail: Detail, confidence: Signals.Confidence)

  datatype Mode = NoMode | Approximate | ApproximatePartial | EventsOnly

  /** The candidates that are analysed: the assigned node stands in for an empty
      list. */
  function Pool(placed: Option<Node>, candidates: seq<Option<Node>>): seq<Option<Node>> {
    if candidates == [] && placed.Some? then [placed] else candidates
  }

  function Notes(unsupported: seq<string>, id: nat): seq<Finding> {
    seq(|unsupported|, i requires 0 <= i < |unsupported| =>
      Finding(id + i, UnsupportedConstraint, Constraint(unsupported[i]), Signals.Low))
  }

  /** The reason given when no node will do. */
  ghost predicate IsVerdict(pod: Pod, nodes: seq<Option<Node>>, id: nat, f: Finding) {
    && f.id == id && f.confidence == Signals.High
    && f.detail.Ineligible? && f.detail.nodes == |nodes|
    && IsDominant(Counts(pod, nodes), f.reason, f.detail.failed)
  }

  method ScheduleSignals(pod: Pod, placed: Option<Node>, candidates: seq<Option<Node>>, listed: bool,
                         unsupported: seq<string>, id: nat)
    returns (out: seq<Finding>, mode: Mode, id': nat)
    ensures !pod.pending || pod.nodeName != "" <==> mode == NoMode
    ensures mode == NoMode ==> out == []
    ensures mode != NoMode ==> Notes(unsupported, id) <= out
    ensures mode == EventsOnly <==> mode != NoMode && !listed && Pool(placed, candidates) == candidates
    ensures mode == EventsOnly ==>
              out == Notes(unsupported, id) + [Finding(id + |unsupported|, NoEligibleNode, NotListed, Signals.Low)]
    ensures mode == ApproximatePartial ==> unsupported != []
    ensures mode == Approximate ==> unsupported == []
    ensures mode in {Approximate, ApproximatePartial} ==>
              if SomeNodePasses(pod, Pool(placed, candidates)) then out == Notes(unsupported, id)
              else |out| == |unsupported| + 1
                   && IsVerdict(pod, Pool(placed, candidates), id + |unsupported|, out[|unsupported|])
    ensures id' == id + |out|
  {
    out, mode, id' := [], NoMode, id;
    if !pod.pending || pod.nodeName != "" {
      return;
    }
    mode := Approximate;
    for i := 0 to |unsupported|
      invariant out == Notes(unsupported, id)[..i] && id' == id + i
      invariant mode == if i == 0 then Approximate else ApproximatePartial
    {
      out := out + [Finding(id', UnsupportedConstraint, Constraint(unsupported[i]), Signals.Low)];
      id' := id' + 1;
      mode := ApproximatePartial;
    }
    var nodes, isListed := candidates, listed;
    if |nodes| == 0 && placed.Some? {
      nodes, isListed := [placed], true;
    }
    if !isListed {
      out := out + [Finding(id', NoEligibleNode, NotListed, Signals.Low)];
      return out, EventsOnly, id' + 1;
    }
    var reasons, eligible := CountNodes(pod, nodes);
    if eligible == 0 {
      var best, n := Dominant(reasons);
      out := out + [Finding(id', best, Ineligible(|nodes|, n), Signals.High)];
      id' := id' + 1;
    }
  }

  // ----- What does not depend on the order of the nodes -----

  lemma {:induction false} TallyWithout(pod: Pod, nodes: seq<Option<Node>>, i: nat, r: Reason)
    requires i < |nodes|
    ensures Tally(pod, nodes, r) == Tally(pod, Without(nodes, i), r) +
                                    if nodes[i].Some? then Failures(pod, nodes[i].value, r) else 0
  {
    WithoutLast(nodes, i);
    if i < |nodes| - 1 {
      TallyWithout(pod, nodes[..|nodes| - 1], i, r);
      var rest := Without(nodes[..|nodes| - 1], i);
      assert (rest + [nodes[|nodes| - 1]])[..|rest|] == rest;
    }
  }

  lemma {:induction false} TallyIgnoresOrder(pod: Pod, xs: seq<Option<Node>>, ys: seq<Option<Node>>, r: Reason)
    requires multiset(xs) == multiset(ys)
    ensures Tally(pod, xs, r) == Tally(pod, ys, r)
    decreases |xs|
  {
    if xs == [] {
      assert |multiset(ys)| == 0;
    } else {
      var i := LastElsewhere(xs, ys);
      TallyIgnoresOrder(pod, xs[..|xs| - 1], Without(ys, i), r);
      TallyWithout(pod, ys, i, r);
    }
  }

  /** Whatever order the nodes and the counters are visited in, the same reason is
      given, with the same count, or none is. */
  lemma VerdictIgnoresOrder(pod: Pod, xs: seq<Option<Node>>, ys: seq<Option<Node>>, id: nat, f: Finding, g: Finding)
    requires multiset(xs) == multiset(ys)
    requires IsVerdict(pod, xs, id, f) && IsVerdict(pod, ys, id, g)
    ensures f == g
    ensures SomeNodePasses(pod, xs) == SomeNodePasses(pod, ys)
  {
    forall r ensures Tally(pod, xs, r) == Tally(pod, ys, r) {
      TallyIgnoresOrder(pod, xs, ys, r);
    }
    assert Counts(pod, xs) == Counts(pod, ys);
    DominantIsUnique(Counts(pod, xs), f.reason, f.detail.failed, g.reason, g.detail.failed);
    assert |multiset(xs)| == |xs| && |multiset(ys)| == |ys|;
    SameMembers(xs, ys);
    assert forall n :: n in xs <==> n in ys;
  }

  /** NO_ELIGIBLE_NODE is given only when no node fails any other test, and an
      unsupported constraint only when no node fails a supported one. */
  lemma ClassesComeFirst(pod: Pod, nodes: seq<Option<Node>>, id: nat, f: Finding, node: Node, r: Reason)
    requires IsVerdict(pod, nodes, id, f)
    requires Some(node) in nodes && Failures(pod, node, r) > 0
    ensures Priority(f.reason) >= Priority(r)
    ensures f.detail.failed > 0
  {
    var i :| 0 <= i < |nodes| && nodes[i] == Some(node);
    TallyWithout(pod, nodes, i, r);
    assert r in Counts(pod, nodes);
  }

  // ----- The tests and the verdict, exactly -----

  /** What each kind of requirement asks of a label; one that is missing reads as
      empty, comparisons of numbers are never met and kinds that are not known always
      are. */
  lemma SatisfiedExactly(e: Requirement, labels: Labels)
    ensures Satisfied(e, labels) <==>
            var value := if e.key in labels then labels[e.key] else "";
            || (e.operator == In && exists v :: v in e.values && v == value)
            || (e.operator == NotIn && forall v :: v in e.values ==> v != value)
            || (e.operator == Has && e.key in labels.Keys)
            || (e.operator == HasNot && e.key !in labels.Keys)
            || e.operator == Unknown
  {
  }

  /** A term matches a node when its labels satisfy every expression and every field
      requirement names the node. */
  lemma TermMatchesExactly(t: Term, node: Node)
    ensures TermMatches(t, node) <==>
            && (forall i :: 0 <= i < |t.expressions| ==> Satisfied(t.expressions[i], node.labels))
            && (forall i :: 0 <= i < |t.fields| ==>
                  t.fields[i].key == "metadata.name" && t.fields[i].operator == In && node.name in t.fields[i].values)
  {
    if forall i :: 0 <= i < |t.fields| ==>
         t.fields[i].key == "metadata.name" && t.fields[i].operator == In && node.name in t.fields[i].values
    {
      forall f | f in t.fields ensures NamesNode(f) && node.name in f.values {
        var i :| 0 <= i < |t.fields| && t.fields[i] == f;
      }
    } else {
      var i :| 0 <= i < |t.fields| && !(t.fields[i].key == "metadata.name" && t.fields[i].operator == In
                                        && node.name in t.fields[i].values);
      assert t.fields[i] in t.fields;
    }
  }

  lemma {:induction false} RequestedTogether(a: seq<Container>, b: seq<Container>)
    ensures Requested(a + b).cpu == Requested(a).cpu + Requested(b).cpu
    ensures Requested(a + b).memory == Requested(a).memory + Requested(b).memory
    ensures |a| == 1 ==> Requested(a) == a[0]
    decreases |b|
  {
    if b == [] {
      assert a + b == a;
      if |a| == 1 {
        assert a[..0] == [];
      }
    } else {
      assert (a + b)[..|a + b| - 1] == a + b[..|b| - 1];
      RequestedTogether(a, b[..|b| - 1]);
    }
  }

  /** A node is eligible when it is not unready, not cordoned, large enough for all
      containers together, selected, tolerated and fitting the affinity. */
  lemma PassesExactly(pod: Pod, node: Node)
    ensures Passes(pod, node) <==>
            && (forall c :: c in node.conditions ==> !(c.kind == "Ready" && c.status == "False"))
            && !node.unschedulable
            && Requested(pod.containers + pod.initContainers).cpu <= node.cpu
            && Requested(pod.containers + pod.initContainers).memory <= node.memory
            && (pod.nodeSelector.Some? ==> forall k :: k in pod.nodeSelector.value ==>
                  (if k in node.labels then node.labels[k] else "") == pod.nodeSelector.value[k])
            && (forall t :: t in node.taints && t.effect in {NoSchedule, NoExecute} ==>
                  exists tol :: tol in pod.tolerations && Tolerates(tol, t))
            && (pod.affinity.Some? ==>
                  AffinityOk(pod.affinity.value, node) && !AffinityUnsupported(pod.affinity.value, node))
  {
    RequestedTogether(pod.containers, pod.initContainers);
    AllTests(pod, node);
    if !NotReady(node) {
      forall c | c in node.conditions ensures !(c.kind == "Ready" && c.status == "False") {
        assert c == Condition("Ready", "False") <==> c.kind == "Ready" && c.status == "False";
      }
    }
    assert forall t :: t in node.taints ==> (Repels(t) <==> t.effect in {NoSchedule, NoExecute});
  }

  lemma AllTests(pod: Pod, node: Node)
    ensures Passes(pod, node) <==>
            && !NotReady(node) && !node.unschedulable
            && Failures(pod, node, InsufficientCPU) == 0 && Failures(pod, node, InsufficientMemory) == 0
            && Failures(pod, node, NodeSelectorMismatch) == 0 && Failures(pod, node, TaintNotTolerated) == 0
            && Failures(pod, node, UnsupportedConstraint) == 0 && Failures(pod, node, NodeAffinityMismatch) == 0
  {
    assert Failures(pod, node, NoEligibleNode) == Once(NotReady(node)) + Once(node.unschedulable);
    if forall r | r in {NoEligibleNode, InsufficientCPU, InsufficientMemory, TaintNotTolerated, NodeSelectorMismatch,
                        NodeAffinityMismatch, UnsupportedConstraint} :: Failures(pod, node, r) == 0
    {
      forall r ensures Failures(pod, node, r) == 0 {
        AllReasons();
      }
    }
  }

  /** The tests a scheduler would make before the constraints the analysis cannot
      judge, and those before readiness and cordons. */
  predicate HigherClass(j: Reason, k: Reason) {
    match k
    case NoEligibleNode => j != NoEligibleNode
    case UnsupportedConstraint => j != NoEligibleNode && j != UnsupportedConstraint
    case _ => false
  }

  predicate SameClass(j: Reason, k: Reason) {
    !HigherClass(j, k) && !HigherClass(k, j)
  }

  /** The dominant reason against any other one that was counted: a higher class, or
      in the same class a larger count, or with the same count a smaller name. */
  lemma DominantExactly(reasons: Counters, best: Reason, n: nat, k: Reason)
    requires IsDominant(reasons, best, n) && k in reasons && k != best
    ensures || HigherClass(best, k)
            || (SameClass(best, k)
                && (n > reasons[k] || (n == reasons[k] && exists i: nat :: SmallerAt(Name(best), Name(k), i))))
  {
    StrLessExactly(Name(best), Name(k));
  }
}
