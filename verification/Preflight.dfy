/** The live checks a guarded action makes before it writes: disruption budgets,
    autoscalers and the last schedulable node (internal/action/engine.go).

    An API list that fails is None. A label selector is what the Kubernetes
    library makes of it: whether it parses, and which label sets it accepts. */
module Preflight {
  import opened Wrappers
  import opened Confirmation

  type Labels = map<string, string>

  datatype LabelSelector = LabelSelector(
    matchLabels: Labels, expressions: nat, parses: bool, accepts: Labels -> bool)

  datatype PDB = PDB(name: string, selector: Option<LabelSelector>, disruptionsAllowed: int)

  datatype HPA = HPA(apiVersion: string, kind: Kind, name: string)

  datatype Condition = Condition(kind: string, status: string)

  // ----- Disruption budgets -----

  predicate PdbMatchesWorkload(p: PDB, sel: Option<LabelSelector>) {
    if p.selector.None? || sel.None? then false
    else if !p.selector.value.parses then true
    else if |sel.value.matchLabels| == 0 && sel.value.expressions > 0 then true
    else p.selector.value.accepts(sel.value.matchLabels)
  }

  predicate PdbMatchesPod(p: PDB, labels: Labels) {
    p.selector.Some? && (p.selector.value.parses ==> p.selector.value.accepts(labels))
  }

  /** A budget that covers the workload and has nothing left to give. */
  predicate WorkloadBlocked(pdbs: seq<PDB>, sel: Option<LabelSelector>) {
    exists i :: 0 <= i < |pdbs| && PdbMatchesWorkload(pdbs[i], sel) && pdbs[i].disruptionsAllowed == 0
  }

  predicate PodBlocked(pdbs: seq<PDB>, labels: Labels) {
    exists i :: 0 <= i < |pdbs| && PdbMatchesPod(pdbs[i], labels) && pdbs[i].disruptionsAllowed == 0
  }

  /** The names of the budgets a predicate picks out, in list order. */
  function NamesWhere(pdbs: seq<PDB>, picks: PDB -> bool): seq<string> {
    if pdbs == [] then []
    else
      var rest := NamesWhere(pdbs[..|pdbs| - 1], picks);
      if picks(pdbs[|pdbs| - 1]) then rest + [pdbs[|pdbs| - 1].name] else rest
  }

  method MatchingPDBBlock(pdbs: Option<seq<PDB>>, sel: Option<LabelSelector>)
    returns (blocked: bool, err: bool, names: seq<string>)
    ensures err <==> sel.Some? && pdbs.None?
    ensures blocked <==> pdbs.Some? && WorkloadBlocked(pdbs.value, sel)
    ensures names == if sel.None? || pdbs.None? then [] else NamesWhere(pdbs.value, p => PdbMatchesWorkload(p, sel))
  {
    blocked, err, names := false, false, [];
    if sel.None? {
      return;
    }
    if pdbs.None? {
      return false, true, [];
    }
    var list := pdbs.value;
    for i := 0 to |list|
      invariant blocked <==> WorkloadBlocked(list[..i], sel)
      invariant names == NamesWhere(list[..i], p => PdbMatchesWorkload(p, sel))
    {
      assert list[..i + 1][..i] == list[..i];
      WorkloadBlockedStep(list[..i], list[i], sel);
      assert list[..i + 1] == list[..i] + [list[i]];
      if !PdbMatchesWorkload(list[i], sel) {
        continue;
      }
      names := names + [list[i].name];
      if list[i].disruptionsAllowed == 0 {
        blocked := true;
      }
    }
    assert list[..|list|] == list;
  }

  lemma WorkloadBlockedStep(pdbs: seq<PDB>, p: PDB, sel: Option<LabelSelector>)
    ensures WorkloadBlocked(pdbs + [p], sel) <==>
            WorkloadBlocked(pdbs, sel) || (PdbMatchesWorkload(p, sel) && p.disruptionsAllowed == 0)
  {
    var all := pdbs + [p];
    assert all[|pdbs|] == p;
    forall i | 0 <= i < |pdbs| ensures all[i] == pdbs[i] {}
  }

  method MatchingPDBBlockForPod(pdbs: Option<seq<PDB>>, labels: Labels)
    returns (blocked: bool, err: bool, names: seq<string>)
    ensures err <==> pdbs.None?
    ensures blocked <==> pdbs.Some? && PodBlocked(pdbs.value, labels)
    ensures names == if pdbs.None? then [] else NamesWhere(pdbs.value, p => PdbMatchesPod(p, labels))
  {
    blocked, err, names := false, false, [];
    if pdbs.None? {
      return false, true, [];
    }
    var list := pdbs.value;
    for i := 0 to |list|
      invariant blocked <==> PodBlocked(list[..i], labels)
      invariant names == NamesWhere(list[..i], p => PdbMatchesPod(p, labels))
    {
      assert list[..i + 1][..i] == list[..i];
      PodBlockedStep(list[..i], list[i], labels);
      assert list[..i + 1] == list[..i] + [list[i]];
      var p := list[i];
      if p.selector.None? {
        continue;
      }
      if !p.selector.value.parses {
        names := names + [p.name];
        if p.disruptionsAllowed == 0 {
          blocked := true;
        }
        continue;
      }
      if !p.selector.value.accepts(labels) {
        continue;
      }
      names := names + [p.name];
      if p.disruptionsAllowed == 0 {
        blocked := true;
      }
    }
    assert list[..|list|] == list;
  }

  lemma PodBlockedStep(pdbs: seq<PDB>, p: PDB, labels: Labels)
    ensures PodBlocked(pdbs + [p], labels) <==>
            PodBlocked(pdbs, labels) || (PdbMatchesPod(p, labels) && p.disruptionsAllowed == 0)
  {
    var all := pdbs + [p];
    assert all[|pdbs|] == p;
    forall i | 0 <= i < |pdbs| ensures all[i] == pdbs[i] {}
  }

  // ----- Autoscalers -----

  predicate HpaMatches(h: HPA, kind: Kind, name: string) {
    && h.kind == kind && h.name == name
    && (h.apiVersion == "" || "apps/" <= h.apiVersion)
  }

  predicate HpaTargets(hpas: seq<HPA>, kind: Kind, name: string) {
    exists i :: 0 <= i < |hpas| && HpaMatches(hpas[i], kind, name)
  }

  method AnyHpaTargets(hpas: seq<HPA>, kind: Kind, name: string) returns (found: bool)
    ensures found <==> HpaTargets(hpas, kind, name)
  {
    for i := 0 to |hpas|
      invariant forall j :: 0 <= j < i ==> !HpaMatches(hpas[j], kind, name)
    {
      if HpaMatches(hpas[i], kind, name) {
        return true;
      }
    }
    return false;
  }

  /** The v1 list is consulted, and can fail the check, only when the v2 list
      shows no match. */
  method HasHPA(v2: Option<seq<HPA>>, v1: Option<seq<HPA>>, kind: Kind, name: string) returns (r: Option<bool>)
    ensures r == Some(true) <==>
            v2.Some? && (HpaTargets(v2.value, kind, name) || (v1.Some? && HpaTargets(v1.value, kind, name)))
    ensures r == None <==> v2.None? || (!HpaTargets(v2.value, kind, name) && v1.None?)
  {
    if v2.None? {
      return None;
    }
    var found := AnyHpaTargets(v2.value, kind, name);
    if found {
      return Some(true);
    }
    if v1.None? {
      return None;
    }
    found := AnyHpaTargets(v1.value, kind, name);
    return Some(found);
  }

  // ----- Nodes -----

  predicate NodeReady(conditions: seq<Condition>) {
    exists i :: 0 <= i < |conditions| && conditions[i] == Condition("Ready", "True")
  }
}
