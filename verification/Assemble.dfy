/** Assembling a response: evidence, scoped IDs and the second assembly a
    workload makes from its pods (internal/diagnostic/assemble.go, sigsFromResp in
    internal/diagnostic/engine.go). */
module Assemble {
  import opened Wrappers
  import opened Ordering
  import opened Signals
  import opened Correlation
  import opened Health
  import Ranking

  datatype Evidence = Evidence(id: string, source: Source, message: string, resource: Ref)

  datatype Finding = Finding(severity: Severity, reason: string, message: string)

  datatype ImpactSeverity = ImpactLow | ImpactHigh | ImpactCritical

  /** What the summary says: that the target appears healthy, what it is blamed on,
      or its health alone. */
  datatype Headline = AppearsHealthy | Blamed(category: string) | HealthAlone

  /** partial stands for the status: success or, with limited visibility, partial. */
  datatype Response = Response(
    partial: bool, target: Ref, health: Health, headline: Headline, impact: ImpactSeverity,
    rootCause: Option<Hypothesis>, rootCauses: seq<Hypothesis>, findings: seq<Finding>, evidence: seq<Evidence>,
    recommendations: seq<Advice>)

  function ToEvidence(s: Signal): Evidence {
    Evidence(s.id, s.source, s.message, s.resource)
  }

  predicate Scoped(id: string) {
    ':' in id
  }

  /** An ID is scoped once: a prefix is added only to a non-empty ID without a
      colon. */
  function MapID(prefix: string, id: string): string {
    if id == "" || Scoped(id) then id else prefix + id
  }

  function Prefix(target: Ref): string {
    RefString(target) + ":"
  }

  function MapIDs(prefix: string, ids: seq<string>): seq<string> {
    seq(|ids|, i requires 0 <= i < |ids| => MapID(prefix, ids[i]))
  }

  function ScopedSignal(prefix: string, s: Signal): Signal {
    s.(id := MapID(prefix, s.id))
  }

  function ScopedHypothesis(prefix: string, h: Hypothesis): Hypothesis {
    h.(supporting := MapIDs(prefix, h.supporting), contradicting := MapIDs(prefix, h.contradicting))
  }

  method ScopeList(prefix: string, ids: seq<string>) returns (out: seq<string>)
    ensures out == MapIDs(prefix, ids)
  {
    out := ids;
    for j := 0 to |ids|
      invariant |out| == |ids|
      invariant forall k :: 0 <= k < j ==> out[k] == MapID(prefix, ids[k])
      invariant forall k :: j <= k < |ids| ==> out[k] == ids[k]
    {
      out := out[j := MapID(prefix, ids[j])];
    }
  }

  /** Both slices are rewritten in place. */
  method ScopeIDs(target: Ref, sigs: array<Signal>, hyps: array<Hypothesis>)
    modifies sigs, hyps
    ensures forall i :: 0 <= i < sigs.Length ==> sigs[i] == ScopedSignal(Prefix(target), old(sigs[i]))
    ensures forall i :: 0 <= i < hyps.Length ==> hyps[i] == ScopedHypothesis(Prefix(target), old(hyps[i]))
  {
    var prefix := Prefix(target);
    for i := 0 to sigs.Length
      invariant forall k :: 0 <= k < i ==> sigs[k] == ScopedSignal(prefix, old(sigs[k]))
      invariant forall k :: i <= k < sigs.Length ==> sigs[k] == old(sigs[k])
      invariant forall k :: 0 <= k < hyps.Length ==> hyps[k] == old(hyps[k])
    {
      sigs[i] := ScopedSignal(prefix, sigs[i]);
    }
    for i := 0 to hyps.Length
      invariant forall k :: 0 <= k < i ==> hyps[k] == ScopedHypothesis(prefix, old(hyps[k]))
      invariant forall k :: i <= k < hyps.Length ==> hyps[k] == old(hyps[k])
      invariant forall k :: 0 <= k < sigs.Length ==> sigs[k] == ScopedSignal(prefix, old(sigs[k]))
    {
      var supporting := ScopeList(prefix, hyps[i].supporting);
      var contradicting := ScopeList(prefix, hyps[i].contradicting);
      hyps[i] := hyps[i].(supporting := supporting, contradicting := contradicting);
    }
  }

  function ScopedSignals(prefix: string, sigs: seq<Signal>): seq<Signal> {
    seq(|sigs|, i requires 0 <= i < |sigs| => ScopedSignal(prefix, sigs[i]))
  }

  function ScopedHypotheses(prefix: string, hyps: seq<Hypothesis>): seq<Hypothesis> {
    seq(|hyps|, i requires 0 <= i < |hyps| => ScopedHypothesis(prefix, hyps[i]))
  }

  predicate EvidenceBefore(a: Evidence, b: Evidence) {
    if a.id != b.id then StrLess(a.id, b.id) else StrLess(a.message, b.message)
  }

  lemma EvidenceOrder()
    ensures WeakOrder(EvidenceBefore)
  {
    StringOrder();
    forall x, y, z | EvidenceBefore(x, y) && EvidenceBefore(y, z) ensures EvidenceBefore(x, z) {}
    forall x, y, z | !EvidenceBefore(x, y) && !EvidenceBefore(y, z) ensures !EvidenceBefore(x, z) {}
  }

  predicate FindingBefore(a: Finding, b: Finding) {
    if a.reason != b.reason then StrLess(a.reason, b.reason) else StrLess(a.message, b.message)
  }

  lemma FindingOrder()
    ensures WeakOrder(FindingBefore)
  {
    StringOrder();
    forall x, y, z | FindingBefore(x, y) && FindingBefore(y, z) ensures FindingBefore(x, z) {}
    forall x, y, z | !FindingBefore(x, y) && !FindingBefore(y, z) ensures !FindingBefore(x, z) {}
  }

  /** Every signal that is more than informational, in order. */
  function FindingsOf(sigs: seq<Signal>): seq<Finding> {
    if sigs == [] then []
    else
      var s := sigs[|sigs| - 1];
      FindingsOf(sigs[..|sigs| - 1]) + if s.severity != Info then [Finding(s.severity, s.reason, s.message)] else []
  }

  lemma {:induction false} FindingsIgnoreScoping(prefix: string, sigs: seq<Signal>)
    ensures FindingsOf(ScopedSignals(prefix, sigs)) == FindingsOf(sigs)
  {
    if sigs != [] {
      assert ScopedSignals(prefix, sigs)[..|sigs| - 1] == ScopedSignals(prefix, sigs[..|sigs| - 1]);
      FindingsIgnoreScoping(prefix, sigs[..|sigs| - 1]);
    }
  }

  function ImpactOf(h: Health): ImpactSeverity {
    match h
    case CriticalHealth => ImpactCritical
    case Degraded => ImpactHigh
    case _ => ImpactLow
  }

  function HeadlineOf(h: Health, hyps: seq<Hypothesis>): Headline {
    if h == Healthy then AppearsHealthy
    else if |hyps| > 0 then Blamed(hyps[0].category)
    else HealthAlone
  }

  /** Everything advised for these hypotheses, in their order. */
  function Advised(rules: Rules, hyps: seq<Hypothesis>): seq<Advice> {
    if hyps == [] then [] else Advised(rules, hyps[..|hyps| - 1]) + rules.advice(hyps[|hyps| - 1].category)
  }

  predicate HasAction(advice: seq<Advice>, action: string) {
    exists a :: a in advice && a.action == action
  }

  /** The first advice for each action, in order. */
  function OncePerAction(advice: seq<Advice>): seq<Advice> {
    if advice == [] then []
    else
      var before, a := OncePerAction(advice[..|advice| - 1]), advice[|advice| - 1];
      if HasAction(before, a.action) then before else before + [a]
  }

  /** No action is advised twice, none is lost, and nothing else is advised. */
  lemma {:induction false} OncePerActionMeans(advice: seq<Advice>)
    ensures var once := OncePerAction(advice);
            && (forall i, j :: 0 <= i < j < |once| ==> once[i].action != once[j].action)
            && (forall a :: a in advice ==> HasAction(once, a.action))
            && (forall a :: a in once ==> a in advice)
  {
    if advice != [] {
      var front, a := advice[..|advice| - 1], advice[|advice| - 1];
      OncePerActionMeans(front);
      assert advice == front + [a];
      var before := OncePerAction(front);
      if !HasAction(before, a.action) {
        assert forall i :: 0 <= i < |before| ==> before[i] in before;
        forall b | b in advice ensures HasAction(before + [a], b.action) {
          if b != a {
            var c :| c in before && c.action == b.action;
            assert c in before + [a];
          } else {
            assert a in before + [a];
          }
        }
      }
    }
  }

  /** What is recommended: nothing without a hypothesis, and something general when
      there is no advice for any of them. */
  function Recommended(rules: Rules, hyps: seq<Hypothesis>): seq<Advice> {
    var once := OncePerAction(Advised(rules, hyps));
    if hyps == [] then [] else if once == [] then rules.advice("") else once
  }

  method RecsFrom(rules: Rules, hyps: seq<Hypothesis>) returns (out: seq<Advice>)
    ensures out == Recommended(rules, hyps)
  {
    if |hyps| == 0 {
      return [];
    }
    out := [];
    var seen: set<string> := {};
    for i := 0 to |hyps|
      invariant out == OncePerAction(Advised(rules, hyps[..i])) && SeenIn(seen, out)
    {
      assert hyps[..i + 1][..i] == hyps[..i];
      out, seen := AddAdvice(rules.advice(hyps[i].category), out, seen, Advised(rules, hyps[..i]));
    }
    assert hyps[..|hyps|] == hyps;
    if |out| == 0 {
      out := rules.advice("");
    }
  }

  ghost predicate SeenIn(seen: set<string>, out: seq<Advice>) {
    forall action :: action in seen <==> HasAction(out, action)
  }

  /** The loop over the advice for one hypothesis. */
  method AddAdvice(advice: seq<Advice>, out: seq<Advice>, seen: set<string>, ghost before: seq<Advice>)
    returns (out': seq<Advice>, seen': set<string>)
    requires out == OncePerAction(before) && SeenIn(seen, out)
    ensures out' == OncePerAction(before + advice) && SeenIn(seen', out')
  {
    out', seen' := out, seen;
    assert before + advice[..0] == before;
    for i := 0 to |advice|
      invariant out' == OncePerAction(before + advice[..i]) && SeenIn(seen', out')
    {
      var a := advice[i];
      OneMoreAdvice(before, advice, i);
      if a.action in seen' {
        continue;
      }
      SeenOneMore(seen', out', a);
      seen' := seen' + {a.action};
      out' := out' + [a];
    }
    assert advice[..|advice|] == advice;
  }

  lemma SeenOneMore(seen: set<string>, out: seq<Advice>, a: Advice)
    requires SeenIn(seen, out)
    ensures SeenIn(seen + {a.action}, out + [a])
  {
    forall action ensures HasAction(out + [a], action) <==> HasAction(out, action) || action == a.action {
      assert forall b :: b in out + [a] <==> b in out || b == a;
    }
  }

  lemma OneMoreAdvice(before: seq<Advice>, advice: seq<Advice>, i: nat)
    requires i < |advice|
    ensures var once := OncePerAction(before + advice[..i]);
            OncePerAction(before + advice[..i + 1]) ==
            if HasAction(once, advice[i].action) then once else once + [advice[i]]
  {
    assert (before + advice[..i + 1])[..|before| + i] == before + advice[..i];
  }

  function Severities(sigs: seq<Signal>): seq<Severity> {
    seq(|sigs|, i requires 0 <= i < |sigs| => sigs[i].severity)
  }

  /** The response for these signals. */
  ghost predicate IsAssembled(rules: Rules, target: Ref, sigs: seq<Signal>, visibility: Option<Visibility>,
                              r: Response) {
    && r.target == target
    && r.health == Verdict(Severities(sigs), visibility)
    && (exists hyps :: IsRanking(rules, Dedup(sigs), hyps) && r.rootCauses == ScopedHypotheses(Prefix(target), hyps))
    && r.rootCause == (if |r.rootCauses| > 0 && r.health != Healthy then Some(r.rootCauses[0]) else None)
    && multiset(r.evidence) == multiset(EvidenceList(Prefix(target), sigs))
    && Sorted(r.evidence, EvidenceBefore)
    && IsPresented(rules, sigs, visibility, r)
  }

  /** What is presented beside the causes. */
  ghost predicate IsPresented(rules: Rules, sigs: seq<Signal>, visibility: Option<Visibility>, r: Response) {
    && (r.partial <==> visibility.Some? && visibility.value.limited)
    && r.headline == HeadlineOf(r.health, r.rootCauses) && r.impact == ImpactOf(r.health)
    && r.recommendations == Recommended(rules, r.rootCauses)
    && multiset(r.findings) == multiset(FindingsOf(sigs)) && Sorted(r.findings, FindingBefore)
  }

  function EvidenceList(prefix: string, sigs: seq<Signal>): seq<Evidence> {
    seq(|sigs|, i requires 0 <= i < |sigs| => ToEvidence(ScopedSignal(prefix, sigs[i])))
  }

  method AssembleResponse(rules: Rules, target: Ref, sigs: array<Signal>, visibility: Option<Visibility>)
    returns (r: Response)
    modifies sigs
    ensures sigs[..] == ScopedSignals(Prefix(target), old(sigs[..]))
    ensures IsAssembled(rules, target, old(sigs[..]), visibility, r)
  {
    ghost var before := sigs[..];
    var h := Evaluate(Severities(sigs[..]), visibility);
    var ranked := Correlate(rules, sigs[..]);
    var hyps := new Hypothesis[|ranked|](i requires 0 <= i < |ranked| => ranked[i]);
    assert hyps[..] == ranked;
    ScopeIDs(target, sigs, hyps);
    assert hyps[..] == ScopedHypotheses(Prefix(target), ranked);
    var findings, evidence := Collect(sigs, Prefix(target), before);
    var rootCause := if hyps.Length > 0 then Some(hyps[0]) else None;
    if h == Healthy {
      rootCause := None;
    }
    var recommendations := RecsFrom(rules, hyps[..]);
    r := Response(visibility.Some? && visibility.value.limited, target, h, HeadlineOf(h, hyps[..]), ImpactOf(h),
                  rootCause, hyps[..], findings, evidence, recommendations);
  }

  /** The loop over the signals, which are scoped already, and the two sorts. */
  method Collect(sigs: array<Signal>, ghost prefix: string, ghost before: seq<Signal>)
    returns (findings: seq<Finding>, evidence: seq<Evidence>)
    requires sigs[..] == ScopedSignals(prefix, before)
    ensures multiset(findings) == multiset(FindingsOf(before)) && Sorted(findings, FindingBefore)
    ensures multiset(evidence) == multiset(EvidenceList(prefix, before)) && Sorted(evidence, EvidenceBefore)
  {
    findings, evidence := [], [];
    for i := 0 to sigs.Length
      invariant findings == FindingsOf(sigs[..i])
      invariant |evidence| == i
      invariant forall k :: 0 <= k < i ==> evidence[k] == ToEvidence(sigs[k])
    {
      var s := sigs[i];
      assert sigs[..i + 1][..i] == sigs[..i];
      if s.severity != Info {
        findings := findings + [Finding(s.severity, s.reason, s.message)];
      }
      evidence := evidence + [ToEvidence(s)];
    }
    assert sigs[..sigs.Length] == sigs[..];
    assert evidence == EvidenceList(prefix, before);
    FindingsIgnoreScoping(prefix, before);
    FindingOrder();
    findings := StableSort(findings, FindingBefore);
    EvidenceOrder();
    evidence := StableSort(evidence, EvidenceBefore);
  }

  /** What a workload makes of one evidence of a pod's response. */
  function TakenOver(r: Response, e: Evidence): Signal {
    Signal(e.id, if e.source == OtherSource("") then Status else e.source, "Pod", "", Warning,
           if e.resource.name == "" then r.target else e.resource, e.message, 1)
  }

  function TakenOverAll(r: Response, evidence: seq<Evidence>): seq<Signal> {
    if evidence == [] then []
    else
      var e := evidence[|evidence| - 1];
      TakenOverAll(r, evidence[..|evidence| - 1]) + if e.id == "" then [] else [TakenOver(r, e)]
  }

  method SigsFromResp(r: Response) returns (out: seq<Signal>)
    ensures out == TakenOverAll(r, r.evidence)
  {
    out := [];
    for i := 0 to |r.evidence|
      invariant out == TakenOverAll(r, r.evidence[..i])
    {
      var ev := r.evidence[i];
      assert r.evidence[..i + 1][..i] == r.evidence[..i];
      if ev.id == "" {
        continue;
      }
      var src := if ev.source == OtherSource("") then Status else ev.source;
      var ref := if ev.resource.name == "" then r.target else ev.resource;
      out := out + [Signal(ev.id, src, "Pod", "", Warning, ref, ev.message, 1)];
    }
    assert r.evidence[..|r.evidence|] == r.evidence;
  }

  // ----- What scoping keeps -----

  predicate HasEvidence(r: Response, id: string) {
    exists e :: e in r.evidence && e.id == id
  }

  /** Every signal is listed under its scoped ID. */
  lemma Listed(target: Ref, sigs: seq<Signal>, r: Response, s: Signal)
    requires multiset(r.evidence) == multiset(EvidenceList(Prefix(target), sigs)) && s in sigs
    ensures ToEvidence(ScopedSignal(Prefix(target), s)) in r.evidence
  {
    SameMembers(r.evidence, EvidenceList(Prefix(target), sigs));
    var i :| 0 <= i < |sigs| && sigs[i] == s;
    assert EvidenceList(Prefix(target), sigs)[i] in r.evidence;
  }

  lemma {:induction false} DedupIdsAreThere(xs: seq<Signal>, i: nat)
    requires i < |Dedup(xs)|
    ensures exists s :: s in xs && s.id == Dedup(xs)[i].id
  {
    var front, s := xs[..|xs| - 1], xs[|xs| - 1];
    assert xs == front + [s];
    MergedIds(Dedup(front), s, i);
    if i < |Dedup(front)| {
      DedupIdsAreThere(front, i);
    } else {
      assert s in xs;
    }
  }

  lemma MergedIds(kept: seq<Signal>, s: Signal, i: nat)
    requires i < |Merge(kept, s)|
    ensures Merge(kept, s)[i].id == if i < |kept| then kept[i].id else s.id
  {
  }

  /** Everything a response cites is in its evidence. */
  ghost predicate CitesItsEvidence(r: Response) {
    && (forall h, id :: h in r.rootCauses && (id in h.supporting || id in h.contradicting) ==> HasEvidence(r, id))
    && (forall id :: r.rootCause.Some?
                     && (id in r.rootCause.value.supporting || id in r.rootCause.value.contradicting) ==>
          HasEvidence(r, id))
  }

  lemma AssembledCitesItsEvidence(rules: Rules, target: Ref, sigs: seq<Signal>, visibility: Option<Visibility>,
                                  r: Response)
    requires IsAssembled(rules, target, sigs, visibility, r)
    ensures CitesItsEvidence(r)
  {
    var hyps: seq<Hypothesis> :|
      IsRanking(rules, Dedup(sigs), hyps) && r.rootCauses == ScopedHypotheses(Prefix(target), hyps);
    RankedCites(rules, Dedup(sigs), hyps);
    AllCite(target, sigs, r, hyps);
  }

  lemma RankedCites(rules: Rules, kept: seq<Signal>, hyps: seq<Hypothesis>)
    requires IsRanking(rules, kept, hyps)
    ensures forall h :: h in hyps ==> CitesFrom(h, kept)
  {
    Ranking.EvidenceIsPartitioned(rules, kept, hyps);
  }

  lemma AllCite(target: Ref, sigs: seq<Signal>, r: Response, hyps: seq<Hypothesis>)
    requires multiset(r.evidence) == multiset(EvidenceList(Prefix(target), sigs))
    requires r.rootCauses == ScopedHypotheses(Prefix(target), hyps)
    requires forall h :: h in hyps ==> CitesFrom(h, Dedup(sigs))
    ensures forall h, id :: h in r.rootCauses && (id in h.supporting || id in h.contradicting) ==> HasEvidence(r, id)
  {
    forall h, id | h in r.rootCauses && (id in h.supporting || id in h.contradicting) ensures HasEvidence(r, id) {
      var i :| 0 <= i < |hyps| && r.rootCauses[i] == h;
      assert hyps[i] in hyps;
      ScopedCites(target, sigs, r, hyps[i], id);
    }
  }

  ghost predicate CitesFrom(h: Hypothesis, kept: seq<Signal>) {
    forall id :: id in h.supporting || id in h.contradicting ==> exists s :: s in kept && s.id == id
  }

  lemma ScopedCites(target: Ref, sigs: seq<Signal>, r: Response, h: Hypothesis, id: string)
    requires multiset(r.evidence) == multiset(EvidenceList(Prefix(target), sigs)) && CitesFrom(h, Dedup(sigs))
    requires var scoped := ScopedHypothesis(Prefix(target), h); id in scoped.supporting || id in scoped.contradicting
    ensures HasEvidence(r, id)
  {
    var prefix := Prefix(target);
    var own := Unscoped(prefix, if id in MapIDs(prefix, h.supporting) then h.supporting else h.contradicting, id);
    CitedIsEvidence(target, sigs, r, own);
  }

  lemma Unscoped(prefix: string, ids: seq<string>, id: string) returns (own: string)
    requires id in MapIDs(prefix, ids)
    ensures own in ids && id == MapID(prefix, own)
  {
    var j :| 0 <= j < |ids| && MapIDs(prefix, ids)[j] == id;
    own := ids[j];
  }

  lemma CitedIsEvidence(target: Ref, sigs: seq<Signal>, r: Response, own: string)
    requires multiset(r.evidence) == multiset(EvidenceList(Prefix(target), sigs))
    requires exists s :: s in Dedup(sigs) && s.id == own
    ensures HasEvidence(r, MapID(Prefix(target), own))
  {
    var s :| s in Dedup(sigs) && s.id == own;
    var i :| 0 <= i < |Dedup(sigs)| && Dedup(sigs)[i] == s;
    DedupIdsAreThere(sigs, i);
    var t :| t in sigs && t.id == own;
    Listed(target, sigs, r, t);
  }

  /** Once scoped, an ID stays as it is, whatever scopes it next. */
  lemma ScopedOnce(first: Ref, second: Ref, id: string)
    ensures MapID(Prefix(second), MapID(Prefix(first), id)) == MapID(Prefix(first), id)
  {
    EndsInColon(first, id);
  }

  lemma EndsInColon(target: Ref, id: string)
    ensures MapID(Prefix(target), id) == "" || Scoped(MapID(Prefix(target), id))
  {
    assert Prefix(target)[|RefString(target)|] == ':';
    assert (Prefix(target) + id)[|RefString(target)|] == ':';
  }

  /** An ID that scoping changes. */
  predicate PlainId(id: string) {
    id != "" && !Scoped(id)
  }

  lemma LastColon(p: string, a: string, q: string, b: string)
    requires !Scoped(a) && !Scoped(b) && p + ":" + a == q + ":" + b
    ensures p == q && a == b
  {
    var x := p + ":" + a;
    assert x[|p|] == ':' && (q + ":" + b)[|q|] == ':';
    assert forall i :: |p| < i < |x| ==> x[i] == a[i - |p| - 1];
    assert forall i :: |q| < i < |x| ==> x[i] == b[i - |q| - 1];
    assert |p| == |q|;
    assert p == x[..|p|] && q == x[..|p|];
    assert a == x[|p| + 1..] && b == x[|p| + 1..];
  }

  /** When two IDs fall together once they are scoped for two targets: two plain
      ones exactly when they are the same ID of the same resource, and one that is
      left alone exactly when it already is what the other becomes. */
  lemma ScopingExactly(first: Ref, second: Ref, a: string, b: string)
    ensures MapID(Prefix(first), a) == MapID(Prefix(second), b) <==>
            if PlainId(a) && PlainId(b) then RefString(first) == RefString(second) && a == b
            else if PlainId(a) then b == Prefix(first) + a
            else if PlainId(b) then a == Prefix(second) + b
            else a == b
  {
    if PlainId(a) && PlainId(b) && Prefix(first) + a == Prefix(second) + b {
      LastColon(RefString(first), a, RefString(second), b);
    }
  }

  /** The same for one target: different IDs fall together only if one of them is
      the other one scoped already. */
  lemma CollidesExactly(target: Ref, a: string, b: string)
    ensures MapID(Prefix(target), a) == MapID(Prefix(target), b) <==>
            || a == b
            || (PlainId(a) && b == Prefix(target) + a)
            || (PlainId(b) && a == Prefix(target) + b)
  {
    ScopingExactly(target, target, a, b);
    ScopedAlreadyMayCollide(target, a);
    ScopedAlreadyMayCollide(target, b);
  }

  /** A plain ID does fall together with its scoped form. */
  lemma ScopedAlreadyMayCollide(target: Ref, id: string)
    ensures PlainId(id) ==> MapID(Prefix(target), id) == MapID(Prefix(target), Prefix(target) + id)
                            && !PlainId(Prefix(target) + id) && id != Prefix(target) + id
  {
    EndsInColon(target, id);
    assert |id| < |Prefix(target) + id|;
  }

  lemma {:induction false} TakenOverHas(r: Response, evidence: seq<Evidence>, e: Evidence)
    requires e in evidence && e.id != ""
    ensures TakenOver(r, e) in TakenOverAll(r, evidence)
  {
    if e != evidence[|evidence| - 1] {
      assert evidence == evidence[..|evidence| - 1] + [evidence[|evidence| - 1]];
      TakenOverHas(r, evidence[..|evidence| - 1], e);
    }
  }

  /** A workload that takes over its pod's evidence cites only evidence of its
      own, and the pod's evidence comes through under the IDs the pod gave it. */
  lemma PodEvidenceReachesTheWorkload(rules: Rules, pod: Response, podSigs: seq<Signal>,
                                      podVisibility: Option<Visibility>,
                                      own: seq<Signal>, more: seq<Signal>, target: Ref, visibility: Option<Visibility>,
                                      r: Response)
    requires IsAssembled(rules, pod.target, podSigs, podVisibility, pod)
    requires IsAssembled(rules, target, own + TakenOverAll(pod, pod.evidence) + more, visibility, r)
    ensures CitesItsEvidence(pod) && CitesItsEvidence(r)
    ensures forall e :: e in pod.evidence && e.id != "" ==>
              Evidence(e.id, if e.source == OtherSource("") then Status else e.source, e.message,
                       if e.resource.name == "" then pod.target else e.resource) in r.evidence
  {
    var sigs := own + TakenOverAll(pod, pod.evidence) + more;
    AssembledCitesItsEvidence(rules, pod.target, podSigs, podVisibility, pod);
    AssembledCitesItsEvidence(rules, target, sigs, visibility, r);
    forall e | e in pod.evidence && e.id != ""
      ensures ToEvidence(TakenOver(pod, e)) in r.evidence
      ensures ToEvidence(TakenOver(pod, e)) ==
              Evidence(e.id, if e.source == OtherSource("") then Status else e.source, e.message,
                       if e.resource.name == "" then pod.target else e.resource)
    {
      TakenOverHas(pod, pod.evidence, e);
      PodIdsAreScoped(pod, podSigs, e);
      assert TakenOver(pod, e) in sigs;
      Listed(target, sigs, r, TakenOver(pod, e));
    }
  }

  lemma PodIdsAreScoped(pod: Response, podSigs: seq<Signal>, e: Evidence)
    requires multiset(pod.evidence) == multiset(EvidenceList(Prefix(pod.target), podSigs))
    requires e in pod.evidence
    ensures e.id == "" || Scoped(e.id)
  {
    SameMembers(pod.evidence, EvidenceList(Prefix(pod.target), podSigs));
    var i :| 0 <= i < |podSigs| && EvidenceList(Prefix(pod.target), podSigs)[i] == e;
    EndsInColon(pod.target, podSigs[i].id);
  }

  // ----- What is presented, exactly -----

  /** Smaller, letter by letter. */
  ghost predicate Smaller(a: string, b: string) {
    exists n: nat :: SmallerAt(a, b, n)
  }

  /** Evidence comes by ID and then message, findings by reason and then message. */
  lemma InOrder(rules: Rules, target: Ref, sigs: seq<Signal>, visibility: Option<Visibility>, r: Response, i: nat,
                j: nat)
    requires IsAssembled(rules, target, sigs, visibility, r) && i < j
    ensures j < |r.evidence| ==>
              var a, b := r.evidence[i], r.evidence[j];
              Smaller(a.id, b.id) || (a.id == b.id && (Smaller(a.message, b.message) || a.message == b.message))
    ensures j < |r.findings| ==>
              var a, b := r.findings[i], r.findings[j];
              Smaller(a.reason, b.reason)
              || (a.reason == b.reason && (Smaller(a.message, b.message) || a.message == b.message))
  {
    if j < |r.evidence| {
      assert !EvidenceBefore(r.evidence[j], r.evidence[i]);
      NotLess(r.evidence[i].id, r.evidence[j].id);
      NotLess(r.evidence[i].message, r.evidence[j].message);
    }
    if j < |r.findings| {
      assert !FindingBefore(r.findings[j], r.findings[i]);
      NotLess(r.findings[i].reason, r.findings[j].reason);
      NotLess(r.findings[i].message, r.findings[j].message);
    }
  }

  lemma NotLess(a: string, b: string)
    ensures !StrLess(b, a) ==> Smaller(a, b) || a == b
  {
    StrLessTotal(a, b);
    StrLessExactly(a, b);
  }

  /** Status, headline, impact and findings of a response, in terms of its health, its
      first cause and its signals. */
  lemma PresentedExactly(rules: Rules, target: Ref, sigs: seq<Signal>, visibility: Option<Visibility>, r: Response)
    requires IsAssembled(rules, target, sigs, visibility, r)
    ensures r.partial <==> visibility.Some? && visibility.value.limited
    ensures r.impact == ImpactCritical <==> r.health == CriticalHealth
    ensures r.impact == ImpactHigh <==> r.health == Degraded
    ensures r.headline == AppearsHealthy <==> r.health == Healthy
    ensures forall c :: r.headline == Blamed(c) <==>
              r.health != Healthy && r.rootCauses != [] && r.rootCauses[0].category == c
    ensures r.rootCause.Some? <==> r.health != Healthy && r.rootCauses != []
    ensures forall f :: f in r.findings <==>
              exists s :: s in sigs && s.severity != Info && f == Finding(s.severity, s.reason, s.message)
  {
    FindingsMean(sigs);
    SameMembers(r.findings, FindingsOf(sigs));
  }

  lemma {:induction false} FindingsMean(sigs: seq<Signal>)
    ensures forall f :: f in FindingsOf(sigs) <==>
              exists s :: s in sigs && s.severity != Info && f == Finding(s.severity, s.reason, s.message)
  {
    if sigs != [] {
      FindingsMean(sigs[..|sigs| - 1]);
      assert sigs == sigs[..|sigs| - 1] + [sigs[|sigs| - 1]];
    }
  }
}
