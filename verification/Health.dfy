/** The health verdicts of internal/health/health.go and of one inventory part. */
module Health {
  import opened Wrappers
  import opened Signals
  import Preflight

  datatype Health = Healthy | Degraded | CriticalHealth | Unknown

  /** What could not be seen: whether anything is limited, and whether a
      permission is missing or a check failed. */
  datatype Visibility = Visibility(limited: bool, missing: bool)

  /** One loop over the severities of the signals decides; nothing is healthy
      merely because nothing could be seen. */
  method Evaluate(severities: seq<Severity>, visibility: Option<Visibility>) returns (h: Health)
    ensures h == Verdict(severities, visibility)
  {
    if visibility.Some? && visibility.value.limited && visibility.value.missing {
      var hasCritical := false;
      for i := 0 to |severities|
        invariant !hasCritical
      {
        if severities[i] == Critical {
          hasCritical := true;
          break;
        }
      }
      if !hasCritical && |severities| == 0 {
        return Unknown;
      }
    }
    var hasCrit, hasWarn := false, false;
    for i := 0 to |severities|
      invariant hasCrit <==> Critical in severities[..i]
      invariant hasWarn <==> Warning in severities[..i]
    {
      if severities[i] == Critical {
        hasCrit := true;
      }
      if severities[i] == Warning {
        hasWarn := true;
      }
    }
    assert severities[..|severities|] == severities;
    if hasCrit {
      return CriticalHealth;
    }
    if hasWarn {
      return Degraded;
    }
    if visibility.Some? && visibility.value.limited && |severities| == 0 {
      return Unknown;
    }
    return Healthy;
  }

  function Verdict(severities: seq<Severity>, visibility: Option<Visibility>): Health {
    if Critical in severities then CriticalHealth
    else if Warning in severities then Degraded
    else if severities == [] && visibility.Some? && visibility.value.limited then Unknown
    else Healthy
  }

  method Combine(states: seq<Health>) returns (h: Health)
    ensures h == Combined(states)
  {
    var hasUnknown, hasCrit, hasDeg := false, false, false;
    for i := 0 to |states|
      invariant hasUnknown <==> Unknown in states[..i]
      invariant hasCrit <==> CriticalHealth in states[..i]
      invariant hasDeg <==> Degraded in states[..i]
    {
      match states[i] {
        case CriticalHealth => hasCrit := true;
        case Degraded => hasDeg := true;
        case Unknown => hasUnknown := true;
        case Healthy =>
      }
    }
    assert states[..|states|] == states;
    if hasCrit {
      return CriticalHealth;
    }
    if hasDeg {
      return Degraded;
    }
    if hasUnknown {
      return Unknown;
    }
    return Healthy;
  }

  function Combined(states: seq<Health>): Health {
    if CriticalHealth in states then CriticalHealth
    else if Degraded in states then Degraded
    else if Unknown in states then Unknown
    else Healthy
  }

  function FromCounts(desired: int, ready: int, failed: bool): (h: Health)
    ensures h == Healthy <==> !failed && ready >= desired
    ensures h == CriticalHealth <==> failed || ready == 0 < desired
    ensures h != Unknown
  {
    if failed || (desired > 0 && ready == 0) then CriticalHealth
    else if ready < desired then Degraded
    else Healthy
  }

  datatype Counts = Counts(total: nat, healthy: nat)

  function PartHealth(c: Counts, listedOK: bool): (h: Health)
    ensures h == Unknown <==> !listedOK
    ensures listedOK && c.healthy <= c.total ==> (h == Healthy <==> c.healthy == c.total)
    ensures h == CriticalHealth <==> listedOK && c.healthy == 0 < c.total
  {
    if !listedOK then Unknown
    else if c.total == 0 then Healthy
    else if c.healthy == 0 then CriticalHealth
    else if c.healthy < c.total then Degraded
    else Healthy
  }

  // ----- What one object looks like -----

  type Condition = Preflight.Condition

  datatype NodeStatus = NodeStatus(conditions: seq<Condition>, unschedulable: bool)

  datatype Phase = Pending | Running | Succeeded | Failed | OtherPhase

  /** A waiting reason of "" stands for a container that is not waiting, or that
      gives no reason. */
  datatype ContainerStatus = ContainerStatus(
    waiting: string, exitCode: Option<int>, lastOOMKilled: bool, restarts: int, ready: bool)

  datatype PodStatus = PodStatus(phase: Phase, initContainers: seq<ContainerStatus>, containers: seq<ContainerStatus>)

  datatype JobStatus = JobStatus(conditions: seq<Condition>, succeeded: int, failed: int)

  /** Ready should be true and every other condition false. */
  predicate Good(c: Condition) {
    if c.kind == "Ready" then c.status == "True" else c.status == "False"
  }

  function NodeHealth(n: NodeStatus): Health {
    if exists c :: c in n.conditions && !Good(c) then CriticalHealth
    else if n.unschedulable then Degraded
    else Healthy
  }

  method NodeStatusSignals(n: NodeStatus) returns (sigs: seq<Severity>)
    ensures Critical in sigs <==> exists c :: c in n.conditions && !Good(c)
    ensures Warning in sigs <==> n.unschedulable
  {
    sigs := [];
    for i := 0 to |n.conditions|
      invariant Critical in sigs <==> exists k :: 0 <= k < i && !Good(n.conditions[k])
      invariant Warning !in sigs
    {
      var c := n.conditions[i];
      var healthy := (c.kind == "Ready" && c.status == "True") || (c.kind != "Ready" && c.status == "False");
      if !healthy {
        sigs := sigs + [Critical];
      }
    }
    if n.unschedulable {
      sigs := sigs + [Warning];
    }
  }

  method FromNode(n: NodeStatus) returns (h: Health)
    ensures h == NodeHealth(n)
  {
    var sigs := NodeStatusSignals(n);
    h := Evaluate(sigs, None);
  }

  predicate Alarming(cs: ContainerStatus) {
    || cs.waiting != "" || (cs.exitCode.Some? && cs.exitCode.value != 0)
    || cs.lastOOMKilled || cs.restarts > 5
  }

  predicate Worrying(cs: ContainerStatus, phase: Phase) {
    0 < cs.restarts <= 5 || (phase == Running && !cs.ready)
  }

  function AllContainers(p: PodStatus): seq<ContainerStatus> {
    p.initContainers + p.containers
  }

  function PodHealth(p: PodStatus): Health {
    if p.phase == Succeeded then Healthy
    else if p.phase == Failed || p.phase == Pending || (exists cs :: cs in AllContainers(p) && Alarming(cs)) then
      CriticalHealth
    else if exists cs :: cs in AllContainers(p) && Worrying(cs, p.phase) then Degraded
    else Healthy
  }

  method PodStatusSignals(p: PodStatus) returns (sigs: seq<Severity>)
    ensures Critical in sigs <==>
            p.phase != Succeeded &&
            (p.phase == Failed || p.phase == Pending || exists cs :: cs in AllContainers(p) && Alarming(cs))
    ensures Warning in sigs <==> p.phase != Succeeded && exists cs :: cs in AllContainers(p) && Worrying(cs, p.phase)
    ensures Info !in sigs
  {
    sigs := [];
    if p.phase == Succeeded {
      return;
    }
    if p.phase == Failed {
      sigs := sigs + [Critical];
    }
    if p.phase == Pending {
      sigs := sigs + [Critical];
    }
    var all := p.initContainers + p.containers;
    for i := 0 to |all|
      invariant Critical in sigs <==>
                p.phase == Failed || p.phase == Pending || exists k :: 0 <= k < i && Alarming(all[k])
      invariant Warning in sigs <==> exists k :: 0 <= k < i && Worrying(all[k], p.phase)
      invariant Info !in sigs
    {
      var more := ContainerSignals(all[i], p.phase);
      sigs := sigs + more;
    }
  }

  method ContainerSignals(cs: ContainerStatus, phase: Phase) returns (sigs: seq<Severity>)
    ensures Critical in sigs <==> Alarming(cs)
    ensures Warning in sigs <==> Worrying(cs, phase)
    ensures Info !in sigs
  {
    sigs := [];
    if cs.waiting != "" {
      sigs := sigs + [Critical];
    }
    if cs.exitCode.Some? && cs.exitCode.value != 0 {
      sigs := sigs + [Critical];
    }
    if cs.lastOOMKilled {
      sigs := sigs + [Critical];
    }
    if cs.restarts > 5 {
      sigs := sigs + [Critical];
    } else if cs.restarts > 0 {
      sigs := sigs + [Warning];
    }
    if phase == Running && !cs.ready {
      sigs := sigs + [Warning];
    }
  }

  method FromPod(p: PodStatus) returns (h: Health)
    ensures h == PodHealth(p)
  {
    var sigs := PodStatusSignals(p);
    h := Evaluate(sigs, None);
  }

  function JobHealth(j: JobStatus): Health {
    if Preflight.Condition("Failed", "True") in j.conditions || (j.succeeded == 0 && j.failed > 0) then CriticalHealth
    else Healthy
  }

  method FromJob(j: JobStatus) returns (h: Health)
    ensures h == JobHealth(j)
  {
    for i := 0 to |j.conditions|
      invariant Preflight.Condition("Failed", "True") !in j.conditions[..i]
    {
      if j.conditions[i] == Preflight.Condition("Failed", "True") {
        return CriticalHealth;
      }
    }
    assert j.conditions[..|j.conditions|] == j.conditions;
    if j.succeeded == 0 && j.failed > 0 {
      return CriticalHealth;
    }
    return Healthy;
  }

  // ----- The verdicts, exactly -----

  lemma VerdictExactly(severities: seq<Severity>, visibility: Option<Visibility>)
    ensures var h := Verdict(severities, visibility);
            var limited := visibility.Some? && visibility.value.limited;
            && (h == CriticalHealth <==> exists i :: 0 <= i < |severities| && severities[i] == Critical)
            && (h == Degraded <==> (exists i :: 0 <= i < |severities| && severities[i] == Warning)
                                   && forall i :: 0 <= i < |severities| ==> severities[i] != Critical)
            && (h == Unknown <==> |severities| == 0 && limited)
            && (h == Healthy <==> (forall i :: 0 <= i < |severities| ==> severities[i] == Info)
                                  && (limited ==> |severities| > 0))
  {
  }

  lemma CombinedExactly(states: seq<Health>)
    ensures var h := Combined(states);
            && (h == CriticalHealth <==> exists i :: 0 <= i < |states| && states[i] == CriticalHealth)
            && (h == Degraded <==> (exists i :: 0 <= i < |states| && states[i] == Degraded)
                                   && forall i :: 0 <= i < |states| ==> states[i] != CriticalHealth)
            && (h == Unknown <==> (exists i :: 0 <= i < |states| && states[i] == Unknown)
                                  && forall i :: 0 <= i < |states| ==> states[i] == Unknown || states[i] == Healthy)
            && (h == Healthy <==> forall i :: 0 <= i < |states| ==> states[i] == Healthy)
  {
  }

  /** A node is critical with a Ready condition that is not true or any other one
      that is not false, and otherwise degraded if it is cordoned. */
  lemma NodeHealthExactly(n: NodeStatus)
    ensures NodeHealth(n) == CriticalHealth <==>
            exists c :: c in n.conditions && ((c.kind == "Ready" && c.status != "True")
                                              || (c.kind != "Ready" && c.status != "False"))
    ensures NodeHealth(n) == Healthy <==>
            !n.unschedulable && forall c :: c in n.conditions ==>
              (c.kind == "Ready" && c.status == "True") || (c.kind != "Ready" && c.status == "False")
    ensures NodeHealth(n) != Unknown
  {
    assert forall c :: Good(c) <==>
      (c.kind == "Ready" && c.status == "True") || (c.kind != "Ready" && c.status == "False");
  }

  /** A container that is waiting for a reason, has failed, was killed for memory or
      restarted more than five times. */
  predicate InTrouble(cs: ContainerStatus) {
    cs.waiting != "" || (cs.exitCode.Some? && cs.exitCode != Some(0)) || cs.lastOOMKilled || cs.restarts >= 6
  }

  /** A container that restarted at all, or is not ready although its pod runs. */
  predicate Unsettled(cs: ContainerStatus, phase: Phase) {
    cs.restarts >= 1 || (phase == Running && !cs.ready)
  }

  predicate HasContainer(p: PodStatus, cs: ContainerStatus) {
    cs in p.initContainers || cs in p.containers
  }

  lemma PodHealthExactly(p: PodStatus)
    ensures var h := PodHealth(p);
            var trouble := exists cs :: HasContainer(p, cs) && InTrouble(cs);
            var unsettled := exists cs :: HasContainer(p, cs) && Unsettled(cs, p.phase);
            && (h == CriticalHealth <==> p.phase == Failed || p.phase == Pending || (p.phase != Succeeded && trouble))
            && (h == Degraded <==> p.phase in {Running, OtherPhase} && !trouble && unsettled)
            && (h == Healthy <==> p.phase == Succeeded || (p.phase in {Running, OtherPhase} && !trouble && !unsettled))
  {
    forall cs ensures HasContainer(p, cs) <==> cs in AllContainers(p) {}
    forall cs ensures Alarming(cs) <==> InTrouble(cs) {}
    forall cs ensures !InTrouble(cs) ==> (Worrying(cs, p.phase) <==> Unsettled(cs, p.phase)) {}
  }

  /** A job is critical if it says that it failed, or if something failed and nothing
      has succeeded, and otherwise healthy. */
  lemma JobHealthExactly(j: JobStatus)
    ensures JobHealth(j) == CriticalHealth <==>
            || (exists c :: c in j.conditions && c.kind == "Failed" && c.status == "True")
            || (j.failed >= 1 && j.succeeded == 0)
    ensures JobHealth(j) in {CriticalHealth, Healthy}
  {
    if c :| c in j.conditions && c.kind == "Failed" && c.status == "True" {
      assert c == Preflight.Condition("Failed", "True");
    }
  }
}
