/** Diagnostic signals, resource references and confidence (internal/signal,
    internal/model). */
module Signals {
  datatype Source = Status | Condition | Event | Log | Metric | Dependency | Scheduler | Storage | Network | Security
                  | OtherSource(name: string)

  datatype Severity = Info | Warning | Critical

  datatype Confidence = Low | Medium | High | Confirmed

  datatype Ref = Ref(apiVersion: string, kind: string, namespace: string, name: string, uid: string)

  function RefString(r: Ref): string {
    if r.namespace == "" then r.kind + "/" + r.name else r.kind + "/" + r.namespace + "/" + r.name
  }

  datatype Signal = Signal(
    id: string, source: Source, category: string, reason: string, severity: Severity,
    resource: Ref, message: string, count: int)

  function Score(c: Confidence): int {
    match c
    case Confirmed => 4
    case High => 3
    case Medium => 2
    case Low => 1
  }

  method MaxConfidence(cs: seq<Confidence>) returns (best: Confidence)
    ensures best == Low || best in cs
    ensures forall c :: c in cs ==> Score(c) <= Score(best)
  {
    best := Low;
    for i := 0 to |cs|
      invariant best == Low || best in cs
      invariant forall j :: 0 <= j < i ==> Score(cs[j]) <= Score(best)
    {
      if Score(cs[i]) > Score(best) {
        best := cs[i];
      }
    }
  }
}
