# A verified model of kube-sre-mcp

This project models the parts of kube-sre-mcp that decide something hard, and
proves what they promise.

* **Guarded actions.** A restart, scale, pod deletion or cordon is planned in one
  call and carried out in a second one that presents a confirmation token.
  `SafeActions` is the engine as a transition system: any number of calls, each API
  request, `Put` and `Take` one atomic step, and a cluster and a clock that may
  change between any two of them. A run is a sequence of events, so a theorem about
  every sequence of events is about every interleaving. `SafeActionsSafety` proves
  the inductive invariant and what follows for every write that is sent,
  `SafeActionsGates` that its call passed every gate before, `WriteEffects` what the
  writes of a run do to a cluster taken together, `Recreation` which object a write
  reaches, since it goes by name;
  `CheckOutcomes` says exactly what every step comes to, and `ActionRuns` that a
  permitted request that nothing disturbs is carried out.
  `CordonFloor` and `CordonOverlap` prove when the last schedulable node survives
  and show the runs in which it does not. `Confirmation` is the token store, a class
  proved against functions of its items and, with garbage collection, against a log
  that forgets nothing. `Preflight` holds the budget and autoscaler loops.
* **Correlation and ranking.** `Correlation` is the pipeline in the program's own
  loops and maps, `Ranking` what it computes whatever order the signals and the map
  come in, `RankingOrder` exactly when that order shows, `Assemble` the scoping of evidence IDs and the second assembly of a
  workload. The string tables are function parameters (`Rules`), so the theorems
  hold for every table.
* **Scheduling.** The approximate eligibility analysis and its dominant reason.
* **Cluster health.** `ClusterHealth` is the scan over seven inventories,
  `ClusterAccounting` what its report adds up to, `DeepDiagnosis` the worker pool
  that diagnoses the kept candidates, `ClusterPipeline` all of it from the lists to
  the filled-in report.
* **Fan-out, graph, names, events, cache.** `Bounded` and `DeepPods`, `Graph`,
  `GraphBuilder`, `DeploymentGraph` and `GraphLimits`, `Resolver`, `Events`,
  `ApiCache`.

A failed API call is `None` or `Failure`. Go's nondeterminism is kept: the order of
a map iteration is an arbitrary choice in the methods, the schedule of goroutines is
the sequence of events, and theorems about determinism compare two runs. `Ordering`,
`Counting`, `Signals`, `Health` and `Wrappers` are what the other modules share.

`dafny verify dfyconfig.toml` checks everything.

## What turned out to be false, and when it holds

* The token store reports `confirmation_expired` only when the deadline falls
  between the two clock readings of one `Take`; any later `Take` reports a missing
  token (`Confirmation.ExpiredErrorOnlyInTheGap`).
* Two overlapping cordons can empty the cluster although each rechecks
  (`CordonOverlap.OverlappingCordonsEmptyTheCluster`, from every start with two or
  more schedulable Ready nodes); without an overlap one node always remains
  (`CordonFloor.ANodeAlwaysRemains`). Together: one remains in every run with at most
  k cordons between re-read and write if and only if k is at most one
  (`CordonOverlap.FloorExactly`).
* A write can reach an object that was recreated after its call re-read it, and
  report success (`Recreation.RecreatedIsHit`); it cannot while nothing outside the
  engine changes the cluster in between
  (`Recreation.UndisturbedHitsThePlannedObject`).
* The ranking depends on the order of its signals, because of the events with one key
  only the first is kept. It does so for no table and no order if and only if events
  with one key always have the same category and severity
  (`RankingOrder.OrderFreeExactly`).
* Demoting confirmed hypotheses in place keeps the list non-increasing in
  confidence but not always in rank order
  (`Ranking.DemotionKeepsConfidenceOrder`, `Ranking.DemotionKeepsRankExactly`).
* An evidence ID that already has a colon is not scoped, so it can fall together
  with a scoped one; different IDs of one resource do so exactly when one of them is
  the other one scoped already (`Assemble.CollidesExactly`, and for two resources
  `Assemble.ScopingExactly`).
* One critical object does not make a cluster critical
  (`ClusterAccounting.CriticalExactly`), and issues about claims are never filled in
  from their diagnosis (`DeepDiagnosis.ClaimsAreNeverFilledIn`).
* When namespaces cannot be listed, a single prefix match in "default" is reported
  as ambiguous with itself if "default" is also the context's namespace
  (`Resolver.FallbackFinds`).
* Cache keys can collide. No parts and one empty part have the same key
  (`ApiCache.KeysTellPartsApart`); among lists of one length a key stands for one list
  alone exactly when it has at most one part or none of its parts has a bar in it
  (`ApiCache.KeyStandsAloneExactly`). Of the four parts every caller passes,
  "get", "secrets", "a|b", "c" and "get", "secrets", "a", "b|c" share a key
  (`ApiCache.FourPartsCollide`); names that Kubernetes accepts have no bar.
* A cancellation can change what the worker pool reports, but only for candidates whose
  worker looked at the context or ended its diagnosis after it
  (`DeepDiagnosis.SameMapInEveryRun`); a diagnosis that is under way can then come to
  anything (`DeepDiagnosis.CutShortShows`).
* A graph holds the same object twice exactly when it was first mentioned without its
  UID and ever with it (`Graph.OneOrTwoNodes`).
* A get whose context is cancelled can still store what it loaded, namely when it had
  passed its test of the context before (`ApiCache.StoresAfterCancel`,
  `ApiCache.KeptInSpiteOfCancel`).

Where the code and its documentation differ the model follows the code:
`docs/resource-graph.md` says that a failing autoscaler list can fail a graph build,
the builder ignores that error; `docs/diagnostic-engine.md` says that source quality
is used when ranking, the sort does not look at it; `docs/safe-actions.md` says that
a token is bound to the UID, the binding lets an empty UID match any other and it is
the later comparison with the live object that does not.

## Model

| member | source | states |
|---|---|---|
| Confirmation.Store.constructor | internal/action/confirmation.go:57-62 | a new store is empty and a zero lifetime stands for two minutes |
| Confirmation.Store.GcLocked | internal/action/confirmation.go:151-158 | collection keeps exactly the tokens whose deadline has not passed, whatever order the map is visited in |
| Confirmation.Store.Put | internal/action/confirmation.go:64-75 | the whole new contents: collection, then the token under its ID with its deadline; nothing is added when no ID can be drawn |
| Confirmation.Store.Take | internal/action/confirmation.go:77-94 | the answer and the whole new contents; only a mismatch leaves the token in place |
| Confirmation.BindMatchMeans | internal/action/confirmation.go:96-149 | every field binds except the HPA flag and the deadline, and the UID binds only when neither side leaves it empty |
| Confirmation.StoreRefinesLog | internal/action/confirmation.go:64-94 | under a clock that never goes back, every sequence of operations gets from the collecting store the answers of a log that forgets nothing |
| Confirmation.StoreRefinesLogFrom | internal/action/confirmation.go:64-94 | the same from any store and log that agree on the usable tokens |
| Confirmation.TokensAreSingleUse | internal/action/confirmation.go:77-94 | of any number of Takes on one ID at most one is granted |
| Confirmation.UsableUntilGrantedOrExpired | internal/action/confirmation.go:77-94 | a token survives any operations that do not use it up, mismatched Takes included, and a matching Take is then granted exactly up to its deadline |
| Confirmation.GoneStaysGone | internal/action/confirmation.go:77-94 | a token that is gone is never usable again unless its ID is issued again |
| Confirmation.ExpiredErrorOnlyInTheGap | internal/action/confirmation.go:77-94 | exactly when the expiry error, rather than a missing token, is reported |
| Preflight.MatchingPDBBlock | internal/action/engine.go:525-546 | blocked exactly when a budget that covers the workload allows no disruption, the names of all covering budgets in order, and an error exactly when a list that is needed fails |
| Preflight.MatchingPDBBlockForPod | internal/action/engine.go:548-577 | the same for the budgets that select one pod |
| Preflight.HasHPA | internal/action/engine.go:469-498 | an autoscaler is found when either API version lists one for the target; the older list can fail the check only when the newer shows no match |
| Preflight.AnyHpaTargets | internal/action/engine.go:469-498 | whether some autoscaler of a list targets the workload |
| CheckOutcomes.PlanCheckExactly | internal/action/engine.go:137-145 | before a token: a restart or deletion is blocked exactly when a budget of the namespace covers the target and allows no disruption, a cordon refused exactly for the last node in service, and everything else goes on; a scale records an autoscaler of the newer list or goes on to the older one |
| CheckOutcomes.PlanCheckV1Exactly | internal/action/engine.go:469-498 | a scale records exactly whether the older list has an autoscaler for it |
| CheckOutcomes.ReCheckExactly | internal/action/engine.go:163-169 | after the token the same, and a scale is stopped exactly by an autoscaler that planning did not see |
| CheckOutcomes.ReCheckV1Exactly | internal/action/engine.go:268-275 | the same with the older list |
| CheckOutcomes.FailingListExactly | internal/action/engine.go:137-145 | a list that is needed and fails ends the call with a failed preflight, before and after the token |
| CheckOutcomes.ContextExactly | internal/action/engine.go:64-78 | the primary context if it is named or none is, otherwise what the client lookup says, and without one nothing |
| CheckOutcomes.ValidateExactly | internal/action/engine.go:99-106 | disabled, then bad arguments or an unknown context, then on to the access review |
| CheckOutcomes.AuthorizeExactly | internal/action/engine.go:107-113 | an access review that fails is an error, one that denies ends the call, and one that allows lets it on |
| CheckOutcomes.PlanGetExactly | internal/action/engine.go:114-117 | a target that cannot be read is an error, a protected pod is refused, and any other target goes on |
| CheckOutcomes.PlanInferExactly | internal/action/engine.go:118-124 | a restart is advised against exactly when its category is known, not useful to restart for, and not forced |
| CheckOutcomes.ReGetExactly | internal/action/engine.go:156-162 | the re-read ends the call exactly when the target cannot be read or has another UID |
| CheckOutcomes.PutExactly | internal/action/engine.go:80-97 | without a confirmation ID the call hands out a new token for what it wants, or ends in an error if none can be drawn |
| CheckOutcomes.TakeExactly | internal/action/engine.go:80-97 | with one: an error for a missing or expired token, a mismatch for another request, and otherwise the call goes on with what the token was issued for |
| CheckOutcomes.WriteExactly | internal/action/engine.go:170-176 | success exactly when the write is carried out and answered |
| ActionRuns.PermittedSucceeds | internal/action/engine.go:99-458 | from every state, a restart, scale, deletion or cordon that nothing speaks against and nothing disturbs is answered with a token, and presenting the token carries it out and reports success |
| SafeActionsSafety.EveryWriteHasItsOwnToken | internal/action/engine.go:80-97 | in every interleaving each write is backed by a token issued earlier for the same action, object, context and parameters and taken by that very call within its lifetime, and no two writes share one |
| SafeActionsSafety.EveryWriteWasRechecked | internal/action/engine.go:156-171 | in every interleaving, after its token was taken and before its write each call read the UID seen at planning and made lists that permit the write: no covering budget without allowance, no autoscaler absent at planning, replicas within bounds, a second schedulable node |
| SafeActionsSafety.OneWriteAndNoneAfterAFailedCheck | internal/action/engine.go:261-288 | a call sends at most one write, and none if any of its checks ended in an API error |
| SafeActionsGates.EveryWritePassedItsGates | internal/action/engine.go:99-145 | in every interleaving a call that sent a write had its access review answered and allow it, had found its target fit (no control-plane or mirror pod) and, for a restart, had found it useful or forced |
| SafeActionsGates.ClearedAlways | internal/action/engine.go:291-320 | every call beyond a gate cleared it earlier in the same run |
| SafeActionsGates.DisabledDoesNothing | internal/action/engine.go:60-62 | with actions switched off no run sends a write, issues a token or changes a cluster |
| WriteEffects.SuccessWasCarriedOut | internal/action/engine.go:156-458 | in every interleaving a call that reports success has one event of the run at which what it asked for was done to its target and nothing else was |
| WriteEffects.UntargetedStays | internal/action/engine.go:156-458 | without changes from outside, an object that no write of the run targeted is as it was at the start, and so are budgets and autoscalers |
| WriteEffects.RestartsAddUp | internal/action/engine.go:170-174 | without changes from outside, an object is patched to restart at least once for every restart of it reported as successful and at most once for every one that was sent |
| Recreation.UndisturbedHitsThePlannedObject | internal/action/engine.go:156-174 | in every interleaving, a write that finds an object finds the one whose UID was planned, unless something outside changed the cluster between its re-read and the write |
| Recreation.RecreatedIsHit | internal/action/engine.go:426-452 | with such a change a confirmed cordon can reach a node recreated under any other UID and report success |
| SafeActionsSafety.InvAlways | internal/action/engine.go:80-458 | the invariant of the protocol holds after every sequence of events |
| SafeActionsSafety.NextKeeps | internal/action/engine.go:80-458 | every step of every call, every change of the cluster and every tick keeps it |
| CordonFloor.ANodeAlwaysRemains | internal/action/engine.go:426-452 | with no two cordons of the cluster between re-read and write at once and no outside loss of nodes, a schedulable Ready node remains in every run |
| CordonFloor.NextKeepsFloor | internal/action/engine.go:426-452 | every event keeps the floor, whatever uncordons and other calls interleave |
| CordonOverlap.OverlappingCordonsEmptyTheCluster | internal/action/engine.go:426-452 | from every start with two or more schedulable Ready nodes there is a run of confirmed cordons, with no outside change, no time passing and never more than two between re-read and write, that leaves none; the last two overlap and both report success |
| CordonOverlap.FloorExactly | internal/action/engine.go:426-452 | from a start with two or more schedulable Ready nodes, one remains in every run without outside loss and with at most k cordons of the cluster between re-read and write at once, if and only if k is at most one |
| Correlation.DedupEvents | internal/correlation/engine.go:62-86 | the loop over the index map computes the merge of the signals, event by event |
| Correlation.UniqueRefs | internal/correlation/engine.go:386-405 | for each string the first reference that has it, sorted by string |
| Correlation.FirstRefIsFirst | internal/correlation/engine.go:386-405 | the reference kept for a string is the one at the first place that has this string |
| Ordering.StrLessExactly | internal/correlation/engine.go:53-56 | the order of strings behind every sort and tie: a proper prefix first, otherwise the smaller character at the first difference |
| Correlation.UniqueStrings | internal/correlation/engine.go:407-421 | the non-empty strings, each once, in order of first appearance |
| Ordering.UniqueInOrder | internal/correlation/engine.go:407-421 | of two kept strings the earlier one is the one whose first place in the list is earlier |
| Correlation.Contradictions | internal/correlation/engine.go:364-384 | exactly the citable IDs that speak against the category, each once and sorted |
| Correlation.Build | internal/correlation/engine.go:276-339 | the hypothesis of one bucket: its confidence, its affected resources, its whole support in order and everything cited against it |
| Correlation.BaseConfidence | internal/correlation/engine.go:276-339 | the confidence before contradictions, from the loop's counters |
| Correlation.Correlate | internal/correlation/engine.go:28-60 | one hypothesis for every category with evidence, in strict rank order, whatever order the buckets come out of the map |
| Ranking.RankedExactly | internal/correlation/engine.go:28-60 | one hypothesis comes before another exactly when it is surer, or as sure with more affected resources and bonus, or the same with the smaller category, letter by letter |
| Correlation.RankIsAnOrder | internal/correlation/engine.go:28-60 | confidence, then weighted score, then category is an order the sort accepts, and different categories never tie |
| Ranking.DedupConserves | internal/correlation/engine.go:62-86 | merging loses no occurrence, keeps other signals in order and leaves no two events with one key |
| Ranking.KeptEventsDiffer | internal/correlation/engine.go:62-86 | no two kept events have one reason, message and resource string |
| Ranking.DedupKeepsViews | internal/correlation/engine.go:62-86 | merging keeps everything ranking looks at when merged events agree |
| Ranking.RankingIgnoresOrder | internal/correlation/engine.go:28-105 | any two answers for the same signals in any two orders show the same categories, confidences and affected counts, provided merged events agree |
| Ranking.MapOrderDoesNotMatter | internal/correlation/engine.go:28-60 | one input has one answer: whatever order the map is visited in, the whole ranking is the same |
| RankingOrder.OrderFreeExactly | internal/correlation/engine.go:28-86 | for signals whose events have IDs: all orders of them give the same lines under every table if and only if events with one key have the same category and severity |
| RankingOrder.DisagreementShows | internal/correlation/engine.go:62-86 | from any two events with one key that differ, anywhere in a list, a table and two orders of the list that have no answer in common |
| RankingOrder.FirstIsKept | internal/correlation/engine.go:62-86 | what merging keeps for a key is the first event that has it, but for its count |
| Ranking.FirstEventDecides | internal/correlation/engine.go:62-86 | the smallest case: the order of two events with one key decides the category |
| Ranking.EvidenceIsPartitioned | internal/correlation/engine.go:28-60 | every kept signal supports exactly one hypothesis, none is without support, and all cite only kept signals |
| Ranking.ConfidenceExactly | internal/correlation/engine.go:276-362 | all four confidences in terms of the kept signals: exactly when each of confirmed, high, medium and low is given |
| Ranking.ConfidenceIsEarned | internal/correlation/engine.go:276-362 | confirmed exactly with an authoritative status or condition and no contradiction; logs alone are low |
| Ranking.MoreSupportNeverLowers | internal/correlation/engine.go:276-384 | more evidence without a new contradiction never lowers a confidence |
| Ranking.DemoteConfirmed | internal/diagnostic/engine.go:755-767 | confirmed becomes high in place, and in the separate copy of the root cause, and nothing else changes |
| Ranking.DemotionKeepsConfidenceOrder | internal/diagnostic/engine.go:755-767 | the demoted list has nothing confirmed and is still non-increasing in confidence |
| Ranking.DemotionKeepsRankExactly | internal/diagnostic/engine.go:755-767 | exactly when demotion keeps the full rank order of a pair |
| Assemble.ScopeIDs | internal/diagnostic/assemble.go:125-144 | both arrays are rewritten in place: every signal and every cited ID is scoped, and nothing else changes |
| Assemble.AssembleResponse | internal/diagnostic/assemble.go:31-81 | status, health, what the summary says and the impact severity, ranked hypotheses with scoped IDs, the root cause unless healthy, every finding and all evidence, each sorted, and the recommendations |
| Assemble.RecsFrom | internal/diagnostic/assemble.go:93-112 | the first advice for each action over all hypotheses in order; something general when there is none, and nothing without a hypothesis |
| Assemble.OncePerActionMeans | internal/diagnostic/assemble.go:93-112 | no action is advised twice, none is lost and nothing else is advised |
| Assemble.InOrder | internal/diagnostic/assemble.go:44-55 | evidence by ID and then message, findings by reason and then message, letter by letter |
| Assemble.PresentedExactly | internal/diagnostic/assemble.go:31-81 | status, headline, impact, root cause and findings in terms of the health, the first cause and the signals |
| Assemble.SigsFromResp | internal/diagnostic/engine.go:736-753 | one signal for each evidence that has an ID, in order |
| Assemble.AssembledCitesItsEvidence | internal/diagnostic/assemble.go:31-81 | every supporting and contradicting ID of every hypothesis is the ID of an evidence |
| Assemble.PodEvidenceReachesTheWorkload | internal/diagnostic/engine.go:736-798 | that holds for a pod and for the workload that takes over its evidence, and the pod's evidence arrives under the IDs the pod gave it |
| Assemble.ScopedOnce | internal/diagnostic/assemble.go:125-144 | a scoped ID stays as it is, whatever scopes it next |
| Assemble.ScopingExactly | internal/diagnostic/assemble.go:125-144 | exactly when two IDs, of one resource or of two, fall together once they are scoped |
| Assemble.CollidesExactly | internal/diagnostic/assemble.go:125-144 | different IDs of one resource fall together exactly when one is the other one scoped already |
| Assemble.ScopedAlreadyMayCollide | internal/diagnostic/assemble.go:125-144 | and every plain ID does fall together with its scoped form |
| Signals.MaxConfidence | internal/signal/confidence.go:40-48 | the highest of the confidences |
| Scheduling.ToleratesMeans | internal/diagnostic/pod.go:383-397 | exactly when a taint is tolerated; a missing operator is Exists |
| Scheduling.TaintBlocks | internal/diagnostic/pod.go:364-381 | blocked exactly when a repelling taint is tolerated by nothing |
| Scheduling.LabelsMatch | internal/diagnostic/pod.go:312-319 | every selected label reads as demanded, a missing one as empty |
| Scheduling.NodeAffinityMatches | internal/diagnostic/pod.go:321-362 | matched exactly when some term matches; unsupported exactly when an unsupported term is not preceded by a match |
| Scheduling.PassesAffinity | internal/diagnostic/pod.go:267-276 | a node passes exactly when a term matches it before any unsupported one |
| Scheduling.SatisfiedExactly | internal/diagnostic/pod.go:321-362 | what each kind of requirement asks of a label |
| Scheduling.TermMatchesExactly | internal/diagnostic/pod.go:321-362 | a term matches exactly when every expression is satisfied and every field requirement names the node |
| Scheduling.PassesExactly | internal/diagnostic/pod.go:234-284 | a node is eligible exactly when it is not unready or cordoned, large enough for all containers together, selected, tolerated and fitting the affinity |
| Scheduling.CountNode | internal/diagnostic/pod.go:234-284 | every counter goes up by the tests the node fails, readiness and cordon counted apart, and it is blocked exactly when it fails one |
| Scheduling.CountNodes | internal/diagnostic/pod.go:221-284 | the counters are the failures over all nodes that are given, and some node is eligible exactly when one passes every test |
| Scheduling.Dominant | internal/diagnostic/pod.go:285-308 | whatever order the counters are visited in, the reason that beats every other one by class, count and name |
| Scheduling.DominantIsUnique | internal/diagnostic/pod.go:285-308 | there is only one such reason |
| Scheduling.DominantExactly | internal/diagnostic/pod.go:285-308 | against any other counted reason the dominant one has the higher class, or in the same class the larger count, or with the same count the smaller name, letter by letter |
| Scheduling.ScheduleSignals | internal/diagnostic/pod.go:197-310 | what is reported in every mode; a verdict is given exactly when no given node passes every test |
| Scheduling.VerdictIgnoresOrder | internal/diagnostic/pod.go:232-308 | nodes in any order give the same reason with the same count, or none |
| Scheduling.ClassesComeFirst | internal/diagnostic/pod.go:285-308 | no reason is given while a node fails a test of a higher class |
| Health.Evaluate | internal/health/health.go:29-64 | the worst severity decides, and nothing is healthy merely because nothing could be seen |
| Health.Combine | internal/health/health.go:70-94 | critical before degraded before unknown before healthy |
| Health.FromCounts | internal/health/health.go:96-104 | healthy exactly when nothing failed and enough is ready, critical exactly when something failed or nothing of what is wanted is ready |
| Health.PartHealth | internal/health/cluster.go:406-420 | unknown exactly when not listed, healthy exactly when everything listed is, critical exactly when something is listed and nothing healthy |
| Health.FromNode | internal/health/health.go:110-131 | critical exactly with a bad condition, degraded exactly when only cordoned |
| Health.FromPod | internal/health/health.go:106-180 | exactly when a pod is critical, degraded or healthy, in terms of its phase and containers |
| Health.FromJob | internal/health/cluster.go:442-452 | critical exactly when failed, or when something failed and nothing succeeded |
| Health.VerdictExactly | internal/health/health.go:29-64 | each verdict exactly, in terms of the severities and the visibility |
| Health.CombinedExactly | internal/health/health.go:70-94 | each combined verdict exactly |
| Health.NodeHealthExactly | internal/health/health.go:110-131 | critical and healthy nodes in terms of their conditions |
| Health.PodHealthExactly | internal/health/health.go:106-180 | critical, degraded and healthy pods in terms of phase, waiting reasons, exit codes, restarts and readiness |
| Health.JobHealthExactly | internal/health/cluster.go:442-452 | critical jobs in terms of conditions and counts |
| ClusterHealth.Report.PushIssue | internal/health/cluster.go:422-432 | the report shows the first issues up to the limit, split by gravity, and says when it drops one |
| ClusterHealth.Report.PushHealthy | internal/health/cluster.go:434-440 | the same for the healthy objects that are listed on request |
| ClusterHealth.Report.Tally | internal/health/cluster.go:98-116 | the loop body all inventories share: counters, issues and candidates after a part |
| ClusterHealth.SeeNodes | internal/health/cluster.go:92-119 | every node with its health and priority |
| ClusterHealth.SeePods | internal/health/cluster.go:121-148 | every pod that has not succeeded, with its health and priority |
| ClusterHealth.SeeWorkloads | internal/health/cluster.go:163-255 | every workload with its health and priority; a missing replica count is one |
| ClusterHealth.SeeJobs | internal/health/cluster.go:257-281 | every job with its health and priority |
| ClusterHealth.SeeClaims | internal/health/cluster.go:283-304 | every claim; unbound is critical, and listed and diagnosed under different kinds |
| ClusterHealth.ScanAll | internal/health/cluster.go:92-308 | the report, the counters and the candidates after all seven inventories, and which of the lists failed |
| ClusterHealth.Cut | internal/health/cluster.go:314-335 | the candidates kept are the first in order, and the rest is counted as skipped |
| ClusterHealth.Cluster | internal/health/cluster.go:68-335 | the whole report before diagnosis, for every inventory |
| ClusterAccounting.ListedIssuesAddUp | internal/health/cluster.go:92-335 | critical issues plus warnings are the smaller of the limit and all unhealthy objects by the report's own counters, and dropping one is always reported |
| ClusterAccounting.SkippedAddsUp | internal/health/cluster.go:314-335 | every unhealthy object is kept or counted as skipped |
| ClusterAccounting.HealthyExactly | internal/health/cluster.go:306-312 | healthy exactly when all seven lists succeeded and every counted object was healthy |
| ClusterAccounting.CriticalExactly | internal/health/cluster.go:406-420 | critical exactly when nodes, pods, workloads or storage were listed, are not empty and have nothing healthy |
| ClusterAccounting.DegradedExactly | internal/health/cluster.go:306-420 | degraded exactly when some part has healthy and unhealthy objects and none has nothing healthy, whatever could not be listed |
| ClusterAccounting.KeptIsDetermined | internal/health/cluster.go:318-335 | however the candidates were found, the same are kept in the same order |
| ClusterAccounting.KeptComeFirst | internal/health/cluster.go:318-335 | every candidate left out comes after every one that is kept |
| DeepDiagnosis.PoolFor | internal/health/cluster.go:336-341 | the gate has room whatever is configured: a bound that is not positive stands for four |
| DeepDiagnosis.BoundedAndNeverFull | internal/health/cluster.go:336-366 | at no time do more workers run than the gate admits, and a worker with a result never waits to send it |
| DeepDiagnosis.InvStep | internal/health/cluster.go:336-371 | the invariant of the pool is kept by every step |
| DeepDiagnosis.NeverStuck | internal/health/cluster.go:336-371 | until all results are received some step other than a cancellation can happen |
| DeepDiagnosis.EveryRunEnds | internal/health/cluster.go:336-371 | every run has at most six steps per candidate and one cancellation, and one that can go no further has received everything |
| DeepDiagnosis.OneResultEach | internal/health/cluster.go:348-371 | every candidate has sent exactly one result, its own |
| DeepDiagnosis.MapIsTheCandidates | internal/health/cluster.go:348-371 | cancelled or not, the map has exactly the candidates' keys, and under each what the candidate's own worker reports, in full unless the worker looked at the context or ended its diagnosis after the cancellation |
| DeepDiagnosis.ArrivalOrderDoesNotMatter | internal/health/cluster.go:367-371 | without a cancellation the map is each candidate's diagnosis under its key |
| DeepDiagnosis.LateExactly | internal/health/cluster.go:348-356 | the late workers are exactly those that looked at a cancelled context or ended a diagnosis under one |
| DeepDiagnosis.CheckExactly | internal/health/cluster.go:350-355 | a worker that finds the context cancelled reports its candidate as it was found |
| DeepDiagnosis.SameMapInEveryRun | internal/health/cluster.go:336-371 | any two complete runs build maps with the same keys, the same map without a cancellation, and otherwise maps that differ only at candidates whose worker was late in one of them |
| DeepDiagnosis.CutShortShows | internal/health/cluster.go:348-371 | the bound is sharp: from any run with a diagnosis under way under a cancelled context, and for any outcome of it, some complete run has that outcome in its map |
| DeepDiagnosis.Enrich | internal/health/cluster.go:372-384 | the critical issues are filled in, in place, from the map |
| DeepDiagnosis.FilledFromItsOwnDiagnosis | internal/health/cluster.go:367-384 | an issue is filled in from the diagnosis of its own object or left alone |
| DeepDiagnosis.KeyTellsAll | internal/health/cluster.go:370-377 | slash-free kinds and namespaces make the key unambiguous |
| DeepDiagnosis.ClaimsAreNeverFilledIn | internal/health/cluster.go:296-297 | an issue about a claim is never filled in |
| ClusterPipeline.CandidatesAreDistinct | internal/health/cluster.go:92-304 | names that are unique within each list make all candidates different objects |
| ClusterPipeline.KeptInOrder | internal/health/cluster.go:318-335 | the kept candidates are the most urgent: workloads with nothing ready, failed jobs, bad nodes, the less grave, claims, pods, and within a class by kind, namespace and name, letter by letter; every one left out would come after them |
| ClusterPipeline.KeysAreDistinct | internal/health/cluster.go:318-371 | with slash-free namespaces every kept candidate then has a key of its own |
| ClusterPipeline.SameReport | internal/health/cluster.go:68-384 | two scans of the same objects, listed in any order and diagnosed by any number of workers in any order, keep the same candidates and give every line the same cause and impact |
| Bounded.BoundedAndOnce | internal/diagnostic/bounded.go:24-53 | at no time do more calls run than there are places, and no index is called twice |
| Bounded.ReturnsEverything | internal/diagnostic/bounded.go:24-53 | on return exactly the called indices have a result, in full but for calls that ended after a cancellation; without a cancellation, or with a single index, every index was called |
| Bounded.LateExactly | internal/diagnostic/bounded.go:24-53 | the late calls are exactly those that ended under a cancelled context |
| Bounded.NeverStuck | internal/diagnostic/bounded.go:24-53 | until the caller returns some step other than a cancellation can happen |
| Bounded.EveryRunEnds | internal/diagnostic/bounded.go:24-53 | every run is finite and ends with the return |
| DeepPods.Select | internal/diagnostic/engine.go:769-782 | the first eligible pods up to the bound, which defaults to eight |
| DeepPods.EligibleExactly | internal/diagnostic/engine.go:769-782 | the eligible pods are all of them or the unhealthy ones, in order |
| DeepPods.Collect | internal/diagnostic/engine.go:790-797 | the map of a plain loop over the filled places |
| DeepPods.FanOutIsSequential | internal/diagnostic/engine.go:769-798 | in every interleaving the map is that of a plain loop over the called pods, each under its own name and in full unless its diagnosis ended after a cancellation; without a cancellation it is that of a plain loop over all of them |
| Graph.Graph.constructor | internal/graph/graph.go:62-67 | a new graph is its root |
| Graph.Graph.AddNode | internal/graph/graph.go:73-88 | the node is added exactly when nothing stands for it, and the graph stays valid: the visited set is exactly the UIDs there are, and no node repeats another |
| Graph.Graph.AddEdge | internal/graph/graph.go:90-94 | both ends are represented, the edge is appended, and the graph stays valid |
| Graph.Graph.CapReachedAt | internal/graph/dependencies.go:107-123 | exactly when a limit is reached, that truncation is recorded and the first reason kept |
| Graph.AfterAnyOperations | internal/graph/graph.go:62-94 | after any sequence of AddNode and AddEdge no node repeats another and everything mentioned is represented |
| Graph.OneOrTwoNodes | internal/graph/graph.go:73-88 | after any operations an object with a UID is there without it exactly when it was first mentioned without it, with it exactly when it ever was, as two nodes exactly when both hold, and never more |
| GraphBuilder.FromPodSpec | internal/graph/dependencies.go:39-101 | the graph gains exactly the references of the spec, in order |
| GraphBuilder.LinksExactly | internal/graph/dependencies.go:39-101 | a spec links to a secret exactly when a container names it or a volume is made of it, and likewise to a config map |
| GraphBuilder.OtherLinksExactly | internal/graph/dependencies.go:39-101 | everything else a spec links to: its node, its service account, also for a projected token, its image pull secrets and its claims |
| DeploymentGraph.AddPodsByOwner | internal/graph/dependencies.go:155-178 | the owned pods are added in order up to the first that comes when a limit is reached, exactly there, and stopping is recorded as truncation |
| DeploymentGraph.LinkHPA | internal/graph/dependencies.go:306-318 | an edge for every autoscaler of the deployment; a failing list adds nothing |
| DeploymentGraph.LinkPDB | internal/graph/dependencies.go:320-339 | an edge for every covering budget; a list that is needed and fails is an error |
| DeploymentGraph.Build | internal/graph/dependencies.go:125-153 | the edges, the truncation and the error for every snapshot; every replica set and pod that is taken fitted the limits at its turn and every stop is at a reached limit; and a bound on the nodes |
| DeploymentGraph.CompleteOrTruncated | internal/graph/dependencies.go:125-178 | without an error the graph is truncated exactly when it lacks an ownership edge of an owned replica set or of a listed pod that one owns; otherwise all of them are there, and everything the template, autoscalers and budgets add |
| GraphLimits.TruncatedExactly | internal/graph/dependencies.go:107-178 | a graph whose lists did not fail is truncated if and only if only a depth of one is allowed and there is an owned pod, or the graph without limits reaches the allowed number of nodes before the turn of an owned replica set or pod |
| GraphLimits.FittingIsNotTruncated | internal/graph/dependencies.go:107-178 | a graph that stays below the allowed number of nodes, with a depth other than one, is never truncated |
| DeploymentGraph.TailExactly | internal/graph/dependencies.go:306-339 | what is linked to the deployment itself: its template's references, the autoscalers that target it and the budgets that cover it |
| DeploymentGraph.OwnershipGoesBothWays | internal/graph/dependencies.go:125-178 | truncated or not, every ownership edge has its mirror image |
| Resolver.PrefixFilter | internal/kube/resolver.go:248-264 | the exact matches if there are any, otherwise the prefix matches of a name of at least three letters |
| Resolver.FilteredMatches | internal/kube/resolver.go:248-264 | what qualifies in a list: the exact name, or without any exact match a prefix of at least three letters, as often as it is listed |
| Resolver.Unique | internal/kube/resolver.go:280-294 | the non-empty names, each once, in order of first appearance |
| Resolver.ListNamespaces | internal/kube/resolver.go:115-128 | the listed namespaces, or the context's and "default" with the error |
| Resolver.ResolveFilter | internal/kube/resolver.go:134-236 | the answer for every query, lookup by lookup: the context's namespace before "default" before exact matches elsewhere before prefix matches, a denial exactly where the first forbidden reply is met; and the same answer as the first tier with a candidate |
| Resolver.Search | internal/kube/resolver.go:186-235 | the same for the search over all namespaces |
| Resolver.NeverGuesses | internal/kube/resolver.go:266-278 | a match is the only candidate of the first tier that has any and is exact just when its name is the query; two or more are ambiguous; nothing is found just when no tier has one |
| Resolver.AmbiguousMeansDifferent | internal/kube/resolver.go:134-236 | when namespaces are listed, an ambiguous answer names different objects |
| Resolver.FallbackFinds | internal/kube/resolver.go:115-128 | exactly when a prefix match is found although namespaces could not be listed |
| Events.Aggregate | internal/events/service.go:135-155 | the loop over the index map computes the merge, record by record |
| Events.AggregateInStages | internal/events/service.go:135-155 | merging a batch and then the result with another is merging all at once |
| Events.AggregateSummarizes | internal/events/service.go:135-155 | every key once, with the sum of its counts, the latest last time and the earliest first time that is set |
| Events.MergedByObjectReasonMessage | internal/events/service.go:135-155 | two merged records differ in object, reason or message, and every record is merged into one that does not |
| Events.TheRestIsTheFirsts | internal/events/service.go:135-155 | what merging does not touch is that of the first record |
| Events.CountConserved | internal/events/service.go:135-155 | no occurrence is lost |
| Events.MergedAlikeInAnyOrder | internal/events/service.go:135-155 | in any order of the records each key ends with the same count and times |
| ApiCache.CacheKey | internal/diagnostic/cache.go:41-50 | the parts with a bar between them |
| ApiCache.KeysTellPartsApart | internal/diagnostic/cache.go:41-50 | bar-free parts have one key only if they are the same, except for no parts and one empty part |
| ApiCache.KeyStandsAloneExactly | internal/diagnostic/cache.go:41-50 | among lists of its length a list of parts is the only one with its key if and only if it has at most one part or no part has a bar in it |
| ApiCache.FourPartsCollide | internal/diagnostic/cache.go:41-50 | two different lists of four parts, as every caller passes them, with one key |
| ApiCache.InvStep | internal/diagnostic/cache.go:52-70 | every step keeps what is cached or returned for a key among the loads of that key |
| ApiCache.ReturnsALoadOfItsKey | internal/diagnostic/cache.go:52-70 | in every interleaving a get returns what was loaded for its own key earlier in the run |
| ApiCache.CachedIsDirect | internal/diagnostic/cache.go:52-70 | if a load depends only on its key, every get returns what a direct load would |
| ApiCache.StoresAfterCancel | internal/diagnostic/cache.go:62-69 | a get stores at most once, and one that stores after its context was cancelled had passed its test of the context before |
| ApiCache.KeptInSpiteOfCancel | internal/diagnostic/cache.go:62-69 | a cancellation between the test and the store does not stop the store |
| ApiCache.CachedStaysCached | internal/diagnostic/cache.go:52-70 | what is cached stays cached, so later lookups of the key are answered |
| ApiCache.ReturnedIsShared | internal/diagnostic/cache.go:52-70 | a get that returned without a timeout and was not cancelled has left its key in the cache |
| ApiCache.CachedSparesTheLoad | internal/diagnostic/cache.go:52-70 | once a key is cached a get that has not looked yet never loads |
| ApiCache.TimeoutsAreNotShared | internal/diagnostic/cache.go:62-69 | a get answered from the cache never gets a timeout |

## Left out

- MCP registration, handlers, stdio, JSON, logging, metrics, kubeconfig loading and REST mapping: plumbing without a hard property.
- The Kubernetes client: a Get, List, Patch or Delete is one step on an abstract cluster that may fail; the access review, label selectors and REST mapping are oracles.
- How a restart category is inferred, risk labels, blast-radius text, messages and explanation strings: the category is an oracle, the texts are not modelled.
- Token randomness: a new ID is assumed not to have been issued before.
- Redaction of secrets in messages, and the wording of summary and impact texts.
- The string tables that classify signals, call a status authoritative, speak against a category or advise on it: they are parameters, so nothing is proved about their entries.
- The analyzers of pods, workloads, services, ingresses, claims, nodes and jobs, and the majority reason of a deployment, which breaks ties by map order.
- RankingOrder.OrderFreeExactly: events without an ID are not covered, because an ID decides whether a contradiction can be cited; every collector gives its events one.
- The graph builders other than the Deployment's: the same loops without a replica-set level.
- Agreement with the real scheduler: the analysis is an approximation and differs from it.
- Quantity parsing, and overflow of event counts and replica counts: numbers are unbounded integers.
- Timestamps of signals and evidence, and the dominant waiting reason carried along with pod issues.
- ClusterHealth.SeeNodes: each inventory loop is split into looking at its objects and tallying them, which the program does object by object; the report is the same.
- ClusterHealth.ScanAll: of the record of what could not be seen only which lists failed is kept, not the error kinds and texts.
- WriteEffects.RestartsAddUp: counts restart patches that are carried out; two within one second write the same annotation, so the workload rolls out once.
- Resolver.ResolveFilter: the reply of a lookup is taken to be the same each time it is asked within one resolution.
- Events.Aggregate: times before Go's zero time are not modelled.
