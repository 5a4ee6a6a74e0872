/** The signals of a workload's pods, diagnosed concurrently (deepPodSignals in
    internal/diagnostic/engine.go): the map built from the fan-out is the one a
    plain loop would build. */
module DeepPods {
  import opened Wrappers
  import opened Signals
  import Bounded

  datatype Pod = Pod(name: string, unhealthy: bool)

  /** What one diagnosis leaves in its place. */
  datatype Entry = Entry(name: string, signals: seq<Signal>)

  function Eligible(pods: seq<Pod>, unhealthyOnly: bool): (idx: seq<nat>)
    ensures forall k :: 0 <= k < |idx| ==> idx[k] < |pods|
  {
    if pods == [] then []
    else
      var i := |pods| - 1;
      Eligible(pods[..i], unhealthyOnly) + if unhealthyOnly && !pods[i].unhealthy then [] else [i]
  }

  /** The indices of all pods, or of the unhealthy ones, in order. */
  lemma {:induction false} EligibleExactly(pods: seq<Pod>, unhealthyOnly: bool)
    ensures var idx := Eligible(pods, unhealthyOnly);
            && (forall i: nat :: i in idx <==> i < |pods| && (pods[i].unhealthy || !unhealthyOnly))
            && (forall j, k :: 0 <= j < k < |idx| ==> idx[j] < idx[k])
  {
    if pods != [] {
      EligibleExactly(pods[..|pods| - 1], unhealthyOnly);
    }
  }

  lemma {:induction false} EligiblePrefix(pods: seq<Pod>, unhealthyOnly: bool, n: nat)
    requires n <= |pods|
    ensures Eligible(pods[..n], unhealthyOnly) <= Eligible(pods, unhealthyOnly)
  {
    if n < |pods| {
      EligiblePrefix(pods[..|pods| - 1], unhealthyOnly, n);
      assert pods[..|pods| - 1][..n] == pods[..n];
    } else {
      assert pods[..n] == pods;
    }
  }

  /** The first eligible pods, up to a bound that defaults to 8. */
  method Select(pods: seq<Pod>, capN: int, unhealthyOnly: bool) returns (idx: seq<nat>)
    ensures idx == First(Eligible(pods, unhealthyOnly), if capN <= 0 then 8 else capN)
  {
    var bound := capN;
    if bound <= 0 {
      bound := 8;
    }
    idx := [];
    for i := 0 to |pods|
      invariant idx == Eligible(pods[..i], unhealthyOnly) && |idx| < bound
    {
      assert pods[..i + 1][..i] == pods[..i];
      if unhealthyOnly && !pods[i].unhealthy {
        continue;
      }
      idx := idx + [i];
      if |idx| >= bound {
        EligiblePrefix(pods, unhealthyOnly, i + 1);
        return;
      }
    }
    assert pods[..|pods|] == pods;
  }

  /** What the plain loop over these pods builds: a later pod of the same name
      wins, and a pod without a name leaves nothing. */
  function Sequential(entries: seq<Entry>): map<string, seq<Signal>> {
    if entries == [] then map[]
    else
      var before, e := Sequential(entries[..|entries| - 1]), entries[|entries| - 1];
      if e.name == "" then before else before[e.name := e.signals]
  }

  /** The entries whose place is filled, in order. */
  function Present(places: seq<Option<Entry>>): seq<Entry> {
    if places == [] then []
    else
      var e := places[|places| - 1];
      Present(places[..|places| - 1]) + if e.Some? then [e.value] else []
  }

  lemma PresentStep(places: seq<Option<Entry>>, i: nat)
    requires i < |places|
    ensures var before, after := Sequential(Present(places[..i])), Sequential(Present(places[..i + 1]));
            if places[i].None? || places[i].value.name == "" then after == before
            else after == before[places[i].value.name := places[i].value.signals]
  {
    assert places[..i + 1][..i] == places[..i];
    var before := Present(places[..i]);
    if places[i].Some? {
      assert (before + [places[i].value])[..|before|] == before;
    } else {
      assert before + [] == before;
    }
  }

  /** A place that was not filled has no name. */
  method Collect(places: seq<Option<Entry>>) returns (m: map<string, seq<Signal>>)
    ensures m == Sequential(Present(places))
  {
    m := map[];
    for i := 0 to |places|
      invariant m == Sequential(Present(places[..i]))
    {
      PresentStep(places, i);
      var name := if places[i].Some? then places[i].value.name else "";
      if name == "" {
        continue;
      }
      m := m[name := places[i].value.signals];
    }
    assert places[..|places|] == places;
  }

  /** A call writes down the pod's name before it diagnoses the pod, so a diagnosis
      that is cut short by a cancellation still comes under its own name. */
  function JobFor(entries: seq<Entry>, configured: int): Bounded.Job<Entry> {
    Bounded.Job(|entries|, Bounded.Places(configured), (i: nat) => if i < |entries| then entries[i] else Entry("", []),
                (i: nat, e: Entry) => i < |entries| && e.name == entries[i].name)
  }

  /** The entries whose index was called, in index order. */
  function Called(entries: seq<Entry>, calls: seq<nat>): seq<Entry> {
    if entries == [] then []
    else
      Called(entries[..|entries| - 1], calls) + if |entries| - 1 in calls then [entries[|entries| - 1]] else []
  }

  lemma {:induction false} PresentIsCalled(entries: seq<Entry>, places: seq<Option<Entry>>, calls: seq<nat>)
    requires |places| == |entries|
    requires forall i :: 0 <= i < |entries| ==> places[i] == if i in calls then Some(entries[i]) else None
    ensures Present(places) == Called(entries, calls)
    ensures (forall i :: 0 <= i < |entries| ==> i in calls) ==> Called(entries, calls) == entries
  {
    if entries != [] {
      PresentIsCalled(entries[..|entries| - 1], places[..|places| - 1], calls);
    }
  }

  /** What the diagnoses came to in one run: each under its own name, and in full
      unless it ended after the cancellation. */
  ghost predicate CameTo(entries: seq<Entry>, late: set<nat>, found: seq<Entry>) {
    && |found| == |entries|
    && forall i :: 0 <= i < |entries| ==>
         found[i].name == entries[i].name && (i !in late ==> found[i] == entries[i])
  }

  /** Place i holds its own diagnosis, in full unless it was late. */
  predicate IsOwn(entries: seq<Entry>, late: set<nat>, i: nat, e: Entry) {
    i < |entries| && e.name == entries[i].name && (i !in late ==> e == entries[i])
  }

  lemma OwnPlaces(entries: seq<Entry>, late: set<nat>, places: seq<Option<Entry>>, calls: seq<nat>)
    returns (found: seq<Entry>)
    requires |places| == |entries|
    requires forall i :: 0 <= i < |entries| ==>
               if i in calls then places[i].Some? && IsOwn(entries, late, i, places[i].value) else places[i].None?
    ensures CameTo(entries, late, found)
    ensures Sequential(Present(places)) == Sequential(Called(found, calls))
    ensures (forall i :: 0 <= i < |entries| ==> i in calls) ==> Called(found, calls) == found
  {
    found := seq(|entries|, i requires 0 <= i < |entries| => if places[i].Some? then places[i].value else entries[i]);
    forall i | 0 <= i < |entries| ensures IsOwn(entries, late, i, found[i]) {
      assert i in calls ==> IsOwn(entries, late, i, places[i].value);
    }
    PresentIsCalled(found, places, calls);
  }

  lemma MayMeans(entries: seq<Entry>, configured: int, late: set<nat>, i: nat, e: Entry)
    requires i < |entries| && Bounded.May(JobFor(entries, configured), i in late, i, e)
    ensures IsOwn(entries, late, i, e)
  {
  }

  /** Whatever the interleaving, the fan-out leaves what the plain loop over the
      called pods would; without a cancellation that is the full diagnosis of all of
      them, and with one only the diagnoses that end after it can differ. */
  lemma FanOutIsSequential(entries: seq<Entry>, configured: int, states: seq<Bounded.State<Entry>>,
                           events: seq<Bounded.Event<Entry>>)
    returns (found: seq<Entry>)
    requires Bounded.IsRun(JobFor(entries, configured), states, events)
    requires Bounded.Returned(JobFor(entries, configured), states[|events|])
    ensures var s := states[|events|];
            && CameTo(entries, s.late, found)
            && Sequential(Present(s.results)) == Sequential(Called(found, s.calls))
            && (!s.cancelled || |entries| <= 1 ==> Sequential(Present(s.results)) == Sequential(found))
            && (!s.cancelled ==> found == entries)
  {
    var job, s := JobFor(entries, configured), states[|events|];
    Bounded.ReturnsEverything(job, states, events);
    Bounded.LateIsAfter(job, states, events);
    forall i | 0 <= i < |entries| && i in s.calls ensures IsOwn(entries, s.late, i, s.results[i].value) {
      MayMeans(entries, configured, s.late, i, s.results[i].value);
    }
    found := OwnPlaces(entries, s.late, s.results, s.calls);
  }
}
