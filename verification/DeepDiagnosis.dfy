/** The worker pool that diagnoses the kept candidates, and what its results do
    to the report (internal/health/cluster.go). The main goroutine launches one
    worker per candidate through a gate of bounded size, then takes one result per
    candidate from a buffered channel. */
module DeepDiagnosis {
  import opened Wrappers
  import opened Signals
  import opened Health
  import opened ClusterHealth
  import opened Counting

  datatype RootCause = RootCause(category: string, confidence: Confidence)

  datatype Diagnosis = Diagnosis(health: Health, rootCause: Option<RootCause>)

  /** What a worker sends. Which worker sent it is kept for the proofs. */
  datatype Result = Result(kind: string, ns: string, name: string, health: Health, rootCause: Option<RootCause>,
                           sender: nat)

  /** The candidates, the size of the gate, and what each diagnosis comes to when
      nothing cuts it short. */
  datatype Pool = Pool(candidates: seq<Candidate>, sem: nat, diagnose: nat -> Diagnosis)

  datatype Worker = NotYet | Started | Diagnosing | Sending(result: Result) | Sent | Exited

  /** late is kept for the proofs: the workers that looked at the context, or ended
      their diagnosis, after the cancellation. */
  datatype State = State(
    launched: nat, workers: seq<Worker>, gate: nat, channel: seq<Result>, received: seq<Result>,
    enriched: map<string, Result>, cancelled: bool, late: set<nat>)

  datatype Event = Launch | Check(worker: nat) | Finish(worker: nat, diagnosis: Diagnosis) | Send(worker: nat)
                 | Release(worker: nat) | Receive | Cancel

  predicate WellFormed(p: Pool) {
    p.sem > 0
  }

  /** The gate's size as configured, or its default: it always has room. */
  function GateSize(configured: int): (n: nat)
    ensures n > 0
  {
    if configured <= 0 then 4 else configured
  }

  /** The pool for these candidates under the configured concurrency. */
  function PoolFor(candidates: seq<Candidate>, configured: int, diagnose: nat -> Diagnosis): (p: Pool)
    ensures WellFormed(p)
    ensures p.sem == configured || (configured <= 0 && p.sem == 4)
  {
    Pool(candidates, GateSize(configured), diagnose)
  }

  function KeyOf(kind: string, ns: string, name: string): string {
    kind + "/" + ns + "/" + name
  }

  function ResultKey(r: Result): string {
    KeyOf(r.kind, r.ns, r.name)
  }

  function CancelledResult(p: Pool, i: nat): Result
    requires i < |p.candidates|
  {
    var c := p.candidates[i];
    Result(c.kind, c.ns, c.name, c.health, None, i)
  }

  function ResultOf(p: Pool, i: nat, d: Diagnosis): Result
    requires i < |p.candidates|
  {
    var c := p.candidates[i];
    Result(c.kind, c.ns, c.name, d.health, d.rootCause, i)
  }

  function FullResult(p: Pool, i: nat): Result
    requires i < |p.candidates|
  {
    ResultOf(p, i, p.diagnose(i))
  }

  function Init(p: Pool): State {
    State(0, seq(|p.candidates|, i => NotYet), 0, [], [], map[], false, {})
  }

  /** The gate blocks a launch while it is full, the channel a send while it is
      full, and results are taken once all workers are launched. A diagnosis uses the
      same context, so one that is under way when it is cancelled may come to
      anything. */
  predicate Enabled(p: Pool, s: State, e: Event) {
    match e
    case Launch => s.launched < |p.candidates| && s.gate < p.sem
    case Check(i) => i < |s.workers| && s.workers[i].Started?
    case Finish(i, d) => i < |s.workers| && s.workers[i].Diagnosing? && (s.cancelled || d == p.diagnose(i))
    case Send(i) => i < |s.workers| && s.workers[i].Sending? && |s.channel| < |p.candidates|
    case Release(i) => i < |s.workers| && s.workers[i].Sent?
    case Receive => s.launched == |p.candidates| && |s.received| < |p.candidates| && |s.channel| > 0
    case Cancel => !s.cancelled
  }

  function At(s: State, i: nat, w: Worker): State
    requires i < |s.workers|
  {
    s.(workers := s.workers[i := w])
  }

  function Later(s: State, i: nat): set<nat> {
    if s.cancelled then s.late + {i} else s.late
  }

  function Next(p: Pool, s: State, e: Event): State
    requires |s.workers| == |p.candidates| && Enabled(p, s, e) && s.gate >= (if e.Release? then 1 else 0)
  {
    match e
    case Launch => At(s, s.launched, Started).(launched := s.launched + 1, gate := s.gate + 1)
    case Check(i) => At(s, i, if s.cancelled then Sending(CancelledResult(p, i)) else Diagnosing).(late := Later(s, i))
    case Finish(i, d) => At(s, i, Sending(ResultOf(p, i, d))).(late := Later(s, i))
    case Send(i) => At(s, i, Sent).(channel := s.channel + [s.workers[i].result])
    case Release(i) => At(s, i, Exited).(gate := s.gate - 1)
    case Receive =>
      var r := s.channel[0];
      s.(channel := s.channel[1..], received := s.received + [r], enriched := s.enriched[ResultKey(r) := r])
    case Cancel => s.(cancelled := true)
  }

  predicate Done(p: Pool, s: State) {
    s.launched == |p.candidates| && |s.received| == |p.candidates|
  }

  // ----- The invariant -----

  function IsActive(w: Worker): nat {
    if w.NotYet? || w.Exited? then 0 else 1
  }

  function HasSent(w: Worker): nat {
    if w.Sent? || w.Exited? then 1 else 0
  }

  /** The result is worker i's, about its own candidate, and in full unless the
      worker was late. */
  predicate Honest(p: Pool, late: set<nat>, i: nat, r: Result) {
    && i < |p.candidates|
    && r == ResultOf(p, i, Diagnosis(r.health, r.rootCause))
    && (i !in late ==> r == FullResult(p, i))
  }

  /** Launched in order; as many slots taken as workers are active; as many
      results sent as workers have sent. */
  ghost predicate Counted(p: Pool, s: State) {
    && |s.workers| == |p.candidates|
    && s.launched <= |p.candidates|
    && (forall i :: 0 <= i < |s.workers| ==> (s.workers[i].NotYet? <==> i >= s.launched))
    && s.gate == Total(s.workers, IsActive) && s.gate <= p.sem
    && |s.received| + |s.channel| == Total(s.workers, HasSent)
  }

  /** Every result on its way is its sender's own, and sent once. */
  ghost predicate Tracked(p: Pool, s: State) {
    && (forall i :: 0 <= i < |s.workers| && s.workers[i].Sending? ==> Honest(p, s.late, i, s.workers[i].result))
    && SentOnce(p, s.workers, s.late, Out(s))
  }

  ghost predicate SentOnce(p: Pool, workers: seq<Worker>, late: set<nat>, out: seq<Result>) {
    && (forall k :: 0 <= k < |out| ==>
          out[k].sender < |workers| && HasSent(workers[out[k].sender]) == 1
          && Honest(p, late, out[k].sender, out[k]))
    && (forall j, k :: 0 <= j < k < |out| ==> out[j].sender != out[k].sender)
  }

  /** All results sent so far, in order. */
  function Out(s: State): seq<Result> {
    s.received + s.channel
  }

  /** The map holds the last result taken under each key. */
  function Table(rs: seq<Result>): map<string, Result> {
    if rs == [] then map[] else Table(rs[..|rs| - 1])[ResultKey(rs[|rs| - 1]) := rs[|rs| - 1]]
  }

  ghost predicate Inv(p: Pool, s: State) {
    Counted(p, s) && Tracked(p, s) && s.enriched == Table(s.received) && (s.late != {} ==> s.cancelled)
  }

  lemma InitInv(p: Pool)
    ensures Inv(p, Init(p))
  {
    TotalOfEqual(|p.candidates|, NotYet, IsActive);
    TotalOfEqual(|p.candidates|, NotYet, HasSent);
  }

  lemma ActiveHoldsASlot(p: Pool, s: State, i: nat)
    requires Counted(p, s) && i < |s.workers| && IsActive(s.workers[i]) == 1
    ensures s.gate >= 1
  {
    TotalAtLeast(s.workers, IsActive, i);
  }

  lemma {:induction false} OneEach(ws: seq<Worker>, i: nat)
    requires i < |ws| && ws[i].Sending?
    ensures Total(ws, HasSent) < |ws|
  {
    TotalAfterUpdate(ws, HasSent, i, Sent);
    TotalAtMost(ws[i := Sent], HasSent, 1);
  }

  /** A worker that has a result to send never finds the channel full. */
  lemma NeverFull(p: Pool, s: State, i: nat)
    requires Inv(p, s) && i < |s.workers| && s.workers[i].Sending?
    ensures |s.channel| < |p.candidates| && Enabled(p, s, Send(i))
  {
    OneEach(s.workers, i);
  }

  lemma Replaced(ws: seq<Worker>, i: nat, w: Worker)
    requires i < |ws|
    ensures Total(ws[i := w], IsActive) + IsActive(ws[i]) == Total(ws, IsActive) + IsActive(w)
    ensures Total(ws[i := w], HasSent) + HasSent(ws[i]) == Total(ws, HasSent) + HasSent(w)
  {
    TotalAfterUpdate(ws, IsActive, i, w);
    TotalAfterUpdate(ws, HasSent, i, w);
  }

  lemma CountedStep(p: Pool, s: State, e: Event)
    requires Counted(p, s) && Enabled(p, s, e) && s.gate >= (if e.Release? then 1 else 0)
    ensures Counted(p, Next(p, s, e))
  {
    match e {
      case Launch => Replaced(s.workers, s.launched, Started);
      case Receive =>
      case Cancel =>
      case Check(_) | Finish(_, _) | Send(_) | Release(_) => CountedWorkerStep(p, s, e);
    }
  }

  lemma CountedWorkerStep(p: Pool, s: State, e: Event)
    requires Counted(p, s) && Enabled(p, s, e) && s.gate >= (if e.Release? then 1 else 0)
    requires e.Check? || e.Finish? || e.Send? || e.Release?
    ensures Counted(p, Next(p, s, e))
  {
    Replaced(s.workers, e.worker, Next(p, s, e).workers[e.worker]);
  }

  lemma TrackedStep(p: Pool, s: State, e: Event)
    requires Counted(p, s) && Tracked(p, s) && Enabled(p, s, e) && s.gate >= (if e.Release? then 1 else 0)
    ensures Tracked(p, Next(p, s, e))
  {
    if e.Send? {
      TrackedSend(p, s, e.worker);
    } else {
      assert Out(Next(p, s, e)) == Out(s);
    }
  }

  lemma TrackedSend(p: Pool, s: State, i: nat)
    requires Counted(p, s) && Tracked(p, s) && Enabled(p, s, Send(i))
    ensures Tracked(p, Next(p, s, Send(i)))
  {
    var r := s.workers[i].result;
    assert Out(Next(p, s, Send(i))) == Out(s) + [r];
    OneMoreSent(p, s.workers, s.late, Out(s), i, r);
  }

  lemma OneMoreSent(p: Pool, workers: seq<Worker>, late: set<nat>, out: seq<Result>, i: nat, r: Result)
    requires SentOnce(p, workers, late, out)
    requires i < |workers| && workers[i].Sending? && r.sender == i && Honest(p, late, i, r)
    ensures SentOnce(p, workers[i := Sent], late, out + [r])
  {
    forall k | 0 <= k < |out| ensures out[k].sender != i && (out + [r])[k] == out[k] {
      assert HasSent(workers[out[k].sender]) == 1;
    }
  }

  lemma TableStep(p: Pool, s: State, e: Event)
    requires |s.workers| == |p.candidates| && Enabled(p, s, e) && s.gate >= (if e.Release? then 1 else 0)
    requires s.enriched == Table(s.received) && (s.late != {} ==> s.cancelled)
    ensures var s' := Next(p, s, e); s'.enriched == Table(s'.received) && (s'.late != {} ==> s'.cancelled)
  {
    if e.Receive? {
      assert (s.received + [s.channel[0]])[..|s.received|] == s.received;
    }
  }

  lemma InvStep(p: Pool, s: State, e: Event)
    requires Inv(p, s) && Enabled(p, s, e)
    ensures s.gate >= (if e.Release? then 1 else 0)
    ensures Inv(p, Next(p, s, e))
  {
    if e.Release? {
      ActiveHoldsASlot(p, s, e.worker);
    }
    CountedStep(p, s, e);
    TrackedStep(p, s, e);
    TableStep(p, s, e);
  }

  // ----- Runs -----

  /** A run of the pool: every event is enabled where it happens. */
  ghost predicate IsRun(p: Pool, states: seq<State>, events: seq<Event>) {
    && |states| == |events| + 1 && states[0] == Init(p)
    && forall k :: 0 <= k < |events| ==> Steps(p, states[k], events[k], states[k + 1])
  }

  ghost predicate Steps(p: Pool, s: State, e: Event, s': State) {
    && |s.workers| == |p.candidates| && Enabled(p, s, e) && s.gate >= (if e.Release? then 1 else 0)
    && s' == Next(p, s, e)
  }

  lemma {:induction false} InvAlways(p: Pool, states: seq<State>, events: seq<Event>, k: nat)
    requires IsRun(p, states, events) && k <= |events|
    ensures Inv(p, states[k])
  {
    if k == 0 {
      InitInv(p);
    } else {
      InvAlways(p, states, events, k - 1);
      assert Steps(p, states[k - 1], events[k - 1], states[k]);
      InvStep(p, states[k - 1], events[k - 1]);
    }
  }

  /** At no time do more workers run than the gate has room for, and a worker that
      has a result never waits to send it. */
  lemma BoundedAndNeverFull(p: Pool, states: seq<State>, events: seq<Event>, k: nat)
    requires IsRun(p, states, events) && k <= |events|
    ensures Total(states[k].workers, IsActive) <= p.sem
    ensures forall i :: 0 <= i < |states[k].workers| && states[k].workers[i].Sending? ==> Enabled(p, states[k], Send(i))
  {
    InvAlways(p, states, events, k);
    forall i | 0 <= i < |states[k].workers| && states[k].workers[i].Sending? ensures Enabled(p, states[k], Send(i)) {
      NeverFull(p, states[k], i);
    }
  }

  /** As long as not everything is received, something other than a cancellation
      can happen. */
  lemma NeverStuck(p: Pool, s: State) returns (e: Event)
    requires WellFormed(p) && Inv(p, s) && !Done(p, s)
    ensures e != Cancel && Enabled(p, s, e)
  {
    if i :| 0 <= i < |s.workers| && IsActive(s.workers[i]) == 1 {
      match s.workers[i] {
        case Started => e := Check(i);
        case Diagnosing => e := Finish(i, p.diagnose(i));
        case Sending(_) =>
          e := Send(i);
          NeverFull(p, s, i);
        case Sent => e := Release(i);
      }
    } else {
      TotalZero(s.workers, IsActive);
      if s.launched < |p.candidates| {
        e := Launch;
      } else {
        AllSent(s.workers);
        e := Receive;
      }
    }
  }

  lemma {:induction false} AllSent(ws: seq<Worker>)
    requires forall i :: 0 <= i < |ws| ==> ws[i].Exited?
    ensures Total(ws, HasSent) == |ws|
  {
    if ws != [] {
      AllSent(ws[..|ws| - 1]);
    }
  }

  function Left(w: Worker): nat {
    match w
    case NotYet => 5
    case Started => 4
    case Diagnosing => 3
    case Sending(_) => 2
    case Sent => 1
    case Exited => 0
  }

  /** What is still to happen: it shrinks with every step. */
  function Measure(p: Pool, s: State): int {
    Total(s.workers, Left) + |p.candidates| - |s.received| + if s.cancelled then 0 else 1
  }

  lemma EveryStepCounts(p: Pool, s: State, e: Event)
    requires Inv(p, s) && Enabled(p, s, e) && s.gate >= (if e.Release? then 1 else 0)
    ensures Measure(p, Next(p, s, e)) < Measure(p, s)
  {
    match e {
      case Launch => TotalAfterUpdate(s.workers, Left, s.launched, Started);
      case Check(i) =>
        TotalAfterUpdate(s.workers, Left, i, if s.cancelled then Sending(CancelledResult(p, i)) else Diagnosing);
      case Finish(i, d) => TotalAfterUpdate(s.workers, Left, i, Sending(ResultOf(p, i, d)));
      case Send(i) => TotalAfterUpdate(s.workers, Left, i, Sent);
      case Release(i) => TotalAfterUpdate(s.workers, Left, i, Exited);
      case Receive =>
      case Cancel =>
    }
  }

  lemma {:induction false} MeasureBoundsRun(p: Pool, states: seq<State>, events: seq<Event>, k: nat)
    requires IsRun(p, states, events) && k <= |events|
    ensures Measure(p, states[k]) + k <= Measure(p, Init(p))
  {
    if k > 0 {
      MeasureBoundsRun(p, states, events, k - 1);
      InvAlways(p, states, events, k - 1);
      assert Steps(p, states[k - 1], events[k - 1], states[k]);
      EveryStepCounts(p, states[k - 1], events[k - 1]);
    }
  }

  /** Every run ends: it has at most six steps per candidate and one cancellation,
      and one that can go no further has received everything. */
  lemma EveryRunEnds(p: Pool, states: seq<State>, events: seq<Event>)
    requires WellFormed(p) && IsRun(p, states, events)
    ensures |events| <= 6 * |p.candidates| + 1
    ensures (forall e :: e != Cancel ==> !Enabled(p, states[|events|], e)) ==> Done(p, states[|events|])
  {
    var s := states[|events|];
    InvAlways(p, states, events, |events|);
    MeasureBoundsRun(p, states, events, |events|);
    TotalOfEqual(|p.candidates|, NotYet, Left);
    ReceivedAtMost(p, s);
    if !Done(p, s) {
      var e := NeverStuck(p, s);
      assert e != Cancel && Enabled(p, s, e);
    }
  }

  lemma ReceivedAtMost(p: Pool, s: State)
    requires Counted(p, s)
    ensures |s.received| <= |p.candidates|
  {
    TotalAtMost(s.workers, HasSent, 1);
  }

  // ----- What the results come to -----

  /** Once everything is received, every candidate has sent exactly one result. */
  lemma OneResultEach(p: Pool, s: State, i: nat) returns (k: nat)
    requires Inv(p, s) && Done(p, s) && i < |p.candidates|
    ensures k < |s.received| && s.received[k].sender == i && Honest(p, s.late, i, s.received[k])
    ensures forall j :: 0 <= j < |s.received| && s.received[j].sender == i ==> j == k
  {
    var senders := seq(|s.received|, k requires 0 <= k < |s.received| => s.received[k].sender);
    assert forall k :: 0 <= k < |s.received| ==> Out(s)[k] == s.received[k];
    DistinctCovers(senders, i);
    k :| 0 <= k < |senders| && senders[k] == i;
  }

  /** No two candidates share a key. */
  ghost predicate DistinctKeys(p: Pool) {
    forall i, j :: 0 <= i < j < |p.candidates| ==> CandidateKey(p.candidates[i]) != CandidateKey(p.candidates[j])
  }

  function CandidateKey(c: Candidate): string {
    KeyOf(c.kind, c.ns, c.name)
  }

  lemma {:induction false} TableKeys(rs: seq<Result>)
    ensures forall key :: key in Table(rs) ==>
              exists k :: 0 <= k < |rs| && ResultKey(rs[k]) == key && Table(rs)[key] == rs[k]
    ensures forall k :: 0 <= k < |rs| ==> ResultKey(rs[k]) in Table(rs)
  {
    if rs != [] {
      TableKeys(rs[..|rs| - 1]);
      assert forall k :: 0 <= k < |rs| - 1 ==> rs[..|rs| - 1][k] == rs[k];
    }
  }

  lemma KeysAreCandidates(p: Pool, s: State, key: string) returns (c: Candidate)
    requires Inv(p, s) && key in s.enriched
    ensures c in p.candidates && CandidateKey(c) == key
  {
    TableKeys(s.received);
    var k :| 0 <= k < |s.received| && ResultKey(s.received[k]) == key;
    assert Out(s)[k] == s.received[k];
    c := p.candidates[s.received[k].sender];
  }

  /** Under each candidate's key is what its own worker sent. */
  lemma UnderItsKey(p: Pool, s: State, i: nat) returns (k: nat)
    requires Inv(p, s) && Done(p, s) && DistinctKeys(p) && i < |p.candidates|
    ensures k < |s.received| && s.received[k].sender == i && Honest(p, s.late, i, s.received[k])
    ensures var key := CandidateKey(p.candidates[i]);
            key in s.enriched && s.enriched[key] == s.received[k]
  {
    TableKeys(s.received);
    k := OneResultEach(p, s, i);
    var key := ResultKey(s.received[k]);
    var j :| 0 <= j < |s.received| && ResultKey(s.received[j]) == key && s.enriched[key] == s.received[j];
    assert Out(s)[j] == s.received[j];
  }

  /** With distinct keys the map the main goroutine builds has exactly the
      candidates' keys, and under each what its own worker reports, whatever order the
      workers ran in: the full diagnosis, unless the worker looked at the context or
      ended its diagnosis after a cancellation. */
  lemma MapIsTheCandidates(p: Pool, s: State)
    requires Inv(p, s) && Done(p, s) && DistinctKeys(p)
    ensures s.enriched.Keys == set c | c in p.candidates :: CandidateKey(c)
    ensures forall i :: 0 <= i < |p.candidates| ==> Honest(p, s.late, i, s.enriched[CandidateKey(p.candidates[i])])
  {
    forall key | key in s.enriched ensures exists c :: c in p.candidates && CandidateKey(c) == key {
      var c := KeysAreCandidates(p, s, key);
    }
    forall i | 0 <= i < |p.candidates|
      ensures CandidateKey(p.candidates[i]) in s.enriched
      ensures Honest(p, s.late, i, s.enriched[CandidateKey(p.candidates[i])])
    {
      var k := UnderItsKey(p, s, i);
    }
  }

  /** Without a cancellation it is each candidate's full diagnosis. */
  lemma ArrivalOrderDoesNotMatter(p: Pool, s: State)
    requires Inv(p, s) && Done(p, s) && !s.cancelled && DistinctKeys(p)
    ensures s.enriched.Keys == set c | c in p.candidates :: CandidateKey(c)
    ensures forall i :: 0 <= i < |p.candidates| ==> s.enriched[CandidateKey(p.candidates[i])] == FullResult(p, i)
  {
    MapIsTheCandidates(p, s);
  }

  /** At event k worker i looked at a cancelled context, or ended a diagnosis under
      one. */
  predicate LateAt(states: seq<State>, events: seq<Event>, i: nat, k: nat) {
    && k < |states| && k < |events| && states[k].cancelled
    && (events[k].Check? || events[k].Finish?) && events[k].worker == i
  }

  lemma {:induction false} LateExactly(p: Pool, states: seq<State>, events: seq<Event>, n: nat, i: nat)
    requires IsRun(p, states, events) && n <= |events|
    ensures i in states[n].late <==> exists k: nat :: k < n && LateAt(states, events, i, k)
  {
    if n > 0 {
      LateExactly(p, states, events, n - 1, i);
      assert Steps(p, states[n - 1], events[n - 1], states[n]);
      LateStep(p, states[n - 1], events[n - 1], i);
      assert LateAt(states, events, i, n - 1) || !LateAt(states, events, i, n - 1);
    }
  }

  lemma LateStep(p: Pool, s: State, e: Event, i: nat)
    requires |s.workers| == |p.candidates| && Enabled(p, s, e) && s.gate >= (if e.Release? then 1 else 0)
    ensures i in Next(p, s, e).late <==>
            i in s.late || (s.cancelled && (e.Check? || e.Finish?) && e.worker == i)
  {
  }

  predicate CutShort(states: seq<State>, events: seq<Event>, i: nat) {
    exists k: nat :: k < |events| && LateAt(states, events, i, k)
  }

  /** A worker that looks at the context reports its candidate as it was found if the
      context is cancelled, and otherwise starts its diagnosis. */
  lemma CheckExactly(p: Pool, s: State, i: nat)
    requires |s.workers| == |p.candidates| && Enabled(p, s, Check(i))
    ensures var c := p.candidates[i];
            Next(p, s, Check(i)).workers ==
            s.workers[i := if s.cancelled then Sending(Result(c.kind, c.ns, c.name, c.health, None, i)) else Diagnosing]
  {
  }

  /** Two runs that receive everything build maps with the same keys; they can differ
      only at candidates whose worker, in one of the two, looked at the context or
      ended its diagnosis after the cancellation. */
  lemma SameMapInEveryRun(p: Pool, xs: seq<State>, es: seq<Event>, ys: seq<State>, fs: seq<Event>)
    requires DistinctKeys(p) && IsRun(p, xs, es) && IsRun(p, ys, fs)
    requires Done(p, xs[|es|]) && Done(p, ys[|fs|])
    ensures var s, t := xs[|es|], ys[|fs|];
            && s.enriched.Keys == t.enriched.Keys
            && (!s.cancelled && !t.cancelled ==> s.enriched == t.enriched)
            && (forall i :: 0 <= i < |p.candidates| && !CutShort(xs, es, i) && !CutShort(ys, fs, i) ==>
                  var key := CandidateKey(p.candidates[i]);
                  key in s.enriched && key in t.enriched && s.enriched[key] == t.enriched[key])
  {
    InvAlways(p, xs, es, |es|);
    InvAlways(p, ys, fs, |fs|);
    MapIsTheCandidates(p, xs[|es|]);
    MapIsTheCandidates(p, ys[|fs|]);
    SameWithoutCancellation(p, xs[|es|], ys[|fs|]);
    forall i | 0 <= i < |p.candidates| && !CutShort(xs, es, i) && !CutShort(ys, fs, i)
      ensures i !in xs[|es|].late && i !in ys[|fs|].late
    {
      LateExactly(p, xs, es, |es|, i);
      LateExactly(p, ys, fs, |fs|, i);
    }
  }

  lemma SameWithoutCancellation(p: Pool, s: State, t: State)
    requires Inv(p, s) && Done(p, s) && Inv(p, t) && Done(p, t) && DistinctKeys(p)
    ensures !s.cancelled && !t.cancelled ==> s.enriched == t.enriched
  {
    if !s.cancelled && !t.cancelled {
      ArrivalOrderDoesNotMatter(p, s);
      ArrivalOrderDoesNotMatter(p, t);
      SameTables(p.candidates, s.enriched, t.enriched);
    }
  }

  lemma SameTables(cs: seq<Candidate>, m: map<string, Result>, m': map<string, Result>)
    requires m.Keys == m'.Keys == set c | c in cs :: CandidateKey(c)
    requires forall i :: 0 <= i < |cs| ==> m[CandidateKey(cs[i])] == m'[CandidateKey(cs[i])]
    ensures m == m'
  {
    forall key | key in m ensures m[key] == m'[key] {
      var i :| 0 <= i < |cs| && CandidateKey(cs[i]) == key;
    }
  }

  // ----- A diagnosis that is cut short shows -----

  /** Worker i is about to send r, or has sent it. */
  ghost predicate Carries(s: State, i: nat, r: Result) {
    i < |s.workers| && r.sender == i && (s.workers[i] == Sending(r) || r in Out(s))
  }

  lemma CarriesStep(p: Pool, s: State, e: Event, i: nat, r: Result)
    requires Counted(p, s) && Enabled(p, s, e) && s.gate >= (if e.Release? then 1 else 0)
    requires Carries(s, i, r)
    ensures Carries(Next(p, s, e), i, r)
  {
    var s' := Next(p, s, e);
    if e.Send? {
      assert Out(s') == Out(s) + [s.workers[e.worker].result];
      assert s.workers[i] == Sending(r) && e.worker == i ==> Out(s')[|Out(s)|] == r;
    } else {
      assert Out(s') == Out(s);
    }
  }

  /** Every run can be completed, and what is on its way arrives. */
  lemma {:induction false} Completes(p: Pool, states: seq<State>, events: seq<Event>, i: nat, r: Result)
    returns (states': seq<State>, events': seq<Event>)
    requires WellFormed(p) && IsRun(p, states, events) && Carries(states[|events|], i, r)
    ensures IsRun(p, states', events') && events <= events'
    ensures Done(p, states'[|events'|]) && Carries(states'[|events'|], i, r)
    decreases 6 * |p.candidates| + 1 - |events|
  {
    InvAlways(p, states, events, |events|);
    var s := states[|events|];
    if Done(p, s) {
      states', events' := states, events;
    } else {
      var e := NeverStuck(p, s);
      InvStep(p, s, e);
      CarriesStep(p, s, e, i, r);
      OneMoreStep(p, states, events, e, Next(p, s, e));
      EveryRunEnds(p, states + [Next(p, s, e)], events + [e]);
      states', events' := Completes(p, states + [Next(p, s, e)], events + [e], i, r);
    }
  }

  lemma OneMoreStep(p: Pool, states: seq<State>, events: seq<Event>, e: Event, s': State)
    requires IsRun(p, states, events) && Steps(p, states[|events|], e, s')
    ensures IsRun(p, states + [s'], events + [e])
  {
    forall k | 0 <= k < |events + [e]| ensures Steps(p, (states + [s'])[k], (events + [e])[k], (states + [s'])[k + 1]) {
      if k < |events| {
        assert Steps(p, states[k], events[k], states[k + 1]);
      }
    }
  }

  lemma Arrived(p: Pool, s: State, i: nat, r: Result)
    requires Inv(p, s) && Done(p, s) && DistinctKeys(p) && Carries(s, i, r)
    ensures var key := CandidateKey(p.candidates[i]); key in s.enriched && s.enriched[key] == r
  {
    var k := UnderItsKey(p, s, i);
    assert Out(s)[k] == s.received[k];
    assert HasSent(s.workers[i]) == 1;
    var j :| 0 <= j < |Out(s)| && Out(s)[j] == r;
    assert j == k;
  }

  /** The bound is sharp: a diagnosis that is under way when the context is cancelled
      can come to anything, and the map of some complete run then says so. */
  lemma CutShortShows(p: Pool, states: seq<State>, events: seq<Event>, i: nat, d: Diagnosis)
    returns (states': seq<State>, events': seq<Event>)
    requires WellFormed(p) && DistinctKeys(p) && IsRun(p, states, events)
    requires var s := states[|events|]; s.cancelled && i < |s.workers| && s.workers[i].Diagnosing?
    ensures IsRun(p, states', events') && events <= events' && Done(p, states'[|events'|])
    ensures i < |p.candidates|
    ensures var enriched, key := states'[|events'|].enriched, CandidateKey(p.candidates[i]);
            key in enriched && enriched[key] == ResultOf(p, i, d)
  {
    InvAlways(p, states, events, |events|);
    var s, e := states[|events|], Finish(i, d);
    OneMoreStep(p, states, events, e, Next(p, s, e));
    states', events' := Completes(p, states + [Next(p, s, e)], events + [e], i, ResultOf(p, i, d));
    InvAlways(p, states', events', |events'|);
    Arrived(p, states'[|events'|], i, ResultOf(p, i, d));
  }

  // ----- What the results do to the report -----

  datatype Line = Line(item: Item, cause: Option<RootCause>, impact: Option<Health>)

  function Enriched(line: Line, enriched: map<string, Result>): Line {
    var key := KeyOf(line.item.kind, line.item.ns, line.item.name);
    if key in enriched && enriched[key].rootCause.Some? && enriched[key].rootCause.value.category != "" then
      line.(cause := enriched[key].rootCause, impact := Some(enriched[key].health))
    else line
  }

  /** The critical issues are filled in, in place. */
  method Enrich(lines: array<Line>, enriched: map<string, Result>)
    modifies lines
    ensures forall i :: 0 <= i < lines.Length ==> lines[i] == Enriched(old(lines[i]), enriched)
  {
    for i := 0 to lines.Length
      invariant forall k :: 0 <= k < i ==> lines[k] == Enriched(old(lines[k]), enriched)
      invariant forall k :: i <= k < lines.Length ==> lines[k] == old(lines[k])
    {
      var item := lines[i].item;
      var key := KeyOf(item.kind, item.ns, item.name);
      if key in enriched {
        var d := enriched[key];
        if d.rootCause.Some? && d.rootCause.value.category != "" {
          lines[i] := lines[i].(cause := d.rootCause, impact := Some(d.health));
        }
      }
    }
  }

  predicate Plain(part: string) {
    '/' !in part
  }

  lemma KeyTellsKind(k: string, ns: string, name: string, k': string, ns': string, name': string)
    requires Plain(k) && Plain(k') && KeyOf(k, ns, name) == KeyOf(k', ns', name')
    ensures k == k' && ns + "/" + name == ns' + "/" + name'
  {
    var x, y := KeyOf(k, ns, name), KeyOf(k', ns', name');
    assert x[|k|] == '/' && y[|k'|] == '/';
    assert forall i :: 0 <= i < |k| ==> x[i] == k[i] && x[i] != '/';
    assert forall i :: 0 <= i < |k'| ==> y[i] == k'[i] && y[i] != '/';
    assert |k| == |k'|;
    assert k == x[..|k|] && k' == y[..|k|];
    assert ns + "/" + name == x[|k| + 1..] && ns' + "/" + name' == y[|k| + 1..];
  }

  /** A slash-free kind and namespace make the key unambiguous. */
  lemma KeyTellsAll(k: string, ns: string, name: string, k': string, ns': string, name': string)
    requires Plain(k) && Plain(k') && Plain(ns) && Plain(ns')
    ensures KeyOf(k, ns, name) == KeyOf(k', ns', name') <==> k == k' && ns == ns' && name == name'
  {
    if KeyOf(k, ns, name) == KeyOf(k', ns', name') {
      KeyTellsKind(k, ns, name, k', ns', name');
      var x, y := ns + "/" + name, ns' + "/" + name';
      assert x[|ns|] == '/' && y[|ns'|] == '/';
      assert forall i :: 0 <= i < |ns| ==> x[i] == ns[i] && x[i] != '/';
      assert forall i :: 0 <= i < |ns'| ==> y[i] == ns'[i] && y[i] != '/';
      assert |ns| == |ns'|;
      assert ns == x[..|ns|] && ns' == y[..|ns|];
      assert name == x[|ns| + 1..] && name' == y[|ns| + 1..];
    }
  }

  /** An issue is filled in from its own diagnosis, or left alone if its object was
      not kept or its diagnosis names no category. */
  lemma FilledFromItsOwnDiagnosis(p: Pool, s: State, line: Line)
    requires Inv(p, s) && Done(p, s) && !s.cancelled && DistinctKeys(p)
    requires Plain(line.item.kind) && Plain(line.item.ns)
    requires forall c :: c in p.candidates ==> Plain(c.kind) && Plain(c.ns)
    ensures forall i :: 0 <= i < |p.candidates| && p.candidates[i].kind == line.item.kind
                        && p.candidates[i].ns == line.item.ns && p.candidates[i].name == line.item.name ==>
              Enriched(line, s.enriched) ==
              if p.diagnose(i).rootCause.Some? && p.diagnose(i).rootCause.value.category != "" then
                Line(line.item, p.diagnose(i).rootCause, Some(p.diagnose(i).health))
              else line
    ensures (forall c :: c in p.candidates ==>
               !(c.kind == line.item.kind && c.ns == line.item.ns && c.name == line.item.name)) ==>
              Enriched(line, s.enriched) == line
  {
    var it := line.item;
    ArrivalOrderDoesNotMatter(p, s);
    forall c | c in p.candidates
      ensures CandidateKey(c) == KeyOf(it.kind, it.ns, it.name) <==>
              c.kind == it.kind && c.ns == it.ns && c.name == it.name
    {
      KeyTellsAll(c.kind, c.ns, c.name, it.kind, it.ns, it.name);
    }
    forall i | 0 <= i < |p.candidates| ensures p.candidates[i] in p.candidates {}
  }

  // ----- Claims -----

  predicate NotClaimLine(kind: string) {
    Plain(kind) && kind != "PVC"
  }

  predicate DiagnosedAsListed(obs: seq<Observation>) {
    forall o :: o in obs ==> NotClaimLine(o.deepKind)
  }

  lemma {:induction false} EachDiagnosedAs<T>(xs: seq<T>, see: T -> Observation)
    requires forall x :: x in xs ==> NotClaimLine(see(x).deepKind)
    ensures forall o :: o in Each(xs, see) ==> NotClaimLine(o.deepKind)
  {
    if xs != [] {
      EachDiagnosedAs(xs[..|xs| - 1], see);
    }
  }

  lemma {:induction false} WorkloadsDiagnosedAs(kind: string, offered: bool, ws: seq<Workload>)
    requires NotClaimLine(kind)
    ensures forall o :: o in EachWorkload(kind, offered, ws) ==> NotClaimLine(o.deepKind)
  {
    if ws != [] {
      WorkloadsDiagnosedAs(kind, offered, ws[..|ws| - 1]);
    }
  }

  ghost predicate NoClaimLines(f: Found) {
    forall c :: c in f.candidates ==> NotClaimLine(c.kind)
  }

  lemma {:induction false} FoundDiagnosedAs(f: Found, obs: seq<Observation>)
    requires NoClaimLines(f)
    requires DiagnosedAsListed(obs)
    ensures NoClaimLines(Finding(f, obs))
  {
    if obs != [] {
      FoundDiagnosedAs(f, obs[..|obs| - 1]);
    }
  }

  lemma NodesDiagnosedAs(inv: Inventory)
    ensures DiagnosedAsListed(NodePart(inv))
  {
    if inv.nodes.Some? {
      assert NotClaimLine("Node");
      EachDiagnosedAs(inv.nodes.value, SeeNode);
    }
  }

  lemma PodsDiagnosedAs(inv: Inventory)
    ensures DiagnosedAsListed(PodPart(inv))
  {
    if inv.pods.Some? {
      assert NotClaimLine("Pod");
      EachDiagnosedAs(ClusterHealth.Counted(inv.pods.value), SeePod);
    }
  }

  lemma ClaimsDiagnosedAs(inv: Inventory)
    ensures DiagnosedAsListed(ClaimPart(inv))
  {
    if inv.claims.Some? {
      assert NotClaimLine("PersistentVolumeClaim");
      EachDiagnosedAs(inv.claims.value, SeeClaim);
    }
  }

  lemma WorkloadPartsDiagnosedAs(inv: Inventory)
    ensures DiagnosedAsListed(DeploymentPart(inv)) && DiagnosedAsListed(StatefulSetPart(inv))
    ensures DiagnosedAsListed(DaemonSetPart(inv)) && DiagnosedAsListed(JobPart(inv))
  {
    if inv.deployments.Some? {
      WorkloadsDiagnosedAs("Deployment", true, inv.deployments.value);
    }
    if inv.statefulSets.Some? {
      WorkloadsDiagnosedAs("StatefulSet", false, inv.statefulSets.value);
    }
    if inv.daemonSets.Some? {
      WorkloadsDiagnosedAs("DaemonSet", false, inv.daemonSets.value);
    }
    if inv.jobs.Some? {
      EachDiagnosedAs(inv.jobs.value, SeeJob);
    }
  }

  lemma CandidatesDiagnosedAs(inv: Inventory)
    ensures NoClaimLines(FindingAll(inv))
  {
    NodesDiagnosedAs(inv);
    PodsDiagnosedAs(inv);
    ClaimsDiagnosedAs(inv);
    WorkloadPartsDiagnosedAs(inv);
    var f := Finding(NOTHING, NodePart(inv));
    FoundDiagnosedAs(NOTHING, NodePart(inv));
    var g := Finding(f, PodPart(inv));
    FoundDiagnosedAs(f, PodPart(inv));
    WorkloadCandidatesDiagnosedAs(g, inv);
    FoundDiagnosedAs(FindingWorkloads(g, inv), ClaimPart(inv));
  }

  lemma WorkloadCandidatesDiagnosedAs(f: Found, inv: Inventory)
    requires NoClaimLines(f)
    ensures NoClaimLines(FindingWorkloads(f, inv))
  {
    WorkloadPartsDiagnosedAs(inv);
    var d := Finding(f, DeploymentPart(inv));
    FoundDiagnosedAs(f, DeploymentPart(inv));
    var s := Finding(d, StatefulSetPart(inv));
    FoundDiagnosedAs(d, StatefulSetPart(inv));
    var ds := Finding(s, DaemonSetPart(inv));
    FoundDiagnosedAs(s, DaemonSetPart(inv));
    FoundDiagnosedAs(ds, JobPart(inv));
  }

  /** An issue about a claim is never filled in: it is listed under one kind and
      its diagnosis comes back under another. */
  lemma ClaimsAreNeverFilledIn(inv: Inventory, p: Pool, s: State, line: Line)
    requires Inv(p, s) && line.item.kind == "PVC"
    requires forall c :: c in p.candidates ==> c in FindingAll(inv).candidates
    ensures Enriched(line, s.enriched) == line
  {
    var key := KeyOf(line.item.kind, line.item.ns, line.item.name);
    if key in s.enriched {
      var c := KeysAreCandidates(p, s, key);
      CandidatesDiagnosedAs(inv);
      assert NotClaimLine(c.kind);
      KeyTellsKind(c.kind, c.ns, c.name, line.item.kind, line.item.ns, line.item.name);
    }
  }
}
