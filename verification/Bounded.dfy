/** The bounded fan-out of internal/diagnostic/bounded.go and the pod diagnosis
    that runs on it (deepPodSignals in internal/diagnostic/engine.go). One
    goroutine per index waits for a place in a semaphore or for the context to be
    cancelled; the caller waits for all of them. */
module Bounded {
  import opened Wrappers
  import opened Counting

  /** n calls of a function: what call i puts in its place, and what it may put there
      when the context is cancelled before it ends. */
  datatype Job<!T> = Job(n: nat, max: nat, call: nat -> T, cut: (nat, T) -> bool)

  function Places(configured: int): (max: nat)
    ensures max > 0 && (configured > 0 ==> max == configured)
    ensures configured <= 0 ==> max == 8
  {
    if configured <= 0 then 8 else configured
  }

  /** A goroutine waits, runs its call, gives up its place and is finished; it may
      also quit without a call. */
  datatype Routine = NotYet | Waiting | Running | Ran | Finished | Quit

  /** late is kept for the proofs: the calls that ended after the cancellation. */
  datatype State<T> = State(
    spawned: nat, routines: seq<Routine>, held: nat, calls: seq<nat>, results: seq<Option<T>>, cancelled: bool,
    late: set<nat>)

  datatype Event<T> = Inline(v: T) | Spawn | Acquire(i: nat) | Return(i: nat, v: T) | Release(i: nat) | Abandon(i: nat)
                    | Cancel

  function Init<T>(job: Job<T>): State<T> {
    State(0, seq(job.n, i => NotYet), 0, [], seq(job.n, i => None), false, {})
  }

  /** What call i may leave in its place. */
  ghost predicate May<T>(job: Job<T>, cancelled: bool, i: nat, v: T) {
    v == job.call(i) || (cancelled && job.cut(i, v))
  }

  /** A single call is made in place, whether the context is cancelled or not. A
      waiting goroutine with both a free place and a cancelled context may go
      either way. */
  ghost predicate Enabled<T>(job: Job<T>, s: State<T>, e: Event<T>) {
    match e
    case Inline(v) =>
      job.n == 1 && s.spawned == 0 && |s.routines| == 1 && |s.results| == 1 && May(job, s.cancelled, 0, v)
    case Spawn => job.n > 1 && s.spawned < job.n
    case Acquire(i) => i < |s.routines| && s.routines[i] == Waiting && s.held < job.max
    case Return(i, v) => i < |s.routines| && s.routines[i] == Running && May(job, s.cancelled, i, v)
    case Release(i) => i < |s.routines| && s.routines[i] == Ran && s.held > 0
    case Abandon(i) => i < |s.routines| && s.routines[i] == Waiting && s.cancelled
    case Cancel => !s.cancelled
  }

  ghost predicate Shaped<T>(job: Job<T>, s: State<T>) {
    |s.routines| == |s.results| == job.n && s.spawned <= job.n
  }

  function Later<T>(s: State<T>, i: nat): set<nat> {
    if s.cancelled then s.late + {i} else s.late
  }

  function Next<T>(job: Job<T>, s: State<T>, e: Event<T>): State<T>
    requires Shaped(job, s) && Enabled(job, s, e)
  {
    match e
    case Inline(v) =>
      s.(spawned := 1, routines := [Finished], calls := [0], results := [Some(v)], late := Later(s, 0))
    case Spawn => s.(spawned := s.spawned + 1, routines := s.routines[s.spawned := Waiting])
    case Acquire(i) => s.(routines := s.routines[i := Running], held := s.held + 1, calls := s.calls + [i])
    case Return(i, v) => s.(routines := s.routines[i := Ran], results := s.results[i := Some(v)], late := Later(s, i))
    case Release(i) => s.(routines := s.routines[i := Finished], held := s.held - 1)
    case Abandon(i) => s.(routines := s.routines[i := Quit])
    case Cancel => s.(cancelled := true)
  }

  /** The caller returns when every goroutine it started is finished. */
  predicate Returned<T>(job: Job<T>, s: State<T>) {
    s.spawned == job.n && forall i :: 0 <= i < |s.routines| ==> s.routines[i] in {Finished, Quit}
  }

  // ----- The invariant -----

  function Holds(r: Routine): nat {
    if r in {Running, Ran} then 1 else 0
  }

  predicate Called(r: Routine) {
    r in {Running, Ran, Finished}
  }

  /** The calls made are those of the goroutines that got a place, once each. */
  ghost predicate Logged(rs: seq<Routine>, calls: seq<nat>) {
    && (forall i :: 0 <= i < |rs| ==> (Called(rs[i]) <==> i in calls))
    && (forall j, k :: 0 <= j < k < |calls| ==> calls[j] != calls[k])
    && (forall k :: 0 <= k < |calls| ==> calls[k] < |rs|)
  }

  lemma LogCall(rs: seq<Routine>, calls: seq<nat>, i: nat)
    requires Logged(rs, calls) && i < |rs| && rs[i] == Waiting
    ensures Logged(rs[i := Running], calls + [i])
  {
    assert i !in calls;
    assert forall j :: j in calls + [i] <==> j in calls || j == i;
  }

  ghost predicate InOrder<T>(s: State<T>) {
    forall i :: 0 <= i < |s.routines| ==> (s.routines[i] == NotYet <==> i >= s.spawned)
  }

  /** A place is filled when its call has ended, in full unless that was late. */
  ghost predicate Filled<T>(job: Job<T>, s: State<T>)
    requires Shaped(job, s)
  {
    forall i :: 0 <= i < job.n ==>
      if s.routines[i] in {Ran, Finished} then s.results[i].Some? && May(job, i in s.late, i, s.results[i].value)
      else s.results[i].None?
  }

  ghost predicate Inv<T>(job: Job<T>, s: State<T>) {
    && Shaped(job, s)
    && s.held == Total(s.routines, Holds) && s.held <= job.max
    && InOrder(s)
    && Logged(s.routines, s.calls)
    && Filled(job, s)
    && (s.late != {} ==> s.cancelled)
    && (!s.cancelled ==> forall i :: 0 <= i < job.n ==> s.routines[i] != Quit)
    && (job.n == 1 ==> s.routines[0] in {NotYet, Finished})
  }

  lemma InitInv<T>(job: Job<T>)
    requires job.max > 0
    ensures Inv(job, Init(job))
  {
    TotalOfEqual(job.n, NotYet, Holds);
  }

  lemma InvStep<T>(job: Job<T>, s: State<T>, e: Event<T>)
    requires Inv(job, s) && Enabled(job, s, e)
    ensures Inv(job, Next(job, s, e))
  {
    match e {
      case Inline(v) => InlineInv(job, s, v);
      case Spawn => SpawnInv(job, s);
      case Acquire(i) => AcquireInv(job, s, i);
      case Return(i, v) => ReturnInv(job, s, i, v);
      case Release(i) => ReleaseInv(job, s, i);
      case Abandon(i) => AbandonInv(job, s, i);
      case Cancel =>
    }
  }

  lemma SpawnInv<T>(job: Job<T>, s: State<T>)
    requires Inv(job, s) && Enabled(job, s, Spawn)
    ensures Inv(job, Next(job, s, Spawn))
  {
    TotalAfterUpdate(s.routines, Holds, s.spawned, Waiting);
  }

  lemma AbandonInv<T>(job: Job<T>, s: State<T>, i: nat)
    requires Inv(job, s) && Enabled(job, s, Abandon(i))
    ensures Inv(job, Next(job, s, Abandon(i)))
  {
    TotalAfterUpdate(s.routines, Holds, i, Quit);
  }

  lemma InlineInv<T>(job: Job<T>, s: State<T>, v: T)
    requires Inv(job, s) && Enabled(job, s, Inline(v))
    ensures Inv(job, Next(job, s, Inline(v)))
  {
    TotalAfterUpdate(s.routines, Holds, 0, Finished);
    assert s.routines[0 := Finished] == [Finished];
    assert s.routines[0] == NotYet;
  }

  lemma ReturnInv<T>(job: Job<T>, s: State<T>, i: nat, v: T)
    requires Inv(job, s) && Enabled(job, s, Return(i, v))
    ensures Inv(job, Next(job, s, Return(i, v)))
  {
    TotalAfterUpdate(s.routines, Holds, i, Ran);
  }

  lemma ReleaseInv<T>(job: Job<T>, s: State<T>, i: nat)
    requires Inv(job, s) && Enabled(job, s, Release(i))
    ensures Inv(job, Next(job, s, Release(i)))
  {
    TotalAfterUpdate(s.routines, Holds, i, Finished);
  }

  lemma AcquireInv<T>(job: Job<T>, s: State<T>, i: nat)
    requires Inv(job, s) && Enabled(job, s, Acquire(i))
    ensures Inv(job, Next(job, s, Acquire(i)))
  {
    TotalAfterUpdate(s.routines, Holds, i, Running);
    LogCall(s.routines, s.calls, i);
  }

  // ----- Runs -----

  ghost predicate Steps<T>(job: Job<T>, s: State<T>, e: Event<T>, s': State<T>) {
    Shaped(job, s) && Enabled(job, s, e) && s' == Next(job, s, e)
  }

  ghost predicate IsRun<T>(job: Job<T>, states: seq<State<T>>, events: seq<Event<T>>) {
    && job.max > 0
    && |states| == |events| + 1 && states[0] == Init(job)
    && forall k :: 0 <= k < |events| ==> Steps(job, states[k], events[k], states[k + 1])
  }

  lemma {:induction false} InvAlways<T>(job: Job<T>, states: seq<State<T>>, events: seq<Event<T>>, k: nat)
    requires IsRun(job, states, events) && k <= |events|
    ensures Inv(job, states[k])
  {
    if k == 0 {
      InitInv(job);
    } else {
      InvAlways(job, states, events, k - 1);
      assert Steps(job, states[k - 1], events[k - 1], states[k]);
      InvStep(job, states[k - 1], events[k - 1]);
    }
  }

  function IsRunning(r: Routine): nat {
    if r == Running then 1 else 0
  }

  lemma {:induction false} RunningHold(rs: seq<Routine>)
    ensures Total(rs, IsRunning) <= Total(rs, Holds)
  {
    if rs != [] {
      RunningHold(rs[..|rs| - 1]);
    }
  }

  /** At no time do more calls run than there are places, and no index is called
      twice. */
  lemma BoundedAndOnce<T>(job: Job<T>, states: seq<State<T>>, events: seq<Event<T>>, k: nat)
    requires IsRun(job, states, events) && k <= |events|
    ensures Total(states[k].routines, IsRunning) <= job.max
    ensures forall i, j :: 0 <= i < j < |states[k].calls| ==> states[k].calls[i] != states[k].calls[j]
    ensures forall i :: 0 <= i < |states[k].calls| ==> states[k].calls[i] < job.n
  {
    InvAlways(job, states, events, k);
    RunningHold(states[k].routines);
  }

  /** A caller that has returned has every result whose call was made, in full but
      for the calls that ended after a cancellation; without a cancellation that is
      every result. */
  lemma ReturnsEverything<T>(job: Job<T>, states: seq<State<T>>, events: seq<Event<T>>)
    requires IsRun(job, states, events) && Returned(job, states[|events|])
    ensures var s := states[|events|];
            && |s.results| == job.n
            && (forall i :: 0 <= i < job.n ==>
                  if i in s.calls then s.results[i].Some? && May(job, i in s.late, i, s.results[i].value)
                  else s.results[i].None?)
            && (!s.cancelled || job.n <= 1 ==> forall i :: 0 <= i < job.n ==> i in s.calls)
            && (!s.cancelled ==> forall i :: 0 <= i < job.n ==> s.results[i] == Some(job.call(i)))
  {
    InvAlways(job, states, events, |events|);
  }

  lemma LateIsAfter<T>(job: Job<T>, states: seq<State<T>>, events: seq<Event<T>>)
    requires IsRun(job, states, events)
    ensures states[|events|].late != {} ==> states[|events|].cancelled
  {
    InvAlways(job, states, events, |events|);
  }

  /** The late calls are those that ended after the cancellation. */
  predicate LateAt<T>(states: seq<State<T>>, events: seq<Event<T>>, i: nat, k: nat) {
    && k < |states| && k < |events| && states[k].cancelled
    && ((events[k].Inline? && i == 0) || (events[k].Return? && events[k].i == i))
  }

  lemma {:induction false} LateExactly<T>(job: Job<T>, states: seq<State<T>>, events: seq<Event<T>>, n: nat, i: nat)
    requires IsRun(job, states, events) && n <= |events|
    ensures i in states[n].late <==> exists k: nat :: k < n && LateAt(states, events, i, k)
  {
    if n > 0 {
      LateExactly(job, states, events, n - 1, i);
      assert Steps(job, states[n - 1], events[n - 1], states[n]);
      assert LateAt(states, events, i, n - 1) || !LateAt(states, events, i, n - 1);
    }
  }

  /** Until the caller returns, something other than a cancellation can happen. */
  lemma NeverStuck<T>(job: Job<T>, s: State<T>) returns (e: Event<T>)
    requires Inv(job, s) && job.max > 0 && !Returned(job, s)
    ensures e != Cancel && Enabled(job, s, e)
  {
    if s.spawned < job.n {
      e := if job.n == 1 then Inline(job.call(0)) else Spawn;
    } else if i :| 0 <= i < job.n && Holds(s.routines[i]) == 1 {
      TotalAtLeast(s.routines, Holds, i);
      e := if s.routines[i] == Running then Return(i, job.call(i)) else Release(i);
    } else {
      TotalZero(s.routines, Holds);
      var i :| 0 <= i < job.n && s.routines[i] !in {Finished, Quit};
      e := Acquire(i);
    }
  }

  function Left(r: Routine): nat {
    match r
    case NotYet => 4
    case Waiting => 3
    case Running => 2
    case Ran => 1
    case Finished | Quit => 0
  }

  function Measure<T>(s: State<T>): nat {
    Total(s.routines, Left) + if s.cancelled then 0 else 1
  }

  lemma LeftShrinks(rs: seq<Routine>, i: nat, r: Routine)
    requires i < |rs| && Left(r) < Left(rs[i])
    ensures Total(rs[i := r], Left) < Total(rs, Left)
  {
    TotalAfterUpdate(rs, Left, i, r);
  }

  lemma EveryStepCounts<T>(job: Job<T>, s: State<T>, e: Event<T>)
    requires Shaped(job, s) && InOrder(s) && Enabled(job, s, e)
    ensures Measure(Next(job, s, e)) < Measure(s)
  {
    match e {
      case Inline(_) =>
        LeftShrinks(s.routines, 0, Finished);
        assert s.routines[0 := Finished] == [Finished];
      case Spawn => LeftShrinks(s.routines, s.spawned, Waiting);
      case Acquire(i) => LeftShrinks(s.routines, i, Running);
      case Return(i, _) => LeftShrinks(s.routines, i, Ran);
      case Release(i) => LeftShrinks(s.routines, i, Finished);
      case Abandon(i) => LeftShrinks(s.routines, i, Quit);
      case Cancel =>
    }
  }

  lemma {:induction false} MeasureBoundsRun<T>(job: Job<T>, states: seq<State<T>>, events: seq<Event<T>>, k: nat)
    requires IsRun(job, states, events) && k <= |events|
    ensures Measure(states[k]) + k <= Measure(Init(job))
  {
    if k > 0 {
      MeasureBoundsRun(job, states, events, k - 1);
      InvAlways(job, states, events, k - 1);
      assert Steps(job, states[k - 1], events[k - 1], states[k]);
      EveryStepCounts(job, states[k - 1], events[k - 1]);
    }
  }

  /** Every run ends, and one that can go no further has returned. */
  lemma EveryRunEnds<T>(job: Job<T>, states: seq<State<T>>, events: seq<Event<T>>)
    requires IsRun(job, states, events)
    ensures |events| <= 4 * job.n + 1
    ensures (forall e :: e != Cancel ==> !Enabled(job, states[|events|], e)) ==> Returned(job, states[|events|])
  {
    var s := states[|events|];
    InvAlways(job, states, events, |events|);
    MeasureBoundsRun(job, states, events, |events|);
    TotalOfEqual(job.n, NotYet, Left);
    if !Returned(job, s) {
      var e := NeverStuck(job, s);
      assert e != Cancel && Enabled(job, s, e);
    }
  }
}
