/** Why the floor needs its condition: nothing locks the cluster between a
    cordon's recheck and its write, so two cordons can empty it together. */
module CordonOverlap {
  import opened Wrappers
  import opened Confirmation
  import opened SafeActions
  import opened CordonFloor

  /** The request succeeds, is allowed and is carried out. */
  function Fine(tok: string): Choice {
    Choice(true, true, "", Some(tok), 0, true)
  }

  function CordonOf(name: string): Request {
    SetCordon(name, true)
  }

  function NodeKey(name: string): Key {
    Key(Node, "", name)
  }

  // ----- Runs by their states -----

  /** The states a run goes through, the first and the last included. */
  ghost predicate IsPath(env: Env, path: seq<State>, events: seq<Event>) {
    && |path| == |events| + 1
    && forall i {:trigger Next(env, path[i], events[i])} :: 0 <= i < |events| ==>
         path[i + 1] == Next(env, path[i], events[i])
  }

  ghost predicate Moves(e: Event, ids: set<nat>) {
    (e.Arrive? || e.Step?) && e.id in ids
  }

  /** s' is reached from s by steps of these calls alone. */
  ghost predicate Leads(env: Env, ids: set<nat>, s: State, events: seq<Event>, s': State) {
    && (exists path :: IsPath(env, path, events) && path[0] == s && path[|events|] == s')
    && forall e :: e in events ==> Moves(e, ids)
  }

  lemma OneStep(env: Env, ids: set<nat>, s: State, e: Event, s': State) returns (events: seq<Event>)
    requires Next(env, s, e) == s' && Moves(e, ids)
    ensures Leads(env, ids, s, events, s')
  {
    events := [e];
    assert IsPath(env, [s, s'], events);
  }

  lemma Glue(env: Env, ids: set<nat>, s0: State, e1: seq<Event>, s1: State, e2: seq<Event>, s2: State)
    requires Leads(env, ids, s0, e1, s1) && Leads(env, ids, s1, e2, s2)
    ensures Leads(env, ids, s0, e1 + e2, s2)
  {
    var p1 :| IsPath(env, p1, e1) && p1[0] == s0 && p1[|e1|] == s1;
    var p2 :| IsPath(env, p2, e2) && p2[0] == s1 && p2[|e2|] == s2;
    PathsJoin(env, p1, e1, p2, e2);
  }

  lemma Widen(env: Env, ids: set<nat>, more: set<nat>, s: State, events: seq<Event>, s': State)
    requires Leads(env, ids, s, events, s') && ids <= more
    ensures Leads(env, more, s, events, s')
  {
  }

  lemma PathsJoin(env: Env, p1: seq<State>, e1: seq<Event>, p2: seq<State>, e2: seq<Event>)
    requires IsPath(env, p1, e1) && IsPath(env, p2, e2) && p1[|e1|] == p2[0]
    ensures var path := p1 + p2[1..];
            IsPath(env, path, e1 + e2) && path[0] == p1[0] && path[|e1 + e2|] == p2[|e2|]
  {
    var path := p1 + p2[1..];
    forall i | 0 <= i < |e1 + e2| ensures path[i + 1] == Next(env, path[i], (e1 + e2)[i]) {
      if i < |e1| {
        assert p1[i + 1] == Next(env, p1[i], e1[i]);
      } else {
        assert path[i] == p2[i - |e1|];
        assert p2[i - |e1| + 1] == Next(env, p2[i - |e1|], e2[i - |e1|]);
      }
    }
  }

  lemma {:induction false} PathIsRun(env: Env, path: seq<State>, events: seq<Event>)
    requires IsPath(env, path, events)
    ensures Run(env, path[0], events) == path[|events|]
    decreases |events|
  {
    if events != [] {
      var n := |events| - 1;
      forall i | 0 <= i < n ensures path[..n + 1][i + 1] == Next(env, path[..n + 1][i], events[..n][i]) {
        assert path[i + 1] == Next(env, path[i], events[i]);
      }
      PathIsRun(env, path[..n + 1], events[..n]);
      assert path[n + 1] == Next(env, path[n], events[n]);
    }
  }

  lemma LeadsIsRun(env: Env, ids: set<nat>, s: State, events: seq<Event>, s': State)
    requires Leads(env, ids, s, events, s')
    ensures Run(env, s, events) == s'
  {
    var path :| IsPath(env, path, events) && path[0] == s && path[|events|] == s';
    PathIsRun(env, path, events);
  }

  // ----- One undisturbed cordon -----

  /** Call id at pc, and nothing else changed but the history. */
  ghost function Moved(s: State, id: nat, pc: PC): State
    requires id in s.calls
  {
    s.(calls := s.calls[id := s.calls[id].(pc := pc)], hist := s.hist + [s.world])
  }

  ghost predicate CanCordon(env: Env, s: State, name: string, ctx: string) {
    && env.enabled && ClusterFor(env, ctx) == Some(ctx) && ctx in s.world
    && NodeKey(name) in s.world[ctx].objects
    && |SchedulableReady(s.world[ctx])| >= 2
  }

  ghost function NodeOf(s: State, name: string, ctx: string): Object
    requires ctx in s.world && NodeKey(name) in s.world[ctx].objects
  {
    s.world[ctx].objects[NodeKey(name)]
  }

  ghost function Arrived(s: State, id: nat, name: string, confirmID: string, ctx: string): State {
    s.(calls := s.calls[id := Call(CordonOf(name), confirmID, ctx, Validate, false)], hist := s.hist + [s.world])
  }

  ghost function WantCordon(name: string, ctx: string, uid: string): Pending {
    Pending(CordonNode, Core, Node, name, "", uid, ctx, None, None, Some(true), false, 0)
  }

  lemma ValidateStep(env: Env, s: State, id: nat, name: string, confirmID: string, ctx: string, tok: string)
    requires CanCordon(env, s, name, ctx) && id in s.calls
    requires s.calls[id] == Call(CordonOf(name), confirmID, ctx, Validate, false)
    ensures Next(env, s, Step(id, Fine(tok))) == Moved(s, id, Authorize(ctx))
  {
  }

  lemma AuthorizeStep(env: Env, s: State, id: nat, name: string, confirmID: string, ctx: string, tok: string)
    requires CanCordon(env, s, name, ctx) && id in s.calls
    requires s.calls[id] == Call(CordonOf(name), confirmID, ctx, Authorize(ctx), false)
    ensures Next(env, s, Step(id, Fine(tok))) == Moved(s, id, PlanGet(ctx))
  {
  }

  lemma PlanGetStep(env: Env, s: State, id: nat, name: string, confirmID: string, ctx: string, tok: string)
    requires CanCordon(env, s, name, ctx) && id in s.calls
    requires s.calls[id] == Call(CordonOf(name), confirmID, ctx, PlanGet(ctx), false)
    ensures Next(env, s, Step(id, Fine(tok))) == Moved(s, id, PlanCheck(ctx, NodeOf(s, name, ctx), |s.hist|))
  {
  }

  lemma PlanCheckStep(env: Env, s: State, id: nat, name: string, confirmID: string, ctx: string, tok: string, k: nat)
    requires CanCordon(env, s, name, ctx) && id in s.calls
    requires s.calls[id] == Call(CordonOf(name), confirmID, ctx, PlanCheck(ctx, NodeOf(s, name, ctx), k), false)
    ensures Next(env, s, Step(id, Fine(tok))) ==
            Moved(s, id, Confirm(ctx, WantCordon(name, ctx, NodeOf(s, name, ctx).uid), Seen(k, |s.hist|, |s.hist|)))
  {
  }

  lemma ArriveAndValidate(env: Env, s: State, id: nat, name: string, confirmID: string, ctx: string)
    returns (events: seq<Event>)
    requires id !in s.calls && CanCordon(env, s, name, ctx)
    ensures Leads(env, {id}, s, events, Moved(Arrived(s, id, name, confirmID, ctx), id, Authorize(ctx)))
  {
    var s1, tok := Arrived(s, id, name, confirmID, ctx), "";
    ValidateStep(env, s1, id, name, confirmID, ctx, tok);
    var e1 := OneStep(env, {id}, s, Arrive(id, CordonOf(name), confirmID, ctx), s1);
    var e2 := OneStep(env, {id}, s1, Step(id, Fine(tok)), Moved(s1, id, Authorize(ctx)));
    Glue(env, {id}, s, e1, s1, e2, Moved(s1, id, Authorize(ctx)));
    events := e1 + e2;
  }

  lemma AuthorizeAndGet(env: Env, s: State, id: nat, name: string, confirmID: string, ctx: string)
    returns (events: seq<Event>)
    requires CanCordon(env, s, name, ctx) && id in s.calls
    requires s.calls[id] == Call(CordonOf(name), confirmID, ctx, Authorize(ctx), false)
    ensures Leads(env, {id}, s, events,
                  Moved(Moved(s, id, PlanGet(ctx)), id, PlanCheck(ctx, NodeOf(s, name, ctx), |s.hist| + 1)))
  {
    var s1, tok := Moved(s, id, PlanGet(ctx)), "";
    AuthorizeStep(env, s, id, name, confirmID, ctx, tok);
    PlanGetStep(env, s1, id, name, confirmID, ctx, tok);
    var s2 := Moved(s1, id, PlanCheck(ctx, NodeOf(s, name, ctx), |s1.hist|));
    var e1 := OneStep(env, {id}, s, Step(id, Fine(tok)), s1);
    var e2 := OneStep(env, {id}, s1, Step(id, Fine(tok)), s2);
    Glue(env, {id}, s, e1, s1, e2, s2);
    events := e1 + e2;
  }

  lemma CheckAlone(env: Env, s: State, id: nat, name: string, confirmID: string, ctx: string, k: nat)
    returns (events: seq<Event>)
    requires CanCordon(env, s, name, ctx) && id in s.calls
    requires s.calls[id] == Call(CordonOf(name), confirmID, ctx, PlanCheck(ctx, NodeOf(s, name, ctx), k), false)
    ensures Leads(env, {id}, s, events,
                  Moved(s, id, Confirm(ctx, WantCordon(name, ctx, NodeOf(s, name, ctx).uid),
                                       Seen(k, |s.hist|, |s.hist|))))
  {
    PlanCheckStep(env, s, id, name, confirmID, ctx, "", k);
    events := OneStep(env, {id}, s, Step(id, Fine("")),
                      Moved(s, id, Confirm(ctx, WantCordon(name, ctx, NodeOf(s, name, ctx).uid),
                                           Seen(k, |s.hist|, |s.hist|))));
  }

  lemma PlanFirstHalf(env: Env, s: State, id: nat, name: string, confirmID: string, ctx: string)
    returns (events: seq<Event>, s': State, k: nat)
    requires id !in s.calls && CanCordon(env, s, name, ctx)
    ensures Leads(env, {id}, s, events, s')
    ensures s'.(calls := s.calls, hist := s.hist) == s
    ensures s'.calls == s.calls[id := Call(CordonOf(name), confirmID, ctx, PlanCheck(ctx, NodeOf(s, name, ctx), k),
                                           false)]
  {
    var s2 := Moved(Arrived(s, id, name, confirmID, ctx), id, Authorize(ctx));
    k := |s2.hist| + 1;
    s' := Moved(Moved(s2, id, PlanGet(ctx)), id, PlanCheck(ctx, NodeOf(s, name, ctx), k));
    var e1 := ArriveAndValidate(env, s, id, name, confirmID, ctx);
    var e2 := AuthorizeAndGet(env, s2, id, name, confirmID, ctx);
    Glue(env, {id}, s, e1, s2, e2, s');
    events := e1 + e2;
  }

  /** A new call alone gets as far as its Put or Take with the node's UID. */
  lemma PlanAlone(env: Env, s: State, id: nat, name: string, confirmID: string, ctx: string)
    returns (events: seq<Event>, s': State, plan: Seen)
    requires id !in s.calls && CanCordon(env, s, name, ctx)
    ensures Leads(env, {id}, s, events, s')
    ensures s'.(calls := s.calls, hist := s.hist) == s
    ensures s'.calls == s.calls[id := Call(CordonOf(name), confirmID, ctx,
                                          Confirm(ctx, WantCordon(name, ctx, NodeOf(s, name, ctx).uid), plan), false)]
  {
    var e1, s1, k := PlanFirstHalf(env, s, id, name, confirmID, ctx);
    plan := Seen(k, |s1.hist|, |s1.hist|);
    s' := Moved(s1, id, Confirm(ctx, WantCordon(name, ctx, NodeOf(s, name, ctx).uid), plan));
    var e2 := CheckAlone(env, s1, id, name, confirmID, ctx, k);
    Glue(env, {id}, s, e1, s1, e2, s');
    events := e1 + e2;
  }

  lemma PutAlone(env: Env, s: State, id: nat, name: string, ctx: string, uid: string, plan: Seen, tok: string)
    returns (events: seq<Event>, s': State)
    requires id in s.calls && tok !in s.issued
    requires s.calls[id] == Call(CordonOf(name), "", ctx, Confirm(ctx, WantCordon(name, ctx, uid), plan), false)
    ensures Leads(env, {id}, s, events, s')
    ensures s'.world == s.world && s'.now == s.now && s'.issued.Keys == s.issued.Keys + {tok}
    ensures id in s'.calls && s'.calls[id].pc.Done? && s'.calls == s.calls[id := s'.calls[id]]
    ensures tok in s'.items && s'.items[tok] == WantCordon(name, ctx, uid).(expires := s.now + env.ttl)
  {
    s' := ConfirmStep(env, s, id, s.calls[id], Fine(tok)).(hist := s.hist + [s.world]);
    events := OneStep(env, {id}, s, Step(id, Fine(tok)), s');
  }

  lemma TakeAlone(env: Env, s: State, id: nat, name: string, ctx: string, uid: string, plan: Seen, tok: string)
    returns (events: seq<Event>, s': State)
    requires id in s.calls && tok != "" && env.ttl >= 0
    requires s.calls[id] == Call(CordonOf(name), tok, ctx, Confirm(ctx, WantCordon(name, ctx, uid), plan), false)
    requires tok in s.items && s.items[tok] == WantCordon(name, ctx, uid).(expires := s.now + env.ttl)
    ensures Leads(env, {id}, s, events, s')
    ensures s'.world == s.world && s'.now == s.now && s'.issued == s.issued
    ensures s'.calls == s.calls[id := s.calls[id].(pc := ReGet(ctx, tok, s.items[tok]))]
  {
    s' := ConfirmStep(env, s, id, s.calls[id], Fine(tok)).(hist := s.hist + [s.world]);
    events := OneStep(env, {id}, s, Step(id, Fine(tok)), s');
  }

  ghost predicate Ready(env: Env, s: State, id: nat, name: string, ctx: string) {
    && CanCordon(env, s, name, ctx)
    && id in s.calls && !s.calls[id].failed && s.calls[id].req == CordonOf(name)
    && s.calls[id].pc.ReGet? && s.calls[id].pc.ctx == ctx && s.calls[id].pc.stored.uid == NodeOf(s, name, ctx).uid
  }

  lemma IssuedAlone(env: Env, s: State, p: nat, name: string, ctx: string, tok: string)
    returns (events: seq<Event>, s': State)
    requires CanCordon(env, s, name, ctx) && p !in s.calls && tok !in s.issued
    ensures Leads(env, {p}, s, events, s')
    ensures s'.world == s.world && s'.now == s.now && s'.issued.Keys == s.issued.Keys + {tok}
    ensures p in s'.calls && s'.calls[p].pc.Done? && s'.calls == s.calls[p := s'.calls[p]]
    ensures tok in s'.items
            && s'.items[tok] == WantCordon(name, ctx, NodeOf(s, name, ctx).uid).(expires := s.now + env.ttl)
  {
    var e1, s1, plan := PlanAlone(env, s, p, name, "", ctx);
    var e2;
    e2, s' := PutAlone(env, s1, p, name, ctx, NodeOf(s, name, ctx).uid, plan, tok);
    Glue(env, {p}, s, e1, s1, e2, s');
    events := e1 + e2;
  }

  lemma TakenAlone(env: Env, s: State, q: nat, name: string, ctx: string, tok: string)
    returns (events: seq<Event>, s': State)
    requires CanCordon(env, s, name, ctx) && q !in s.calls && tok != "" && env.ttl >= 0
    requires tok in s.items
             && s.items[tok] == WantCordon(name, ctx, NodeOf(s, name, ctx).uid).(expires := s.now + env.ttl)
    ensures Leads(env, {q}, s, events, s')
    ensures s'.world == s.world && s'.now == s.now && s'.issued == s.issued
    ensures q in s'.calls && s'.calls == s.calls[q := s'.calls[q]] && Ready(env, s', q, name, ctx)
  {
    var e1, s1, plan := PlanAlone(env, s, q, name, tok, ctx);
    var e2;
    e2, s' := TakeAlone(env, s1, q, name, ctx, NodeOf(s, name, ctx).uid, plan, tok);
    Glue(env, {q}, s, e1, s1, e2, s');
    events := e1 + e2;
  }

  /** Plan, confirm and take, undisturbed: call q is about to re-read its node. */
  lemma ConfirmedAlone(env: Env, s: State, p: nat, q: nat, name: string, ctx: string, tok: string)
    returns (events: seq<Event>, s': State)
    requires CanCordon(env, s, name, ctx) && env.ttl >= 0
    requires p !in s.calls && q !in s.calls && p != q && tok !in s.issued && tok != ""
    ensures Leads(env, {p, q}, s, events, s')
    ensures s'.world == s.world && s'.now == s.now && s'.issued.Keys == s.issued.Keys + {tok}
    ensures s'.calls.Keys == s.calls.Keys + {p, q} && forall k :: k in s.calls ==> s'.calls[k] == s.calls[k]
    ensures s'.calls[p].pc.Done? && Ready(env, s', q, name, ctx)
  {
    var e1, s1 := IssuedAlone(env, s, p, name, ctx, tok);
    var e2;
    e2, s' := TakenAlone(env, s1, q, name, ctx, tok);
    Widen(env, {p}, {p, q}, s, e1, s1);
    Widen(env, {q}, {p, q}, s1, e2, s');
    Glue(env, {p, q}, s, e1, s1, e2, s');
    events := e1 + e2;
  }

  ghost predicate AboutToWrite(s: State, id: nat, name: string, ctx: string) {
    id in s.calls && InWindow(s.calls[id], ctx) && s.calls[id].pc.Write? && s.calls[id].req == CordonOf(name)
  }

  /** The node is re-read, and a second schedulable node is still listed. */
  lemma RereadAlone(env: Env, s: State, id: nat, name: string, ctx: string)
    returns (events: seq<Event>, s': State)
    requires Ready(env, s, id, name, ctx)
    ensures Leads(env, {id}, s, events, s')
    ensures s'.world == s.world && s'.issued == s.issued && id in s'.calls && s'.calls == s.calls[id := s'.calls[id]]
    ensures AboutToWrite(s', id, name, ctx)
  {
    var ReGet(_, tok, stored) := s.calls[id].pc;
    var live := NodeOf(s, name, ctx);
    var s1 := Moved(s, id, ReCheck(ctx, tok, stored, live, |s.hist|));
    s' := Moved(s1, id, Write(ctx, tok, stored, Seen(|s.hist|, |s1.hist|, |s1.hist|)));
    ReGetStep(env, s, id, name, ctx);
    ReCheckStep(env, s1, id, name, ctx);
    var e1 := OneStep(env, {id}, s, Step(id, Fine("")), s1);
    var e2 := OneStep(env, {id}, s1, Step(id, Fine("")), s');
    Glue(env, {id}, s, e1, s1, e2, s');
    events := e1 + e2;
  }

  lemma ReGetStep(env: Env, s: State, id: nat, name: string, ctx: string)
    requires Ready(env, s, id, name, ctx)
    ensures Next(env, s, Step(id, Fine(""))) ==
            Moved(s, id, ReCheck(ctx, s.calls[id].pc.token, s.calls[id].pc.stored, NodeOf(s, name, ctx), |s.hist|))
  {
  }

  lemma ReCheckStep(env: Env, s: State, id: nat, name: string, ctx: string)
    requires CanCordon(env, s, name, ctx)
    requires id in s.calls && s.calls[id].req == CordonOf(name) && s.calls[id].pc.ReCheck? && s.calls[id].pc.ctx == ctx
    ensures var pc := s.calls[id].pc;
            Next(env, s, Step(id, Fine(""))) ==
            Moved(s, id, Write(ctx, pc.token, pc.stored, Seen(pc.getAt, |s.hist|, |s.hist|)))
  {
  }

  lemma WriteAlone(env: Env, s: State, id: nat, name: string, ctx: string)
    returns (events: seq<Event>, s': State)
    requires AboutToWrite(s, id, name, ctx)
    requires ctx in s.world && NodeKey(name) in s.world[ctx].objects
    ensures Leads(env, {id}, s, events, s')
    ensures s'.issued == s.issued
    ensures s'.calls == s.calls[id := s.calls[id].(pc := Done(Succeeded))] && ctx in s'.world
    ensures s'.world[ctx].objects.Keys == s.world[ctx].objects.Keys
    ensures SchedulableReady(s'.world[ctx]) == SchedulableReady(s.world[ctx]) - {NodeKey(name)}
  {
    s' := WriteStep(env, s, id, s.calls[id], Fine("")).(hist := s.hist + [s.world]);
    events := OneStep(env, {id}, s, Step(id, Fine("")), s');
    CordonTakesOneAway(NodeKey(name), s.world[ctx], name);
  }

  // ----- Few cordons at once -----

  /** The run from s to s' never has more than two cordons of the cluster between
      re-read and write, and nothing happens from outside. */
  ghost predicate Narrow(env: Env, ctx: string, s: State, events: seq<Event>, s': State) {
    && (exists path :: IsPath(env, path, events) && path[0] == s && path[|events|] == s' && AtMostTwo(path, ctx))
    && forall e :: e in events ==> !e.ClusterChanges? && !e.Tick?
  }

  ghost predicate AtMostTwo(path: seq<State>, ctx: string) {
    forall i :: 0 <= i < |path| ==> |WindowIds(path[i], ctx)| <= 2
  }

  lemma {:induction false} OnlyThese(env: Env, ids: set<nat>, path: seq<State>, events: seq<Event>, ctx: string, k: nat)
    requires IsPath(env, path, events) && (forall e :: e in events ==> Moves(e, ids)) && k <= |events|
    requires WindowIds(path[0], ctx) == {}
    ensures WindowIds(path[k], ctx) <= ids
  {
    if k > 0 {
      OnlyThese(env, ids, path, events, ctx, k - 1);
      assert path[k - 1 + 1] == Next(env, path[k - 1], events[k - 1]);
      assert events[k - 1] in events;
      forall id | id in WindowIds(path[k], ctx) ensures id in ids {
        if id !in ids {
          OthersStay(env, path[k - 1], events[k - 1], id);
        }
      }
    }
  }

  lemma NoLarger<T>(few: set<T>, many: set<T>)
    requires few <= many
    ensures |few| <= |many|
  {
    assert many == few + (many - few);
  }

  /** Steps of two calls, from a state with no cordon in the window. */
  lemma TwoAreFew(env: Env, i: nat, j: nat, ctx: string, s: State, events: seq<Event>, s': State)
    requires Leads(env, {i, j}, s, events, s') && WindowIds(s, ctx) == {}
    ensures Narrow(env, ctx, s, events, s')
  {
    var path :| IsPath(env, path, events) && path[0] == s && path[|events|] == s';
    forall k | 0 <= k < |path| ensures |WindowIds(path[k], ctx)| <= 2 {
      OnlyThese(env, {i, j}, path, events, ctx, k);
      NoLarger(WindowIds(path[k], ctx), {i, j});
    }
    assert AtMostTwo(path, ctx);
  }

  lemma NarrowTogether(env: Env, ctx: string, s0: State, e1: seq<Event>, s1: State, e2: seq<Event>, s2: State)
    requires Narrow(env, ctx, s0, e1, s1) && Narrow(env, ctx, s1, e2, s2)
    ensures Narrow(env, ctx, s0, e1 + e2, s2)
  {
    var p1 :| IsPath(env, p1, e1) && p1[0] == s0 && p1[|e1|] == s1 && AtMostTwo(p1, ctx);
    var p2 :| IsPath(env, p2, e2) && p2[0] == s1 && p2[|e2|] == s2 && AtMostTwo(p2, ctx);
    PathsJoin(env, p1, e1, p2, e2);
    assert AtMostTwo(p1 + p2[1..], ctx);
  }

  lemma {:induction false} PathIsOrderly(env: Env, path: seq<State>, events: seq<Event>, ctx: string)
    requires IsPath(env, path, events) && AtMostTwo(path, ctx)
    requires forall e :: e in events ==> !e.ClusterChanges?
    ensures Orderly(env, path[0], events, ctx, 2)
    decreases |events|
  {
    PathIsRun(env, path, events);
    if events != [] {
      var n := |events| - 1;
      forall i | 0 <= i < n ensures path[..n + 1][i + 1] == Next(env, path[..n + 1][i], events[..n][i]) {
        assert path[i + 1] == Next(env, path[i], events[i]);
      }
      PathIsOrderly(env, path[..n + 1], events[..n], ctx);
      assert events[n] in events;
    }
  }

  lemma NarrowIsOrderly(env: Env, ctx: string, s: State, events: seq<Event>, s': State)
    requires Narrow(env, ctx, s, events, s')
    ensures Run(env, s, events) == s' && Orderly(env, s, events, ctx, 2)
  {
    var path :| IsPath(env, path, events) && path[0] == s && path[|events|] == s' && AtMostTwo(path, ctx);
    PathIsRun(env, path, events);
    PathIsOrderly(env, path, events, ctx);
  }

  // ----- Emptying a cluster -----

  /** IDs from n on, and token IDs as long, are unused. */
  ghost predicate Fresh(s: State, n: nat) {
    n > 0 && (forall id :: id in s.calls ==> id < n) && (forall tok :: tok in s.issued ==> |tok| < n)
  }

  ghost function Token(n: nat): (tok: string)
    ensures |tok| == n
  {
    seq(n, _ => 'a')
  }

  ghost predicate Configured(env: Env, ctx: string) {
    env.enabled && env.ttl >= 0 && ClusterFor(env, ctx) == Some(ctx)
  }

  /** Nodes belong to no namespace. */
  ghost predicate ClusterScoped(c: Cluster) {
    forall k :: k in SchedulableReady(c) ==> k.namespace == ""
  }

  lemma NodeIsThere(env: Env, s: State, name: string, ctx: string)
    requires Configured(env, ctx) && ctx in s.world && NodeKey(name) in SchedulableReady(s.world[ctx])
    requires |SchedulableReady(s.world[ctx])| >= 2
    ensures CanCordon(env, s, name, ctx)
  {
  }

  lemma ConfirmedNext(env: Env, s: State, n: nat, name: string, ctx: string)
    returns (events: seq<Event>, s': State)
    requires Configured(env, ctx) && CanCordon(env, s, name, ctx) && Fresh(s, n)
    ensures Leads(env, {n, n + 1}, s, events, s') && Fresh(s', n + 2) && s'.world == s.world
    ensures s'.calls.Keys == s.calls.Keys + {n, n + 1} && forall k :: k in s.calls ==> s'.calls[k] == s.calls[k]
    ensures s'.calls[n].pc.Done? && Ready(env, s', n + 1, name, ctx)
  {
    assert Token(n) !in s.issued && n !in s.calls && n + 1 !in s.calls;
    events, s' := ConfirmedAlone(env, s, n, n + 1, name, ctx, Token(n));
  }

  lemma ConfirmedFresh(env: Env, s: State, n: nat, name: string, ctx: string)
    returns (events: seq<Event>, s': State)
    requires Configured(env, ctx) && CanCordon(env, s, name, ctx) && Fresh(s, n) && WindowIds(s, ctx) == {}
    ensures Narrow(env, ctx, s, events, s') && Fresh(s', n + 2) && s'.world == s.world
    ensures forall k :: k in s.calls ==> k in s'.calls && s'.calls[k] == s.calls[k]
    ensures Ready(env, s', n + 1, name, ctx) && WindowIds(s', ctx) == {}
  {
    events, s' := ConfirmedNext(env, s, n, name, ctx);
    TwoAreFew(env, n, n + 1, ctx, s, events, s');
    StillNone(s, s', n, n + 1, ctx);
  }

  /** No call is in the window if none was and these two are not. */
  lemma StillNone(s: State, s': State, i: nat, j: nat, ctx: string)
    requires WindowIds(s, ctx) == {}
    requires forall k :: k in s'.calls && k != i && k != j ==> k in s.calls && s'.calls[k] == s.calls[k]
    requires i in s'.calls ==> !InWindow(s'.calls[i], ctx)
    requires j in s'.calls ==> !InWindow(s'.calls[j], ctx)
    ensures WindowIds(s', ctx) == {}
  {
    forall k | k in s'.calls ensures !InWindow(s'.calls[k], ctx) {
      if k != i && k != j {
        assert k !in WindowIds(s, ctx);
      }
    }
  }

  lemma FreshStays(s: State, s': State, n: nat)
    requires Fresh(s, n) && s'.issued == s.issued && s'.calls.Keys == s.calls.Keys
    ensures Fresh(s', n)
  {
  }

  /** From its re-read on, one call alone. */
  lemma FinishedAlone(env: Env, s: State, id: nat, name: string, ctx: string)
    returns (events: seq<Event>, s': State)
    requires Ready(env, s, id, name, ctx)
    ensures Leads(env, {id}, s, events, s') && ctx in s'.world && s'.issued == s.issued
    ensures id in s'.calls && s'.calls[id].pc.Done? && s'.calls == s.calls[id := s'.calls[id]]
    ensures SchedulableReady(s'.world[ctx]) == SchedulableReady(s.world[ctx]) - {NodeKey(name)}
  {
    var e1, s1 := RereadAlone(env, s, id, name, ctx);
    var e2;
    e2, s' := WriteAlone(env, s1, id, name, ctx);
    Glue(env, {id}, s, e1, s1, e2, s');
    events := e1 + e2;
  }

  lemma FinishedFresh(env: Env, s: State, n: nat, id: nat, name: string, ctx: string)
    returns (events: seq<Event>, s': State)
    requires Ready(env, s, id, name, ctx) && Fresh(s, n) && WindowIds(s, ctx) == {}
    ensures Narrow(env, ctx, s, events, s') && Fresh(s', n) && ctx in s'.world && WindowIds(s', ctx) == {}
    ensures SchedulableReady(s'.world[ctx]) == SchedulableReady(s.world[ctx]) - {NodeKey(name)}
  {
    events, s' := FinishedAlone(env, s, id, name, ctx);
    FreshStays(s, s', n);
    Widen(env, {id}, {id, id}, s, events, s');
    TwoAreFew(env, id, id, ctx, s, events, s');
    StillNone(s, s', id, id, ctx);
  }

  /** Of two or more nodes one can be cordoned. */
  lemma CordonAlone(env: Env, s: State, n: nat, name: string, ctx: string)
    returns (events: seq<Event>, s': State)
    requires Configured(env, ctx) && CanCordon(env, s, name, ctx) && Fresh(s, n) && WindowIds(s, ctx) == {}
    ensures Narrow(env, ctx, s, events, s') && Fresh(s', n + 2) && ctx in s'.world && WindowIds(s', ctx) == {}
    ensures SchedulableReady(s'.world[ctx]) == SchedulableReady(s.world[ctx]) - {NodeKey(name)}
  {
    var e1, s1 := ConfirmedFresh(env, s, n, name, ctx);
    var e2;
    e2, s' := FinishedFresh(env, s1, n + 2, n + 1, name, ctx);
    NarrowTogether(env, ctx, s, e1, s1, e2, s');
    events := e1 + e2;
  }

  /** All but two can be cordoned one after the other. */
  lemma CordonDown(env: Env, s: State, n: nat, ctx: string, a: string, b: string)
    returns (events: seq<Event>, s': State, n': nat)
    requires Configured(env, ctx) && Fresh(s, n) && ctx in s.world && ClusterScoped(s.world[ctx]) && a != b
    requires WindowIds(s, ctx) == {}
    requires {NodeKey(a), NodeKey(b)} <= SchedulableReady(s.world[ctx])
    ensures Narrow(env, ctx, s, events, s') && Fresh(s', n') && ctx in s'.world && WindowIds(s', ctx) == {}
    ensures SchedulableReady(s'.world[ctx]) == {NodeKey(a), NodeKey(b)}
    decreases |SchedulableReady(s.world[ctx])|
  {
    var all := SchedulableReady(s.world[ctx]);
    if all == {NodeKey(a), NodeKey(b)} {
      events, s', n' := [], s, n;
      NoSteps(env, ctx, s);
    } else {
      assert all - {NodeKey(a), NodeKey(b)} != {};
      var k :| k in all - {NodeKey(a), NodeKey(b)};
      TwoAtLeast(all, NodeKey(a), NodeKey(b));
      NodeIsThere(env, s, k.name, ctx);
      var e1, s1 := CordonAlone(env, s, n, k.name, ctx);
      FewerLeft(all, SchedulableReady(s1.world[ctx]), k);
      var e2;
      e2, s', n' := CordonDown(env, s1, n + 2, ctx, a, b);
      NarrowTogether(env, ctx, s, e1, s1, e2, s');
      events := e1 + e2;
    }
  }

  lemma NoSteps(env: Env, ctx: string, s: State)
    requires WindowIds(s, ctx) == {}
    ensures Narrow(env, ctx, s, [], s)
  {
    assert IsPath(env, [s], []) && AtMostTwo([s], ctx);
  }

  lemma TwoAtLeast<T>(all: set<T>, x: T, y: T)
    requires x in all && y in all && x != y
    ensures |all| >= 2
  {
    assert {x, y} <= all;
    assert |all - {x, y}| == |all| - 2;
  }

  lemma FewerLeft<T>(all: set<T>, left: set<T>, x: T)
    requires x in all && left == all - {x}
    ensures |left| == |all| - 1
  {
  }

  ghost predicate Cordoned(s: State, id: nat, name: string) {
    id in s.calls && s.calls[id].req == CordonOf(name) && s.calls[id].pc == Done(Succeeded)
  }

  /** Two nodes are left, and both are cordoned: each call re-reads and rechecks
      before either writes. */
  lemma LastTwo(env: Env, s: State, n: nat, ctx: string, a: string, b: string)
    returns (events: seq<Event>, s': State)
    requires Configured(env, ctx) && Fresh(s, n) && ctx in s.world && a != b && WindowIds(s, ctx) == {}
    requires SchedulableReady(s.world[ctx]) == {NodeKey(a), NodeKey(b)}
    ensures Narrow(env, ctx, s, events, s')
    ensures ctx in s'.world && SchedulableReady(s'.world[ctx]) == {}
    ensures Cordoned(s', n + 1, a) && Cordoned(s', n + 3, b)
  {
    NodeIsThere(env, s, a, ctx);
    NodeIsThere(env, s, b, ctx);
    var e1, s1 := ConfirmedFresh(env, s, n, a, ctx);
    var e2, s2 := ConfirmedFresh(env, s1, n + 2, b, ctx);
    var e3;
    e3, s' := BothFinish(env, s2, n + 1, n + 3, ctx, a, b);
    TwoAreFew(env, n + 1, n + 3, ctx, s2, e3, s');
    NarrowTogether(env, ctx, s, e1, s1, e2, s2);
    NarrowTogether(env, ctx, s, e1 + e2, s2, e3, s');
    events := e1 + e2 + e3;
  }

  lemma BothReread(env: Env, s: State, i: nat, j: nat, ctx: string, a: string, b: string)
    returns (events: seq<Event>, s': State)
    requires Ready(env, s, i, a, ctx) && Ready(env, s, j, b, ctx) && i != j
    ensures Leads(env, {i, j}, s, events, s') && s'.world == s.world
    ensures AboutToWrite(s', i, a, ctx) && AboutToWrite(s', j, b, ctx)
  {
    var e1, s1 := RereadAlone(env, s, i, a, ctx);
    var e2;
    e2, s' := RereadAlone(env, s1, j, b, ctx);
    Widen(env, {i}, {i, j}, s, e1, s1);
    Widen(env, {j}, {i, j}, s1, e2, s');
    Glue(env, {i, j}, s, e1, s1, e2, s');
    events := e1 + e2;
  }

  lemma BothWrite(env: Env, s: State, i: nat, j: nat, ctx: string, a: string, b: string)
    returns (events: seq<Event>, s': State)
    requires AboutToWrite(s, i, a, ctx) && AboutToWrite(s, j, b, ctx) && i != j
    requires ctx in s.world && SchedulableReady(s.world[ctx]) == {NodeKey(a), NodeKey(b)}
    ensures Leads(env, {i, j}, s, events, s')
    ensures ctx in s'.world && SchedulableReady(s'.world[ctx]) == {}
    ensures Cordoned(s', i, a) && Cordoned(s', j, b)
  {
    assert NodeKey(a) in SchedulableReady(s.world[ctx]) && NodeKey(b) in SchedulableReady(s.world[ctx]);
    var e1, s1 := WriteAlone(env, s, i, a, ctx);
    var e2;
    e2, s' := WriteAlone(env, s1, j, b, ctx);
    Widen(env, {i}, {i, j}, s, e1, s1);
    Widen(env, {j}, {i, j}, s1, e2, s');
    Glue(env, {i, j}, s, e1, s1, e2, s');
    events := e1 + e2;
  }

  lemma BothFinish(env: Env, s: State, i: nat, j: nat, ctx: string, a: string, b: string)
    returns (events: seq<Event>, s': State)
    requires Ready(env, s, i, a, ctx) && Ready(env, s, j, b, ctx) && i != j
    requires SchedulableReady(s.world[ctx]) == {NodeKey(a), NodeKey(b)}
    ensures Leads(env, {i, j}, s, events, s')
    ensures ctx in s'.world && SchedulableReady(s'.world[ctx]) == {}
    ensures Cordoned(s', i, a) && Cordoned(s', j, b)
  {
    var e1, s1 := BothReread(env, s, i, j, ctx, a, b);
    var e2;
    e2, s' := BothWrite(env, s1, i, j, ctx, a, b);
    Glue(env, {i, j}, s, e1, s1, e2, s');
    events := e1 + e2;
  }

  /** From any start with two or more schedulable Ready nodes there is a run of
      confirmed calls, with no outside change, no time passing and never more than
      two cordons between re-read and write, that leaves no schedulable Ready node;
      the last two are taken by two cordons that both report success. */
  lemma OverlappingCordonsEmptyTheCluster(env: Env, now: int, world: World, ctx: string)
    returns (events: seq<Event>)
    requires Configured(env, ctx) && ctx in world && ClusterScoped(world[ctx])
    requires |SchedulableReady(world[ctx])| >= 2
    ensures forall e :: e in events ==> !e.ClusterChanges? && !e.Tick?
    ensures Orderly(env, Start(now, world), events, ctx, 2)
    ensures var s := Run(env, Start(now, world), events);
            && ctx in s.world && SchedulableReady(s.world[ctx]) == {}
            && exists i: nat, j: nat, a, b :: i != j && a != b && Cordoned(s, i, a) && Cordoned(s, j, b)
  {
    var all, s0 := SchedulableReady(world[ctx]), Start(now, world);
    assert all != {};
    var x :| x in all;
    FewerLeft(all, all - {x}, x);
    assert all - {x} != {};
    var y :| y in all - {x};
    var a, b := x.name, y.name;
    assert x == NodeKey(a) && y == NodeKey(b);
    var e1, s1, n := CordonDown(env, s0, 1, ctx, a, b);
    var e2, s := LastTwo(env, s1, n, ctx, a, b);
    NarrowTogether(env, ctx, s0, e1, s1, e2, s);
    events := e1 + e2;
    NarrowIsOrderly(env, ctx, s0, events, s);
    assert Cordoned(s, n + 1, a) && Cordoned(s, n + 3, b);
  }

  ghost predicate KeepsANode(env: Env, s: State, events: seq<Event>, ctx: string) {
    var s' := Run(env, s, events);
    ctx in s'.world && SchedulableReady(s'.world[ctx]) != {}
  }

  /** From a start with two or more schedulable Ready nodes, one remains in every
      run without outside loss that has at most k cordons between re-read and write
      at once, if and only if k is at most one. */
  lemma FloorExactly(env: Env, now: int, world: World, ctx: string, k: nat)
    requires Configured(env, ctx) && ctx in world && ClusterScoped(world[ctx])
    requires |SchedulableReady(world[ctx])| >= 2
    ensures (forall events :: Orderly(env, Start(now, world), events, ctx, k) ==>
                                KeepsANode(env, Start(now, world), events, ctx)) <==> k <= 1
  {
    if k <= 1 {
      forall events | Orderly(env, Start(now, world), events, ctx, k)
        ensures KeepsANode(env, Start(now, world), events, ctx)
      {
        OrderlyToo(env, Start(now, world), events, ctx, k, 1);
        ANodeAlwaysRemains(env, now, world, events, ctx);
      }
    } else {
      var events := OverlappingCordonsEmptyTheCluster(env, now, world, ctx);
      OrderlyToo(env, Start(now, world), events, ctx, 2, k);
      assert !KeepsANode(env, Start(now, world), events, ctx);
    }
  }
}
