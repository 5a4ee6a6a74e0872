/** Writes go by name: when a write reaches the object its call was planned for, and
    the run in which it reaches another one (internal/action/engine.go). */
module Recreation {
  import opened Wrappers
  import opened SafeActions
  import opened SafeActionsSafety
  import opened WriteEffects
  import opened CordonOverlap

  // ----- A run by its states -----

  lemma {:induction false} RunIsPath(env: Env, s: State, events: seq<Event>) returns (path: seq<State>)
    ensures IsPath(env, path, events) && path[0] == s && path[|events|] == Run(env, s, events)
  {
    if events == [] {
      path := [s];
    } else {
      var n := |events| - 1;
      var most := RunIsPath(env, s, events[..n]);
      path := most + [Next(env, most[n], events[n])];
      OneMoreState(env, most, events);
    }
  }

  lemma OneMoreState(env: Env, path: seq<State>, events: seq<Event>)
    requires events != [] && IsPath(env, path, events[..|events| - 1])
    ensures IsPath(env, path + [Next(env, path[|events| - 1], events[|events| - 1])], events)
  {
    var n := |events| - 1;
    var path' := path + [Next(env, path[n], events[n])];
    forall i | 0 <= i < |events| ensures path'[i + 1] == Next(env, path'[i], events[i]) {
      if i < n {
        assert path[i + 1] == Next(env, path[i], events[..n][i]);
      }
    }
  }

  /** The history is what the clusters were at each state before. */
  lemma {:induction false} HistoryOnPath(env: Env, path: seq<State>, events: seq<Event>, j: nat, k: nat)
    requires IsPath(env, path, events) && path[0].hist == [] && j <= |events|
    ensures |path[j].hist| == j && (k < j ==> path[j].hist[k] == path[k].world)
  {
    if j > 0 {
      HistoryOnPath(env, path, events, j - 1, k);
      assert path[j - 1 + 1] == Next(env, path[j - 1], events[j - 1]);
    }
  }

  // ----- Without outside changes -----

  /** The object, if it is there, has this UID. */
  ghost predicate StillIs(w: World, ctx: string, key: Key, uid: string) {
    ctx in w && (key in w[ctx].objects ==> w[ctx].objects[key].uid == uid)
  }

  lemma EventKeepsUid(env: Env, s: State, e: Event, ctx: string, key: Key, uid: string)
    requires StillIs(s.world, ctx, key, uid) && Inside(e, ctx)
    ensures StillIs(Next(env, s, e).world, ctx, key, uid)
  {
    EventEffect(env, s, e, ctx);
    var s' := Next(env, s, e);
    if s'.world[ctx] != s.world[ctx] {
      AppliedKeepsUid(env, s.world, s'.world, s'.sent[|s.sent|], ctx, key, uid);
    }
  }

  lemma AppliedKeepsUid(env: Env, w: World, w': World, m: Mutation, ctx: string, key: Key, uid: string)
    requires StillIs(w, ctx, key, uid) && Applied(env, w, w', m)
    ensures StillIs(w', ctx, key, uid)
  {
    if m.ctx == ctx && key != KeyOf(env, m.req) {
      assert SameAt(w[ctx], w'[ctx], key);
    }
  }

  lemma {:induction false} UidStays(env: Env, path: seq<State>, events: seq<Event>, ctx: string, key: Key, uid: string,
                                    lo: nat, hi: nat)
    requires IsPath(env, path, events)
    requires lo <= hi <= |events| && forall k :: lo <= k < hi ==> Inside(events[k], ctx)
    requires StillIs(path[lo].world, ctx, key, uid)
    ensures StillIs(path[hi].world, ctx, key, uid)
    decreases hi
  {
    if lo < hi {
      UidStays(env, path, events, ctx, key, uid, lo, hi - 1);
      assert path[hi - 1 + 1] == Next(env, path[hi - 1], events[hi - 1]);
      EventKeepsUid(env, path[hi - 1], events[hi - 1], ctx, key, uid);
    }
  }

  /** Nothing outside the engine changes the cluster between the call's re-read and
      its write. */
  ghost predicate Undisturbed(events: seq<Event>, m: Mutation) {
    forall k :: m.seen.getAt <= k < m.at && k < |events| ==> Inside(events[k], m.ctx)
  }

  /** At its re-read the call saw the UID its token was issued for. */
  lemma SawThePlanned(env: Env, s: State, m: Mutation)
    requires Inv(env, s) && m in s.sent
    ensures Backed(env, s, m) && m.seen.getAt < m.at < |s.hist|
    ensures Existed(env, s.hist, m.req, m.ctx, m.seen.getAt)
    ensures TargetAt(env, s.hist, m.req, m.ctx, m.seen.getAt).uid == s.issued[m.token].pending.uid
  {
    OwnTokens(env, s);
    assert SentOk(env, s, m);
  }

  /** An undisturbed write that finds an object at its target finds the one its
      token was issued for, whatever other calls write in between. */
  lemma UndisturbedHitsThePlannedObject(env: Env, now: int, world: World, events: seq<Event>, m: Mutation)
    requires var s := Run(env, Start(now, world), events);
             m in s.sent && Undisturbed(events, m) && Existed(env, s.hist, m.req, m.ctx, m.at)
    ensures var s := Run(env, Start(now, world), events);
            Backed(env, s, m) && TargetAt(env, s.hist, m.req, m.ctx, m.at).uid == s.issued[m.token].pending.uid
  {
    var s := Run(env, Start(now, world), events);
    InvAlways(env, now, world, events);
    SawThePlanned(env, s, m);
    UidAtWrite(env, now, world, events, m, s.issued[m.token].pending.uid);
  }

  lemma UidAtWrite(env: Env, now: int, world: World, events: seq<Event>, m: Mutation, uid: string)
    requires var hist := Run(env, Start(now, world), events).hist;
             && m.seen.getAt < m.at < |hist| && Undisturbed(events, m)
             && Existed(env, hist, m.req, m.ctx, m.seen.getAt) && Existed(env, hist, m.req, m.ctx, m.at)
             && TargetAt(env, hist, m.req, m.ctx, m.seen.getAt).uid == uid
    ensures TargetAt(env, Run(env, Start(now, world), events).hist, m.req, m.ctx, m.at).uid == uid
  {
    var path := RunIsPath(env, Start(now, world), events);
    HistoryOnPath(env, path, events, |events|, m.seen.getAt);
    HistoryOnPath(env, path, events, |events|, m.at);
    UidStays(env, path, events, m.ctx, KeyOf(env, m.req), uid, m.seen.getAt, m.at);
  }

  // ----- With one -----

  lemma RunMore(env: Env, s: State, events: seq<Event>, e: Event)
    ensures Run(env, s, events + [e]) == Next(env, Run(env, s, events), e)
  {
    assert (events + [e])[..|events|] == events;
  }

  /** The cluster with this node recreated under another UID. */
  ghost function Recreated(c: Cluster, key: Key, uid: string): Cluster
    requires key in c.objects
  {
    c.(objects := c.objects[key := c.objects[key].(uid := uid)])
  }

  lemma RecreatedCountsAlike(c: Cluster, key: Key, uid: string)
    requires key in c.objects
    ensures SchedulableReady(Recreated(c, key, uid)) == SchedulableReady(c)
  {
  }

  /** The token's UID is the one of the node that is about to be re-read. */
  lemma TokenIsForIt(env: Env, s: State, id: nat, name: string, ctx: string)
    requires CallsOk(env, s) && Ready(env, s, id, name, ctx)
    ensures s.calls[id].pc.token in s.issued
    ensures s.issued[s.calls[id].pc.token].pending.uid == NodeOf(s, name, ctx).uid
  {
    assert CallOk(env, s.hist, s.issued, s.taken, id, s.calls[id]);
  }

  ghost function Go(id: nat): Event {
    Step(id, Fine(""))
  }

  /** The re-read, then the recreation, then the recheck. */
  lemma RereadThenRecreated(env: Env, s: State, id: nat, name: string, ctx: string, uid: string) returns (s': State)
    requires Ready(env, s, id, name, ctx)
    ensures var key := NodeKey(name);
            var change := ClusterChanges(ctx, Recreated(s.world[ctx], key, uid));
            && s' == Next(env, Next(env, Next(env, s, Go(id)), change), Go(id))
            && AboutToWrite(s', id, name, ctx) && s'.calls[id].pc.token == s.calls[id].pc.token
            && s'.issued == s.issued && ctx in s'.world && s'.world[ctx] == Recreated(s.world[ctx], key, uid)
  {
    var key := NodeKey(name);
    var s1 := Next(env, s, Go(id));
    ReGetStep(env, s, id, name, ctx);
    var s2 := Next(env, s1, ClusterChanges(ctx, Recreated(s.world[ctx], key, uid)));
    RecreatedCountsAlike(s.world[ctx], key, uid);
    ReCheckStep(env, s2, id, name, ctx);
    s' := Next(env, s2, Go(id));
  }

  lemma WritesTheOther(env: Env, s: State, id: nat, name: string, ctx: string)
    requires AboutToWrite(s, id, name, ctx)
    requires ctx in s.world && NodeKey(name) in s.world[ctx].objects
    ensures var s', key := Next(env, s, Go(id)), NodeKey(name);
            && |s'.sent| == |s.sent| + 1 && s'.issued == s.issued
            && id in s'.calls && s'.calls[id].pc == Done(Succeeded)
            && var m := s'.sent[|s.sent|];
            && m.call == id && m.token == s.calls[id].pc.token && m.ctx == ctx && m.req == CordonOf(name)
            && m.at == |s.hist| && s'.hist == s.hist + [s.world]
            && Existed(env, s'.hist, m.req, ctx, m.at)
            && TargetAt(env, s'.hist, m.req, ctx, m.at) == s.world[ctx].objects[key]
  {
    var s' := Next(env, s, Go(id));
    assert s'.hist[|s.hist|] == s.world;
  }

  /** Write m of the state found an object with this UID, although its token was
      issued for one with another, and its call reports success. */
  ghost predicate HitsAnother(env: Env, s: State, m: Mutation, uid: string) {
    && m in s.sent && Existed(env, s.hist, m.req, m.ctx, m.at)
    && TargetAt(env, s.hist, m.req, m.ctx, m.at).uid == uid
    && m.token in s.issued && s.issued[m.token].pending.uid != uid
    && m.call in s.calls && s.calls[m.call].pc == Done(Succeeded)
  }

  /** The condition is needed: one outside change between re-read and write is
      enough for a confirmed cordon to reach a node that was recreated under any
      other UID, and to report success. */
  lemma RecreatedIsHit(env: Env, now: int, world: World, ctx: string, name: string, uid: string)
    returns (events: seq<Event>, m: Mutation)
    requires Configured(env, ctx) && ctx in world && |SchedulableReady(world[ctx])| >= 2
    requires NodeKey(name) in SchedulableReady(world[ctx])
    requires uid != world[ctx].objects[NodeKey(name)].uid
    ensures HitsAnother(env, Run(env, Start(now, world), events), m, uid)
  {
    var s0, key := Start(now, world), NodeKey(name);
    NodeIsThere(env, s0, name, ctx);
    var e1, s1 := ConfirmedNext(env, s0, 1, name, ctx);
    LeadsIsRun(env, {1, 1 + 1}, s0, e1, s1);
    InvAlways(env, now, world, e1);
    TokenIsForIt(env, s1, 2, name, ctx);
    var s4 := RereadThenRecreated(env, s1, 2, name, ctx, uid);
    WritesTheOther(env, s4, 2, name, ctx);
    var change := ClusterChanges(ctx, Recreated(world[ctx], key, uid));
    RunMore(env, s0, e1, Go(2));
    RunMore(env, s0, e1 + [Go(2)], change);
    RunMore(env, s0, e1 + [Go(2)] + [change], Go(2));
    RunMore(env, s0, e1 + [Go(2)] + [change] + [Go(2)], Go(2));
    events := e1 + [Go(2)] + [change] + [Go(2)] + [Go(2)];
    m := Next(env, s4, Go(2)).sent[|s4.sent|];
    assert m in Next(env, s4, Go(2)).sent;
  }
}
