/** The last schedulable node: when whole runs keep one, and the run that does
    not (internal/action/engine.go, Cordon). */
module CordonFloor {
  import opened Confirmation
  import opened SafeActions
  import SafeActionsSafety

  // ----- What a cordon does to a cluster -----

  lemma CordonTakesOneAway(key: Key, c: Cluster, name: string)
    requires key in c.objects
    ensures SchedulableReady(Effect(SetCordon(name, true), key, c)) == SchedulableReady(c) - {key}
    ensures SchedulableReady(c) <= SchedulableReady(Effect(SetCordon(name, false), key, c))
  {
  }

  lemma OthersTakeNoneAway(req: Request, key: Key, c: Cluster)
    requires key in c.objects && (key.kind != Node || (req.SetCordon? && !req.cordon))
    ensures SchedulableReady(c) <= SchedulableReady(Effect(req, key, c))
  {
  }

  // ----- The floor -----

  /** The call has re-read its node and not yet written. */
  ghost predicate InWindow(call: Call, ctx: string) {
    call.req.SetCordon? && call.req.cordon && (call.pc.ReCheck? || call.pc.Write?) && call.pc.ctx == ctx
  }

  /** At most one cordon of this cluster is between its re-read and its write. */
  ghost predicate Exclusive(s: State, ctx: string) {
    forall i, j :: i in s.calls && j in s.calls && InWindow(s.calls[i], ctx) && InWindow(s.calls[j], ctx) ==> i == j
  }

  /** The cordons of this cluster that are between their re-read and their write. */
  ghost function WindowIds(s: State, ctx: string): set<nat> {
    set id | id in s.calls && InWindow(s.calls[id], ctx)
  }

  lemma ExclusiveExactly(s: State, ctx: string)
    ensures Exclusive(s, ctx) <==> |WindowIds(s, ctx)| <= 1
  {
    var w := WindowIds(s, ctx);
    if |w| > 1 {
      var i :| i in w;
      assert |w - {i}| == |w| - 1;
      var j :| j in w - {i};
      assert !Exclusive(s, ctx);
    } else {
      forall i, j | i in s.calls && j in s.calls && InWindow(s.calls[i], ctx) && InWindow(s.calls[j], ctx)
        ensures i == j
      {
        assert i in w && j in w;
        OnlyElement(w, i, j);
      }
    }
  }

  lemma OnlyElement<T>(w: set<T>, i: T, j: T)
    requires i in w && j in w && |w| <= 1
    ensures i == j
  {
    assert |w - {i}| == |w| - 1;
    assert j !in w - {i};
  }

  /** Nothing outside the engine takes a node out of service. */
  ghost predicate Calm(s: State, e: Event, ctx: string) {
    e.ClusterChanges? && e.ctx == ctx && ctx in s.world ==>
      SchedulableReady(s.world[ctx]) <= SchedulableReady(e.cluster)
  }

  /** At no time are more than k cordons of the cluster between re-read and write,
      and nothing outside takes a node away. */
  ghost predicate Orderly(env: Env, s: State, events: seq<Event>, ctx: string, k: nat) {
    && |WindowIds(Run(env, s, events), ctx)| <= k
    && (events != [] ==>
          var before := events[..|events| - 1];
          Orderly(env, s, before, ctx, k) && Calm(Run(env, s, before), events[|events| - 1], ctx))
  }

  lemma {:induction false} OrderlyToo(env: Env, s: State, events: seq<Event>, ctx: string, k: nat, more: nat)
    requires Orderly(env, s, events, ctx, k) && k <= more
    ensures Orderly(env, s, events, ctx, more)
  {
    if events != [] {
      OrderlyToo(env, s, events[..|events| - 1], ctx, k, more);
    }
  }

  /** A node other than the one the call is about to cordon will remain. */
  ghost predicate Spared(env: Env, c: Cluster, call: Call) {
    && (call.pc.ReCheck? && !Takes(call.pc.live) ==> SchedulableReady(c) - {KeyOf(env, call.req)} != {})
    && (call.pc.Write? ==> SchedulableReady(c) - {KeyOf(env, call.req)} != {})
  }

  ghost predicate Floor(env: Env, s: State, ctx: string) {
    && ctx in s.world && SchedulableReady(s.world[ctx]) != {}
    && forall id {:trigger Spared(env, s.world[ctx], s.calls[id])} ::
         id in s.calls && InWindow(s.calls[id], ctx) ==> Spared(env, s.world[ctx], s.calls[id])
  }

  lemma SparedLater(env: Env, c: Cluster, c': Cluster, call: Call)
    requires Spared(env, c, call) && SchedulableReady(c) <= SchedulableReady(c')
    ensures Spared(env, c', call)
  {
    var k := KeyOf(env, call.req);
    assert SchedulableReady(c) - {k} <= SchedulableReady(c') - {k};
  }

  /** An event that takes no node away and after which the one call it moved, if
      it is in the window, is spared. */
  lemma GentleKeepsFloor(env: Env, s: State, s': State, ctx: string, id: nat)
    requires Floor(env, s, ctx)
    requires ctx in s'.world && SchedulableReady(s.world[ctx]) <= SchedulableReady(s'.world[ctx])
    requires forall k :: k in s'.calls && k != id ==> k in s.calls && s'.calls[k] == s.calls[k]
    requires id in s'.calls && InWindow(s'.calls[id], ctx) ==> Spared(env, s.world[ctx], s'.calls[id])
    ensures Floor(env, s', ctx)
  {
    forall k | k in s'.calls && InWindow(s'.calls[k], ctx) ensures Spared(env, s'.world[ctx], s'.calls[k]) {
      if k != id {
        assert Spared(env, s.world[ctx], s.calls[k]);
      }
      SparedLater(env, s.world[ctx], s'.world[ctx], s'.calls[k]);
    }
  }

  lemma LocalStepSpares(env: Env, s: State, call: Call, ch: Choice, ctx: string)
    requires ctx in s.world && SchedulableReady(s.world[ctx]) != {}
    requires call.pc.ReGet? || call.pc.ReCheck?
    requires InWindow(call, ctx) ==> Spared(env, s.world[ctx], call)
    requires InWindow(LocalStep(env, s, call, ch), ctx)
    ensures Spared(env, s.world[ctx], LocalStep(env, s, call, ch))
  {
    if call.pc.ReGet? {
      ReGetSpares(env, s, call, ch, ctx);
    } else {
      ReCheckSpares(env, s, call, ch, ctx);
    }
  }

  lemma ReGetSpares(env: Env, s: State, call: Call, ch: Choice, ctx: string)
    requires ctx in s.world && SchedulableReady(s.world[ctx]) != {}
    requires call.pc.ReGet? && InWindow(LocalStep(env, s, call, ch), ctx)
    ensures Spared(env, s.world[ctx], LocalStep(env, s, call, ch))
  {
    var all, k := SchedulableReady(s.world[ctx]), KeyOf(env, call.req);
    if !Takes(LocalStep(env, s, call, ch).pc.live) {
      assert all - {k} == all;
    }
  }

  lemma ReCheckSpares(env: Env, s: State, call: Call, ch: Choice, ctx: string)
    requires ctx in s.world && SchedulableReady(s.world[ctx]) != {}
    requires call.pc.ReCheck? && InWindow(call, ctx) && Spared(env, s.world[ctx], call)
    requires InWindow(LocalStep(env, s, call, ch), ctx)
    ensures Spared(env, s.world[ctx], LocalStep(env, s, call, ch))
  {
    var all, k := SchedulableReady(s.world[ctx]), KeyOf(env, call.req);
    if all - {k} == {} {
      assert all <= {k};
      AtMostOne(all, k);
    }
  }

  lemma AtMostOne(s: set<Key>, k: Key)
    requires s <= {k}
    ensures |s| <= 1
  {
    if s != {} {
      assert s == {k};
    }
  }

  lemma WriteKeepsFloor(env: Env, s: State, id: nat, ch: Choice, ctx: string)
    requires Floor(env, s, ctx) && Exclusive(s, ctx)
    requires id in s.calls && s.calls[id].pc.Write? && ValidArguments(env, s.calls[id].req)
    ensures Floor(env, WriteStep(env, s, id, s.calls[id], ch), ctx)
  {
    var s' := WriteStep(env, s, id, s.calls[id], ch);
    var req, key := s.calls[id].req, KeyOf(env, s.calls[id].req);
    if s'.world == s.world || s.calls[id].pc.ctx != ctx {
      GentleKeepsFloor(env, s, s', ctx, id);
    } else if req.SetCordon? && req.cordon {
      assert InWindow(s.calls[id], ctx);
      assert Spared(env, s.world[ctx], s.calls[id]);
      CordonTakesOneAway(key, s.world[ctx], req.name);
    } else {
      OthersTakeNoneAway(req, key, s.world[ctx]);
      GentleKeepsFloor(env, s, s', ctx, id);
    }
  }

  /** Only a re-read or a recheck leads into the window. */
  lemma EntersWindow(env: Env, s: State, call: Call, ch: Choice, ctx: string)
    requires !call.pc.Done? && !call.pc.Confirm? && !call.pc.Write?
    requires call.pc.ReCheckV1? ==> call.req.Scale?
    requires InWindow(LocalStep(env, s, call, ch), ctx)
    ensures call.pc.ReGet? || call.pc.ReCheck?
    ensures LocalStep(env, s, call, ch).req == call.req
    ensures call.pc.ReCheck? ==> InWindow(call, ctx)
  {
  }

  lemma LocalKeepsFloor(env: Env, s: State, id: nat, ch: Choice, ctx: string)
    requires Floor(env, s, ctx)
    requires id in s.calls && !s.calls[id].pc.Done? && !s.calls[id].pc.Confirm? && !s.calls[id].pc.Write?
    requires s.calls[id].pc.ReCheckV1? ==> s.calls[id].req.Scale?
    ensures Floor(env, s.(calls := s.calls[id := LocalStep(env, s, s.calls[id], ch)]), ctx)
  {
    var call' := LocalStep(env, s, s.calls[id], ch);
    if InWindow(call', ctx) {
      EntersWindow(env, s, s.calls[id], ch, ctx);
      assert InWindow(s.calls[id], ctx) ==> Spared(env, s.world[ctx], s.calls[id]);
      LocalStepSpares(env, s, s.calls[id], ch, ctx);
    }
    GentleKeepsFloor(env, s, s.(calls := s.calls[id := call']), ctx, id);
  }

  lemma ConfirmKeepsFloor(env: Env, s: State, id: nat, ch: Choice, ctx: string)
    requires Floor(env, s, ctx) && id in s.calls && s.calls[id].pc.Confirm?
    ensures Floor(env, ConfirmStep(env, s, id, s.calls[id], ch), ctx)
  {
    ConfirmOnlyConfirms(env, s, id, ch);
    GentleKeepsFloor(env, s, ConfirmStep(env, s, id, s.calls[id], ch), ctx, id);
  }

  lemma ValidAndV1(env: Env, s: State, id: nat)
    requires SafeActionsSafety.CallsOk(env, s) && id in s.calls
    ensures s.calls[id].pc.Write? ==> ValidArguments(env, s.calls[id].req)
    ensures s.calls[id].pc.ReCheckV1? ==> s.calls[id].req.Scale?
  {
    assert SafeActionsSafety.CallOk(env, s.hist, s.issued, s.taken, id, s.calls[id]);
  }

  lemma StepKeepsFloor(env: Env, s: State, id: nat, ch: Choice, ctx: string)
    requires Floor(env, s, ctx) && Exclusive(s, ctx)
    requires SafeActionsSafety.CallsOk(env, s)
    ensures Floor(env, CallStep(env, s, id, ch), ctx)
  {
    if id in s.calls {
      ValidAndV1(env, s, id);
      if s.calls[id].pc.Confirm? {
        ConfirmKeepsFloor(env, s, id, ch, ctx);
      } else if s.calls[id].pc.Write? {
        WriteKeepsFloor(env, s, id, ch, ctx);
      } else if !s.calls[id].pc.Done? {
        LocalKeepsFloor(env, s, id, ch, ctx);
      }
    }
  }

  lemma NextKeepsFloor(env: Env, s: State, e: Event, ctx: string)
    requires Floor(env, s, ctx) && Exclusive(s, ctx) && Calm(s, e, ctx)
    requires SafeActionsSafety.CallsOk(env, s)
    ensures Floor(env, Next(env, s, e), ctx)
  {
    match e
    case Step(id, ch) =>
      StepKeepsFloor(env, s, id, ch, ctx);
      GentleKeepsFloor(env, CallStep(env, s, id, ch), Next(env, s, e), ctx, id) by {
        if id in Next(env, s, e).calls && InWindow(Next(env, s, e).calls[id], ctx) {
          assert Spared(env, CallStep(env, s, id, ch).world[ctx], CallStep(env, s, id, ch).calls[id]);
        }
      }
    case Arrive(id, _, _, _) =>
      if id in s.calls && InWindow(s.calls[id], ctx) {
        assert Spared(env, s.world[ctx], s.calls[id]);
      }
      GentleKeepsFloor(env, s, Next(env, s, e), ctx, id);
    case ClusterChanges(_, _) => SameCallsKeepFloor(env, s, Next(env, s, e), ctx);
    case Tick(_) => SameCallsKeepFloor(env, s, Next(env, s, e), ctx);
  }

  lemma SameCallsKeepFloor(env: Env, s: State, s': State, ctx: string)
    requires Floor(env, s, ctx) && s'.calls == s.calls
    requires ctx in s'.world && SchedulableReady(s.world[ctx]) <= SchedulableReady(s'.world[ctx])
    ensures Floor(env, s', ctx)
  {
    if 0 in s.calls && InWindow(s.calls[0], ctx) {
      assert Spared(env, s.world[ctx], s.calls[0]);
    }
    GentleKeepsFloor(env, s, s', ctx, 0);
  }

  lemma {:induction false} FloorAlways(env: Env, now: int, world: World, events: seq<Event>, ctx: string)
    requires ctx in world && SchedulableReady(world[ctx]) != {}
    requires Orderly(env, Start(now, world), events, ctx, 1)
    ensures Floor(env, Run(env, Start(now, world), events), ctx)
  {
    if events != [] {
      var before := events[..|events| - 1];
      FloorAlways(env, now, world, before, ctx);
      SafeActionsSafety.InvAlways(env, now, world, before);
      WindowBefore(env, Start(now, world), before, ctx);
      ExclusiveExactly(Run(env, Start(now, world), before), ctx);
      NextKeepsFloor(env, Run(env, Start(now, world), before), events[|events| - 1], ctx);
    }
  }

  lemma WindowBefore(env: Env, s: State, events: seq<Event>, ctx: string)
    requires Orderly(env, s, events, ctx, 1)
    ensures |WindowIds(Run(env, s, events), ctx)| <= 1
  {
  }

  /** Starting with a schedulable Ready node, a run in which no two cordons of the
      cluster overlap between re-read and write, and in which nothing else takes a
      node away, always leaves one, however uncordons and other calls interleave. */
  lemma ANodeAlwaysRemains(env: Env, now: int, world: World, events: seq<Event>, ctx: string)
    requires ctx in world && SchedulableReady(world[ctx]) != {}
    requires Orderly(env, Start(now, world), events, ctx, 1)
    ensures var s := Run(env, Start(now, world), events);
            ctx in s.world && SchedulableReady(s.world[ctx]) != {}
  {
    FloorAlways(env, now, world, events, ctx);
  }
}
