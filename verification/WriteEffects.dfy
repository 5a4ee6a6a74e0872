/** What the writes of a run do to a cluster, taken together
    (internal/action/engine.go). */
module WriteEffects {
  import opened Confirmation
  import opened SafeActions
  import SafeActionsSafety

  // ----- One event -----

  /** The target was there; afterwards it is gone or has what was asked for, and
      is otherwise as it was. */
  ghost predicate CarriedOut(env: Env, req: Request, before: Cluster, after: Cluster) {
    var k := KeyOf(env, req);
    && k in before.objects
    && (k in after.objects <==> !req.DeletePod?)
    && (k in after.objects ==>
          var o, o' := before.objects[k], after.objects[k];
          && o' == o.(replicas := o'.replicas, unschedulable := o'.unschedulable, restarts := o'.restarts)
          && o'.replicas == (if req.Scale? then req.replicas else o.replicas)
          && o'.unschedulable == (if req.SetCordon? then req.cordon else o.unschedulable)
          && o'.restarts == (if req.Restart? then o.restarts + 1 else o.restarts))
  }

  ghost predicate SameLists(c: Cluster, c': Cluster) {
    c'.pdbs == c.pdbs && c'.hpasV2 == c.hpasV2 && c'.hpasV1 == c.hpasV1
  }

  ghost predicate SameAt(c: Cluster, c': Cluster, k: Key) {
    (k in c.objects <==> k in c'.objects) && (k in c.objects ==> c'.objects[k] == c.objects[k])
  }

  /** The write m was carried out between the two worlds, and nothing else was. */
  ghost predicate Applied(env: Env, w: World, w': World, m: Mutation) {
    && m.ctx in w && m.ctx in w' && w' == w[m.ctx := w'[m.ctx]]
    && CarriedOut(env, m.req, w[m.ctx], w'[m.ctx])
    && SameLists(w[m.ctx], w'[m.ctx])
    && (forall k :: k != KeyOf(env, m.req) ==> SameAt(w[m.ctx], w'[m.ctx], k))
  }

  lemma EffectIsApplied(env: Env, w: World, m: Mutation)
    requires m.ctx in w && KeyOf(env, m.req) in w[m.ctx].objects
    ensures Applied(env, w, w[m.ctx := Effect(m.req, KeyOf(env, m.req), w[m.ctx])], m)
  {
  }

  /** The event is no change from outside to this cluster. */
  ghost predicate Inside(e: Event, ctx: string) {
    !(e.ClusterChanges? && e.ctx == ctx)
  }

  /** What an event does to one cluster: nothing, unless it sends a write there. */
  lemma EventEffect(env: Env, s: State, e: Event, ctx: string)
    requires ctx in s.world && Inside(e, ctx)
    ensures var s' := Next(env, s, e);
            && ctx in s'.world
            && ((s'.sent == s.sent && s'.world[ctx] == s.world[ctx])
                || (e.Step? && e.id in s.calls && s.calls[e.id].pc.Write? && Sends(env, s, s', e.id)))
  {
    if e.Step? && e.id in s.calls && s.calls[e.id].pc.Write? {
      WriteSends(env, s, e.id, e.choice);
    } else {
      OnlyWritesSend(env, s, e);
    }
  }

  /** Call id sends its write, and a success means that it was carried out. */
  ghost predicate Sends(env: Env, s: State, s': State, id: nat) {
    && |s'.sent| == |s.sent| + 1
    && var m := s'.sent[|s.sent|];
    && s'.sent == s.sent + [m] && m.call == id
    && id in s'.calls && id in s.calls && m.req == s.calls[id].req
    && (s'.world == s.world || Applied(env, s.world, s'.world, m))
    && (s'.calls[id].pc == Done(Succeeded) ==> Applied(env, s.world, s'.world, m))
  }

  lemma WriteSends(env: Env, s: State, id: nat, ch: Choice)
    requires id in s.calls && s.calls[id].pc.Write?
    ensures Sends(env, s, Next(env, s, Step(id, ch)), id)
  {
    var call := s.calls[id];
    var m := Mutation(id, call.req, call.pc.ctx, call.pc.token, call.pc.seen, |s.hist|);
    assert Next(env, s, Step(id, ch)).sent == s.sent + [m];
    if call.pc.ctx in s.world && KeyOf(env, call.req) in s.world[call.pc.ctx].objects {
      EffectIsApplied(env, s.world, m);
    }
  }

  // ----- Whole runs -----

  ghost predicate Targets(env: Env, m: Mutation, ctx: string, k: Key) {
    m.ctx == ctx && KeyOf(env, m.req) == k
  }

  /** Without changes from outside, a cluster differs from what it was only where a
      write was sent to, and its budgets and autoscalers not at all. */
  lemma {:induction false} UntargetedStays(env: Env, now: int, world: World, events: seq<Event>, ctx: string, k: Key)
    requires ctx in world && forall e :: e in events ==> Inside(e, ctx)
    ensures var s := Run(env, Start(now, world), events);
            && ctx in s.world && SameLists(world[ctx], s.world[ctx])
            && ((forall m :: m in s.sent ==> !Targets(env, m, ctx, k)) ==> SameAt(world[ctx], s.world[ctx], k))
  {
    if events != [] {
      var before, e := events[..|events| - 1], events[|events| - 1];
      UntargetedStays(env, now, world, before, ctx, k);
      assert e in events;
      UntargetedStep(env, Run(env, Start(now, world), before), e, world[ctx], ctx, k);
    }
  }

  lemma UntargetedStep(env: Env, s: State, e: Event, c: Cluster, ctx: string, k: Key)
    requires ctx in s.world && Inside(e, ctx) && SameLists(c, s.world[ctx])
    requires (forall m :: m in s.sent ==> !Targets(env, m, ctx, k)) ==> SameAt(c, s.world[ctx], k)
    ensures var s' := Next(env, s, e);
            && ctx in s'.world && SameLists(c, s'.world[ctx])
            && ((forall m :: m in s'.sent ==> !Targets(env, m, ctx, k)) ==> SameAt(c, s'.world[ctx], k))
  {
    var s' := Next(env, s, e);
    EventEffect(env, s, e, ctx);
    if s'.sent != s.sent && !Targets(env, s'.sent[|s.sent|], ctx, k) {
      assert SameAt(s.world[ctx], s'.world[ctx], k);
    }
  }

  /** At event i the call's write was carried out, and nothing else happened. */
  ghost predicate CarriedOutAt(env: Env, start: State, events: seq<Event>, id: nat, i: nat) {
    && i < |events|
    && var s, s' := Run(env, start, events[..i]), Run(env, start, events[..i + 1]);
    && id in s.calls && s.calls[id].pc.Write? && Sends(env, s, s', id) && s'.calls[id].pc == Done(Succeeded)
  }

  lemma Prefixes(events: seq<Event>, i: nat)
    requires i < |events|
    ensures i < |events| - 1 ==> events[..|events| - 1][..i] == events[..i]
                                 && events[..|events| - 1][..i + 1] == events[..i + 1]
    ensures i == |events| - 1 ==> events[..i + 1] == events
  {
  }

  /** A call that reports success had its write carried out at one event of the
      run: what it asked for was done to its target, and nothing else. */
  lemma {:induction false} SuccessWasCarriedOut(env: Env, now: int, world: World, events: seq<Event>, id: nat)
    returns (i: nat)
    requires var s := Run(env, Start(now, world), events); id in s.calls && s.calls[id].pc == Done(Succeeded)
    ensures CarriedOutAt(env, Start(now, world), events, id, i)
  {
    var start, last := Start(now, world), |events| - 1;
    var s := Run(env, start, events[..last]);
    SucceedsByWriting(env, s, events[last], id);
    if id in s.calls && s.calls[id].pc == Done(Succeeded) {
      i := SuccessWasCarriedOut(env, now, world, events[..last], id);
      Prefixes(events, i);
    } else {
      i := last;
      Prefixes(events, i);
    }
  }

  lemma OwnStepSucceeds(env: Env, s: State, id: nat, ch: Choice)
    requires id in s.calls && !s.calls[id].pc.Write? && CallStep(env, s, id, ch).calls[id].pc == Done(Succeeded)
    ensures s.calls[id].pc == Done(Succeeded)
  {
    if s.calls[id].pc.Confirm? {
      ConfirmNeverSucceeds(env, s, id, ch);
    } else if !s.calls[id].pc.Done? {
      LocalNeverSucceeds(env, s, s.calls[id], ch);
    }
  }

  lemma ConfirmNeverSucceeds(env: Env, s: State, id: nat, ch: Choice)
    requires id in s.calls && s.calls[id].pc.Confirm?
    ensures ConfirmStep(env, s, id, s.calls[id], ch).calls[id].pc != Done(Succeeded)
  {
  }

  lemma LocalNeverSucceeds(env: Env, s: State, call: Call, ch: Choice)
    requires !call.pc.Done? && !call.pc.Confirm? && !call.pc.Write?
    ensures LocalStep(env, s, call, ch).pc != Done(Succeeded)
  {
  }

  lemma SucceedsByWriting(env: Env, s: State, e: Event, id: nat)
    requires id in Next(env, s, e).calls && Next(env, s, e).calls[id].pc == Done(Succeeded)
    ensures id in s.calls
    ensures s.calls[id].pc == Done(Succeeded) || (s.calls[id].pc.Write? && Sends(env, s, Next(env, s, e), id))
  {
    if e.Step? && e.id == id {
      StepMovesOne(env, s, id, e.choice);
      if s.calls[id].pc.Write? {
        WriteSends(env, s, id, e.choice);
      } else {
        OwnStepSucceeds(env, s, id, e.choice);
      }
    } else {
      OthersStay(env, s, e, id);
    }
  }

  // ----- Restarts add up -----

  ghost predicate RestartOf(env: Env, m: Mutation, ctx: string, k: Key) {
    m.req.Restart? && Targets(env, m, ctx, k)
  }

  /** The restarts of one object that were sent, and those of them that the calls
      report as successful. */
  ghost function Sent(env: Env, sent: seq<Mutation>, ctx: string, k: Key): nat {
    if sent == [] then 0
    else Sent(env, sent[..|sent| - 1], ctx, k) + if RestartOf(env, sent[|sent| - 1], ctx, k) then 1 else 0
  }

  ghost predicate Reported(m: Mutation, calls: map<nat, Call>) {
    m.call in calls && calls[m.call].pc == Done(Succeeded)
  }

  ghost function Successes(env: Env, sent: seq<Mutation>, calls: map<nat, Call>, ctx: string, k: Key): nat {
    if sent == [] then 0
    else
      var m := sent[|sent| - 1];
      Successes(env, sent[..|sent| - 1], calls, ctx, k)
      + if RestartOf(env, m, ctx, k) && Reported(m, calls) then 1 else 0
  }

  lemma {:induction false} SameSuccesses(env: Env, sent: seq<Mutation>, calls: map<nat, Call>, calls': map<nat, Call>,
                                         ctx: string, k: Key)
    requires forall m :: m in sent ==> m.call in calls && m.call in calls' && calls'[m.call] == calls[m.call]
    ensures Successes(env, sent, calls', ctx, k) == Successes(env, sent, calls, ctx, k)
  {
    if sent != [] {
      SameSuccesses(env, sent[..|sent| - 1], calls, calls', ctx, k);
    }
  }

  ghost function RestartsAt(w: World, ctx: string, k: Key): int
    requires ctx in w && k in w[ctx].objects
  {
    w[ctx].objects[k].restarts
  }

  /** The object is there, restarted at least once for every success reported and
      at most once for every restart sent. */
  ghost predicate AddsUp(env: Env, s: State, ctx: string, k: Key, base: int) {
    && ctx in s.world && k in s.world[ctx].objects
    && base + Successes(env, s.sent, s.calls, ctx, k) <= RestartsAt(s.world, ctx, k)
    && RestartsAt(s.world, ctx, k) <= base + Sent(env, s.sent, ctx, k)
  }

  /** Every call that sent a write is done and stays as it is. */
  lemma SendersStay(env: Env, s: State, e: Event)
    requires SafeActionsSafety.Inv(env, s)
    ensures forall m :: m in s.sent ==> m.call in s.calls && m.call in Next(env, s, e).calls
                                        && Next(env, s, e).calls[m.call] == s.calls[m.call]
  {
    forall m | m in s.sent ensures m.call in s.calls && m.call in Next(env, s, e).calls
                                   && Next(env, s, e).calls[m.call] == s.calls[m.call]
    {
      assert SafeActionsSafety.SentOk(env, s, m);
      DoneStays(env, s, e, m.call);
    }
  }

  lemma DoneStays(env: Env, s: State, e: Event, id: nat)
    requires id in s.calls && s.calls[id].pc.Done?
    ensures id in Next(env, s, e).calls && Next(env, s, e).calls[id] == s.calls[id]
  {
    if e.Step? {
      StepMovesOne(env, s, e.id, e.choice);
    }
  }

  lemma AddsUpStep(env: Env, s: State, e: Event, ctx: string, k: Key, base: int)
    requires SafeActionsSafety.Inv(env, s) && AddsUp(env, s, ctx, k, base) && Inside(e, ctx)
    requires k.kind != Pod
    ensures AddsUp(env, Next(env, s, e), ctx, k, base)
  {
    var s' := Next(env, s, e);
    EventEffect(env, s, e, ctx);
    SendersStay(env, s, e);
    SameSuccesses(env, s.sent, s.calls, s'.calls, ctx, k);
    if s'.sent != s.sent {
      WriteAddsUp(env, s, s', e.id, ctx, k, base);
    }
  }

  lemma WriteAddsUp(env: Env, s: State, s': State, id: nat, ctx: string, k: Key, base: int)
    requires Sends(env, s, s', id) && AddsUp(env, s, ctx, k, base) && ctx in s'.world && k.kind != Pod
    requires Successes(env, s.sent, s'.calls, ctx, k) == Successes(env, s.sent, s.calls, ctx, k)
    ensures AddsUp(env, s', ctx, k, base)
  {
    var m := s'.sent[|s.sent|];
    assert s'.sent[..|s.sent|] == s.sent;
    if s'.world != s.world && m.ctx == ctx && KeyOf(env, m.req) != k {
      assert SameAt(s.world[ctx], s'.world[ctx], k);
    }
  }

  /** Without changes from outside, an object that is no pod is restarted at least
      once for every restart of it that a call reports as successful and at most
      once for every one that was sent. */
  lemma {:induction false} RestartsAddUp(env: Env, now: int, world: World, events: seq<Event>, ctx: string, k: Key)
    requires ctx in world && k in world[ctx].objects && k.kind != Pod
    requires forall e :: e in events ==> Inside(e, ctx)
    ensures AddsUp(env, Run(env, Start(now, world), events), ctx, k, RestartsAt(world, ctx, k))
  {
    if events != [] {
      var before, e := events[..|events| - 1], events[|events| - 1];
      RestartsAddUp(env, now, world, before, ctx, k);
      SafeActionsSafety.InvAlways(env, now, world, before);
      assert e in events;
      AddsUpStep(env, Run(env, Start(now, world), before), e, ctx, k, RestartsAt(world, ctx, k));
    }
  }
}
