/** The gates before a token is asked for: no write is sent by a call that did not
    pass every one of them in the same run (internal/action/engine.go). */
module SafeActionsGates {
  import opened SafeActions

  datatype Gate = Access | Target | Category

  predicate AtGate(pc: PC, g: Gate) {
    match g
    case Access => pc.Authorize?
    case Target => pc.PlanGet?
    case Category => pc.PlanInfer?
  }

  /** What a gate demands: an access review that is answered and allows the action; a pod that
      belongs neither to the control plane nor to the node itself; a restart that
      its category makes useful, or that is forced. */
  ghost predicate Demands(env: Env, s: State, call: Call, ch: Choice, g: Gate) {
    match g
    case Access => call.pc.Authorize? && ch.ok && call.pc.ctx in s.world && ch.allowed
    case Target =>
      && call.pc.PlanGet? && ch.ok && call.pc.ctx in s.world
      && KeyOf(env, call.req) in s.world[call.pc.ctx].objects
      && (call.req.DeletePod? ==>
            var o := s.world[call.pc.ctx].objects[KeyOf(env, call.req)];
            !IsControlPlanePod(call.req.namespace, o) && !IsMirrorPod(o))
    case Category =>
      && call.req.Restart?
      && var cat := if call.req.category != "" then call.req.category else ch.category;
      (cat == "" || env.restartUseful(cat) || call.req.force)
  }

  predicate Has(req: Request, g: Gate) {
    g == Category ==> req.Restart?
  }

  /** The call is through this gate and not done. */
  predicate Beyond(call: Call, g: Gate) {
    Has(call.req, g) && !call.pc.Done? && !call.pc.Validate? && !call.pc.Authorize?
    && match g
       case Access => true
       case Target => !call.pc.PlanGet?
       case Category => !call.pc.PlanGet? && !call.pc.PlanInfer?
  }

  /** At event k the call stood at the gate and met its demands. */
  ghost predicate ClearedAt(env: Env, start: State, events: seq<Event>, id: nat, g: Gate, k: nat) {
    && k < |events| && events[k].Step? && events[k].id == id
    && var s := Run(env, start, events[..k]);
    && id in s.calls && AtGate(s.calls[id].pc, g) && Demands(env, s, s.calls[id], events[k].choice, g)
  }

  ghost predicate Cleared(env: Env, start: State, events: seq<Event>, id: nat, g: Gate) {
    exists k: nat :: ClearedAt(env, start, events, id, g, k)
  }

  lemma ClearedLater(env: Env, start: State, events: seq<Event>, id: nat, g: Gate)
    requires events != [] && Cleared(env, start, events[..|events| - 1], id, g)
    ensures Cleared(env, start, events, id, g)
  {
    var k: nat :| ClearedAt(env, start, events[..|events| - 1], id, g, k);
    assert events[..|events| - 1][..k] == events[..k];
    assert ClearedAt(env, start, events, id, g, k);
  }

  /** A step of the call itself leads through a gate only by meeting its demands. */
  lemma LocalStepThroughGate(env: Env, s: State, call: Call, ch: Choice, g: Gate)
    requires !call.pc.Done? && !call.pc.Confirm? && !call.pc.Write?
    requires Beyond(LocalStep(env, s, call, ch), g)
    ensures Beyond(call, g) || (AtGate(call.pc, g) && Demands(env, s, call, ch, g))
  {
  }

  lemma ConfirmThroughGate(env: Env, s: State, id: nat, ch: Choice, g: Gate)
    requires id in s.calls && s.calls[id].pc.Confirm?
    requires Beyond(ConfirmStep(env, s, id, s.calls[id], ch).calls[id], g)
    ensures Beyond(s.calls[id], g)
  {
    ConfirmOnlyConfirms(env, s, id, ch);
  }

  lemma OwnStepThroughGate(env: Env, s: State, id: nat, ch: Choice, g: Gate)
    requires id in s.calls && id in CallStep(env, s, id, ch).calls && Beyond(CallStep(env, s, id, ch).calls[id], g)
    ensures Beyond(s.calls[id], g) || (AtGate(s.calls[id].pc, g) && Demands(env, s, s.calls[id], ch, g))
  {
    if s.calls[id].pc.Confirm? {
      ConfirmThroughGate(env, s, id, ch, g);
    } else if !s.calls[id].pc.Done? && !s.calls[id].pc.Write? {
      LocalStepThroughGate(env, s, s.calls[id], ch, g);
    }
  }

  lemma StepThroughGate(env: Env, s: State, e: Event, id: nat, g: Gate)
    requires id in Next(env, s, e).calls && Beyond(Next(env, s, e).calls[id], g)
    ensures id in s.calls
    ensures || Beyond(s.calls[id], g)
            || (e.Step? && e.id == id && AtGate(s.calls[id].pc, g) && Demands(env, s, s.calls[id], e.choice, g))
  {
    if e.Step? && e.id == id {
      if id in s.calls {
        OwnStepThroughGate(env, s, id, e.choice, g);
      }
    } else {
      OthersStay(env, s, e, id);
    }
  }

  lemma NewWriteWasBeyond(env: Env, s: State, e: Event, m: Mutation, g: Gate)
    requires m in Next(env, s, e).sent && Has(m.req, g)
    ensures m in s.sent || (m.call in s.calls && s.calls[m.call].req == m.req && Beyond(s.calls[m.call], g))
  {
    if !(e.Step? && e.id in s.calls && s.calls[e.id].pc.Write?) {
      OnlyWritesSend(env, s, e);
    }
  }

  /** Every call beyond a gate, and every call that sent a write, cleared it. */
  ghost predicate AllCleared(env: Env, start: State, events: seq<Event>) {
    var s := Run(env, start, events);
    && (forall id, g {:trigger Beyond(s.calls[id], g)} :: id in s.calls && Beyond(s.calls[id], g) ==>
          Cleared(env, start, events, id, g))
    && (forall m, g {:trigger Cleared(env, start, events, m.call, g)} :: m in s.sent && Has(m.req, g) ==>
          Cleared(env, start, events, m.call, g))
  }

  lemma CallCleared(env: Env, start: State, events: seq<Event>, id: nat, g: Gate)
    requires events != [] && AllCleared(env, start, events[..|events| - 1])
    requires id in Run(env, start, events).calls && Beyond(Run(env, start, events).calls[id], g)
    ensures Cleared(env, start, events, id, g)
  {
    var last := |events| - 1;
    var s := Run(env, start, events[..last]);
    StepThroughGate(env, s, events[last], id, g);
    if Beyond(s.calls[id], g) {
      ClearedLater(env, start, events, id, g);
    } else {
      assert ClearedAt(env, start, events, id, g, last);
    }
  }

  lemma WriteCleared(env: Env, start: State, events: seq<Event>, m: Mutation, g: Gate)
    requires events != [] && AllCleared(env, start, events[..|events| - 1])
    requires m in Run(env, start, events).sent && Has(m.req, g)
    ensures Cleared(env, start, events, m.call, g)
  {
    var last := |events| - 1;
    var s := Run(env, start, events[..last]);
    NewWriteWasBeyond(env, s, events[last], m, g);
    assert m in s.sent ==> Cleared(env, start, events[..last], m.call, g);
    ClearedLater(env, start, events, m.call, g);
  }

  lemma {:induction false} ClearedAlways(env: Env, now: int, world: World, events: seq<Event>)
    ensures AllCleared(env, Start(now, world), events)
  {
    if events != [] {
      var start := Start(now, world);
      ClearedAlways(env, now, world, events[..|events| - 1]);
      forall id, g | id in Run(env, start, events).calls && Beyond(Run(env, start, events).calls[id], g)
        ensures Cleared(env, start, events, id, g)
      {
        CallCleared(env, start, events, id, g);
      }
      forall m, g | m in Run(env, start, events).sent && Has(m.req, g) ensures Cleared(env, start, events, m.call, g) {
        WriteCleared(env, start, events, m, g);
      }
    }
  }

  /** In every interleaving, a call that sent a write had its access review allow
      it, had read its target and found it fit, and, for a restart, had found it
      useful or forced. */
  lemma EveryWritePassedItsGates(env: Env, now: int, world: World, events: seq<Event>, m: Mutation, g: Gate)
    requires m in Run(env, Start(now, world), events).sent && Has(m.req, g)
    ensures Cleared(env, Start(now, world), events, m.call, g)
  {
    ClearedAlways(env, now, world, events);
  }

  // ----- Switched off -----

  ghost predicate Idle(s: State) {
    s.sent == [] && forall id :: id in s.calls ==> s.calls[id].pc.Validate? || s.calls[id].pc == Done(Disabled)
  }

  lemma IdleStays(env: Env, s: State, e: Event)
    requires !env.enabled && Idle(s)
    ensures Idle(Next(env, s, e)) && Next(env, s, e).issued == s.issued && Next(env, s, e).items == s.items
    ensures !e.ClusterChanges? ==> Next(env, s, e).world == s.world
  {
    if e.Step? && e.id in s.calls {
      assert s.calls[e.id].pc.Validate? ==> LocalStep(env, s, s.calls[e.id], e.choice).pc == Done(Disabled);
    }
  }

  /** With actions switched off no run sends a write or issues a token, and no
      cluster changes but from outside. */
  lemma {:induction false} DisabledDoesNothing(env: Env, now: int, world: World, events: seq<Event>)
    requires !env.enabled && forall e :: e in events ==> !e.ClusterChanges?
    ensures var s := Run(env, Start(now, world), events);
            Idle(s) && s.issued == map[] && s.items == map[] && s.world == world
  {
    if events != [] {
      var before := events[..|events| - 1];
      DisabledDoesNothing(env, now, world, before);
      IdleStays(env, Run(env, Start(now, world), before), events[|events| - 1]);
      assert events[|events| - 1] in events;
    }
  }
}
