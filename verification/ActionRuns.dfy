/** Permitted requests get through: the undisturbed run by which a restart, a scale,
    a deletion or a cordon is planned, confirmed, rechecked and carried out
    (internal/action/engine.go). */
module ActionRuns {
  import opened Wrappers
  import opened Confirmation
  import opened SafeActions
  import opened CordonOverlap
  import opened CheckOutcomes
  import WriteEffects

  /** Nothing in the configuration or in the cluster speaks against the request. */
  ghost predicate Permitted(env: Env, c: Cluster, req: Request, ctx: string) {
    && Configured(env, ctx) && !BadScale(env, req) && KeyOf(env, req) in c.objects
    && var o := c.objects[KeyOf(env, req)];
    && (req.DeletePod? ==> !Protected(req.namespace, o))
    && (req.Restart? ==> req.category == "" || req.force || env.restartUseful(req.category))
    && !Exhausted(c, req, o)
    && (req.SetCordon? && req.cordon ==> !LastOne(c, o))
  }

  ghost predicate Ripe(env: Env, s: State, req: Request, ctx: string) {
    ctx in s.world && Permitted(env, s.world[ctx], req, ctx)
  }

  ghost function TargetOf(env: Env, s: State, req: Request, ctx: string): Object
    requires Ripe(env, s, req, ctx)
  {
    s.world[ctx].objects[KeyOf(env, req)]
  }

  /** An autoscaler is there, which only a scale looks for. */
  ghost predicate Scaled(env: Env, c: Cluster, req: Request) {
    req.Scale? && (Autoscaled(env, c.hpasV2, req) || Autoscaled(env, c.hpasV1, req))
  }

  /** What a call that is permitted asks a token for. */
  ghost function WantOf(env: Env, s: State, req: Request, ctx: string): Pending
    requires Ripe(env, s, req, ctx)
  {
    Want(env, req, ctx, TargetOf(env, s, req, ctx).uid, Scaled(env, s.world[ctx], req))
  }

  // ----- One call moves -----

  /** s is s0 but for this call and the history. */
  ghost predicate SameBut(s0: State, s: State, id: nat, call: Call) {
    s.(calls := s0.calls, hist := s0.hist) == s0 && s.calls == s0.calls[id := call]
  }

  predicate Local(pc: PC) {
    !pc.Done? && !pc.Confirm? && !pc.Write?
  }

  lemma Move(env: Env, s0: State, s: State, id: nat, call: Call, pc: PC) returns (events: seq<Event>, s': State)
    requires SameBut(s0, s, id, call) && Local(call.pc) && LocalStep(env, s, call, Fine("")) == call.(pc := pc)
    ensures Leads(env, {id}, s, events, s') && SameBut(s0, s', id, call.(pc := pc))
    ensures |s'.hist| == |s.hist| + 1
  {
    s' := Moved(s, id, pc);
    events := OneStep(env, {id}, s, Step(id, Fine("")), s');
  }

  lemma Arrives(env: Env, s: State, id: nat, call: Call) returns (events: seq<Event>, s': State)
    requires id !in s.calls && call == Call(call.req, call.confirmID, call.kubeCtx, Validate, false)
    ensures Leads(env, {id}, s, events, s') && SameBut(s, s', id, call)
  {
    s' := s.(calls := s.calls[id := call], hist := s.hist + [s.world]);
    events := OneStep(env, {id}, s, Arrive(id, call.req, call.confirmID, call.kubeCtx), s');
  }

  lemma ToPlanGet(env: Env, s: State, id: nat, req: Request, confirmID: string, ctx: string)
    returns (events: seq<Event>, s': State)
    requires Ripe(env, s, req, ctx) && id !in s.calls
    ensures Leads(env, {id}, s, events, s') && SameBut(s, s', id, Call(req, confirmID, ctx, PlanGet(ctx), false))
  {
    var call := Call(req, confirmID, ctx, Validate, false);
    var e1, s1 := Arrives(env, s, id, call);
    ValidateExactly(env, s1, call, Fine(""));
    var e2, s2 := Move(env, s, s1, id, call, Authorize(ctx));
    AuthorizeExactly(env, s2, call.(pc := Authorize(ctx)), Fine(""));
    var e3;
    e3, s' := Move(env, s, s2, id, call.(pc := Authorize(ctx)), PlanGet(ctx));
    Glue(env, {id}, s, e1, s1, e2, s2);
    Glue(env, {id}, s, e1 + e2, s2, e3, s');
    events := e1 + e2 + e3;
  }

  /** The target is read, and for a restart its category is looked at. */
  lemma ToPlanCheck(env: Env, s0: State, s: State, id: nat, call: Call, ctx: string)
    returns (events: seq<Event>, s': State, k: nat)
    requires Ripe(env, s0, call.req, ctx) && SameBut(s0, s, id, call) && call.pc == PlanGet(ctx)
    ensures Leads(env, {id}, s, events, s')
    ensures SameBut(s0, s', id, call.(pc := PlanCheck(ctx, TargetOf(env, s0, call.req, ctx), k)))
  {
    var o := TargetOf(env, s0, call.req, ctx);
    k := |s.hist|;
    PlanGetExactly(env, s, call, Fine(""));
    if call.req.Restart? {
      var e1, s1 := Move(env, s0, s, id, call, PlanInfer(ctx, o, k));
      PlanInferExactly(env, s1, call.(pc := PlanInfer(ctx, o, k)), Fine(""));
      var e2;
      e2, s' := Move(env, s0, s1, id, call.(pc := PlanInfer(ctx, o, k)), PlanCheck(ctx, o, k));
      Glue(env, {id}, s, e1, s1, e2, s');
      events := e1 + e2;
    } else {
      events, s' := Move(env, s0, s, id, call, PlanCheck(ctx, o, k));
    }
  }

  /** The check lets it pass, for a scale with both lists if it needs them. */
  lemma ToConfirm(env: Env, s0: State, s: State, id: nat, call: Call, ctx: string)
    returns (events: seq<Event>, s': State, plan: Seen)
    requires Ripe(env, s0, call.req, ctx) && SameBut(s0, s, id, call)
    requires call.pc.PlanCheck? && call.pc.ctx == ctx && call.pc.target == TargetOf(env, s0, call.req, ctx)
    ensures Leads(env, {id}, s, events, s')
    ensures SameBut(s0, s', id, call.(pc := Confirm(ctx, WantOf(env, s0, call.req, ctx), plan)))
  {
    var pc := LocalStep(env, s, call, Fine("")).pc;
    PlanCheckExactly(env, s, call, Fine(""));
    var e1, s1 := Move(env, s0, s, id, call, pc);
    if pc.Confirm? {
      events, s', plan := e1, s1, pc.plan;
    } else {
      var pc1 := LocalStep(env, s1, call.(pc := pc), Fine("")).pc;
      PlanCheckV1Exactly(env, s1, call.(pc := pc), Fine(""));
      var e2;
      e2, s' := Move(env, s0, s1, id, call.(pc := pc), pc1);
      Glue(env, {id}, s, e1, s1, e2, s');
      events, plan := e1 + e2, pc1.plan;
    }
  }

  lemma Planned(env: Env, s: State, id: nat, req: Request, confirmID: string, ctx: string)
    returns (events: seq<Event>, s': State, plan: Seen)
    requires Ripe(env, s, req, ctx) && id !in s.calls
    ensures Leads(env, {id}, s, events, s')
    ensures SameBut(s, s', id, Call(req, confirmID, ctx, Confirm(ctx, WantOf(env, s, req, ctx), plan), false))
  {
    var call := Call(req, confirmID, ctx, PlanGet(ctx), false);
    var e1, s1 := ToPlanGet(env, s, id, req, confirmID, ctx);
    var e2, s2, k := ToPlanCheck(env, s, s1, id, call, ctx);
    var e3;
    e3, s', plan := ToConfirm(env, s, s2, id, call.(pc := PlanCheck(ctx, TargetOf(env, s, req, ctx), k)), ctx);
    Glue(env, {id}, s, e1, s1, e2, s2);
    Glue(env, {id}, s, e1 + e2, s2, e3, s');
    events := e1 + e2 + e3;
  }

  // ----- The token -----

  ghost function Lasting(env: Env, s: State, want: Pending): Pending {
    want.(expires := s.now + env.ttl)
  }

  lemma Puts(env: Env, s: State, id: nat, call: Call, tok: string) returns (events: seq<Event>, s': State)
    requires id in s.calls && s.calls[id] == call && call.pc.Confirm? && call.confirmID == "" && tok !in s.issued
    ensures Leads(env, {id}, s, events, s')
    ensures s'.world == s.world && s'.now == s.now && s'.issued.Keys == s.issued.Keys + {tok}
    ensures s'.calls == s.calls[id := call.(pc := Done(ConfirmationRequired(tok)))]
    ensures tok in s'.items && s'.items[tok] == Lasting(env, s, call.pc.want)
  {
    s' := ConfirmStep(env, s, id, call, Fine(tok)).(hist := s.hist + [s.world]);
    events := OneStep(env, {id}, s, Step(id, Fine(tok)), s');
  }

  lemma Presents(env: Env, s: State, id: nat, call: Call) returns (events: seq<Event>, s': State)
    requires id in s.calls && s.calls[id] == call && call.pc.Confirm? && call.confirmID != "" && env.ttl >= 0
    requires call.confirmID in s.items && s.items[call.confirmID] == Lasting(env, s, call.pc.want)
    ensures Leads(env, {id}, s, events, s')
    ensures s'.world == s.world && s'.now == s.now && s'.issued == s.issued
    ensures s'.calls == s.calls[id := call.(pc := ReGet(call.pc.ctx, call.confirmID, s.items[call.confirmID]))]
  {
    BindMatchMeans(s.items[call.confirmID], call.pc.want);
    s' := ConfirmStep(env, s, id, call, Fine("")).(hist := s.hist + [s.world]);
    events := OneStep(env, {id}, s, Step(id, Fine("")), s');
  }

  /** The first call is answered with a token. */
  lemma Issued(env: Env, s: State, p: nat, req: Request, ctx: string, tok: string)
    returns (events: seq<Event>, s': State)
    requires Ripe(env, s, req, ctx) && p !in s.calls && tok !in s.issued
    ensures Leads(env, {p}, s, events, s')
    ensures s'.world == s.world && s'.now == s.now && s'.issued.Keys == s.issued.Keys + {tok}
    ensures s'.calls == s.calls[p := Call(req, "", ctx, Done(ConfirmationRequired(tok)), false)]
    ensures tok in s'.items && s'.items[tok] == Lasting(env, s, WantOf(env, s, req, ctx))
  {
    var e1, s1, plan := Planned(env, s, p, req, "", ctx);
    var e2;
    e2, s' := Puts(env, s1, p, Call(req, "", ctx, Confirm(ctx, WantOf(env, s, req, ctx), plan), false), tok);
    Glue(env, {p}, s, e1, s1, e2, s');
    events := e1 + e2;
  }

  /** The second call presents it and is about to re-read its target. */
  lemma Taken(env: Env, s: State, q: nat, req: Request, ctx: string, tok: string)
    returns (events: seq<Event>, s': State)
    requires Ripe(env, s, req, ctx) && q !in s.calls && tok != ""
    requires tok in s.items && s.items[tok] == Lasting(env, s, WantOf(env, s, req, ctx))
    ensures Leads(env, {q}, s, events, s')
    ensures s'.world == s.world && s'.now == s.now && s'.issued == s.issued
    ensures s'.calls == s.calls[q := Call(req, tok, ctx, ReGet(ctx, tok, s.items[tok]), false)]
  {
    var e1, s1, plan := Planned(env, s, q, req, tok, ctx);
    var e2;
    e2, s' := Presents(env, s1, q, Call(req, tok, ctx, Confirm(ctx, WantOf(env, s, req, ctx), plan), false));
    Glue(env, {q}, s, e1, s1, e2, s');
    events := e1 + e2;
  }

  // ----- The recheck and the write -----

  ghost predicate Holds(env: Env, s: State, call: Call, ctx: string) {
    && Ripe(env, s, call.req, ctx) && call.pc.ReGet? && call.pc.ctx == ctx
    && call.pc.stored.uid == TargetOf(env, s, call.req, ctx).uid
    && call.pc.stored.hpaPresent == Scaled(env, s.world[ctx], call.req)
  }

  lemma ToWrite(env: Env, s: State, id: nat, call: Call, ctx: string) returns (events: seq<Event>, s': State)
    requires id in s.calls && s.calls[id] == call && Holds(env, s, call, ctx)
    ensures Leads(env, {id}, s, events, s') && id in s'.calls
    ensures SameBut(s, s', id, call.(pc := s'.calls[id].pc)) && s'.calls[id].pc.Write? && s'.calls[id].pc.ctx == ctx
  {
    assert SameBut(s, s, id, call) by {
      assert s.calls == s.calls[id := call];
    }
    ReGetExactly(env, s, call, Fine(""));
    var pc := LocalStep(env, s, call, Fine("")).pc;
    var e1, s1 := Move(env, s, s, id, call, pc);
    if pc.Write? {
      events, s' := e1, s1;
    } else {
      var e2;
      e2, s' := Rechecked(env, s, s1, id, call.(pc := pc), ctx);
      Glue(env, {id}, s, e1, s1, e2, s');
      events := e1 + e2;
    }
  }

  lemma Rechecked(env: Env, s0: State, s: State, id: nat, call: Call, ctx: string)
    returns (events: seq<Event>, s': State)
    requires Ripe(env, s0, call.req, ctx) && SameBut(s0, s, id, call)
    requires call.pc.ReCheck? && call.pc.ctx == ctx && call.pc.live == TargetOf(env, s0, call.req, ctx)
    requires call.pc.stored.hpaPresent == Scaled(env, s0.world[ctx], call.req)
    ensures Leads(env, {id}, s, events, s') && id in s'.calls
    ensures SameBut(s0, s', id, call.(pc := s'.calls[id].pc)) && s'.calls[id].pc.Write? && s'.calls[id].pc.ctx == ctx
  {
    ReCheckExactly(env, s, call, Fine(""));
    var pc := LocalStep(env, s, call, Fine("")).pc;
    var e1, s1 := Move(env, s0, s, id, call, pc);
    if pc.Write? {
      events, s' := e1, s1;
    } else {
      ReCheckV1Exactly(env, s1, call.(pc := pc), Fine(""));
      var e2;
      e2, s' := Move(env, s0, s1, id, call.(pc := pc), LocalStep(env, s1, call.(pc := pc), Fine("")).pc);
      Glue(env, {id}, s, e1, s1, e2, s');
      events := e1 + e2;
    }
  }

  lemma Writes(env: Env, s: State, id: nat, call: Call) returns (events: seq<Event>, s': State)
    requires id in s.calls && s.calls[id] == call && call.pc.Write?
    requires call.pc.ctx in s.world && KeyOf(env, call.req) in s.world[call.pc.ctx].objects
    ensures Leads(env, {id}, s, events, s')
    ensures s'.calls == s.calls[id := call.(pc := Done(Succeeded))] && |s'.sent| == |s.sent| + 1
    ensures s'.sent[|s.sent|].req == call.req && s'.sent[|s.sent|].ctx == call.pc.ctx
    ensures WriteEffects.Applied(env, s.world, s'.world, s'.sent[|s.sent|])
  {
    s' := WriteStep(env, s, id, call, Fine("")).(hist := s.hist + [s.world]);
    WriteEffects.EffectIsApplied(env, s.world, s'.sent[|s.sent|]);
    events := OneStep(env, {id}, s, Step(id, Fine("")), s');
  }

  lemma Finished(env: Env, s: State, id: nat, call: Call, ctx: string)
    returns (events: seq<Event>, s': State, m: Mutation)
    requires id in s.calls && s.calls[id] == call && Holds(env, s, call, ctx)
    ensures Leads(env, {id}, s, events, s')
    ensures s'.calls == s.calls[id := call.(pc := Done(Succeeded))]
    ensures m.req == call.req && m.ctx == ctx && WriteEffects.Applied(env, s.world, s'.world, m)
  {
    var e1, s1 := ToWrite(env, s, id, call, ctx);
    var e2;
    e2, s' := Writes(env, s1, id, s1.calls[id]);
    m := s'.sent[|s1.sent|];
    Glue(env, {id}, s, e1, s1, e2, s');
    events := e1 + e2;
  }

  /** A permitted request that nothing disturbs is answered with a token, and when
      the token is presented it is carried out: what was asked for is done to the
      target and nothing else, and the call reports success. */
  lemma PermittedSucceeds(env: Env, s: State, p: nat, q: nat, req: Request, ctx: string, tok: string)
    returns (events: seq<Event>, s': State, m: Mutation)
    requires Ripe(env, s, req, ctx) && p !in s.calls && q !in s.calls && p != q && tok !in s.issued && tok != ""
    ensures Leads(env, {p, q}, s, events, s')
    ensures s'.calls == s.calls[p := Call(req, "", ctx, Done(ConfirmationRequired(tok)), false)]
                               [q := Call(req, tok, ctx, Done(Succeeded), false)]
    ensures m.req == req && m.ctx == ctx && WriteEffects.Applied(env, s.world, s'.world, m)
  {
    var e1, s1 := Issued(env, s, p, req, ctx, tok);
    var e2, s2 := Taken(env, s1, q, req, ctx, tok);
    var e3;
    e3, s', m := Finished(env, s2, q, s2.calls[q], ctx);
    Widen(env, {p}, {p, q}, s, e1, s1);
    Widen(env, {q}, {p, q}, s1, e2, s2);
    Widen(env, {q}, {p, q}, s2, e3, s');
    Glue(env, {p, q}, s, e1, s1, e2, s2);
    Glue(env, {p, q}, s, e1 + e2, s2, e3, s');
    events := e1 + e2 + e3;
  }
}
