/** What each check of a guarded action comes to, in terms of the lists it makes:
    exactly when it stops the call, and that it goes on otherwise
    (internal/action/engine.go). */
module CheckOutcomes {
  import opened Wrappers
  import opened Confirmation
  import opened Preflight
  import opened SafeActions

  // ----- What the lists can hold against a request -----

  /** A budget whose selector is given covers every pod if it cannot be parsed, and
      otherwise those whose labels it accepts. */
  predicate CoversPod(p: PDB, labels: Labels) {
    p.selector.Some? && (!p.selector.value.parses || p.selector.value.accepts(labels))
  }

  /** It covers a workload with a selector if it cannot be parsed, if the workload
      selects by expressions alone, or if it accepts the labels that are selected. */
  predicate CoversWorkload(p: PDB, sel: Option<LabelSelector>) {
    && p.selector.Some? && sel.Some?
    && (|| !p.selector.value.parses
        || (sel.value.matchLabels == map[] && sel.value.expressions > 0)
        || p.selector.value.accepts(sel.value.matchLabels))
  }

  predicate Covers(req: Request, o: Object, p: PDB) {
    (req.Restart? && CoversWorkload(p, o.selector)) || (req.DeletePod? && CoversPod(p, o.labels))
  }

  /** The budget covers the target and allows no disruption. */
  predicate Blocks(req: Request, o: Object, p: PDB) {
    Covers(req, o, p) && p.disruptionsAllowed == 0
  }

  /** Some budget of the namespace does. */
  ghost predicate Exhausted(c: Cluster, req: Request, o: Object) {
    exists p :: NamespaceOf(req) in c.pdbs && p in c.pdbs[NamespaceOf(req)] && Blocks(req, o, p)
  }

  predicate Targets(env: Env, h: HPA, req: Request) {
    h.kind == KindOf(env, req) && h.name == req.name && (h.apiVersion == "" || "apps/" <= h.apiVersion)
  }

  /** The list has an autoscaler for the target in its namespace. */
  ghost predicate Autoscaled(env: Env, hpas: map<string, seq<HPA>>, req: Request) {
    exists h :: NamespaceOf(req) in hpas && h in hpas[NamespaceOf(req)] && Targets(env, h, req)
  }

  /** An object that takes pods: not cordoned, with a Ready condition that is true. */
  predicate InService(o: Object) {
    !o.unschedulable && exists i :: 0 <= i < |o.conditions| && o.conditions[i].kind == "Ready"
                                    && o.conditions[i].status == "True"
  }

  /** The node is in service and at most one node of the cluster is. */
  ghost predicate LastOne(c: Cluster, o: Object) {
    InService(o) && |set k | k in c.objects && k.kind == Node && InService(c.objects[k])| <= 1
  }

  lemma InServiceTakes(o: Object)
    ensures InService(o) <==> Takes(o)
  {
    if i :| 0 <= i < |o.conditions| && o.conditions[i].kind == "Ready" && o.conditions[i].status == "True" {
      assert o.conditions[i] == Condition("Ready", "True");
    }
  }

  lemma LastOneExactly(c: Cluster, o: Object)
    ensures LastOne(c, o) <==> Takes(o) && |SchedulableReady(c)| <= 1
  {
    forall o ensures InService(o) <==> Takes(o) {
      InServiceTakes(o);
    }
    assert SchedulableReady(c) == set k | k in c.objects && k.kind == Node && InService(c.objects[k]);
  }

  /** A pod of the control plane, or one that the node's own agent runs. */
  predicate Protected(namespace: string, o: Object) {
    || Marked(o.labels, "label.kubernetes.io/control-plane")
    || (namespace == "kube-system"
        && (Says(o.labels, "component", "kube-apiserver") || Says(o.labels, "component", "etcd")
            || Says(o.labels, "component", "kube-scheduler") || Says(o.labels, "tier", "control-plane")))
    || Marked(o.annotations, "kubernetes.io/config.mirror")
    || Says(o.annotations, "kubernetes.io/config.source", "file")
    || Says(o.annotations, "kubernetes.io/config.source", "static")
  }

  predicate Marked(m: Labels, k: string) {
    k in m && m[k] != ""
  }

  predicate Says(m: Labels, k: string, v: string) {
    k in m && m[k] == v
  }

  lemma ProtectedExactly(namespace: string, o: Object)
    ensures Protected(namespace, o) <==> IsControlPlanePod(namespace, o) || IsMirrorPod(o)
  {
  }

  lemma ExhaustedIsBlocked(c: Cluster, req: Request, o: Object)
    ensures req.Restart? ==> (Exhausted(c, req, o) <==> WorkloadBlocked(In(c.pdbs, req.namespace), o.selector))
    ensures req.DeletePod? ==> (Exhausted(c, req, o) <==> PodBlocked(In(c.pdbs, req.namespace), o.labels))
  {
    var pdbs := In(c.pdbs, NamespaceOf(req));
    if p :| NamespaceOf(req) in c.pdbs && p in c.pdbs[NamespaceOf(req)] && Blocks(req, o, p) {
      var i :| 0 <= i < |pdbs| && pdbs[i] == p;
    }
    if req.Restart? && WorkloadBlocked(pdbs, o.selector) {
      var i :| 0 <= i < |pdbs| && PdbMatchesWorkload(pdbs[i], o.selector) && pdbs[i].disruptionsAllowed == 0;
      assert pdbs[i] in pdbs && Blocks(req, o, pdbs[i]);
    }
    if req.DeletePod? && PodBlocked(pdbs, o.labels) {
      var i :| 0 <= i < |pdbs| && PdbMatchesPod(pdbs[i], o.labels) && pdbs[i].disruptionsAllowed == 0;
      assert pdbs[i] in pdbs && Blocks(req, o, pdbs[i]);
    }
  }

  lemma AutoscaledIsTargeted(env: Env, hpas: map<string, seq<HPA>>, req: Request)
    ensures Autoscaled(env, hpas, req) <==> HpaTargets(In(hpas, NamespaceOf(req)), KindOf(env, req), req.name)
  {
    var list := In(hpas, NamespaceOf(req));
    if HpaTargets(list, KindOf(env, req), req.name) {
      var i :| 0 <= i < |list| && HpaMatches(list[i], KindOf(env, req), req.name);
      assert list[i] in list && Targets(env, list[i], req);
    }
    if h :| NamespaceOf(req) in hpas && h in hpas[NamespaceOf(req)] && Targets(env, h, req) {
      var i :| 0 <= i < |list| && list[i] == h;
      assert HpaMatches(list[i], KindOf(env, req), req.name);
    }
  }

  // ----- The check before a token is asked for -----

  /** The call goes on to ask for or present a token for the object it read. */
  ghost predicate GoesToConfirm(env: Env, call: Call, call': Call, ctx: string, o: Object, hpa: bool) {
    && call'.pc.Confirm? && call'.pc.ctx == ctx && call'.pc.want == Want(env, call.req, ctx, o.uid, hpa)
    && call' == call.(pc := call'.pc)
  }

  lemma PlanCheckExactly(env: Env, s: State, call: Call, ch: Choice)
    requires call.pc.PlanCheck? && ch.ok && call.pc.ctx in s.world
    ensures var c, o, call' := s.world[call.pc.ctx], call.pc.target, LocalStep(env, s, call, ch);
            && (call.req.Restart? || call.req.DeletePod? ==>
                  if Exhausted(c, call.req, o) then call' == call.(pc := Done(BlockedByPdb))
                  else GoesToConfirm(env, call, call', call.pc.ctx, o, false))
            && (call.req.SetCordon? ==>
                  if call.req.cordon && LastOne(c, o) then call' == call.(pc := Done(Error))
                  else GoesToConfirm(env, call, call', call.pc.ctx, o, false))
            && (call.req.Scale? ==>
                  if Autoscaled(env, c.hpasV2, call.req) then GoesToConfirm(env, call, call', call.pc.ctx, o, true)
                  else call'.pc.PlanCheckV1? && call'.pc.ctx == call.pc.ctx && call'.pc.target == o
                       && call' == call.(pc := call'.pc))
  {
    var c := s.world[call.pc.ctx];
    ExhaustedIsBlocked(c, call.req, call.pc.target);
    LastOneExactly(c, call.pc.target);
    AutoscaledIsTargeted(env, c.hpasV2, call.req);
  }

  lemma PlanCheckV1Exactly(env: Env, s: State, call: Call, ch: Choice)
    requires call.pc.PlanCheckV1? && ch.ok && call.pc.ctx in s.world
    ensures GoesToConfirm(env, call, LocalStep(env, s, call, ch), call.pc.ctx, call.pc.target,
                          Autoscaled(env, s.world[call.pc.ctx].hpasV1, call.req))
  {
    AutoscaledIsTargeted(env, s.world[call.pc.ctx].hpasV1, call.req);
  }

  // ----- The check after the token was taken -----

  /** The call goes on to its write, with what it holds. */
  ghost predicate GoesToWrite(call: Call, call': Call, ctx: string, token: string, stored: Pending) {
    && call'.pc.Write? && call'.pc.ctx == ctx && call'.pc.token == token && call'.pc.stored == stored
    && call' == call.(pc := call'.pc)
  }

  lemma ReCheckExactly(env: Env, s: State, call: Call, ch: Choice)
    requires call.pc.ReCheck? && ch.ok && call.pc.ctx in s.world
    ensures var c, o, call', pc := s.world[call.pc.ctx], call.pc.live, LocalStep(env, s, call, ch), call.pc;
            && (call.req.Restart? || call.req.DeletePod? ==>
                  if Exhausted(c, call.req, o) then call' == call.(pc := Done(BlockedByPdb))
                  else GoesToWrite(call, call', pc.ctx, pc.token, pc.stored))
            && (call.req.SetCordon? ==>
                  if call.req.cordon && LastOne(c, o) then call' == call.(pc := Done(Error))
                  else GoesToWrite(call, call', pc.ctx, pc.token, pc.stored))
            && (call.req.Scale? ==>
                  if Autoscaled(env, c.hpasV2, call.req) then
                    if pc.stored.hpaPresent then GoesToWrite(call, call', pc.ctx, pc.token, pc.stored)
                    else call' == call.(pc := Done(PreflightFailed))
                  else call'.pc.ReCheckV1? && call'.pc.ctx == pc.ctx && call'.pc.token == pc.token
                       && call'.pc.stored == pc.stored && call'.pc.live == o && call' == call.(pc := call'.pc))
  {
    var c := s.world[call.pc.ctx];
    ExhaustedIsBlocked(c, call.req, call.pc.live);
    LastOneExactly(c, call.pc.live);
    AutoscaledIsTargeted(env, c.hpasV2, call.req);
  }

  lemma ReCheckV1Exactly(env: Env, s: State, call: Call, ch: Choice)
    requires call.pc.ReCheckV1? && call.req.Scale? && ch.ok && call.pc.ctx in s.world
    ensures var call', pc := LocalStep(env, s, call, ch), call.pc;
            if Autoscaled(env, s.world[pc.ctx].hpasV1, call.req) && !pc.stored.hpaPresent
            then call' == call.(pc := Done(PreflightFailed))
            else GoesToWrite(call, call', pc.ctx, pc.token, pc.stored)
  {
    AutoscaledIsTargeted(env, s.world[call.pc.ctx].hpasV1, call.req);
  }

  /** A list that is needed and fails ends the call with a failed preflight, and an
      uncordon, and a restart of a Deployment without a selector, need none. */
  lemma FailingListExactly(env: Env, s: State, call: Call, ch: Choice)
    requires call.pc.PlanCheck? || call.pc.ReCheck?
    requires !(ch.ok && call.pc.ctx in s.world)
    ensures var call' := LocalStep(env, s, call, ch);
            if call.pc.PlanCheck? && ((call.req.SetCordon? && !call.req.cordon)
                                      || (call.req.Restart? && call.pc.target.selector.None?))
            then GoesToConfirm(env, call, call', call.pc.ctx, call.pc.target, false)
            else call' == call.(pc := Done(PreflightFailed), failed := true)
  {
  }

  // ----- The steps around the checks -----

  /** The kubeconfig context of a call: the primary one if it is named or none is,
      otherwise what the client lookup says, and without either nothing. */
  lemma ContextExactly(env: Env, ctx: string)
    ensures env.primary.Some? && ctx in {"", env.primary.value} ==> ClusterFor(env, ctx) == env.primary
    ensures (env.primary.None? || ctx !in {"", env.primary.value}) ==>
              ClusterFor(env, ctx) == if env.forContext.Some? then env.forContext.value(ctx) else None
  {
  }

  lemma ValidateExactly(env: Env, s: State, call: Call, ch: Choice)
    requires call.pc.Validate?
    ensures var call', to := LocalStep(env, s, call, ch), ClusterFor(env, call.kubeCtx);
            if !env.enabled then call' == call.(pc := Done(Disabled))
            else if BadScale(env, call.req) || to.None? then call' == call.(pc := Done(Error))
            else call' == call.(pc := Authorize(to.value))
  {
  }

  /** A replica count out of bounds, or a kind that cannot be scaled. */
  predicate BadScale(env: Env, req: Request) {
    && req.Scale?
    && (req.replicas < 0 || req.replicas > env.maxReplicas
        || KindOf(env, req) !in {Deployment, StatefulSet, ReplicaSet})
  }

  lemma AuthorizeExactly(env: Env, s: State, call: Call, ch: Choice)
    requires call.pc.Authorize?
    ensures var call' := LocalStep(env, s, call, ch);
            if !ch.ok || call.pc.ctx !in s.world then call' == call.(pc := Done(Error), failed := true)
            else if ch.allowed then call' == call.(pc := PlanGet(call.pc.ctx))
            else call' == call.(pc := Done(Forbidden))
  {
  }

  ghost predicate There(env: Env, s: State, call: Call, ctx: string, ch: Choice) {
    ch.ok && ctx in s.world && KeyOf(env, call.req) in s.world[ctx].objects
  }

  lemma PlanGetExactly(env: Env, s: State, call: Call, ch: Choice)
    requires call.pc.PlanGet?
    ensures var call', ctx, k := LocalStep(env, s, call, ch), call.pc.ctx, |s.hist|;
            if !There(env, s, call, ctx, ch) then call' == call.(pc := Done(Error), failed := true)
            else
              var o := s.world[ctx].objects[KeyOf(env, call.req)];
              if call.req.DeletePod? && Protected(call.req.namespace, o)
              then call' == call.(pc := Done(Error))
              else if call.req.Restart? then call' == call.(pc := PlanInfer(ctx, o, k))
              else call' == call.(pc := PlanCheck(ctx, o, k))
  {
    if There(env, s, call, call.pc.ctx, ch) && call.req.DeletePod? {
      ProtectedExactly(call.req.namespace, s.world[call.pc.ctx].objects[KeyOf(env, call.req)]);
    }
  }

  /** A restart is advised against exactly when a category is given or inferred for
      which restarts are not useful, and it is not forced. */
  lemma PlanInferExactly(env: Env, s: State, call: Call, ch: Choice)
    requires call.pc.PlanInfer? && call.req.Restart?
    ensures var call' := LocalStep(env, s, call, ch);
            var cat := if call.req.category != "" then call.req.category else ch.category;
            if cat == "" || call.req.force || env.restartUseful(cat)
            then call' == call.(pc := PlanCheck(call.pc.ctx, call.pc.target, call.pc.getAt))
            else call' == call.(pc := Done(RestartNotRecommended))
  {
  }

  /** The re-read: another object under the name ends the call, and otherwise it goes
      on to its recheck, or straight to its write if it needs no list. */
  lemma ReGetExactly(env: Env, s: State, call: Call, ch: Choice)
    requires call.pc.ReGet?
    ensures var call', ctx, k := LocalStep(env, s, call, ch), call.pc.ctx, |s.hist|;
            if !There(env, s, call, ctx, ch) then call' == call.(pc := Done(Error), failed := true)
            else
              var o := s.world[ctx].objects[KeyOf(env, call.req)];
              if o.uid != call.pc.stored.uid then call' == call.(pc := Done(ConfirmationMismatch))
              else if (call.req.SetCordon? && !call.req.cordon) || (call.req.Restart? && o.selector.None?)
              then call' == call.(pc := Write(ctx, call.pc.token, call.pc.stored, Seen(k, k, k)))
              else call' == call.(pc := ReCheck(ctx, call.pc.token, call.pc.stored, o, k))
  {
  }

  // ----- The token and the write -----

  /** Without a confirmation ID a new token is drawn and handed out, or the call ends
      in an error if none can be drawn. */
  lemma PutExactly(env: Env, s: State, id: nat, ch: Choice)
    requires id in s.calls && s.calls[id].pc.Confirm? && s.calls[id].confirmID == ""
    requires ch.freshID.Some? ==> ch.freshID.value !in s.issued
    ensures var s', call := ConfirmStep(env, s, id, s.calls[id], ch), s.calls[id];
            match ch.freshID
            case None => s'.calls == s.calls[id := call.(pc := Done(Error))] && s'.issued == s.issued
            case Some(tok) =>
              && s'.calls == s.calls[id := call.(pc := Done(ConfirmationRequired(tok)))]
              && tok in s'.items && s'.items[tok] == call.pc.want.(expires := s.now + ch.drift + env.ttl)
  {
  }

  /** With one the token is looked up: a missing or expired one is an error, one for
      something else a mismatch, and otherwise the call goes on to re-read its target
      with what the token was issued for. */
  lemma TakeExactly(env: Env, s: State, id: nat, ch: Choice)
    requires id in s.calls && s.calls[id].pc.Confirm? && s.calls[id].confirmID != ""
    ensures var s', call := ConfirmStep(env, s, id, s.calls[id], ch), s.calls[id];
            var tok := call.confirmID;
            if tok !in s.items || s.now > s.items[tok].expires || s.now + ch.drift > s.items[tok].expires
            then s'.calls == s.calls[id := call.(pc := Done(Error))]
            else if !BindMatch(s.items[tok], call.pc.want)
            then s'.calls == s.calls[id := call.(pc := Done(ConfirmationMismatch))] && tok in s'.items
            else s'.calls == s.calls[id := call.(pc := ReGet(call.pc.ctx, tok, s.items[tok]))] && tok !in s'.items
  {
  }

  /** A write is a success exactly when it is carried out and answered. */
  lemma WriteExactly(env: Env, s: State, id: nat, ch: Choice)
    requires id in s.calls && s.calls[id].pc.Write?
    ensures var s', call := WriteStep(env, s, id, s.calls[id], ch), s.calls[id];
            var ctx := call.pc.ctx;
            var reached := ch.applied && ctx in s.world && KeyOf(env, call.req) in s.world[ctx].objects;
            && s'.calls == s.calls[id := call.(pc := Done(if reached && ch.ok then Succeeded else Error))]
            && (!reached ==> s'.world == s.world)
  {
  }
}
