/** Guarded actions as a transition system (internal/action/engine.go).

    Any number of calls run at once. Each API request, each Put and each Take is
    one atomic step of one call; between any two steps the cluster may change in
    any way and the clock may advance. A run is a sequence of events applied in
    order, so a statement about every sequence of events is a statement about
    every interleaving.

    The state carries a history that the program itself does not keep: which
    tokens were issued and taken, which writes were sent, and what every cluster
    looked like before each event. */
module SafeActions {
  import opened Wrappers
  import opened Confirmation
  import opened Preflight

  // ----- The cluster -----

  datatype Key = Key(kind: Kind, namespace: string, name: string)

  datatype Object = Object(
    uid: string, labels: Labels, annotations: Labels, selector: Option<LabelSelector>,
    conditions: seq<Condition>, unschedulable: bool, replicas: int, restarts: nat)

  datatype Cluster = Cluster(
    objects: map<Key, Object>, pdbs: map<string, seq<PDB>>,
    hpasV2: map<string, seq<HPA>>, hpasV1: map<string, seq<HPA>>)

  type World = map<string, Cluster> // by kubeconfig context

  function In<T>(m: map<string, seq<T>>, ns: string): seq<T> {
    if ns in m then m[ns] else []
  }

  predicate Takes(o: Object) {
    !o.unschedulable && NodeReady(o.conditions)
  }

  /** The nodes that count as schedulable and Ready. */
  function SchedulableReady(c: Cluster): set<Key> {
    set k | k in c.objects && k.kind == Node && Takes(c.objects[k])
  }

  // ----- Calls -----

  datatype Request =
    | Restart(name: string, namespace: string, category: string, force: bool)
    | Scale(kind: string, name: string, namespace: string, replicas: int)
    | DeletePod(name: string, namespace: string, grace: int)
    | SetCordon(name: string, cordon: bool)

  datatype Status =
    | Disabled | Forbidden | Error | ConfirmationRequired(id: string) | ConfirmationMismatch
    | RestartNotRecommended | BlockedByPdb | PreflightFailed | Succeeded

  /** When a call read its target, its first check and its second check: each
      number is the event at which the read happened. */
  datatype Seen = Seen(getAt: nat, checkAt: nat, v1At: nat)

  datatype PC =
    | Validate
    | Authorize(ctx: string)
    | PlanGet(ctx: string)
    | PlanInfer(ctx: string, target: Object, getAt: nat)
    | PlanCheck(ctx: string, target: Object, getAt: nat)
    | PlanCheckV1(ctx: string, target: Object, getAt: nat, checkAt: nat)
    | Confirm(ctx: string, want: Pending, plan: Seen)
    | ReGet(ctx: string, token: string, stored: Pending)
    | ReCheck(ctx: string, token: string, stored: Pending, live: Object, getAt: nat)
    | ReCheckV1(ctx: string, token: string, stored: Pending, live: Object, getAt: nat, checkAt: nat)
    | Write(ctx: string, token: string, stored: Pending, seen: Seen)
    | Done(status: Status)

  /** failed records that a check ended in an API error. */
  datatype Call = Call(req: Request, confirmID: string, kubeCtx: string, pc: PC, failed: bool)

  // ----- The state and its history -----

  datatype Issue = Issue(pending: Pending, call: nat, req: Request, ctx: string, plan: Seen, clock: int, at: nat)

  datatype Taking = Taking(call: nat, clock: int, at: nat)

  datatype Mutation = Mutation(call: nat, req: Request, ctx: string, token: string, seen: Seen, at: nat)

  datatype State = State(
    now: int, items: Items, world: World, calls: map<nat, Call>,
    issued: map<string, Issue>, taken: map<string, Taking>, sent: seq<Mutation>, hist: seq<World>)

  /** What does not change during a run: the configuration, the client lookup and
      the two tables the engine consults. */
  datatype Env = Env(
    enabled: bool, maxReplicas: int, ttl: int,
    primary: Option<string>, forContext: Option<string -> Option<string>>,
    normalizeKind: string -> Kind, restartUseful: string -> bool)

  /** Everything a step does not decide by itself: whether the API request
      succeeds, the access review's verdict, the inferred restart category, the
      new token ID, how far the clock moves inside a store operation and whether
      the server carries out a write. */
  datatype Choice = Choice(ok: bool, allowed: bool, category: string, freshID: Option<string>, drift: nat,
                           applied: bool)

  datatype Event =
    | Arrive(id: nat, req: Request, confirmID: string, kubeCtx: string)
    | Step(id: nat, choice: Choice)
    | ClusterChanges(ctx: string, cluster: Cluster)
    | Tick(drift: nat)

  // ----- What a request asks for -----

  function ClusterFor(env: Env, ctx: string): Option<string> {
    if env.primary.Some? && (ctx == "" || ctx == env.primary.value) then env.primary
    else if env.forContext.Some? then env.forContext.value(ctx)
    else if env.primary.None? then None
    else if ctx != "" && ctx != env.primary.value then None
    else env.primary
  }

  function KindOf(env: Env, req: Request): Kind {
    match req
    case Restart(_, _, _, _) => Deployment
    case Scale(kind, _, _, _) => env.normalizeKind(kind)
    case DeletePod(_, _, _) => Pod
    case SetCordon(_, _) => Node
  }

  function NamespaceOf(req: Request): string {
    if req.SetCordon? then "" else req.namespace
  }

  function KeyOf(env: Env, req: Request): Key {
    Key(KindOf(env, req), NamespaceOf(req), req.name)
  }

  function ActionOf(req: Request): Action {
    match req
    case Restart(_, _, _, _) => RestartDeployment
    case Scale(_, _, _, _) => ScaleWorkload
    case DeletePod(_, _, _) => DeleteThePod
    case SetCordon(_, cordon) => if cordon then CordonNode else UncordonNode
  }

  function Want(env: Env, req: Request, ctx: string, uid: string, hpa: bool): Pending {
    Pending(ActionOf(req), if req.Restart? || req.Scale? then Apps else Core,
            KindOf(env, req), req.name, NamespaceOf(req), uid, ctx,
            if req.Scale? then Some(req.replicas) else None,
            if req.DeletePod? then Some(req.grace) else None,
            if req.SetCordon? then Some(req.cordon) else None,
            hpa, 0)
  }

  predicate ValidArguments(env: Env, req: Request) {
    req.Scale? ==>
      && 0 <= req.replicas <= env.maxReplicas
      && KindOf(env, req) in {StatefulSet, ReplicaSet, Deployment}
  }

  function LabelAt(m: Labels, k: string): string {
    if k in m then m[k] else ""
  }

  predicate IsControlPlanePod(namespace: string, o: Object) {
    || LabelAt(o.labels, "label.kubernetes.io/control-plane") != ""
    || (namespace == "kube-system" &&
        (LabelAt(o.labels, "component") in {"kube-apiserver", "etcd", "kube-scheduler"} ||
         LabelAt(o.labels, "tier") == "control-plane"))
  }

  predicate IsMirrorPod(o: Object) {
    || LabelAt(o.annotations, "kubernetes.io/config.mirror") != ""
    || LabelAt(o.annotations, "kubernetes.io/config.source") in {"file", "static"}
  }

  // ----- Steps -----

  /** The cluster an API request sees, or None when the request fails. */
  function Reach(s: State, ctx: string, ch: Choice): Option<Cluster> {
    if ch.ok && ctx in s.world then Some(s.world[ctx]) else None
  }

  function Get(env: Env, s: State, req: Request, ctx: string, ch: Choice): Option<Object> {
    match Reach(s, ctx, ch)
    case None => None
    case Some(c) => if KeyOf(env, req) in c.objects then Some(c.objects[KeyOf(env, req)]) else None
  }

  function At(call: Call, pc: PC): Call {
    call.(pc := pc)
  }

  function End(call: Call, status: Status): Call {
    call.(pc := Done(status))
  }

  /** A check that could not be made. */
  function Fail(call: Call, status: Status): Call {
    call.(pc := Done(status), failed := true)
  }

  /** The verdict of the first list a check makes: go on to the write, consult
      the second autoscaler list, or end with a status. */
  datatype Verdict = Pass(hpa: bool) | Consult | Refuse(status: Status)

  /** The check of one request on the object it read, given the list it made.
      Uncordon, and a restart of a Deployment without a selector, list nothing. */
  function Check(env: Env, req: Request, o: Object, c: Cluster): Verdict {
    match req
    case Restart(_, ns, _, _) =>
      if WorkloadBlocked(In(c.pdbs, ns), o.selector) then Refuse(BlockedByPdb) else Pass(false)
    case Scale(_, name, ns, _) =>
      if HpaTargets(In(c.hpasV2, ns), KindOf(env, req), name) then Pass(true) else Consult
    case DeletePod(_, ns, _) =>
      if PodBlocked(In(c.pdbs, ns), o.labels) then Refuse(BlockedByPdb) else Pass(false)
    case SetCordon(_, cordon) =>
      if cordon && Takes(o) && |SchedulableReady(c)| <= 1 then Refuse(Error) else Pass(false)
  }

  predicate ListsNothing(req: Request, o: Object) {
    (req.SetCordon? && !req.cordon) || (req.Restart? && o.selector.None?)
  }

  function HpaV1(env: Env, req: Request, c: Cluster): bool {
    HpaTargets(In(c.hpasV1, NamespaceOf(req)), KindOf(env, req), req.name)
  }

  /** An autoscaler that was not there when the token was issued stops a scale. */
  function AfterRecheck(call: Call, stored: Pending, hpaNow: bool, go: PC): Call {
    if call.req.Scale? && hpaNow && !stored.hpaPresent then End(call, PreflightFailed) else At(call, go)
  }

  /** The steps that touch only the call itself. */
  function LocalStep(env: Env, s: State, call: Call, ch: Choice): Call
    requires !call.pc.Done? && !call.pc.Confirm? && !call.pc.Write?
  {
    var k := |s.hist|;
    match call.pc
    case Validate =>
      if !env.enabled then End(call, Disabled)
      else if !ValidArguments(env, call.req) then End(call, Error)
      else (match ClusterFor(env, call.kubeCtx)
            case None => End(call, Error)
            case Some(ctx) => At(call, Authorize(ctx)))
    case Authorize(ctx) =>
      if Reach(s, ctx, ch).None? then Fail(call, Error)
      else if !ch.allowed then End(call, Forbidden)
      else At(call, PlanGet(ctx))
    case PlanGet(ctx) =>
      (match Get(env, s, call.req, ctx, ch)
       case None => Fail(call, Error)
       case Some(o) =>
         if call.req.Restart? then At(call, PlanInfer(ctx, o, k))
         else if call.req.DeletePod? && (IsControlPlanePod(call.req.namespace, o) || IsMirrorPod(o))
         then End(call, Error)
         else At(call, PlanCheck(ctx, o, k)))
    case PlanInfer(ctx, o, getAt) =>
      var cat := if call.req.Restart? && call.req.category != "" then call.req.category else ch.category;
      if cat != "" && !env.restartUseful(cat) && !(call.req.Restart? && call.req.force)
      then End(call, RestartNotRecommended)
      else At(call, PlanCheck(ctx, o, getAt))
    case PlanCheck(ctx, o, getAt) =>
      if ListsNothing(call.req, o) then
        At(call, Confirm(ctx, Want(env, call.req, ctx, o.uid, false), Seen(getAt, getAt, getAt)))
      else (match Reach(s, ctx, ch)
            case None => Fail(call, PreflightFailed)
            case Some(c) =>
              match Check(env, call.req, o, c)
              case Refuse(st) => End(call, st)
              case Consult => At(call, PlanCheckV1(ctx, o, getAt, k))
              case Pass(hpa) => At(call, Confirm(ctx, Want(env, call.req, ctx, o.uid, hpa), Seen(getAt, k, k))))
    case PlanCheckV1(ctx, o, getAt, checkAt) =>
      (match Reach(s, ctx, ch)
       case None => Fail(call, PreflightFailed)
       case Some(c) =>
         At(call, Confirm(ctx, Want(env, call.req, ctx, o.uid, HpaV1(env, call.req, c)), Seen(getAt, checkAt, k))))
    case ReGet(ctx, token, stored) =>
      (match Get(env, s, call.req, ctx, ch)
       case None => Fail(call, Error)
       case Some(live) =>
         if live.uid != stored.uid then End(call, ConfirmationMismatch)
         else if ListsNothing(call.req, live) then At(call, Write(ctx, token, stored, Seen(k, k, k)))
         else At(call, ReCheck(ctx, token, stored, live, k)))
    case ReCheck(ctx, token, stored, live, getAt) =>
      (match Reach(s, ctx, ch)
       case None => Fail(call, PreflightFailed)
       case Some(c) =>
         match Check(env, call.req, live, c)
         case Refuse(st) => End(call, st)
         case Consult => At(call, ReCheckV1(ctx, token, stored, live, getAt, k))
         case Pass(hpa) =>
           AfterRecheck(call, stored, hpa, Write(ctx, token, stored, Seen(getAt, k, k))))
    case ReCheckV1(ctx, token, stored, live, getAt, checkAt) =>
      (match Reach(s, ctx, ch)
       case None => Fail(call, PreflightFailed)
       case Some(c) =>
         AfterRecheck(call, stored, HpaV1(env, call.req, c), Write(ctx, token, stored, Seen(getAt, checkAt, k))))
  }

  /** Put on the first call. An ID that was issued before is never drawn again, so
      such an event does nothing. */
  function PutStep(env: Env, s: State, id: nat, call: Call, drawn: Option<string>, t2: int): State
    requires call.pc.Confirm?
  {
    var Confirm(ctx, want, plan) := call.pc;
    match drawn
    case None =>
      s.(now := t2, items := PutItems(s.items, env.ttl, want, None, s.now, t2),
         calls := s.calls[id := End(call, Error)])
    case Some(tok) =>
      if tok in s.issued then s
      else
        s.(now := t2, items := PutItems(s.items, env.ttl, want, Some(tok), s.now, t2),
           issued := s.issued[tok := Issue(want.(expires := t2 + env.ttl), id, call.req, ctx, plan, t2, |s.hist|)],
           calls := s.calls[id := End(call, ConfirmationRequired(tok))])
  }

  /** Take on the second. */
  function TakeStep(s: State, id: nat, call: Call, t2: int): State
    requires call.pc.Confirm?
  {
    var tok, want := call.confirmID, call.pc.want;
    var s1 := s.(now := t2, items := TakeItems(s.items, tok, want, s.now, t2));
    match TakeResult(s.items, tok, want, s.now, t2)
    case Success(p) =>
      s1.(taken := s.taken[tok := Taking(id, t2, |s.hist|)],
          calls := s.calls[id := At(call, ReGet(call.pc.ctx, tok, p))])
    case Failure(e) =>
      s1.(calls := s.calls[id := End(call, if e == Mismatch then ConfirmationMismatch else Error)])
  }

  function ConfirmStep(env: Env, s: State, id: nat, call: Call, ch: Choice): State
    requires call.pc.Confirm?
  {
    if call.confirmID == "" then PutStep(env, s, id, call, ch.freshID, s.now + ch.drift)
    else TakeStep(s, id, call, s.now + ch.drift)
  }

  /** What the server does with a write it carries out. */
  function Effect(req: Request, key: Key, c: Cluster): Cluster
    requires key in c.objects
  {
    var o := c.objects[key];
    match req
    case Restart(_, _, _, _) => c.(objects := c.objects[key := o.(restarts := o.restarts + 1)])
    case Scale(_, _, _, n) => c.(objects := c.objects[key := o.(replicas := n)])
    case DeletePod(_, _, _) => c.(objects := c.objects - {key})
    case SetCordon(_, cordon) => c.(objects := c.objects[key := o.(unschedulable := cordon)])
  }

  /** The one Patch or Delete. The server may carry it out and the reply may
      still be lost; a reply of success means that it was carried out. */
  function WriteStep(env: Env, s: State, id: nat, call: Call, ch: Choice): State
    requires call.pc.Write?
  {
    var Write(ctx, token, stored, seen) := call.pc;
    var key := KeyOf(env, call.req);
    var done := ch.applied && ctx in s.world && key in s.world[ctx].objects;
    s.(world := if done then s.world[ctx := Effect(call.req, key, s.world[ctx])] else s.world,
       sent := s.sent + [Mutation(id, call.req, ctx, token, seen, |s.hist|)],
       calls := s.calls[id := End(call, if done && ch.ok then Succeeded else Error)])
  }

  function CallStep(env: Env, s: State, id: nat, ch: Choice): State {
    if id !in s.calls || s.calls[id].pc.Done? then s
    else if s.calls[id].pc.Confirm? then ConfirmStep(env, s, id, s.calls[id], ch)
    else if s.calls[id].pc.Write? then WriteStep(env, s, id, s.calls[id], ch)
    else s.(calls := s.calls[id := LocalStep(env, s, s.calls[id], ch)])
  }

  function Apply(env: Env, s: State, e: Event): State {
    match e
    case Arrive(id, req, confirmID, kubeCtx) =>
      if id in s.calls then s else s.(calls := s.calls[id := Call(req, confirmID, kubeCtx, Validate, false)])
    case Step(id, ch) => CallStep(env, s, id, ch)
    case ClusterChanges(ctx, c) => s.(world := s.world[ctx := c])
    case Tick(drift) => s.(now := s.now + drift)
  }

  function Next(env: Env, s: State, e: Event): State {
    Apply(env, s, e).(hist := s.hist + [s.world])
  }

  /** No call has arrived and the store is empty; the clusters are arbitrary. */
  function Start(now: int, world: World): State {
    State(now, map[], world, map[], map[], map[], [], [])
  }

  function Run(env: Env, s: State, events: seq<Event>): State {
    if events == [] then s
    else Next(env, Run(env, s, events[..|events| - 1]), events[|events| - 1])
  }

  // ----- A step moves one call -----

  /** A Put or Take moves its own call, ends it or sends it to its re-read, and
      leaves the clusters alone. */
  ghost predicate OnlyConfirms(s: State, s': State, id: nat) {
    && s'.world == s.world && s'.sent == s.sent
    && id in s.calls && id in s'.calls && s'.calls == s.calls[id := s'.calls[id]]
    && (s'.calls[id].pc.Done? || s'.calls[id].pc.ReGet? || s'.calls[id] == s.calls[id])
  }

  lemma PutOnlyConfirms(env: Env, s: State, id: nat, call: Call, drawn: Option<string>, t2: int)
    requires id in s.calls && s.calls[id] == call && call.pc.Confirm?
    ensures OnlyConfirms(s, PutStep(env, s, id, call, drawn, t2), id)
  {
    if drawn.Some? && drawn.value in s.issued {
      assert s.calls == s.calls[id := call];
    }
  }

  lemma TakeOnlyConfirms(s: State, id: nat, call: Call, t2: int)
    requires id in s.calls && call.pc.Confirm?
    ensures OnlyConfirms(s, TakeStep(s, id, call, t2), id)
  {
  }

  lemma ConfirmOnlyConfirms(env: Env, s: State, id: nat, ch: Choice)
    requires id in s.calls && s.calls[id].pc.Confirm?
    ensures OnlyConfirms(s, ConfirmStep(env, s, id, s.calls[id], ch), id)
  {
    if s.calls[id].confirmID == "" {
      PutOnlyConfirms(env, s, id, s.calls[id], ch.freshID, s.now + ch.drift);
    } else {
      TakeOnlyConfirms(s, id, s.calls[id], s.now + ch.drift);
    }
  }

  lemma StepMovesOne(env: Env, s: State, id: nat, ch: Choice)
    ensures forall k :: k != id ==> (k in s.calls <==> k in CallStep(env, s, id, ch).calls)
    ensures forall k :: k != id && k in s.calls ==> CallStep(env, s, id, ch).calls[k] == s.calls[k]
    ensures id in s.calls <==> id in CallStep(env, s, id, ch).calls
  {
    if id in s.calls && s.calls[id].pc.Confirm? {
      ConfirmOnlyConfirms(env, s, id, ch);
    }
  }

  /** An event moves at most the call it names. */
  lemma OthersStay(env: Env, s: State, e: Event, id: nat)
    requires id in Next(env, s, e).calls && !(e.Step? && e.id == id)
    ensures (id in s.calls && Next(env, s, e).calls[id] == s.calls[id])
            || (id !in s.calls && Next(env, s, e).calls[id].pc.Validate?)
  {
    if e.Step? {
      StepMovesOne(env, s, e.id, e.choice);
    }
  }

  /** Only a call that is about to write sends anything. */
  lemma OnlyWritesSend(env: Env, s: State, e: Event)
    requires e.Step? ==> e.id !in s.calls || !s.calls[e.id].pc.Write?
    ensures Next(env, s, e).sent == s.sent
  {
    if e.Step? && e.id in s.calls && s.calls[e.id].pc.Confirm? {
      ConfirmOnlyConfirms(env, s, e.id, e.choice);
    }
  }
}
