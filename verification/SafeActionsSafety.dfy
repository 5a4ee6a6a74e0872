/** Safety of guarded actions over every run: what each Patch or Delete that is
    ever sent can be traced back to. */
module SafeActionsSafety {
  import opened Wrappers
  import opened Confirmation
  import opened Preflight
  import opened SafeActions

  type Issues = map<string, Issue>
  type Takings = map<string, Taking>

  // ----- What a token, a check and a write have to show -----

  /** The token is for exactly this request in this context: every field that
      binds, and no parameter of another action. */
  ghost predicate Authorises(env: Env, p: Pending, req: Request, ctx: string) {
    && p.action == ActionOf(req)
    && p.apiGroup == (if req.Restart? || req.Scale? then Apps else Core)
    && p.kind == KindOf(env, req)
    && p.name == req.name
    && p.namespace == NamespaceOf(req)
    && p.context == ctx
    && p.replicas == (if req.Scale? then Some(req.replicas) else None)
    && p.grace == (if req.DeletePod? then Some(req.grace) else None)
    && p.cordon == (if req.SetCordon? then Some(req.cordon) else None)
  }

  /** At event k the request's target existed in context ctx. */
  ghost predicate Existed(env: Env, hist: seq<World>, req: Request, ctx: string, k: nat) {
    k < |hist| && ctx in hist[k] && KeyOf(env, req) in hist[k][ctx].objects
  }

  ghost function TargetAt(env: Env, hist: seq<World>, req: Request, ctx: string, k: nat): Object
    requires Existed(env, hist, req, ctx, k)
  {
    hist[k][ctx].objects[KeyOf(env, req)]
  }

  /** Nothing in the lists of a check forbids the request on the object read. */
  ghost predicate Permitted(env: Env, req: Request, o: Object, first: Cluster, second: Cluster, hpaKnown: bool) {
    match req
    case Restart(_, ns, _, _) => !WorkloadBlocked(In(first.pdbs, ns), o.selector)
    case DeletePod(_, ns, _) => !PodBlocked(In(first.pdbs, ns), o.labels)
    case Scale(_, name, ns, n) =>
      hpaKnown || (!HpaTargets(In(first.hpasV2, ns), KindOf(env, req), name) && !HpaV1(env, req, second))
    case SetCordon(_, _) => Takes(o) ==> |SchedulableReady(first)| >= 2
  }

  /** The reads really happened, in order, and the cluster then was as the check
      demands: the target had this UID at the first, and the lists made after it
      permitted the request. */
  ghost predicate Checked(env: Env, hist: seq<World>, req: Request, ctx: string, uid: string, hpaKnown: bool,
                          seen: Seen) {
    && ValidArguments(env, req)
    && Existed(env, hist, req, ctx, seen.getAt)
    && seen.getAt <= seen.checkAt <= seen.v1At < |hist|
    && var o := TargetAt(env, hist, req, ctx, seen.getAt);
    && o.uid == uid
    && (ListsNothing(req, o) ||
        (&& seen.getAt < seen.checkAt
         && ctx in hist[seen.checkAt] && ctx in hist[seen.v1At]
         && Permitted(env, req, o, hist[seen.checkAt][ctx], hist[seen.v1At][ctx], hpaKnown)))
  }

  /** For a scale, the token says whether planning saw an autoscaler. */
  ghost predicate HpaRecorded(env: Env, hist: seq<World>, req: Request, ctx: string, hpa: bool, seen: Seen) {
    && seen.checkAt < |hist| && seen.v1At < |hist|
    && (req.Scale? ==>
          && ctx in hist[seen.checkAt] && ctx in hist[seen.v1At]
          && (hpa <==> HpaTargets(In(hist[seen.checkAt][ctx].hpasV2, NamespaceOf(req)), KindOf(env, req), req.name)
                       || HpaV1(env, req, hist[seen.v1At][ctx])))
  }

  /** A token was issued for what its planning call read. */
  ghost predicate IssueOk(env: Env, hist: seq<World>, issue: Issue) {
    && issue.at < |hist|
    && issue.plan.v1At < issue.at
    && Authorises(env, issue.pending, issue.req, issue.ctx)
    && issue.pending.expires == issue.clock + env.ttl
    && Checked(env, hist, issue.req, issue.ctx, issue.pending.uid, true, issue.plan)
    && HpaRecorded(env, hist, issue.req, issue.ctx, issue.pending.hpaPresent, issue.plan)
  }

  ghost predicate TakenOk(hist: seq<World>, issued: Issues, taken: Takings, tok: string)
    requires tok in taken
  {
    && tok in issued
    && issued[tok].at < taken[tok].at < |hist|
    && taken[tok].clock <= issued[tok].pending.expires
  }

  /** Call id took this token, and the token is for the call's request. */
  ghost predicate Holds(env: Env, issued: Issues, taken: Takings, id: nat, req: Request, ctx: string, tok: string) {
    && tok in issued && tok in taken
    && taken[tok].call == id
    && Authorises(env, issued[tok].pending, req, ctx)
    && ValidArguments(env, req)
  }

  /** What is true of a write that was sent. */
  ghost predicate SentOk(env: Env, s: State, m: Mutation) {
    && Holds(env, s.issued, s.taken, m.call, m.req, m.ctx, m.token)
    && s.taken[m.token].at < m.seen.getAt
    && m.seen.v1At < m.at < |s.hist|
    && Checked(env, s.hist, m.req, m.ctx, s.issued[m.token].pending.uid, s.issued[m.token].pending.hpaPresent, m.seen)
    && m.call in s.calls && s.calls[m.call].req == m.req
    && s.calls[m.call].pc.Done? && !s.calls[m.call].failed
  }

  // ----- The invariant -----

  ghost predicate Saw(env: Env, hist: seq<World>, req: Request, ctx: string, o: Object, k: nat) {
    Existed(env, hist, req, ctx, k) && TargetAt(env, hist, req, ctx, k) == o
  }

  ghost predicate SawNoV2(env: Env, hist: seq<World>, req: Request, ctx: string, getAt: nat, checkAt: nat) {
    && req.Scale? && getAt < checkAt < |hist| && ctx in hist[checkAt]
    && !HpaTargets(In(hist[checkAt][ctx].hpasV2, req.namespace), KindOf(env, req), req.name)
  }

  /** What a call knows before it presents or asks for a token. */
  ghost predicate PlanOk(env: Env, hist: seq<World>, req: Request, pc: PC) {
    match pc
    case PlanInfer(ctx, o, getAt) => Saw(env, hist, req, ctx, o, getAt) && req.Restart?
    case PlanCheck(ctx, o, getAt) => Saw(env, hist, req, ctx, o, getAt)
    case PlanCheckV1(ctx, o, getAt, checkAt) =>
      Saw(env, hist, req, ctx, o, getAt) && SawNoV2(env, hist, req, ctx, getAt, checkAt)
    case Confirm(ctx, want, plan) =>
      && Authorises(env, want, req, ctx)
      && Checked(env, hist, req, ctx, want.uid, true, plan)
      && HpaRecorded(env, hist, req, ctx, want.hpaPresent, plan)
    case _ => true
  }

  ghost predicate Holding(pc: PC) {
    pc.ReGet? || pc.ReCheck? || pc.ReCheckV1? || pc.Write?
  }

  /** What a call that holds a token knows, p being the token's binding and
      takenAt the event at which it was taken. */
  ghost predicate HeldOk(env: Env, hist: seq<World>, req: Request, pc: PC, p: Pending, takenAt: nat)
    requires Holding(pc)
  {
    && pc.stored == p
    && match pc
       case ReCheck(ctx, tok, stored, live, getAt) =>
         Saw(env, hist, req, ctx, live, getAt) && live.uid == stored.uid && takenAt < getAt
       case ReCheckV1(ctx, tok, stored, live, getAt, checkAt) =>
         && Saw(env, hist, req, ctx, live, getAt) && live.uid == stored.uid && takenAt < getAt
         && SawNoV2(env, hist, req, ctx, getAt, checkAt)
       case Write(ctx, tok, stored, seen) =>
         Checked(env, hist, req, ctx, stored.uid, stored.hpaPresent, seen) && takenAt < seen.getAt
       case _ => true
  }

  ghost predicate CallOk(env: Env, hist: seq<World>, issued: Issues, taken: Takings, id: nat, call: Call) {
    && (call.failed ==> call.pc.Done?)
    && (!call.pc.Validate? && !call.pc.Done? ==> ValidArguments(env, call.req))
    && PlanOk(env, hist, call.req, call.pc)
    && (Holding(call.pc) ==>
          && Holds(env, issued, taken, id, call.req, call.pc.ctx, call.pc.token)
          && HeldOk(env, hist, call.req, call.pc, issued[call.pc.token].pending, taken[call.pc.token].at))
  }

  ghost predicate ItemsOk(items: Items, issued: Issues, taken: Takings) {
    forall tok :: tok in items ==> tok in issued && issued[tok].pending == items[tok] && tok !in taken
  }

  ghost predicate IssuesOk(env: Env, hist: seq<World>, issued: Issues) {
    forall tok {:trigger IssueOk(env, hist, issued[tok])} :: tok in issued ==> IssueOk(env, hist, issued[tok])
  }

  ghost predicate TakingsOk(hist: seq<World>, issued: Issues, taken: Takings) {
    forall tok {:trigger TakenOk(hist, issued, taken, tok)} :: tok in taken ==> TakenOk(hist, issued, taken, tok)
  }

  ghost predicate TokensOk(env: Env, s: State) {
    && ItemsOk(s.items, s.issued, s.taken)
    && IssuesOk(env, s.hist, s.issued)
    && TakingsOk(s.hist, s.issued, s.taken)
  }

  ghost predicate CallsOk(env: Env, s: State) {
    forall id {:trigger CallOk(env, s.hist, s.issued, s.taken, id, s.calls[id])} :: id in s.calls ==>
      CallOk(env, s.hist, s.issued, s.taken, id, s.calls[id])
  }

  ghost predicate LogOk(env: Env, s: State) {
    && (forall i {:trigger SentOk(env, s, s.sent[i])} :: 0 <= i < |s.sent| ==> SentOk(env, s, s.sent[i]))
    && (forall i, j :: 0 <= i < j < |s.sent| ==> s.sent[i].call != s.sent[j].call)
  }

  ghost predicate Inv(env: Env, s: State) {
    TokensOk(env, s) && CallsOk(env, s) && LogOk(env, s)
  }

  // ----- The history only grows -----

  ghost predicate Extends<K, V>(m: map<K, V>, m': map<K, V>) {
    forall k :: k in m ==> k in m' && m'[k] == m[k]
  }

  lemma CheckedLater(env: Env, hist: seq<World>, w: World, req: Request, ctx: string, uid: string, hpa: bool,
                     seen: Seen)
    ensures Checked(env, hist, req, ctx, uid, hpa, seen) ==> Checked(env, hist + [w], req, ctx, uid, hpa, seen)
  {
  }

  lemma PlanOkLater(env: Env, hist: seq<World>, w: World, req: Request, pc: PC)
    requires PlanOk(env, hist, req, pc)
    ensures PlanOk(env, hist + [w], req, pc)
  {
  }

  lemma HeldOkLater(env: Env, hist: seq<World>, w: World, req: Request, pc: PC, p: Pending, takenAt: nat)
    requires Holding(pc) && HeldOk(env, hist, req, pc, p, takenAt)
    ensures HeldOk(env, hist + [w], req, pc, p, takenAt)
  {
  }

  lemma CallOkLater(env: Env, hist: seq<World>, w: World, issued: Issues, issued': Issues,
                    taken: Takings, taken': Takings, id: nat, call: Call)
    requires CallOk(env, hist, issued, taken, id, call)
    requires Extends(issued, issued') && Extends(taken, taken')
    ensures CallOk(env, hist + [w], issued', taken', id, call)
  {
    PlanOkLater(env, hist, w, call.req, call.pc);
    if Holding(call.pc) {
      HeldOkLater(env, hist, w, call.req, call.pc, issued[call.pc.token].pending, taken[call.pc.token].at);
    }
  }

  lemma SentOkLater(env: Env, s: State, s': State, m: Mutation)
    requires SentOk(env, s, m)
    requires s'.hist == s.hist + [s.world]
    requires Extends(s.issued, s'.issued) && Extends(s.taken, s'.taken)
    requires m.call in s'.calls && s'.calls[m.call] == s.calls[m.call]
    ensures SentOk(env, s', m)
  {
    var p := s.issued[m.token].pending;
    CheckedLater(env, s.hist, s.world, m.req, m.ctx, p.uid, p.hpaPresent, m.seen);
  }

  lemma CallsLater(env: Env, s: State, s': State, id: nat)
    requires CallsOk(env, s)
    requires s'.hist == s.hist + [s.world]
    requires Extends(s.issued, s'.issued) && Extends(s.taken, s'.taken)
    requires forall k :: k in s'.calls && k != id ==> k in s.calls && s'.calls[k] == s.calls[k]
    requires id in s'.calls ==> CallOk(env, s.hist + [s.world], s'.issued, s'.taken, id, s'.calls[id])
    ensures CallsOk(env, s')
  {
    forall k | k in s'.calls && k != id ensures CallOk(env, s'.hist, s'.issued, s'.taken, k, s'.calls[k]) {
      CallOkLater(env, s.hist, s.world, s.issued, s'.issued, s.taken, s'.taken, k, s.calls[k]);
    }
  }

  ghost predicate DoneStay(calls: map<nat, Call>, calls': map<nat, Call>) {
    forall k :: k in calls && calls[k].pc.Done? ==> k in calls' && calls'[k] == calls[k]
  }

  lemma LogLater(env: Env, s: State, s': State)
    requires LogOk(env, s)
    requires s'.hist == s.hist + [s.world] && s.sent <= s'.sent
    requires Extends(s.issued, s'.issued) && Extends(s.taken, s'.taken)
    requires DoneStay(s.calls, s'.calls)
    ensures forall i :: 0 <= i < |s.sent| ==> SentOk(env, s', s.sent[i])
    ensures s'.sent == s.sent ==> LogOk(env, s')
  {
    forall i | 0 <= i < |s.sent| ensures SentOk(env, s', s.sent[i]) {
      SentOkLater(env, s, s', s.sent[i]);
    }
  }

  lemma IssuesLater(env: Env, hist: seq<World>, w: World, issued: Issues)
    requires IssuesOk(env, hist, issued)
    ensures IssuesOk(env, hist + [w], issued)
  {
    forall tok | tok in issued ensures IssueOk(env, hist + [w], issued[tok]) {
      var i := issued[tok];
      assert IssueOk(env, hist, i);
      CheckedLater(env, hist, w, i.req, i.ctx, i.pending.uid, true, i.plan);
    }
  }

  lemma TakingsLater(hist: seq<World>, w: World, issued: Issues, issued': Issues, taken: Takings)
    requires TakingsOk(hist, issued, taken)
    requires Extends(issued, issued')
    ensures TakingsOk(hist + [w], issued', taken)
  {
    forall tok | tok in taken ensures TakenOk(hist + [w], issued', taken, tok) {
      assert TakenOk(hist, issued, taken, tok);
    }
  }

  // ----- Each kind of event keeps the invariant -----

  /** An event that leaves the tokens and the log alone and changes at most one
      call, which is not done. */
  lemma FrameKeeps(env: Env, s: State, s': State, id: nat)
    requires TokensOk(env, s) && CallsOk(env, s) && LogOk(env, s)
    requires s'.hist == s.hist + [s.world]
    requires s'.items == s.items && s'.issued == s.issued && s'.taken == s.taken && s'.sent == s.sent
    requires forall k :: k in s'.calls && k != id ==> k in s.calls && s'.calls[k] == s.calls[k]
    requires DoneStay(s.calls, s'.calls)
    requires id in s'.calls ==> CallOk(env, s.hist + [s.world], s.issued, s.taken, id, s'.calls[id])
    ensures Inv(env, s')
  {
    CallsLater(env, s, s', id);
    LogLater(env, s, s');
    IssuesLater(env, s.hist, s.world, s.issued);
    TakingsLater(s.hist, s.world, s.issued, s.issued, s.taken);
  }

  ghost predicate Planning(pc: PC) {
    pc.Validate? || pc.Authorize? || pc.PlanGet? || pc.PlanInfer? || pc.PlanCheck? || pc.PlanCheckV1?
  }

  lemma PlanStepKeeps(env: Env, s: State, call: Call, ch: Choice)
    requires Planning(call.pc) && !call.pc.PlanCheck? && !call.pc.PlanCheckV1?
    requires !call.failed && PlanOk(env, s.hist, call.req, call.pc)
    requires !call.pc.Validate? ==> ValidArguments(env, call.req)
    ensures var call' := LocalStep(env, s, call, ch);
            && (call'.failed ==> call'.pc.Done?) && !Holding(call'.pc)
            && (!call'.pc.Validate? && !call'.pc.Done? ==> ValidArguments(env, call'.req))
            && PlanOk(env, s.hist + [s.world], call'.req, call'.pc)
  {
    assert (s.hist + [s.world])[|s.hist|] == s.world;
  }

  lemma PlanCheckKeeps(env: Env, s: State, call: Call, ch: Choice)
    requires call.pc.PlanCheck? || call.pc.PlanCheckV1?
    requires !call.failed && PlanOk(env, s.hist, call.req, call.pc)
    requires ValidArguments(env, call.req)
    ensures var call' := LocalStep(env, s, call, ch);
            && call'.req == call.req && (call'.failed ==> call'.pc.Done?) && !Holding(call'.pc)
            && PlanOk(env, s.hist + [s.world], call'.req, call'.pc)
  {
    assert (s.hist + [s.world])[|s.hist|] == s.world;
  }

  lemma RecheckStepKeeps(env: Env, s: State, call: Call, ch: Choice, p: Pending, takenAt: nat)
    requires call.pc.ReGet? || call.pc.ReCheck? || call.pc.ReCheckV1?
    requires !call.failed && ValidArguments(env, call.req) && takenAt < |s.hist|
    requires HeldOk(env, s.hist, call.req, call.pc, p, takenAt)
    ensures var call' := LocalStep(env, s, call, ch);
            && call'.req == call.req && (call'.failed ==> call'.pc.Done?)
            && (call'.pc.Done? ||
                (&& Holding(call'.pc) && call'.pc.ctx == call.pc.ctx && call'.pc.token == call.pc.token
                 && HeldOk(env, s.hist + [s.world], call'.req, call'.pc, p, takenAt)))
  {
    assert (s.hist + [s.world])[|s.hist|] == s.world;
  }

  lemma LocalStepKeeps(env: Env, s: State, id: nat, ch: Choice)
    requires id in s.calls && CallOk(env, s.hist, s.issued, s.taken, id, s.calls[id])
    requires TakingsOk(s.hist, s.issued, s.taken)
    requires !s.calls[id].pc.Done? && !s.calls[id].pc.Confirm? && !s.calls[id].pc.Write?
    ensures CallOk(env, s.hist + [s.world], s.issued, s.taken, id, LocalStep(env, s, s.calls[id], ch))
  {
    var call := s.calls[id];
    if call.pc.PlanCheck? || call.pc.PlanCheckV1? {
      PlanCheckKeeps(env, s, call, ch);
    } else if Planning(call.pc) {
      PlanStepKeeps(env, s, call, ch);
    } else {
      var tok := call.pc.token;
      assert TakenOk(s.hist, s.issued, s.taken, tok);
      RecheckStepKeeps(env, s, call, ch, s.issued[tok].pending, s.taken[tok].at);
    }
  }

  lemma PutKeeps(env: Env, s: State, id: nat, ch: Choice)
    requires TokensOk(env, s) && CallsOk(env, s) && LogOk(env, s)
    requires id in s.calls && s.calls[id].pc.Confirm? && s.calls[id].confirmID == ""
    requires ch.freshID.Some? ==> ch.freshID.value !in s.issued
    ensures Inv(env, ConfirmStep(env, s, id, s.calls[id], ch).(hist := s.hist + [s.world]))
  {
    assert CallOk(env, s.hist, s.issued, s.taken, id, s.calls[id]);
    PutTokens(env, s, id, ch);
    PutCall(env, s, id, ch);
    var s' := ConfirmStep(env, s, id, s.calls[id], ch).(hist := s.hist + [s.world]);
    CallsLater(env, s, s', id);
    LogLater(env, s, s');
  }

  lemma PutCall(env: Env, s: State, id: nat, ch: Choice)
    requires id in s.calls && s.calls[id].pc.Confirm? && s.calls[id].confirmID == ""
    requires ch.freshID.Some? ==> ch.freshID.value !in s.issued
    ensures var s' := ConfirmStep(env, s, id, s.calls[id], ch);
            s'.calls[id].pc.Done? && s'.calls == s.calls[id := s'.calls[id]]
            && s'.sent == s.sent && s'.taken == s.taken
  {
  }

  lemma PutTokens(env: Env, s: State, id: nat, ch: Choice)
    requires ItemsOk(s.items, s.issued, s.taken) && IssuesOk(env, s.hist, s.issued)
             && TakingsOk(s.hist, s.issued, s.taken)
    requires id in s.calls && s.calls[id].pc.Confirm? && s.calls[id].confirmID == ""
    requires CallOk(env, s.hist, s.issued, s.taken, id, s.calls[id])
    requires ch.freshID.Some? ==> ch.freshID.value !in s.issued
    ensures var s' := ConfirmStep(env, s, id, s.calls[id], ch);
            && ItemsOk(s'.items, s'.issued, s'.taken)
            && IssuesOk(env, s.hist + [s.world], s'.issued)
            && TakingsOk(s.hist + [s.world], s'.issued, s'.taken)
  {
    IssuesLater(env, s.hist, s.world, s.issued);
    FreshIsUntaken(s.hist, s.issued, s.taken);
    PutItemsOk(env, s, id, ch);
    TakingsLater(s.hist, s.world, s.issued, ConfirmStep(env, s, id, s.calls[id], ch).issued, s.taken);
    if ch.freshID.Some? {
      NewIssueOk(env, s, id, ch);
    }
  }

  lemma PutItemsOk(env: Env, s: State, id: nat, ch: Choice)
    requires ItemsOk(s.items, s.issued, s.taken)
    requires id in s.calls && s.calls[id].pc.Confirm? && s.calls[id].confirmID == ""
    requires ch.freshID.Some? ==> ch.freshID.value !in s.issued && ch.freshID.value !in s.taken
    ensures var s' := ConfirmStep(env, s, id, s.calls[id], ch);
            ItemsOk(s'.items, s'.issued, s'.taken) && Extends(s.issued, s'.issued)
  {
    var Confirm(ctx, want, plan) := s.calls[id].pc;
    var t2 := s.now + ch.drift;
    var kept := PutItems(s.items, env.ttl, want, None, s.now, t2);
    assert ItemsOk(kept, s.issued, s.taken);
    if ch.freshID.Some? {
      var issue := Issue(want.(expires := t2 + env.ttl), id, s.calls[id].req, ctx, plan, t2, |s.hist|);
      NewItem(kept, s.issued, s.taken, ch.freshID.value, issue);
    }
  }

  lemma NewItem(items: Items, issued: Issues, taken: Takings, tok: string, issue: Issue)
    requires ItemsOk(items, issued, taken) && tok !in issued && tok !in taken
    ensures ItemsOk(items[tok := issue.pending], issued[tok := issue], taken)
    ensures Extends(issued, issued[tok := issue])
  {
  }

  lemma FreshIsUntaken(hist: seq<World>, issued: Issues, taken: Takings)
    requires TakingsOk(hist, issued, taken)
    ensures forall tok :: tok !in issued ==> tok !in taken
  {
    forall tok | tok in taken ensures tok in issued {
      assert TakenOk(hist, issued, taken, tok);
    }
  }

  lemma NewIssueOk(env: Env, s: State, id: nat, ch: Choice)
    requires id in s.calls && s.calls[id].pc.Confirm? && s.calls[id].confirmID == ""
    requires CallOk(env, s.hist, s.issued, s.taken, id, s.calls[id])
    requires ch.freshID.Some? && ch.freshID.value !in s.issued
    ensures IssueOk(env, s.hist + [s.world], ConfirmStep(env, s, id, s.calls[id], ch).issued[ch.freshID.value])
  {
    var Confirm(ctx, want, plan) := s.calls[id].pc;
    CheckedLater(env, s.hist, s.world, s.calls[id].req, ctx, want.uid, true, plan);
  }

  lemma TakeKeeps(env: Env, s: State, id: nat, ch: Choice)
    requires TokensOk(env, s) && CallsOk(env, s) && LogOk(env, s)
    requires id in s.calls && s.calls[id].pc.Confirm? && s.calls[id].confirmID != ""
    ensures Inv(env, ConfirmStep(env, s, id, s.calls[id], ch).(hist := s.hist + [s.world]))
  {
    var s' := ConfirmStep(env, s, id, s.calls[id], ch).(hist := s.hist + [s.world]);
    IssuesLater(env, s.hist, s.world, s.issued);
    TakingsLater(s.hist, s.world, s.issued, s.issued, s.taken);
    TakeTokens(env, s, id, ch);
    CallsLater(env, s, s', id);
    LogLater(env, s, s');
  }

  lemma TakeTokens(env: Env, s: State, id: nat, ch: Choice)
    requires ItemsOk(s.items, s.issued, s.taken)
    requires IssuesOk(env, s.hist, s.issued)
    requires TakingsOk(s.hist + [s.world], s.issued, s.taken)
    requires id in s.calls && s.calls[id].pc.Confirm? && s.calls[id].confirmID != ""
    requires CallOk(env, s.hist, s.issued, s.taken, id, s.calls[id])
    ensures var s' := ConfirmStep(env, s, id, s.calls[id], ch);
            && Extends(s.taken, s'.taken)
            && ItemsOk(s'.items, s.issued, s'.taken)
            && TakingsOk(s.hist + [s.world], s.issued, s'.taken)
            && CallOk(env, s.hist + [s.world], s.issued, s'.taken, id, s'.calls[id])
  {
    var tok := s.calls[id].confirmID;
    if TakeResult(s.items, tok, s.calls[id].pc.want, s.now, s.now + ch.drift).Success? {
      assert IssueOk(env, s.hist, s.issued[tok]);
      TakeGranted(env, s, id, ch);
    } else {
      TakeRefused(env, s, id, ch);
    }
  }

  lemma TakeRefused(env: Env, s: State, id: nat, ch: Choice)
    requires ItemsOk(s.items, s.issued, s.taken)
    requires id in s.calls && s.calls[id].pc.Confirm? && s.calls[id].confirmID != ""
    requires TakeResult(s.items, s.calls[id].confirmID, s.calls[id].pc.want, s.now, s.now + ch.drift).Failure?
    ensures var s' := ConfirmStep(env, s, id, s.calls[id], ch);
            s'.taken == s.taken && ItemsOk(s'.items, s.issued, s.taken)
            && s'.calls[id].pc.Done? && s'.calls[id].failed == s.calls[id].failed
  {
  }

  lemma TakeGranted(env: Env, s: State, id: nat, ch: Choice)
    requires ItemsOk(s.items, s.issued, s.taken)
    requires TakingsOk(s.hist + [s.world], s.issued, s.taken)
    requires id in s.calls && s.calls[id].pc.Confirm? && s.calls[id].confirmID != ""
    requires CallOk(env, s.hist, s.issued, s.taken, id, s.calls[id])
    requires TakeResult(s.items, s.calls[id].confirmID, s.calls[id].pc.want, s.now, s.now + ch.drift).Success?
    requires s.issued[s.calls[id].confirmID].at < |s.hist|
    ensures var s' := ConfirmStep(env, s, id, s.calls[id], ch);
            && Extends(s.taken, s'.taken)
            && ItemsOk(s'.items, s.issued, s'.taken)
            && TakingsOk(s.hist + [s.world], s.issued, s'.taken)
            && CallOk(env, s.hist + [s.world], s.issued, s'.taken, id, s'.calls[id])
  {
    var s', tok := ConfirmStep(env, s, id, s.calls[id], ch), s.calls[id].confirmID;
    assert s'.items == Live(s.items, s.now) - {tok};
    NewTaking(s.hist + [s.world], Live(s.items, s.now), s.issued, s.taken, s'.taken, tok);
    HoldsWhatItTook(env, s, id, ch);
  }

  lemma NewTaking(hist: seq<World>, items: Items, issued: Issues, taken: Takings, taken': Takings, tok: string)
    requires ItemsOk(items, issued, taken) && TakingsOk(hist, issued, taken)
    requires tok in items && tok in taken' && taken' == taken[tok := taken'[tok]]
    requires issued[tok].at < taken'[tok].at < |hist| && taken'[tok].clock <= issued[tok].pending.expires
    ensures Extends(taken, taken') && ItemsOk(items - {tok}, issued, taken') && TakingsOk(hist, issued, taken')
  {
    forall t | t in taken' ensures TakenOk(hist, issued, taken', t) {
      if t in taken {
        assert TakenOk(hist, issued, taken, t);
      }
    }
  }

  lemma HoldsWhatItTook(env: Env, s: State, id: nat, ch: Choice)
    requires ItemsOk(s.items, s.issued, s.taken)
    requires id in s.calls && s.calls[id].pc.Confirm? && s.calls[id].confirmID != ""
    requires CallOk(env, s.hist, s.issued, s.taken, id, s.calls[id])
    requires TakeResult(s.items, s.calls[id].confirmID, s.calls[id].pc.want, s.now, s.now + ch.drift).Success?
    ensures var s' := ConfirmStep(env, s, id, s.calls[id], ch);
            CallOk(env, s.hist + [s.world], s.issued, s'.taken, id, s'.calls[id])
  {
    BindMatchMeans(s.items[s.calls[id].confirmID], s.calls[id].pc.want);
  }

  lemma WriteKeeps(env: Env, s: State, id: nat, ch: Choice)
    requires TokensOk(env, s) && CallsOk(env, s) && LogOk(env, s)
    requires id in s.calls && s.calls[id].pc.Write?
    ensures Inv(env, WriteStep(env, s, id, s.calls[id], ch).(hist := s.hist + [s.world]))
  {
    var s' := WriteStep(env, s, id, s.calls[id], ch).(hist := s.hist + [s.world]);
    CallsLater(env, s, s', id);
    WriteLog(env, s, id, ch);
    IssuesLater(env, s.hist, s.world, s.issued);
    TakingsLater(s.hist, s.world, s.issued, s.issued, s.taken);
  }

  lemma WriteLog(env: Env, s: State, id: nat, ch: Choice)
    requires LogOk(env, s)
    requires id in s.calls && s.calls[id].pc.Write?
    requires CallOk(env, s.hist, s.issued, s.taken, id, s.calls[id])
    ensures LogOk(env, WriteStep(env, s, id, s.calls[id], ch).(hist := s.hist + [s.world]))
  {
    var s' := WriteStep(env, s, id, s.calls[id], ch).(hist := s.hist + [s.world]);
    LogLater(env, s, s');
    NewWriteOk(env, s, id, ch);
    forall i | 0 <= i < |s.sent| ensures s'.sent[i].call != id {
      assert SentOk(env, s, s.sent[i]);
    }
  }

  lemma NewWriteOk(env: Env, s: State, id: nat, ch: Choice)
    requires id in s.calls && s.calls[id].pc.Write?
    requires CallOk(env, s.hist, s.issued, s.taken, id, s.calls[id])
    ensures var s' := WriteStep(env, s, id, s.calls[id], ch).(hist := s.hist + [s.world]);
            SentOk(env, s', s'.sent[|s.sent|])
  {
    var Write(ctx, tok, stored, seen) := s.calls[id].pc;
    CheckedLater(env, s.hist, s.world, s.calls[id].req, ctx, stored.uid, stored.hpaPresent, seen);
  }

  lemma NextKeeps(env: Env, s: State, e: Event)
    requires Inv(env, s)
    ensures Inv(env, Next(env, s, e))
  {
    match e
    case Arrive(id, _, _, _) => QuietKeeps(env, s, e, id);
    case ClusterChanges(_, _) => QuietKeeps(env, s, e, 0);
    case Tick(_) => QuietKeeps(env, s, e, 0);
    case Step(id, ch) =>
      if id !in s.calls || s.calls[id].pc.Done? {
        QuietKeeps(env, s, e, id);
      } else if s.calls[id].pc.Confirm? {
        if s.calls[id].confirmID != "" {
          TakeKeeps(env, s, id, ch);
        } else if ch.freshID.Some? && ch.freshID.value in s.issued {
          QuietKeeps(env, s, e, id);
        } else {
          PutKeeps(env, s, id, ch);
        }
      } else if s.calls[id].pc.Write? {
        WriteKeeps(env, s, id, ch);
      } else {
        LocalKeeps(env, s, id, ch);
      }
  }

  lemma LocalKeeps(env: Env, s: State, id: nat, ch: Choice)
    requires TokensOk(env, s) && CallsOk(env, s) && LogOk(env, s)
    requires id in s.calls && !s.calls[id].pc.Done? && !s.calls[id].pc.Confirm? && !s.calls[id].pc.Write?
    ensures Inv(env, Next(env, s, Step(id, ch)))
  {
    assert CallOk(env, s.hist, s.issued, s.taken, id, s.calls[id]);
    LocalStepKeeps(env, s, id, ch);
    FrameKeeps(env, s, Next(env, s, Step(id, ch)), id);
  }

  /** Events that change no existing call. */
  lemma QuietKeeps(env: Env, s: State, e: Event, id: nat)
    requires TokensOk(env, s) && CallsOk(env, s) && LogOk(env, s)
    requires e.Step? ==>
               || e.id !in s.calls || s.calls[e.id].pc.Done?
               || (s.calls[e.id].pc.Confirm? && s.calls[e.id].confirmID == ""
                   && e.choice.freshID.Some? && e.choice.freshID.value in s.issued)
    requires e.Arrive? ==> id == e.id
    ensures Inv(env, Next(env, s, e))
  {
    if id in s.calls {
      CallOkLater(env, s.hist, s.world, s.issued, s.issued, s.taken, s.taken, id, s.calls[id]);
    }
    FrameKeeps(env, s, Next(env, s, e), id);
  }

  lemma {:induction false} InvAlways(env: Env, now: int, world: World, events: seq<Event>)
    ensures Inv(env, Run(env, Start(now, world), events))
  {
    if events != [] {
      InvAlways(env, now, world, events[..|events| - 1]);
      NextKeeps(env, Run(env, Start(now, world), events[..|events| - 1]), events[|events| - 1]);
    }
  }

  // ----- The theorems -----

  /** A write's token: issued at an earlier event for the same action, object,
      context and parameters, and then taken by the very call that sent the write
      no later than its expiry. */
  ghost predicate Backed(env: Env, s: State, m: Mutation) {
    && m.token in s.issued && m.token in s.taken
    && Authorises(env, s.issued[m.token].pending, m.req, m.ctx)
    && s.taken[m.token].call == m.call
    && s.taken[m.token].clock <= s.issued[m.token].clock + env.ttl
    && s.issued[m.token].at < s.taken[m.token].at < m.at
  }

  /** Between taking its token and sending its write, the call read the target
      when its UID was the one read at planning time, and then made lists that
      showed nothing against the write: no covering budget without allowance, no
      autoscaler unless planning had seen one, a second schedulable Ready node. */
  ghost predicate Rechecked(env: Env, s: State, m: Mutation)
    requires Backed(env, s, m)
  {
    var issue := s.issued[m.token];
    && Existed(env, s.hist, issue.req, issue.ctx, issue.plan.getAt)
    && KeyOf(env, issue.req) == KeyOf(env, m.req) && issue.ctx == m.ctx
    && issue.plan.getAt < issue.at < s.taken[m.token].at < m.seen.getAt <= m.seen.v1At < m.at
    && Checked(env, s.hist, m.req, m.ctx, TargetAt(env, s.hist, issue.req, issue.ctx, issue.plan.getAt).uid,
               issue.pending.hpaPresent, m.seen)
    && HpaRecorded(env, s.hist, issue.req, issue.ctx, issue.pending.hpaPresent, issue.plan)
  }

  lemma SentFacts(env: Env, s: State, m: Mutation)
    requires TokensOk(env, s) && SentOk(env, s, m)
    ensures Backed(env, s, m) && Rechecked(env, s, m)
  {
    assert TakenOk(s.hist, s.issued, s.taken, m.token);
    assert IssueOk(env, s.hist, s.issued[m.token]);
  }

  /** In every interleaving, each write that is sent is backed by a token, and no
      two writes share a token. */
  lemma EveryWriteHasItsOwnToken(env: Env, now: int, world: World, events: seq<Event>)
    ensures var s := Run(env, Start(now, world), events);
            && (forall m :: m in s.sent ==> Backed(env, s, m))
            && (forall i, j :: 0 <= i < j < |s.sent| ==> s.sent[i].token != s.sent[j].token)
  {
    InvAlways(env, now, world, events);
    OwnTokens(env, Run(env, Start(now, world), events));
  }

  lemma OwnTokens(env: Env, s: State)
    requires Inv(env, s)
    ensures forall m :: m in s.sent ==> SentOk(env, s, m) && Backed(env, s, m) && Rechecked(env, s, m)
    ensures forall i, j :: 0 <= i < j < |s.sent| ==> s.sent[i].token != s.sent[j].token
  {
    forall i | 0 <= i < |s.sent|
      ensures SentOk(env, s, s.sent[i]) && Backed(env, s, s.sent[i]) && Rechecked(env, s, s.sent[i])
    {
      SentFacts(env, s, s.sent[i]);
    }
  }

  /** In every interleaving, each write that is sent was rechecked. */
  lemma EveryWriteWasRechecked(env: Env, now: int, world: World, events: seq<Event>)
    ensures var s := Run(env, Start(now, world), events);
            forall m :: m in s.sent ==> Backed(env, s, m) && Rechecked(env, s, m)
  {
    InvAlways(env, now, world, events);
    OwnTokens(env, Run(env, Start(now, world), events));
  }

  /** A call sends at most one write, and none before it is done; a call one of
      whose checks ended in an API error sends none at all. */
  lemma OneWriteAndNoneAfterAFailedCheck(env: Env, now: int, world: World, events: seq<Event>)
    ensures var s := Run(env, Start(now, world), events);
            && (forall i, j :: 0 <= i < j < |s.sent| ==> s.sent[i].call != s.sent[j].call)
            && (forall m :: m in s.sent ==>
                  m.call in s.calls && s.calls[m.call].pc.Done? && !s.calls[m.call].failed)
  {
    InvAlways(env, now, world, events);
    OwnTokens(env, Run(env, Start(now, world), events));
  }
}
