/** Confirmation tokens: the store of internal/action/confirmation.go.

    Times are integers read from the store's clock. Each operation reads the
    clock twice (once to collect expired tokens, once for its own use), so every
    operation here takes the two readings as parameters. */
module Confirmation {
  import opened Wrappers

  /** The action names, API groups and kinds the engine itself writes; any other
      kind a caller may ask for is kept by its name. */
  datatype Action = RestartDeployment | ScaleWorkload | DeleteThePod | CordonNode | UncordonNode

  datatype Group = Core | Apps

  datatype Kind = Deployment | StatefulSet | ReplicaSet | Pod | Node | Other(name: string)

  datatype Pending = Pending(
    action: Action, apiGroup: Group, kind: Kind, name: string, namespace: string,
    uid: string, context: string,
    replicas: Option<int>, grace: Option<int>, cordon: Option<bool>,
    hpaPresent: bool, expires: int)

  datatype TakeError = Mismatch | Expired | Missing

  type Items = map<string, Pending>

  const DEFAULT_TTL: int := 120_000_000_000 // two minutes, in nanoseconds

  /** Whether a stored token may be used for the call that now presents it. */
  predicate BindMatch(p: Pending, want: Pending)
  {
    if p.action != want.action || p.kind != want.kind || p.name != want.name || p.namespace != want.namespace then
      false
    else if p.apiGroup != want.apiGroup then
      false
    else if p.context != want.context then
      false
    else if p.uid != "" && want.uid != "" && p.uid != want.uid then
      false
    else if p.replicas != want.replicas then
      false
    else if p.grace != want.grace then
      false
    else
      p.cordon == want.cordon
  }

  /** Every field binds but three: the HPA flag and the expiry are not compared,
      and a UID is compared only when neither side leaves it empty. */
  lemma BindMatchMeans(p: Pending, want: Pending)
    ensures BindMatch(p, want) <==>
              && p.(uid := want.uid, hpaPresent := want.hpaPresent, expires := want.expires) == want
              && (p.uid == "" || want.uid == "" || p.uid == want.uid)
  {
  }

  /** What collection leaves: the tokens whose expiry has not passed. */
  function Live(items: Items, now: int): Items {
    map id | id in items && now <= items[id].expires :: items[id]
  }

  /** The items after Put: collection, then the token under its new ID. No ID
      stands for a failed read of the entropy source. */
  function PutItems(items: Items, ttl: int, p: Pending, id: Option<string>, t1: int, t2: int): Items {
    match id
    case None => Live(items, t1)
    case Some(k) => Live(items, t1)[k := p.(expires := t2 + ttl)]
  }

  function TakeResult(items: Items, id: string, want: Pending, t1: int, t2: int): Result<Pending, TakeError> {
    if id !in Live(items, t1) then Failure(Missing)
    else if t2 > items[id].expires then Failure(Expired)
    else if !BindMatch(items[id], want) then Failure(Mismatch)
    else Success(items[id])
  }

  /** The items after Take: a mismatch alone leaves the token in place. */
  function TakeItems(items: Items, id: string, want: Pending, t1: int, t2: int): Items {
    if TakeResult(items, id, want, t1, t2) == Failure(Mismatch) then Live(items, t1)
    else Live(items, t1) - {id}
  }

  class Store {
    var items: Items
    const ttl: int

    constructor (ttl: int)
      ensures items == map[] && this.ttl == if ttl == 0 then DEFAULT_TTL else ttl
    {
      this.items := map[];
      this.ttl := if ttl == 0 then DEFAULT_TTL else ttl;
    }

    /** Go visits the entries of the map in any order. */
    method GcLocked(now: int)
      modifies this`items
      ensures items == Live(old(items), now)
    {
      var todo := items.Keys;
      while todo != {}
        invariant todo <= items.Keys <= old(items).Keys
        invariant forall id :: id in items ==> items[id] == old(items)[id]
        invariant forall id :: id in old(items) && id !in todo ==>
                    (id in items <==> now <= old(items)[id].expires)
      {
        var k :| k in todo;
        todo := todo - {k};
        if now > items[k].expires {
          items := items - {k};
        }
      }
    }

    method Put(p: Pending, id: Option<string>, t1: int, t2: int) returns (r: Option<string>)
      modifies this`items
      ensures r == id
      ensures items == PutItems(old(items), ttl, p, id, t1, t2)
    {
      GcLocked(t1);
      match id {
        case None =>
        case Some(k) => items := items[k := p.(expires := t2 + ttl)];
      }
      r := id;
    }

    method Take(id: string, want: Pending, t1: int, t2: int) returns (r: Result<Pending, TakeError>)
      modifies this`items
      ensures r == TakeResult(old(items), id, want, t1, t2)
      ensures items == TakeItems(old(items), id, want, t1, t2)
    {
      GcLocked(t1);
      if id !in items {
        return Failure(Missing);
      }
      var p := items[id];
      if t2 > p.expires {
        items := items - {id};
        return Failure(Expired);
      }
      if !BindMatch(p, want) {
        return Failure(Mismatch);
      }
      items := items - {id};
      r := Success(p);
    }
  }

  // ----- Runs of the store, and the log it refines -----

  datatype Op =
    | Put(p: Pending, id: Option<string>, t1: int, t2: int)
    | Take(tid: string, want: Pending, t1: int, t2: int)

  /** What a caller can act on. Missing and expired both mean that the token
      cannot be used and that nothing was learnt about its binding. */
  datatype Answer = Issued(id: string) | NoEntropy | Granted(p: Pending) | Mismatched | Unusable

  function StoreItems(items: Items, ttl: int, op: Op): Items {
    match op
    case Put(p, id, t1, t2) => PutItems(items, ttl, p, id, t1, t2)
    case Take(id, want, t1, t2) => TakeItems(items, id, want, t1, t2)
  }

  function StoreAnswer(items: Items, op: Op): Answer {
    match op
    case Put(_, None, _, _) => NoEntropy
    case Put(_, Some(id), _, _) => Issued(id)
    case Take(id, want, t1, t2) =>
      match TakeResult(items, id, want, t1, t2)
      case Success(p) => Granted(p)
      case Failure(Mismatch) => Mismatched
      case Failure(_) => Unusable
  }

  function StoreRun(items: Items, ttl: int, ops: seq<Op>): seq<Answer>
    decreases |ops|
  {
    if ops == [] then []
    else [StoreAnswer(items, ops[0])] + StoreRun(StoreItems(items, ttl, ops[0]), ttl, ops[1..])
  }

  /** The simple form: tokens are only ever added, and a grant ticks one off. */
  datatype Entry = Entry(p: Pending, used: bool)

  type Log = map<string, Entry>

  predicate LogGrants(log: Log, id: string, want: Pending, t2: int) {
    id in log && !log[id].used && t2 <= log[id].p.expires && BindMatch(log[id].p, want)
  }

  function LogAfter(log: Log, ttl: int, op: Op): Log {
    match op
    case Put(_, None, _, _) => log
    case Put(p, Some(id), _, t2) => log[id := Entry(p.(expires := t2 + ttl), false)]
    case Take(id, want, _, t2) =>
      if LogGrants(log, id, want, t2) then log[id := log[id].(used := true)] else log
  }

  function LogAnswer(log: Log, op: Op): Answer {
    match op
    case Put(_, None, _, _) => NoEntropy
    case Put(_, Some(id), _, _) => Issued(id)
    case Take(id, want, _, t2) =>
      if id !in log || log[id].used || t2 > log[id].p.expires then Unusable
      else if LogGrants(log, id, want, t2) then Granted(log[id].p)
      else Mismatched
  }

  function LogRun(log: Log, ttl: int, ops: seq<Op>): seq<Answer>
    decreases |ops|
  {
    if ops == [] then []
    else [LogAnswer(log, ops[0])] + LogRun(LogAfter(log, ttl, ops[0]), ttl, ops[1..])
  }

  /** The clock never goes back, from one reading to the next. */
  predicate Clocked(t: int, ops: seq<Op>)
    decreases |ops|
  {
    ops == [] || (t <= ops[0].t1 <= ops[0].t2 && Clocked(ops[0].t2, ops[1..]))
  }

  /** From time t on, the store and the log agree on every usable token. */
  ghost predicate Agree(items: Items, log: Log, t: int) {
    && (forall id :: id in items ==> id in log && log[id] == Entry(items[id], false))
    && (forall id :: id in log && !log[id].used && t <= log[id].p.expires ==> id in items)
  }

  lemma {:induction false} StoreRefinesLogFrom(items: Items, log: Log, ttl: int, t: int, ops: seq<Op>)
    requires Agree(items, log, t)
    requires Clocked(t, ops)
    ensures StoreRun(items, ttl, ops) == LogRun(log, ttl, ops)
    decreases |ops|
  {
    if ops != [] {
      StoreRefinesLogFrom(StoreItems(items, ttl, ops[0]), LogAfter(log, ttl, ops[0]), ttl, ops[0].t2, ops[1..]);
    }
  }

  /** Collection is invisible: from the empty store, every sequence of
      operations under a clock that never goes back gets from the collecting
      store the answers of a log that forgets nothing. */
  lemma StoreRefinesLog(ttl: int, t: int, ops: seq<Op>)
    requires Clocked(t, ops)
    ensures StoreRun(map[], ttl, ops) == LogRun(map[], ttl, ops)
  {
    StoreRefinesLogFrom(map[], map[], ttl, t, ops);
  }

  /** New IDs are drawn from enough randomness never to repeat. */
  predicate FreshIDs(ops: seq<Op>, used: set<string>)
    decreases |ops|
  {
    ops == [] ||
    match ops[0]
    case Put(_, Some(id), _, _) => id !in used && FreshIDs(ops[1..], used + {id})
    case _ => FreshIDs(ops[1..], used)
  }

  /** How many Takes of one ID are granted in a run. */
  function Grants(items: Items, ttl: int, ops: seq<Op>, id: string): nat
    decreases |ops|
  {
    if ops == [] then 0
    else
      (if ops[0].Take? && ops[0].tid == id && StoreAnswer(items, ops[0]).Granted? then 1 else 0)
      + Grants(StoreItems(items, ttl, ops[0]), ttl, ops[1..], id)
  }

  lemma {:induction false} GrantsFrom(items: Items, ttl: int, ops: seq<Op>, used: set<string>, id: string)
    requires items.Keys <= used
    requires FreshIDs(ops, used)
    ensures Grants(items, ttl, ops, id) <= if id in used && id !in items then 0 else 1
    decreases |ops|
  {
    if ops != [] {
      var used' := if ops[0].Put? && ops[0].id.Some? then used + {ops[0].id.value} else used;
      GrantsFrom(StoreItems(items, ttl, ops[0]), ttl, ops[1..], used', id);
    }
  }

  /** Single use: of any number of Takes on one ID, with any bindings and at any
      times, at most one is granted. */
  lemma TokensAreSingleUse(ttl: int, ops: seq<Op>, id: string)
    requires FreshIDs(ops, {})
    ensures Grants(map[], ttl, ops, id) <= 1
  {
    GrantsFrom(map[], ttl, ops, {}, id);
  }

  function StoreAfter(items: Items, ttl: int, ops: seq<Op>): Items
    decreases |ops|
  {
    if ops == [] then items else StoreAfter(StoreItems(items, ttl, ops[0]), ttl, ops[1..])
  }

  /** A token stays usable through any operations that neither use it up nor
      issue its ID again, mismatched Takes of it included, and then a matching
      Take is granted exactly up to its expiry. */
  lemma {:induction false} UsableUntilGrantedOrExpired(items: Items, ttl: int, t: int, ops: seq<Op>, last: Op)
    requires last.Take? && last.tid in items
    requires Clocked(t, ops + [last])
    requires Grants(items, ttl, ops, last.tid) == 0
    requires forall o :: o in ops && o.Put? ==> o.id != Some(last.tid)
    requires BindMatch(items[last.tid], last.want)
    ensures StoreAnswer(StoreAfter(items, ttl, ops), last) ==
            if last.t2 <= items[last.tid].expires then Granted(items[last.tid]) else Unusable
    decreases |ops|
  {
    var id := last.tid;
    if ops != [] {
      var next := StoreItems(items, ttl, ops[0]);
      assert (ops + [last])[1..] == ops[1..] + [last];
      if id in next {
        UsableUntilGrantedOrExpired(next, ttl, ops[0].t2, ops[1..], last);
      } else {
        assert ops[0].t2 > items[id].expires;
        ClockedLast(ops[0].t2, ops[1..], last);
        GoneStaysGone(next, ttl, ops[1..], last);
      }
    }
  }

  lemma {:induction false} ClockedLast(t: int, ops: seq<Op>, last: Op)
    requires Clocked(t, ops + [last])
    ensures t <= last.t1 <= last.t2
    decreases |ops|
  {
    if ops != [] {
      assert (ops + [last])[1..] == ops[1..] + [last];
      ClockedLast(ops[0].t2, ops[1..], last);
    }
  }

  lemma {:induction false} GoneStaysGone(items: Items, ttl: int, ops: seq<Op>, last: Op)
    requires last.Take? && last.tid !in items
    requires forall o :: o in ops && o.Put? ==> o.id != Some(last.tid)
    ensures StoreAnswer(StoreAfter(items, ttl, ops), last) == Unusable
    decreases |ops|
  {
    if ops != [] {
      GoneStaysGone(StoreItems(items, ttl, ops[0]), ttl, ops[1..], last);
    }
  }

  /** The expiry error is seen only when the deadline falls between the two
      clock readings of one Take; any later Take reports a missing token. */
  lemma ExpiredErrorOnlyInTheGap(items: Items, id: string, want: Pending, t1: int, t2: int)
    ensures TakeResult(items, id, want, t1, t2) == Failure(Expired) <==>
            id in items && t1 <= items[id].expires < t2
  {
  }
}
