/** Name resolution: exact and prefix matches, tier by tier
    (internal/kube/resolver.go). Everything is about one kind and one query against
    one snapshot of the cluster. */
module Resolver {
  import opened Wrappers
  import opened Ordering
  import opened Signals

  datatype ApiError = Forbidden | NotFoundError | OtherError

  /** The namespaces of the snapshot, or the error that listing them gives. Lookups
      are by namespace, "" for a kind without one or for all namespaces; get is for
      the name that is asked for. */
  datatype Snapshot = Snapshot(
    namespaced: bool, context: string, namespaces: Result<seq<string>, ApiError>,
    get: string -> Result<Ref, ApiError>, list: string -> Result<seq<Ref>, ApiError>)

  datatype Query = Query(name: string, namespace: string, allNamespaces: bool, prefixMatch: bool)

  datatype Resolution = Found(ref: Ref, exact: bool) | Ambiguous(refs: seq<Ref>) | NotFound | Denied

  function ContextNamespace(s: Snapshot): string {
    if s.context != "" then s.context else "default"
  }

  // ----- Matching names -----

  predicate HasPrefix(name: string, n: string) {
    |name| >= 3 && name <= n
  }

  function Exact(items: seq<Ref>, name: string): seq<Ref> {
    if items == [] then []
    else
      var it := items[|items| - 1];
      Exact(items[..|items| - 1], name) + if it.name == name then [it] else []
  }

  function Prefixed(items: seq<Ref>, name: string): seq<Ref> {
    if items == [] then []
    else
      var it := items[|items| - 1];
      Prefixed(items[..|items| - 1], name) + if it.name != name && HasPrefix(name, it.name) then [it] else []
  }

  /** Exact matches if there are any, otherwise prefix matches if they are wanted. */
  function Filtered(items: seq<Ref>, name: string, prefix: bool): seq<Ref> {
    if Exact(items, name) != [] then Exact(items, name)
    else if prefix then Prefixed(items, name)
    else []
  }

  method PrefixFilter(items: seq<Ref>, name: string, prefix: bool) returns (out: seq<Ref>)
    ensures out == Filtered(items, name, prefix)
  {
    var exact, pref: seq<Ref> := [], [];
    for i := 0 to |items|
      invariant exact == Exact(items[..i], name)
      invariant pref == if prefix then Prefixed(items[..i], name) else []
    {
      assert items[..i + 1][..i] == items[..i];
      var n := items[i].name;
      if n == name {
        exact := exact + [items[i]];
        continue;
      }
      if prefix && |name| >= 3 && |n| >= |name| && n[..|name|] == name {
        pref := pref + [items[i]];
      }
    }
    assert items[..|items|] == items;
    if |exact| > 0 {
      return exact;
    }
    return pref;
  }

  function BuildResult(query: string, matches: seq<Ref>): Resolution {
    if |matches| == 0 then NotFound
    else if |matches| == 1 then Found(matches[0], !(query != "" && matches[0].name != query))
    else Ambiguous(matches)
  }

  // ----- Lists of namespaces -----

  method Unique(xs: seq<string>) returns (out: seq<string>)
    ensures out == UniqueOf(xs)
  {
    var seen: set<string> := {};
    out := [];
    for i := 0 to |xs|
      invariant out == UniqueOf(xs[..i])
      invariant forall x :: x in seen <==> x in out
    {
      assert xs[..i + 1][..i] == xs[..i];
      if xs[i] == "" {
        continue;
      }
      if xs[i] in seen {
        continue;
      }
      seen := seen + {xs[i]};
      out := out + [xs[i]];
    }
    assert xs[..|xs|] == xs;
  }

  /** A list that fails leaves the context's namespace and "default", which may be
      the same. */
  function NamespacesOf(s: Snapshot): seq<string> {
    if s.namespaces.Success? then UniqueOf(s.namespaces.value) else [ContextNamespace(s), "default"]
  }

  method ListNamespaces(s: Snapshot) returns (nss: seq<string>, err: Option<ApiError>)
    ensures nss == NamespacesOf(s)
    ensures err == if s.namespaces.Success? then None else Some(s.namespaces.error)
  {
    match s.namespaces {
      case Failure(e) =>
        return [ContextNamespace(s), "default"], Some(e);
      case Success(items) =>
        var out: seq<string> := [];
        for i := 0 to |items|
          invariant out == items[..i]
        {
          out := out + [items[i]];
        }
        assert items[..|items|] == items;
        nss := Unique(out);
        return nss, None;
    }
  }

  function Priority(s: Snapshot, q: Query): seq<string> {
    UniqueOf([q.namespace, ContextNamespace(s), "default"])
  }

  // ----- The tiers -----

  predicate Blocked<T>(reply: Result<T, ApiError>) {
    reply.Failure? && reply.error == Forbidden
  }

  /** Objects of exactly that name in these namespaces. */
  function ExactIn(s: Snapshot, nss: seq<string>, skip: seq<string>): seq<Ref> {
    if nss == [] then []
    else
      var before, ns := ExactIn(s, nss[..|nss| - 1], skip), nss[|nss| - 1];
      if ns !in skip && s.get(ns).Success? then before + [s.get(ns).value] else before
  }

  function Items(reply: Result<seq<Ref>, ApiError>): seq<Ref> {
    if reply.Success? then reply.value else []
  }

  /** What each of these namespaces has to offer by prefix. */
  function PrefixIn(s: Snapshot, nss: seq<string>, name: string): seq<Ref> {
    if nss == [] then []
    else PrefixIn(s, nss[..|nss| - 1], name) + Filtered(Items(s.list(nss[|nss| - 1])), name, true)
  }

  /** The exact match in the first namespace that has one. */
  function FirstIn(s: Snapshot, nss: seq<string>): seq<Ref> {
    if nss == [] then []
    else if FirstIn(s, nss[..|nss| - 1]) != [] then FirstIn(s, nss[..|nss| - 1])
    else if s.get(nss[|nss| - 1]).Success? then [s.get(nss[|nss| - 1]).value]
    else []
  }

  /** Each namespace a tier of its own. */
  function Lookups(s: Snapshot, nss: seq<string>): seq<seq<Ref>> {
    seq(|nss|, i requires 0 <= i < |nss| => FirstIn(s, [nss[i]]))
  }

  /** The candidates a query looks at, tier by tier: for a query without a
      namespace, the context's namespace, "default", all others by exact name, and
      all by prefix. */
  function Tiers(s: Snapshot, q: Query): seq<seq<Ref>> {
    if !s.namespaced then
      [FirstIn(s, [""]), Filtered(Items(s.list("")), q.name, q.prefixMatch)]
    else if q.allNamespaces then
      [Filtered(Items(s.list("")), q.name, q.prefixMatch)]
    else if q.namespace != "" then
      [FirstIn(s, [q.namespace]), if q.prefixMatch then Filtered(Items(s.list(q.namespace)), q.name, true) else []]
    else
      Lookups(s, Priority(s, q))
      + [ExactIn(s, NamespacesOf(s), Priority(s, q)),
         if q.prefixMatch then PrefixIn(s, NamespacesOf(s), q.name) else []]
  }

  /** The first tier that is not empty. */
  function Chosen(tiers: seq<seq<Ref>>): seq<Ref> {
    if tiers == [] then []
    else if tiers[0] != [] then tiers[0]
    else Chosen(tiers[1..])
  }

  function Pick(query: string, tiers: seq<seq<Ref>>): Resolution {
    BuildResult(query, Chosen(tiers))
  }

  // ----- The resolver -----

  datatype Call = GetCall(ns: string) | ListCall(ns: string) | NamespacesCall

  predicate CallBlocked(s: Snapshot, c: Call) {
    match c
    case GetCall(ns) => Blocked(s.get(ns))
    case ListCall(ns) => Blocked(s.list(ns))
    case NamespacesCall => Blocked(s.namespaces)
  }

  ghost predicate NothingBlocked(s: Snapshot, log: seq<Call>) {
    forall k :: 0 <= k < |log| ==> !CallBlocked(s, log[k])
  }

  /** Objects come back under the name they were asked for. */
  ghost predicate Faithful(s: Snapshot, name: string) {
    forall ns :: s.get(ns).Success? ==> s.get(ns).value.name == name
  }

  // ----- The answer, without the tiers -----

  /** A lookup that neither finds the object nor is forbidden. */
  predicate Missed(reply: Result<Ref, ApiError>) {
    reply.Failure? && reply.error != Forbidden
  }

  /** Of these namespaces the i-th is the first whose lookup is not a miss. */
  predicate StopsAt(s: Snapshot, nss: seq<string>, i: int) {
    0 <= i < |nss| && !Missed(s.get(nss[i])) && forall j :: 0 <= j < i ==> Missed(s.get(nss[j]))
  }

  /** An object of the list that answers the query: by its exact name, or else, if
      nothing in the list has that, by a prefix of at least three letters. */
  predicate Qualifies(items: seq<Ref>, name: string, prefix: bool, x: Ref) {
    || x.name == name
    || (prefix && |name| >= 3 && name <= x.name && forall y :: y in items ==> y.name != name)
  }

  /** ms are the objects of the list that qualify, as often as they are listed. */
  ghost predicate AreMatches(items: seq<Ref>, name: string, prefix: bool, ms: seq<Ref>) {
    forall x :: multiset(ms)[x] == if Qualifies(items, name, prefix, x) then multiset(items)[x] else 0
  }

  ghost predicate Offers(items: seq<Ref>, name: string, prefix: bool, r: Resolution) {
    exists ms :: AreMatches(items, name, prefix, ms) && r == BuildResult(name, ms)
  }

  /** The object itself if its lookup succeeds, and what is listed if it is missed
      and listing is wanted. */
  ghost predicate AnswersIn(s: Snapshot, q: Query, ns: string, listing: bool, prefix: bool, r: Resolution) {
    match s.get(ns)
    case Success(x) => r == Found(x, true)
    case Failure(Forbidden) => r == Denied
    case Failure(_) =>
      if !listing then r == NotFound
      else if s.list(ns) == Failure(Forbidden) then r == Denied
      else Offers(Items(s.list(ns)), q.name, prefix, r)
  }

  /** A namespace that is looked at only after the context's own and "default". */
  predicate Elsewhere(s: Snapshot, ns: string) {
    ns in NamespacesOf(s) && ns != (if s.context != "" then s.context else "default") && ns != "default"
  }

  /** The search over namespaces: the context's own first, then "default", and only
      when both are missed every other one by exact name, and only when those have
      nothing all of them by prefix. */
  ghost predicate AnswersSearch(s: Snapshot, q: Query, r: Resolution) {
    match s.get(if s.context != "" then s.context else "default")
    case Success(x) => r == Found(x, true)
    case Failure(Forbidden) => r == Denied
    case Failure(_) =>
      match s.get("default")
      case Success(x) => r == Found(x, true)
      case Failure(Forbidden) => r == Denied
      case Failure(_) => AnswersElsewhere(s, q, r)
  }

  ghost predicate AnswersElsewhere(s: Snapshot, q: Query, r: Resolution) {
    if s.namespaces == Failure(Forbidden) || exists ns :: Elsewhere(s, ns) && Blocked(s.get(ns)) then r == Denied
    else if exists ns :: Elsewhere(s, ns) && s.get(ns).Success? then FromLookups(s, r)
    else if !q.prefixMatch then r == NotFound
    else if exists ns :: ns in NamespacesOf(s) && Blocked(s.list(ns)) then r == Denied
    else FromLists(s, q, r)
  }

  /** The answer names objects found by exact name elsewhere, all of them. */
  ghost predicate FromLookups(s: Snapshot, r: Resolution) {
    exists refs :: (forall x :: x in refs <==> exists ns :: Elsewhere(s, ns) && s.get(ns) == Success(x))
                   && if |refs| == 1 then r == Found(refs[0], true) else r == Ambiguous(refs)
  }

  /** The answer names objects that qualify in the list of some namespace, all of
      them. */
  ghost predicate FromLists(s: Snapshot, q: Query, r: Resolution) {
    exists refs :: (forall x :: x in refs <==> exists ns :: ns in NamespacesOf(s) && x in Items(s.list(ns))
                                                            && Qualifies(Items(s.list(ns)), q.name, true, x))
                   && r == BuildResult(q.name, refs)
  }

  ghost predicate Answers(s: Snapshot, q: Query, r: Resolution) {
    if !s.namespaced then AnswersIn(s, q, "", true, q.prefixMatch, r)
    else if q.allNamespaces then
      if s.list("").Failure? then r == Denied else Offers(s.list("").value, q.name, q.prefixMatch, r)
    else if q.namespace != "" then AnswersIn(s, q, q.namespace, q.prefixMatch, true, r)
    else AnswersSearch(s, q, r)
  }

  lemma OneMoreItem(items: seq<Ref>, it: Ref, x: Ref)
    ensures multiset(items + [it])[x] == multiset(items)[x] + if x == it then 1 else 0
  {
  }

  lemma {:induction false} ExactMeans(items: seq<Ref>, name: string, x: Ref)
    ensures multiset(Exact(items, name))[x] == if x.name == name then multiset(items)[x] else 0
  {
    if items != [] {
      var most, it := items[..|items| - 1], items[|items| - 1];
      ExactMeans(most, name, x);
      assert items == most + [it];
      OneMoreItem(most, it, x);
      OneMoreItem(Exact(most, name), it, x);
    }
  }

  lemma {:induction false} NoExact(items: seq<Ref>, name: string)
    ensures Exact(items, name) == [] <==> forall y :: y in items ==> y.name != name
  {
    if items != [] {
      NoExact(items[..|items| - 1], name);
      assert items == items[..|items| - 1] + [items[|items| - 1]];
    }
  }

  lemma {:induction false} PrefixedMeans(items: seq<Ref>, name: string, x: Ref)
    ensures multiset(Prefixed(items, name))[x] ==
            if x.name != name && HasPrefix(name, x.name) then multiset(items)[x] else 0
  {
    if items != [] {
      var most, it := items[..|items| - 1], items[|items| - 1];
      PrefixedMeans(most, name, x);
      assert items == most + [it];
      OneMoreItem(most, it, x);
      OneMoreItem(Prefixed(most, name), it, x);
    }
  }

  lemma FilteredMatches(items: seq<Ref>, name: string, prefix: bool)
    ensures AreMatches(items, name, prefix, Filtered(items, name, prefix))
  {
    NoExact(items, name);
    forall x ensures multiset(Filtered(items, name, prefix))[x] ==
                     if Qualifies(items, name, prefix, x) then multiset(items)[x] else 0
    {
      ExactMeans(items, name, x);
      PrefixedMeans(items, name, x);
      assert x !in items ==> multiset(items)[x] == 0;
    }
  }

  lemma PriorityIsContextFirst(s: Snapshot, q: Query)
    requires q.namespace == ""
    ensures Priority(s, q) == if ContextNamespace(s) == "default" then ["default"] else [ContextNamespace(s), "default"]
  {
    var c := ContextNamespace(s);
    assert ["", c, "default"][..2] == ["", c] && ["", c][..1] == [""] && [""][..0] == [];
    assert UniqueOf([]) == [];
    assert UniqueOf([""]) == [];
    assert UniqueOf(["", c]) == [c];
  }

  lemma {:induction false} ExactInMeans(s: Snapshot, nss: seq<string>, skip: seq<string>)
    ensures forall x :: x in ExactIn(s, nss, skip) <==> exists ns :: ns in nss && ns !in skip && s.get(ns) == Success(x)
  {
    if nss != [] {
      ExactInMeans(s, nss[..|nss| - 1], skip);
      assert nss == nss[..|nss| - 1] + [nss[|nss| - 1]];
    }
  }

  lemma {:induction false} PrefixInMeans(s: Snapshot, nss: seq<string>, name: string)
    ensures forall x :: x in PrefixIn(s, nss, name) <==>
                        exists ns :: ns in nss && x in Items(s.list(ns)) && Qualifies(Items(s.list(ns)), name, true, x)
  {
    if nss != [] {
      var most, ns := nss[..|nss| - 1], nss[|nss| - 1];
      PrefixInMeans(s, most, name);
      assert nss == most + [ns];
      FilteredMatches(Items(s.list(ns)), name, true);
      FilteredMembers(Items(s.list(ns)), name);
    }
  }

  lemma FilteredMembers(items: seq<Ref>, name: string)
    ensures forall x :: x in Filtered(items, name, true) <==> x in items && Qualifies(items, name, true, x)
  {
    FilteredMatches(items, name, true);
    var ms := Filtered(items, name, true);
    forall x ensures x in ms <==> x in items && Qualifies(items, name, true, x) {
      assert (x in ms <==> multiset(ms)[x] > 0) && (x in items <==> multiset(items)[x] > 0);
    }
  }

  /** Whatever was answered "forbidden" ends the search, and otherwise the first
      tier with a candidate decides. */
  method ResolveFilter(s: Snapshot, q: Query) returns (r: Resolution, ghost log: seq<Call>)
    ensures q.name != "" ==> Answers(s, q, r)
    ensures !NothingBlocked(s, log) ==> r == Denied
    ensures r == Denied ==> !NothingBlocked(s, log) || (s.namespaced && q.allNamespaces && s.list("").Failure?)
    ensures q.name == "" ==> r == NotFound && log == []
    ensures q.name != "" && r != Denied && Faithful(s, q.name) ==> r == Pick(q.name, Tiers(s, q))
  {
    log := [];
    if q.name == "" {
      return NotFound, log;
    }
    if !s.namespaced {
      r, log := ResolveClusterScoped(s, q);
    } else if q.namespace != "" && !q.allNamespaces {
      r, log := ResolveInNamespace(s, q);
    } else if q.allNamespaces {
      r, log := ResolveEverywhere(s, q);
    } else {
      r, log := Search(s, q);
    }
  }

  method ResolveClusterScoped(s: Snapshot, q: Query) returns (r: Resolution, ghost log: seq<Call>)
    requires q.name != "" && !s.namespaced
    ensures AnswersIn(s, q, "", true, q.prefixMatch, r)
    ensures !NothingBlocked(s, log) <==> r == Denied
    ensures r != Denied && Faithful(s, q.name) ==> r == Pick(q.name, Tiers(s, q))
  {
    log := [GetCall("")];
    assert CallBlocked(s, log[0]) <==> Blocked(s.get(""));
    OneNamespace(s, "");
    ChosenOfTwo(Tiers(s, q));
    match s.get("") {
      case Success(obj) => return Found(obj, true), log;
      case Failure(Forbidden) => return Denied, log;
      case Failure(_) =>
    }
    log := log + [ListCall("")];
    assert CallBlocked(s, log[1]) <==> Blocked(s.list(""));
    if s.list("") == Failure(Forbidden) {
      return Denied, log;
    }
    var matches := PrefixFilter(Items(s.list("")), q.name, q.prefixMatch);
    FilteredMatches(Items(s.list("")), q.name, q.prefixMatch);
    return BuildResult(q.name, matches), log;
  }

  method ResolveInNamespace(s: Snapshot, q: Query) returns (r: Resolution, ghost log: seq<Call>)
    requires q.name != "" && s.namespaced && q.namespace != "" && !q.allNamespaces
    ensures AnswersIn(s, q, q.namespace, q.prefixMatch, true, r)
    ensures !NothingBlocked(s, log) <==> r == Denied
    ensures r != Denied && Faithful(s, q.name) ==> r == Pick(q.name, Tiers(s, q))
  {
    log := [GetCall(q.namespace)];
    assert CallBlocked(s, log[0]) <==> Blocked(s.get(q.namespace));
    OneNamespace(s, q.namespace);
    ChosenOfTwo(Tiers(s, q));
    match s.get(q.namespace) {
      case Success(obj) => return Found(obj, true), log;
      case Failure(Forbidden) => return Denied, log;
      case Failure(_) =>
    }
    if !q.prefixMatch {
      return NotFound, log;
    }
    log := log + [ListCall(q.namespace)];
    assert CallBlocked(s, log[1]) <==> Blocked(s.list(q.namespace));
    if s.list(q.namespace) == Failure(Forbidden) {
      return Denied, log;
    }
    var matches := PrefixFilter(Items(s.list(q.namespace)), q.name, true);
    FilteredMatches(Items(s.list(q.namespace)), q.name, true);
    return BuildResult(q.name, matches), log;
  }

  method ResolveEverywhere(s: Snapshot, q: Query) returns (r: Resolution, ghost log: seq<Call>)
    requires q.name != "" && s.namespaced && q.allNamespaces
    ensures if s.list("").Failure? then r == Denied else Offers(s.list("").value, q.name, q.prefixMatch, r)
    ensures r == Denied <==> s.list("").Failure?
    ensures !NothingBlocked(s, log) ==> r == Denied
    ensures r != Denied ==> r == Pick(q.name, Tiers(s, q))
  {
    log := [ListCall("")];
    assert CallBlocked(s, log[0]) <==> Blocked(s.list(""));
    if s.list("").Failure? {
      return Denied, log;
    }
    var matches := PrefixFilter(s.list("").value, q.name, q.prefixMatch);
    ChosenOfOne(Filtered(s.list("").value, q.name, q.prefixMatch));
    FilteredMatches(s.list("").value, q.name, q.prefixMatch);
    return BuildResult(q.name, matches), log;
  }

  /** The context's namespace and "default" first, then everywhere exactly, then
      everywhere by prefix. */
  method Search(s: Snapshot, q: Query) returns (r: Resolution, ghost log: seq<Call>)
    requires q.name != "" && s.namespaced && q.namespace == "" && !q.allNamespaces
    ensures AnswersSearch(s, q, r)
    ensures !NothingBlocked(s, log) <==> r == Denied
    ensures r != Denied && Faithful(s, q.name) ==> r == Pick(q.name, Tiers(s, q))
  {
    SearchTiers(s, q);
    var priority := Unique([q.namespace, ContextNamespace(s), "default"]);
    var hit, blocked;
    hit, blocked, log := TryInTurn(s, priority);
    if blocked {
      ghost var i :| StopsAt(s, priority, i) && Blocked(s.get(priority[i]));
      StopsFirst(s, q, i, Denied);
      return Denied, log;
    }
    if hit.Some? {
      ghost var i :| StopsAt(s, priority, i) && s.get(priority[i]) == Success(hit.value);
      StopsFirst(s, q, i, Found(hit.value, true));
      FirstIsNamed(s, priority, q.name);
      return Found(hit.value, true), log;
    }
    ghost var more;
    r, more := SearchElsewhere(s, q, priority);
    PassesOn(s, q, r);
    LogTogether(s, log, more);
    log := log + more;
  }

  lemma StopsFirst(s: Snapshot, q: Query, i: int, r: Resolution)
    requires q.namespace == "" && StopsAt(s, Priority(s, q), i)
    requires var reply := s.get(Priority(s, q)[i]);
             if reply.Success? then r == Found(reply.value, true) else r == Denied
    ensures AnswersSearch(s, q, r)
  {
    PriorityIsContextFirst(s, q);
    if i == 1 {
      assert Missed(s.get(Priority(s, q)[0]));
    }
  }

  lemma PassesOn(s: Snapshot, q: Query, r: Resolution)
    requires q.namespace == "" && (forall ns :: ns in Priority(s, q) ==> Missed(s.get(ns))) && AnswersElsewhere(s, q, r)
    ensures AnswersSearch(s, q, r)
  {
    PriorityIsContextFirst(s, q);
    assert ContextNamespace(s) in Priority(s, q) && "default" in Priority(s, q);
  }

  /** After the context's namespace and "default" were missed. */
  method SearchElsewhere(s: Snapshot, q: Query, priority: seq<string>) returns (r: Resolution, ghost log: seq<Call>)
    requires q.name != "" && s.namespaced && q.namespace == "" && !q.allNamespaces
    requires priority == Priority(s, q) && FirstIn(s, priority) == []
    ensures AnswersElsewhere(s, q, r)
    ensures !NothingBlocked(s, log) <==> r == Denied
    ensures r != Denied && Faithful(s, q.name) ==> r == Pick(q.name, Tiers(s, q))
  {
    SearchTiers(s, q);
    ElsewhereIsBeyond(s, q);
    var allNs, nsErr := ListNamespaces(s);
    log := [NamespacesCall];
    LogStep(s, [], NamespacesCall);
    assert [] + [NamespacesCall] == log;
    if nsErr == Some(Forbidden) {
      return Denied, log;
    }
    var exact, blocked;
    ghost var before, more := log, [];
    exact, blocked, more := GatherExact(s, allNs, priority);
    log := log + more;
    LogTogether(s, before, more);
    if blocked {
      return Denied, log;
    }
    LookupsSay(s, q, exact);
    if |exact| == 1 {
      ExactAreNamed(s, allNs, priority, q.name);
      return Found(exact[0], true), log;
    }
    if |exact| > 1 {
      return Ambiguous(exact), log;
    }
    if !q.prefixMatch {
      return NotFound, log;
    }
    var hits;
    before := log;
    hits, blocked, more := GatherPrefix(s, allNs, q.name);
    log := log + more;
    LogTogether(s, before, more);
    if blocked {
      return Denied, log;
    }
    PrefixInMeans(s, allNs, q.name);
    return BuildResult(q.name, hits), log;
  }

  lemma LookupsSay(s: Snapshot, q: Query, exact: seq<Ref>)
    requires q.namespace == "" && exact == ExactIn(s, NamespacesOf(s), Priority(s, q))
    ensures (exists ns :: Elsewhere(s, ns) && s.get(ns).Success?) <==> exact != []
    ensures |exact| == 1 ==> FromLookups(s, Found(exact[0], true))
    ensures |exact| > 1 ==> FromLookups(s, Ambiguous(exact))
  {
    ElsewhereIsBeyond(s, q);
    ExactInMeans(s, NamespacesOf(s), Priority(s, q));
    if ns :| Elsewhere(s, ns) && s.get(ns).Success? {
      assert s.get(ns).value in exact;
    }
    if exact != [] {
      assert exact[0] in exact;
    }
  }

  lemma ElsewhereIsBeyond(s: Snapshot, q: Query)
    requires q.namespace == ""
    ensures forall ns :: Elsewhere(s, ns) <==> ns in NamespacesOf(s) && ns !in Priority(s, q)
  {
    PriorityIsContextFirst(s, q);
  }

  lemma LogStep(s: Snapshot, log: seq<Call>, c: Call)
    ensures NothingBlocked(s, log + [c]) <==> NothingBlocked(s, log) && !CallBlocked(s, c)
  {
    assert (log + [c])[|log|] == c;
    assert forall k :: 0 <= k < |log| ==> (log + [c])[k] == log[k];
  }

  lemma LogTogether(s: Snapshot, log: seq<Call>, more: seq<Call>)
    ensures NothingBlocked(s, log + more) <==> NothingBlocked(s, log) && NothingBlocked(s, more)
  {
    assert forall k :: 0 <= k < |log| ==> (log + more)[k] == log[k];
    assert forall k :: 0 <= k < |more| ==> (log + more)[|log| + k] == more[k];
  }

  /** Names are looked up in turn until one is found or forbidden. */
  method TryInTurn(s: Snapshot, nss: seq<string>) returns (hit: Option<Ref>, blocked: bool, ghost log: seq<Call>)
    ensures blocked <==> !NothingBlocked(s, log)
    ensures blocked <==> exists i :: StopsAt(s, nss, i) && Blocked(s.get(nss[i]))
    ensures hit.Some? ==> exists i :: StopsAt(s, nss, i) && s.get(nss[i]) == Success(hit.value)
    ensures !blocked && hit.None? ==> forall ns :: ns in nss ==> Missed(s.get(ns))
    ensures !blocked ==> FirstIn(s, nss) == if hit.Some? then [hit.value] else []
  {
    hit, blocked, log := None, false, [];
    for i := 0 to |nss|
      invariant NothingBlocked(s, log) && FirstIn(s, nss[..i]) == []
      invariant forall j :: 0 <= j < i ==> Missed(s.get(nss[j]))
    {
      assert nss[..i + 1][..i] == nss[..i];
      LogStep(s, log, GetCall(nss[i]));
      log := log + [GetCall(nss[i])];
      match s.get(nss[i]) {
        case Success(obj) =>
          FirstStays(s, nss, i + 1);
          assert StopsAt(s, nss, i);
          return Some(obj), false, log;
        case Failure(e) =>
          if e == Forbidden {
            assert StopsAt(s, nss, i);
            return None, true, log;
          }
      }
    }
    assert nss[..|nss|] == nss;
  }

  lemma {:induction false} FirstStays(s: Snapshot, nss: seq<string>, i: nat)
    requires i <= |nss| && FirstIn(s, nss[..i]) != []
    ensures FirstIn(s, nss) == FirstIn(s, nss[..i])
  {
    if i == |nss| {
      assert nss[..i] == nss;
    } else {
      assert nss[..|nss| - 1][..i] == nss[..i];
      FirstStays(s, nss[..|nss| - 1], i);
    }
  }

  method GatherExact(s: Snapshot, nss: seq<string>, skip: seq<string>)
    returns (refs: seq<Ref>, blocked: bool, ghost log: seq<Call>)
    ensures blocked <==> !NothingBlocked(s, log)
    ensures blocked <==> exists ns :: ns in nss && ns !in skip && Blocked(s.get(ns))
    ensures !blocked ==> refs == ExactIn(s, nss, skip)
  {
    refs, blocked, log := [], false, [];
    for i := 0 to |nss|
      invariant NothingBlocked(s, log) && refs == ExactIn(s, nss[..i], skip)
      invariant forall j :: 0 <= j < i && nss[j] !in skip ==> !Blocked(s.get(nss[j]))
    {
      assert nss[..i + 1][..i] == nss[..i];
      if nss[i] in skip {
        continue;
      }
      LogStep(s, log, GetCall(nss[i]));
      log := log + [GetCall(nss[i])];
      match s.get(nss[i]) {
        case Success(obj) => refs := refs + [obj];
        case Failure(e) =>
          if e == Forbidden {
            return refs, true, log;
          }
      }
    }
    assert nss[..|nss|] == nss;
  }

  method GatherPrefix(s: Snapshot, nss: seq<string>, name: string)
    returns (refs: seq<Ref>, blocked: bool, ghost log: seq<Call>)
    ensures blocked <==> !NothingBlocked(s, log)
    ensures blocked <==> exists j :: 0 <= j < |nss| && Blocked(s.list(nss[j]))
    ensures !blocked ==> refs == PrefixIn(s, nss, name)
  {
    refs, blocked, log := [], false, [];
    for i := 0 to |nss|
      invariant NothingBlocked(s, log) && refs == PrefixIn(s, nss[..i], name)
      invariant forall j :: 0 <= j < i ==> !Blocked(s.list(nss[j]))
    {
      var ns := nss[i];
      PrefixStep(s, nss, i, name);
      LogStep(s, log, ListCall(ns));
      log := log + [ListCall(ns)];
      match s.list(ns) {
        case Failure(e) =>
          if e == Forbidden {
            return refs, true, log;
          }
        case Success(items) =>
          var some := PrefixFilter(items, name, true);
          refs := refs + some;
      }
    }
    assert nss[..|nss|] == nss;
  }

  lemma PrefixStep(s: Snapshot, nss: seq<string>, i: nat, name: string)
    requires i < |nss|
    ensures PrefixIn(s, nss[..i + 1], name) ==
            if s.list(nss[i]).Success? then PrefixIn(s, nss[..i], name) + Filtered(s.list(nss[i]).value, name, true)
            else PrefixIn(s, nss[..i], name)
  {
    assert nss[..i + 1][..i] == nss[..i];
    assert Filtered([], name, true) == [];
  }

  lemma OneNamespace(s: Snapshot, ns: string)
    ensures FirstIn(s, [ns]) == if s.get(ns).Success? then [s.get(ns).value] else []
  {
    assert [ns][..0] == [];
    assert FirstIn(s, []) == [];
  }

  lemma ChosenOfOne(refs: seq<Ref>)
    ensures Chosen([refs]) == refs
  {
    assert [refs][1..] == [];
    assert Chosen([]) == [];
  }

  lemma ChosenOfTwo(tiers: seq<seq<Ref>>)
    requires |tiers| == 2
    ensures Chosen(tiers) == if tiers[0] != [] then tiers[0] else tiers[1]
  {
    assert tiers[1..] == [tiers[1]];
    ChosenOfOne(tiers[1]);
  }

  lemma {:induction false} ChosenTogether(a: seq<seq<Ref>>, b: seq<seq<Ref>>)
    ensures Chosen(a + b) == if Chosen(a) != [] then Chosen(a) else Chosen(b)
  {
    if a == [] {
      assert a + b == b;
    } else {
      assert (a + b)[1..] == a[1..] + b;
      ChosenTogether(a[1..], b);
    }
  }

  lemma {:induction false} ChosenLookup(s: Snapshot, nss: seq<string>)
    ensures Chosen(Lookups(s, nss)) == FirstIn(s, nss)
  {
    if nss != [] {
      var most, ns := nss[..|nss| - 1], nss[|nss| - 1];
      ChosenLookup(s, most);
      assert Lookups(s, nss) == Lookups(s, most) + [FirstIn(s, [ns])];
      ChosenTogether(Lookups(s, most), [FirstIn(s, [ns])]);
      ChosenOfOne(FirstIn(s, [ns]));
      OneNamespace(s, ns);
    }
  }

  lemma SearchTiers(s: Snapshot, q: Query)
    requires s.namespaced && q.namespace == "" && !q.allNamespaces
    ensures var exact := ExactIn(s, NamespacesOf(s), Priority(s, q));
            Chosen(Tiers(s, q)) ==
            if FirstIn(s, Priority(s, q)) != [] then FirstIn(s, Priority(s, q))
            else if exact != [] then exact
            else if q.prefixMatch then PrefixIn(s, NamespacesOf(s), q.name)
            else []
  {
    var exact := ExactIn(s, NamespacesOf(s), Priority(s, q));
    var prefix := if q.prefixMatch then PrefixIn(s, NamespacesOf(s), q.name) else [];
    ChosenTogether(Lookups(s, Priority(s, q)), [exact, prefix]);
    ChosenLookup(s, Priority(s, q));
    ChosenOfTwo([exact, prefix]);
  }

  lemma {:induction false} FirstIsNamed(s: Snapshot, nss: seq<string>, name: string)
    ensures Faithful(s, name) ==> forall r :: r in FirstIn(s, nss) ==> r.name == name
  {
    if nss != [] {
      FirstIsNamed(s, nss[..|nss| - 1], name);
    }
  }

  lemma {:induction false} ExactAreNamed(s: Snapshot, nss: seq<string>, skip: seq<string>, name: string)
    ensures Faithful(s, name) ==> forall r :: r in ExactIn(s, nss, skip) ==> r.name == name
  {
    if nss != [] {
      ExactAreNamed(s, nss[..|nss| - 1], skip, name);
    }
  }

  // ----- It never guesses -----

  /** Tier t decides: it has candidates and no earlier tier has. */
  ghost predicate Decides(tiers: seq<seq<Ref>>, t: nat, refs: seq<Ref>) {
    t < |tiers| && tiers[t] == refs && refs != [] && forall u :: 0 <= u < t ==> tiers[u] == []
  }

  lemma {:induction false} ChosenDecides(tiers: seq<seq<Ref>>)
    ensures Chosen(tiers) == [] <==> forall t :: 0 <= t < |tiers| ==> tiers[t] == []
    ensures Chosen(tiers) != [] ==> exists t :: Decides(tiers, t, Chosen(tiers))
  {
    if tiers != [] {
      if tiers[0] != [] {
        assert Decides(tiers, 0, tiers[0]);
      } else {
        ChosenDecides(tiers[1..]);
        assert forall t :: 0 < t < |tiers| ==> tiers[t] == tiers[1..][t - 1];
        if Chosen(tiers) != [] {
          var t: nat :| Decides(tiers[1..], t, Chosen(tiers));
          assert Decides(tiers, t + 1, Chosen(tiers));
        }
      }
    }
  }

  lemma OnlyOneDecides(tiers: seq<seq<Ref>>, t: nat, u: nat, refs: seq<Ref>, other: seq<Ref>)
    requires Decides(tiers, t, refs) && Decides(tiers, u, other)
    ensures t == u && refs == other
  {
  }

  /** A match is the only candidate of the first tier that has any, and is called
      exact just when its name is the one asked for; two or more candidates are
      ambiguous; and nothing is found just when no tier has a candidate. */
  lemma NeverGuesses(query: string, tiers: seq<seq<Ref>>)
    requires query != ""
    ensures forall m, exact :: Pick(query, tiers) == Found(m, exact) <==>
                               (exists t :: Decides(tiers, t, [m])) && (exact <==> m.name == query)
    ensures forall refs :: Pick(query, tiers) == Ambiguous(refs) <==> |refs| >= 2 && exists t :: Decides(tiers, t, refs)
    ensures Pick(query, tiers) == NotFound <==> forall t :: 0 <= t < |tiers| ==> tiers[t] == []
    ensures Pick(query, tiers) != Denied
  {
    ChosenDecides(tiers);
    var refs := Chosen(tiers);
    forall t: nat, other: seq<Ref> | Decides(tiers, t, other) ensures other == refs {
      var u: nat :| Decides(tiers, u, refs);
      OnlyOneDecides(tiers, t, u, other, refs);
    }
    if |refs| == 1 {
      assert refs == [refs[0]];
    }
  }

  // ----- Ambiguity is real, unless the namespaces could not be listed -----

  ghost predicate Different(refs: seq<Ref>) {
    forall i, j :: 0 <= i < j < |refs| ==> refs[i] != refs[j]
  }

  /** A list gives the objects of its namespace, each once, and a lookup gives the
      object of that namespace. */
  ghost predicate Consistent(s: Snapshot) {
    && (forall ns :: s.get(ns).Success? && ns != "" ==> s.get(ns).value.namespace == ns)
    && (forall ns :: s.list(ns).Success? ==> Different(s.list(ns).value))
    && (forall ns, r :: ns != "" && s.list(ns).Success? && r in s.list(ns).value ==> r.namespace == ns)
  }

  lemma {:induction false} FilteredFrom(items: seq<Ref>, name: string)
    ensures forall r :: r in Exact(items, name) || r in Prefixed(items, name) ==> r in items
    ensures Different(items) ==> Different(Exact(items, name)) && Different(Prefixed(items, name))
  {
    if items != [] {
      var most, last := items[..|items| - 1], items[|items| - 1];
      FilteredFrom(most, name);
      assert items == most + [last];
      if Different(items) {
        assert forall i :: 0 <= i < |most| ==> most[i] == items[i];
        assert last !in most;
      }
    }
  }

  /** The namespaces are different ones, none of them empty. */
  ghost predicate Proper(nss: seq<string>) {
    (forall i, j :: 0 <= i < j < |nss| ==> nss[i] != nss[j]) && "" !in nss
  }

  lemma {:induction false} PrefixDifferent(s: Snapshot, nss: seq<string>, name: string)
    requires Consistent(s) && Proper(nss)
    ensures Different(PrefixIn(s, nss, name))
    ensures forall r :: r in PrefixIn(s, nss, name) ==> r.namespace in nss
  {
    if nss != [] {
      var most, ns := nss[..|nss| - 1], nss[|nss| - 1];
      assert nss == most + [ns];
      PrefixDifferent(s, most, name);
      FilteredFrom(Items(s.list(ns)), name);
      assert forall r :: r in Filtered(Items(s.list(ns)), name, true) ==> r.namespace == ns;
      assert ns !in most;
      DifferentTogether(PrefixIn(s, most, name), Filtered(Items(s.list(ns)), name, true));
    }
  }

  lemma DifferentTogether(a: seq<Ref>, b: seq<Ref>)
    requires Different(a) && Different(b) && forall r :: r in a ==> r !in b
    ensures Different(a + b)
  {
    forall i, j | 0 <= i < j < |a + b| ensures (a + b)[i] != (a + b)[j] {
      if i < |a| <= j {
        assert a[i] in a && b[j - |a|] in b;
      }
    }
  }

  lemma {:induction false} ExactDifferent(s: Snapshot, nss: seq<string>, skip: seq<string>)
    requires Consistent(s) && Proper(nss)
    ensures Different(ExactIn(s, nss, skip))
    ensures forall r :: r in ExactIn(s, nss, skip) ==> r.namespace in nss
  {
    if nss != [] {
      var most, ns := nss[..|nss| - 1], nss[|nss| - 1];
      assert nss == most + [ns];
      ExactDifferent(s, most, skip);
      assert ns in nss && ns !in most;
    }
  }

  /** When the namespaces are listed, an ambiguous answer names different objects. */
  lemma AmbiguousMeansDifferent(s: Snapshot, q: Query, refs: seq<Ref>)
    requires Consistent(s) && s.namespaces.Success?
    requires Pick(q.name, Tiers(s, q)) == Ambiguous(refs)
    ensures Different(refs)
  {
    if s.namespaced && !q.allNamespaces && q.namespace == "" {
      SearchTiers(s, q);
      UniqueMeans(s.namespaces.value);
      PrefixDifferent(s, NamespacesOf(s), q.name);
      ExactDifferent(s, NamespacesOf(s), Priority(s, q));
      FirstIsOne(s, Priority(s, q));
    } else {
      if s.namespaced && q.allNamespaces {
        ChosenOfOne(Tiers(s, q)[0]);
      } else {
        ChosenOfTwo(Tiers(s, q));
      }
      FirstIsOne(s, [""]);
      FirstIsOne(s, [q.namespace]);
      FilteredFrom(Items(s.list("")), q.name);
      FilteredFrom(Items(s.list(q.namespace)), q.name);
    }
  }

  lemma {:induction false} FirstIsOne(s: Snapshot, nss: seq<string>)
    ensures |FirstIn(s, nss)| <= 1
  {
    if nss != [] {
      FirstIsOne(s, nss[..|nss| - 1]);
    }
  }

  lemma PrefixInTwo(s: Snapshot, ns: string, other: string, name: string)
    ensures PrefixIn(s, [ns, other], name) ==
            Filtered(Items(s.list(ns)), name, true) + Filtered(Items(s.list(other)), name, true)
  {
    assert [ns, other][..1] == [ns] && [ns][..0] == [];
    assert PrefixIn(s, [ns], name) == PrefixIn(s, [], name) + Filtered(Items(s.list(ns)), name, true);
  }

  lemma {:induction false} ExactInNone(s: Snapshot, nss: seq<string>, skip: seq<string>)
    requires forall ns :: ns in nss ==> ns in skip
    ensures ExactIn(s, nss, skip) == []
  {
    if nss != [] {
      ExactInNone(s, nss[..|nss| - 1], skip);
    }
  }

  /** Only the search by prefix is left to find something. */
  lemma FallbackChosen(s: Snapshot, q: Query)
    requires s.namespaced && q.namespace == "" && !q.allNamespaces && q.prefixMatch
    requires s.namespaces == Failure(OtherError) && FirstIn(s, Priority(s, q)) == []
    ensures Chosen(Tiers(s, q)) ==
            Filtered(Items(s.list(ContextNamespace(s))), q.name, true)
            + Filtered(Items(s.list("default")), q.name, true)
  {
    SearchTiers(s, q);
    UniqueMeans([q.namespace, ContextNamespace(s), "default"]);
    PrefixInTwo(s, ContextNamespace(s), "default", q.name);
    ExactInNone(s, NamespacesOf(s), Priority(s, q));
  }

  /** When they cannot be listed, the search by prefix goes over the context's
      namespace and "default", twice over "default" if they are the same. So a match
      by prefix is found exactly when it is the only one and the context has a
      namespace of its own: a single match in "default" is reported as ambiguous
      with itself. */
  lemma FallbackFinds(s: Snapshot, q: Query)
    requires s.namespaced && q.namespace == "" && !q.allNamespaces && q.prefixMatch && q.name != ""
    requires s.namespaces == Failure(OtherError) && FirstIn(s, Priority(s, q)) == []
    ensures var own := Filtered(Items(s.list(ContextNamespace(s))), q.name, true);
            var default := Filtered(Items(s.list("default")), q.name, true);
            && (Pick(q.name, Tiers(s, q)).Found? <==> ContextNamespace(s) != "default" && |own + default| == 1)
            && (ContextNamespace(s) == "default" && |default| == 1 ==>
                  Pick(q.name, Tiers(s, q)) == Ambiguous([default[0], default[0]]))
  {
    var default := Filtered(Items(s.list("default")), q.name, true);
    FallbackChosen(s, q);
    if |default| == 1 && ContextNamespace(s) == "default" {
      assert default + default == [default[0], default[0]];
    }
  }
}
