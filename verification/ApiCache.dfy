/** The cache of API reads that one diagnosis shares (internal/diagnostic/cache.go).
    Calls run concurrently; only the lookup and the store hold the lock. */
module ApiCache {
  import opened Wrappers

  // ----- Keys -----

  /** The parts with a bar between them. */
  function Joined(parts: seq<string>): string {
    if |parts| == 0 then ""
    else if |parts| == 1 then parts[0]
    else Joined(parts[..|parts| - 1]) + "|" + parts[|parts| - 1]
  }

  method CacheKey(parts: seq<string>) returns (out: string)
    ensures out == Joined(parts)
  {
    out := "";
    for i := 0 to |parts|
      invariant out == Joined(parts[..i])
    {
      assert parts[..i + 1][..i] == parts[..i];
      if i > 0 {
        out := out + "|";
      }
      out := out + parts[i];
    }
    assert parts[..|parts|] == parts;
  }

  predicate NoBar(part: string) {
    '|' !in part
  }

  ghost predicate NoBars(parts: seq<string>) {
    forall p :: p in parts ==> NoBar(p)
  }

  lemma LastBar(x: string, a: string, y: string, b: string)
    requires NoBar(a) && NoBar(b) && x + "|" + a == y + "|" + b
    ensures x == y && a == b
  {
    var s := x + "|" + a;
    assert s[|x|] == '|' && (y + "|" + b)[|y|] == '|';
    assert forall i :: |x| < i < |s| ==> s[i] == a[i - |x| - 1];
    assert forall i :: |y| < i < |s| ==> s[i] == b[i - |y| - 1];
    assert |x| == |y|;
    assert x == s[..|x|] && y == s[..|x|];
    assert a == s[|x| + 1..] && b == s[|x| + 1..];
  }

  lemma OneOrMore(parts: seq<string>)
    requires NoBars(parts)
    ensures |parts| <= 1 ==> NoBar(Joined(parts))
    ensures |parts| > 1 ==> !NoBar(Joined(parts))
  {
    if |parts| > 1 {
      assert Joined(parts)[|Joined(parts[..|parts| - 1])|] == '|';
    } else if |parts| == 1 {
      assert parts[0] in parts;
    }
  }

  /** Lists of bar-free parts have the same key only if they are the same, except
      that no parts and one empty part have one key. */
  lemma {:induction false} KeysTellPartsApart(a: seq<string>, b: seq<string>)
    requires NoBars(a) && NoBars(b)
    ensures Joined(a) == Joined(b) <==> a == b || (a in {[], [""]} && b in {[], [""]})
    ensures a != [] && b != [] ==> (Joined(a) == Joined(b) <==> a == b)
    decreases |a|
  {
    OneOrMore(a);
    OneOrMore(b);
    if |a| > 1 && |b| > 1 && Joined(a) == Joined(b) {
      var a', b' := a[..|a| - 1], b[..|b| - 1];
      assert a[|a| - 1] in a && b[|b| - 1] in b;
      LastBar(Joined(a'), a[|a| - 1], Joined(b'), b[|b| - 1]);
      KeysTellPartsApart(a', b');
      assert a == a' + [a[|a| - 1]] && b == b' + [b[|b| - 1]];
    } else if |a| <= 1 && |b| <= 1 {
      assert |a| == 1 ==> a == [a[0]];
      assert |b| == 1 ==> b == [b[0]];
    }
  }

  // ----- Keys of parts with bars -----

  function Bars(s: string): nat {
    if s == "" then 0 else Bars(s[..|s| - 1]) + if s[|s| - 1] == '|' then 1 else 0
  }

  lemma {:induction false} BarsTogether(s: string, t: string)
    ensures Bars(s + t) == Bars(s) + Bars(t)
  {
    if t == "" {
      assert s + t == s;
    } else {
      assert (s + t)[..|s + t| - 1] == s + t[..|t| - 1];
      BarsTogether(s, t[..|t| - 1]);
    }
  }

  lemma {:induction false} NoBarExactly(s: string)
    ensures NoBar(s) <==> Bars(s) == 0
  {
    if s != "" {
      NoBarExactly(s[..|s| - 1]);
      assert s == s[..|s| - 1] + [s[|s| - 1]];
    }
  }

  function BarsInside(parts: seq<string>): nat {
    if parts == [] then 0 else BarsInside(parts[..|parts| - 1]) + Bars(parts[|parts| - 1])
  }

  lemma {:induction false} NoBarsExactly(parts: seq<string>)
    ensures NoBars(parts) <==> BarsInside(parts) == 0
  {
    if parts != [] {
      NoBarsExactly(parts[..|parts| - 1]);
      NoBarExactly(parts[|parts| - 1]);
      assert parts == parts[..|parts| - 1] + [parts[|parts| - 1]];
    }
  }

  /** A key has the bars of its parts and those between them. */
  lemma {:induction false} BarsOfKey(parts: seq<string>)
    requires parts != []
    ensures Bars(Joined(parts)) == BarsInside(parts) + |parts| - 1
  {
    var front, last := parts[..|parts| - 1], parts[|parts| - 1];
    if front == [] {
      assert BarsInside(front) == 0;
    } else {
      BarsOfKey(front);
      BarsTogether(Joined(front) + "|", last);
      BarsTogether(Joined(front), "|");
      assert "|"[..0] == "";
    }
  }

  lemma JoinedMore(parts: seq<string>, last: string)
    requires parts != []
    ensures Joined(parts + [last]) == Joined(parts) + "|" + last
  {
    assert (parts + [last])[..|parts|] == parts;
  }

  /** What is written after the last part ends the key. */
  lemma JoinedLonger(front: seq<string>, last: string, more: string)
    ensures Joined(front + [last + more]) == Joined(front + [last]) + more
  {
    if front == [] {
      assert front + [last + more] == [last + more] && front + [last] == [last];
    } else {
      JoinedMore(front, last);
      JoinedMore(front, last + more);
      assert Joined(front) + "|" + (last + more) == Joined(front) + "|" + last + more;
    }
  }

  lemma AtABar(s: string) returns (u: string, v: string)
    requires !NoBar(s)
    ensures s == u + "|" + v
  {
    var i :| 0 <= i < |s| && s[i] == '|';
    u, v := s[..i], s[i + 1..];
  }

  /** Of two neighbours the bar can belong to either. */
  lemma OtherSplit(front: seq<string>, x: string, u: string, v: string)
    ensures Joined(front + [x + "|" + u] + [v]) == Joined(front + [x] + [u + "|" + v])
  {
    var longer, shorter := front + [x + ("|" + u)], front + [x];
    JoinedLonger(front, x, "|" + u);
    assert x + ("|" + u) == x + "|" + u;
    JoinedMore(longer, v);
    JoinedMore(shorter, u + "|" + v);
    assert Joined(shorter) + ("|" + u) + "|" + v == Joined(shorter) + "|" + (u + "|" + v);
  }

  lemma CutLast(front: seq<string>, x: string, last: string) returns (other: seq<string>)
    requires !NoBar(last)
    ensures |other| == |front| + 2 && other != front + [x] + [last] && Joined(other) == Joined(front + [x] + [last])
  {
    var u, v := AtABar(last);
    OtherSplit(front, x, u, v);
    other := front + [x + "|" + u] + [v];
    assert other[|front| + 1] == v && |v| < |last|;
  }

  lemma CutFirst(first: string, last: string) returns (other: seq<string>)
    requires !NoBar(first)
    ensures |other| == 2 && other != [first, last] && Joined(other) == Joined([first, last])
  {
    var u, v := AtABar(first);
    OtherSplit([], u, v, last);
    other := [u, v + "|" + last];
    assert [] + [u] + [v + "|" + last] == other && [] + [u + "|" + v] + [last] == [first, last];
    assert |other[0]| < |first|;
  }

  /** A list of two or more parts with a bar in one of them, cut elsewhere. */
  lemma {:induction false} OtherParts(parts: seq<string>) returns (other: seq<string>)
    requires |parts| >= 2 && !NoBars(parts)
    ensures |other| == |parts| && other != parts && Joined(other) == Joined(parts)
  {
    var n := |parts|;
    var front, last := parts[..n - 1], parts[n - 1];
    assert parts == front + [last];
    if !NoBar(last) {
      assert parts == parts[..n - 2] + [parts[n - 2]] + [last];
      other := CutLast(parts[..n - 2], parts[n - 2], last);
    } else if n == 2 {
      assert parts == [parts[0], last];
      other := CutFirst(parts[0], last);
    } else {
      assert !NoBars(front);
      var o := OtherParts(front);
      other := o + [last];
      JoinedMore(o, last);
      JoinedMore(front, last);
      assert other[..n - 1] == o;
    }
  }

  /** Among lists of one length a key stands for one list alone if and only if there
      is at most one part or none of the parts has a bar in it. */
  lemma KeyStandsAloneExactly(a: seq<string>)
    ensures (forall b: seq<string> :: |b| == |a| && Joined(b) == Joined(a) ==> b == a) <==> |a| <= 1 || NoBars(a)
  {
    forall b: seq<string> | |b| == |a| && Joined(b) == Joined(a) && (|a| <= 1 || NoBars(a)) ensures b == a {
      if |a| > 1 {
        BarsOfKey(a);
        BarsOfKey(b);
        NoBarsExactly(a);
        NoBarsExactly(b);
        KeysTellPartsApart(a, b);
      } else if |a| == 1 {
        assert a == [a[0]] && b == [b[0]];
      }
    }
    if |a| > 1 && !NoBars(a) {
      var b := OtherParts(a);
    }
  }

  /** Such a pair among the four parts every caller passes: an object in a namespace
      named with a bar, and another object that has the bar in its own name. */
  lemma FourPartsCollide(verb: string, resource: string, x: string, y: string, z: string)
    ensures var a, b := [verb, resource, x + "|" + y, z], [verb, resource, x, y + "|" + z];
            a != b && Joined(a) == Joined(b)
  {
    OtherSplit([verb, resource], x, y, z);
    assert [verb, resource] + [x + "|" + y] + [z] == [verb, resource, x + "|" + y, z];
    assert [verb, resource] + [x] + [y + "|" + z] == [verb, resource, x, y + "|" + z];
    assert |x + "|" + y| > |x|;
  }

  // ----- Concurrent gets -----

  /** What a load gives: an object or an error, and whether it is a timeout. */
  datatype Outcome = Outcome(obj: string, error: Option<string>, timeout: bool)

  /** A get that keeps its answer has passed the test of its context and of the
      answer, but has not yet taken the lock to store it. */
  datatype PC = Asking | Loading | Loaded(out: Outcome) | Keeping(out: Outcome) | Returned(out: Outcome)

  datatype Load = Load(key: string, out: Outcome)

  /** The gets in progress, by their keys, every load made so far, and the gets
      whose context is cancelled. */
  datatype State = State(cache: map<string, Outcome>, pcs: seq<PC>, loads: seq<Load>, cancelled: set<nat>)

  datatype Event = Lookup(get: nat) | Answer(get: nat, out: Outcome) | Test(get: nat) | Store(get: nat)
                 | Cancel(get: nat)

  function Init(keys: seq<string>): State {
    State(map[], seq(|keys|, i => Asking), [], {})
  }

  predicate Enabled(s: State, e: Event) {
    && e.get < |s.pcs|
    && match e
       case Lookup(g) => s.pcs[g].Asking?
       case Answer(g, _) => s.pcs[g].Loading?
       case Test(g) => s.pcs[g].Loaded?
       case Store(g) => s.pcs[g].Keeping?
       case Cancel(g) => g !in s.cancelled
  }

  /** A lookup answers from the cache or goes on to load. What was loaded is tested
      without the lock: it is returned at once if the context is cancelled or the
      load timed out, and otherwise stored under the lock. */
  function Next(keys: seq<string>, s: State, e: Event): State
    requires |s.pcs| == |keys| && Enabled(s, e)
  {
    match e
    case Lookup(g) =>
      s.(pcs := s.pcs[g := if keys[g] in s.cache then Returned(s.cache[keys[g]]) else Loading])
    case Answer(g, out) => s.(pcs := s.pcs[g := Loaded(out)], loads := s.loads + [Load(keys[g], out)])
    case Test(g) =>
      var out := s.pcs[g].out;
      s.(pcs := s.pcs[g := if g in s.cancelled || out.timeout then Returned(out) else Keeping(out)])
    case Store(g) =>
      var out := s.pcs[g].out;
      s.(pcs := s.pcs[g := Returned(out)], cache := s.cache[keys[g] := out])
    case Cancel(g) => s.(cancelled := s.cancelled + {g})
  }

  predicate HasAnswer(pc: PC) {
    pc.Loaded? || pc.Keeping? || pc.Returned?
  }

  /** What is cached or returned for a key was loaded for that key, and what is
      cached or about to be did not time out. */
  ghost predicate Inv(keys: seq<string>, s: State) {
    && |s.pcs| == |keys|
    && (forall k :: k in s.cache ==> Load(k, s.cache[k]) in s.loads && !s.cache[k].timeout)
    && (forall g :: 0 <= g < |s.pcs| && HasAnswer(s.pcs[g]) ==> Load(keys[g], s.pcs[g].out) in s.loads)
    && (forall g :: 0 <= g < |s.pcs| && s.pcs[g].Keeping? ==> !s.pcs[g].out.timeout)
  }

  lemma InvStep(keys: seq<string>, s: State, e: Event)
    requires Inv(keys, s) && Enabled(s, e)
    ensures Inv(keys, Next(keys, s, e))
    ensures s.loads <= Next(keys, s, e).loads
  {
    if e.Answer? {
      assert (s.loads + [Load(keys[e.get], e.out)])[|s.loads|] == Load(keys[e.get], e.out);
    }
  }

  ghost predicate Steps(keys: seq<string>, s: State, e: Event, s': State) {
    |s.pcs| == |keys| && Enabled(s, e) && s' == Next(keys, s, e)
  }

  ghost predicate IsRun(keys: seq<string>, states: seq<State>, events: seq<Event>) {
    && |states| == |events| + 1 && states[0] == Init(keys)
    && forall k :: 0 <= k < |events| ==> Steps(keys, states[k], events[k], states[k + 1])
  }

  lemma {:induction false} InvAlways(keys: seq<string>, states: seq<State>, events: seq<Event>, k: nat)
    requires IsRun(keys, states, events) && k <= |events|
    ensures Inv(keys, states[k])
  {
    if k > 0 {
      InvAlways(keys, states, events, k - 1);
      assert Steps(keys, states[k - 1], events[k - 1], states[k]);
      InvStep(keys, states[k - 1], events[k - 1]);
    }
  }

  lemma {:induction false} LoadsAreAnswers(keys: seq<string>, states: seq<State>, events: seq<Event>, k: nat, l: Load)
    requires IsRun(keys, states, events) && k <= |events| && l in states[k].loads
    ensures exists j :: 0 <= j < k && events[j].Answer? && events[j].get < |keys|
                        && l == Load(keys[events[j].get], events[j].out)
  {
    if k > 0 {
      assert Steps(keys, states[k - 1], events[k - 1], states[k]);
      if l in states[k - 1].loads {
        LoadsAreAnswers(keys, states, events, k - 1, l);
      } else {
        var e := events[k - 1];
        assert e.Answer? && l == Load(keys[e.get], e.out);
      }
    }
  }

  /** In every interleaving, what a get returns was loaded for its own key earlier
      in the run, by itself or another get. */
  lemma ReturnsALoadOfItsKey(keys: seq<string>, states: seq<State>, events: seq<Event>, k: nat, g: nat)
    requires IsRun(keys, states, events) && k <= |events|
    requires g < |keys| && g < |states[k].pcs| && states[k].pcs[g].Returned?
    ensures exists j :: 0 <= j < k && events[j].Answer? && events[j].get < |keys|
                        && keys[events[j].get] == keys[g] && events[j].out == states[k].pcs[g].out
  {
    InvAlways(keys, states, events, k);
    LoadsAreAnswers(keys, states, events, k, Load(keys[g], states[k].pcs[g].out));
  }

  /** So if what a load gives depends only on its key, every get returns what a
      direct load would give. */
  lemma CachedIsDirect(keys: seq<string>, direct: string -> Outcome, states: seq<State>, events: seq<Event>,
                       k: nat, g: nat)
    requires IsRun(keys, states, events) && k <= |events|
    requires forall j :: 0 <= j < |events| && events[j].Answer? && events[j].get < |keys| ==>
               events[j].out == direct(keys[events[j].get])
    requires g < |keys| && g < |states[k].pcs| && states[k].pcs[g].Returned?
    ensures states[k].pcs[g].out == direct(keys[g])
  {
    ReturnsALoadOfItsKey(keys, states, events, k, g);
  }

  /** An answer that timed out is never served to another get: whoever returns it
      loaded it. */
  lemma TimeoutsAreNotShared(keys: seq<string>, states: seq<State>, events: seq<Event>, k: nat)
    requires IsRun(keys, states, events) && k < |events|
    requires events[k].Lookup? && events[k].get < |keys| && keys[events[k].get] in states[k].cache
    ensures var pc := states[k + 1].pcs[events[k].get]; pc.Returned? && !pc.out.timeout
  {
    InvAlways(keys, states, events, k);
    assert Steps(keys, states[k], events[k], states[k + 1]);
  }

  /** What is cached stays cached, so later lookups of the key are answered. */
  lemma {:induction false} CachedStaysCached(keys: seq<string>, states: seq<State>, events: seq<Event>,
                                             j: nat, k: nat, key: string)
    requires IsRun(keys, states, events) && j <= k <= |events| && key in states[j].cache
    ensures key in states[k].cache
  {
    if j < k {
      CachedStaysCached(keys, states, events, j, k - 1, key);
      assert Steps(keys, states[k - 1], events[k - 1], states[k]);
    }
  }

  // ----- What is loaded is shared -----

  /** A get that returned without a timeout, and was not cancelled, has left its
      answer's key in the cache. */
  ghost predicate Shared(keys: seq<string>, s: State) {
    && |s.pcs| == |keys|
    && forall g :: 0 <= g < |s.pcs| && s.pcs[g].Returned? && g !in s.cancelled && !s.pcs[g].out.timeout ==>
         keys[g] in s.cache
  }

  lemma {:induction false} ReturnedIsShared(keys: seq<string>, states: seq<State>, events: seq<Event>, k: nat)
    requires IsRun(keys, states, events) && k <= |events|
    ensures Shared(keys, states[k])
  {
    if k > 0 {
      ReturnedIsShared(keys, states, events, k - 1);
      assert Steps(keys, states[k - 1], events[k - 1], states[k]);
    }
  }

  /** Once a key is cached, a get that has not looked yet never loads: it returns what
      is cached at its lookup. */
  lemma {:induction false} CachedSparesTheLoad(keys: seq<string>, states: seq<State>, events: seq<Event>,
                                               j: nat, k: nat, g: nat)
    requires IsRun(keys, states, events) && j <= k <= |events| && g < |keys|
    requires |states[j].pcs| == |keys| && keys[g] in states[j].cache && states[j].pcs[g].Asking?
    ensures |states[k].pcs| == |keys| && (states[k].pcs[g].Asking? || states[k].pcs[g].Returned?)
  {
    if j < k {
      CachedSparesTheLoad(keys, states, events, j, k - 1, g);
      CachedStaysCached(keys, states, events, j, k - 1, keys[g]);
      assert Steps(keys, states[k - 1], events[k - 1], states[k]);
    }
  }

  // ----- Stores and cancellation -----

  /** How far a get has come. */
  function Stage(pc: PC): nat {
    match pc
    case Asking => 0
    case Loading => 1
    case Loaded(_) => 2
    case Keeping(_) => 3
    case Returned(_) => 4
  }

  lemma {:induction false} NeverGoesBack(keys: seq<string>, states: seq<State>, events: seq<Event>, j: nat, k: nat,
                                         g: nat)
    requires IsRun(keys, states, events) && j <= k <= |events| && g < |keys|
    ensures |states[j].pcs| == |states[k].pcs| == |keys|
    ensures Stage(states[j].pcs[g]) <= Stage(states[k].pcs[g])
    ensures states[j].cancelled <= states[k].cancelled
  {
    InvAlways(keys, states, events, j);
    if j < k {
      NeverGoesBack(keys, states, events, j, k - 1, g);
      assert Steps(keys, states[k - 1], events[k - 1], states[k]);
    }
  }

  lemma {:induction false} CancelledBeforeItsTest(keys: seq<string>, states: seq<State>, events: seq<Event>,
                                                  j: nat, k: nat, g: nat)
    requires IsRun(keys, states, events) && j <= k <= |events| && g < |keys|
    requires g < |states[j].pcs| && g in states[j].cancelled && Stage(states[j].pcs[g]) < 3
    ensures g < |states[k].pcs| && !states[k].pcs[g].Keeping? && g in states[k].cancelled
  {
    if j < k {
      CancelledBeforeItsTest(keys, states, events, j, k - 1, g);
      assert Steps(keys, states[k - 1], events[k - 1], states[k]);
    }
  }

  /** A get stores at most once, and one that stores after its context was
      cancelled had passed its test before. */
  lemma StoresAfterCancel(keys: seq<string>, states: seq<State>, events: seq<Event>, j: nat, k: nat, g: nat)
    requires IsRun(keys, states, events) && j <= k < |events| && g < |keys| && events[k] == Store(g)
    ensures events[j] == Store(g) ==> j == k
    ensures g < |states[j].pcs| && (g in states[j].cancelled ==> states[j].pcs[g].Keeping?)
  {
    assert Steps(keys, states[k], events[k], states[k + 1]);
    NeverGoesBack(keys, states, events, j, k, g);
    if events[j] == Store(g) && j < k {
      assert Steps(keys, states[j], events[j], states[j + 1]);
      NeverGoesBack(keys, states, events, j + 1, k, g);
    }
    if g in states[j].cancelled && !states[j].pcs[g].Keeping? {
      CancelledBeforeItsTest(keys, states, events, j, k, g);
    }
  }

  /** And whenever a get has passed its test, a cancellation may still come before
      its store, which goes through all the same. */
  lemma KeptInSpiteOfCancel(keys: seq<string>, s: State, g: nat)
    requires Inv(keys, s) && g < |keys| && s.pcs[g].Keeping? && g !in s.cancelled
    ensures Enabled(s, Cancel(g)) && Enabled(Next(keys, s, Cancel(g)), Store(g))
    ensures var s' := Next(keys, Next(keys, s, Cancel(g)), Store(g));
            g in s'.cancelled && keys[g] in s'.cache && s'.cache[keys[g]] == s.pcs[g].out
  {
  }
}
