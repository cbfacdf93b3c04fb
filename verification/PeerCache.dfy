/** The two-generation cache of D-Bus peer credentials.

    The cache is meant to stand in for an LRU of MAX_CACHE_SIZE entries.  The main result,
    `RetainsRecentlyUsed`, compares it with the plain history of uses: in every run a peer is
    dropped only after MAX_CACHE_SIZE distinct other peers were used since its own last use. */
module PeerCache {
  import opened Peers

  const MAX_CACHE_SIZE := 50

  datatype Credentials = Credentials(valid: bool, uid: nat, pid: nat, securityLabel: string)

  /** A promise that was fulfilled: which one, for which peer, and with what. */
  datatype Resolution = Resolution(ticket: nat, peer: Peer, value: Credentials)

  /** Promises are numbered in the order in which `Get` hands them out; `calls` lists the queries
      that were sent to the bus daemon. */
  datatype State = State(
    cache: map<Peer, Credentials>,
    oldCache: map<Peer, Credentials>,
    pending: map<Peer, seq<nat>>,
    calls: seq<Peer>,
    resolved: seq<Resolution>,
    nextTicket: nat)

  const INITIAL := State(map[], map[], map[], [], [], 0)

  // ----- what one call does -----

  function Get(s: State, peer: Peer): State {
    var s' := s.(nextTicket := s.nextTicket + 1);
    if peer in s.cache then
      s'.(resolved := s.resolved + [Resolution(s.nextTicket, peer, s.cache[peer])])
    else if peer in s.oldCache then
      s'.(cache := s.cache[peer := s.oldCache[peer]],
          oldCache := s.oldCache - {peer},
          resolved := s.resolved + [Resolution(s.nextTicket, peer, s.oldCache[peer])])
    else if peer in s.pending then
      s'.(pending := s.pending[peer := s.pending[peer] + [s.nextTicket]])
    else
      s'.(pending := s.pending[peer := [s.nextTicket]], calls := s.calls + [peer])
  }

  function Resolutions(tickets: seq<nat>, peer: Peer, value: Credentials): (r: seq<Resolution>)
    ensures |r| == |tickets|
  {
    seq(|tickets|, i requires 0 <= i < |tickets| => Resolution(tickets[i], peer, value))
  }

  /** A full generation becomes the old one. */
  function Rotate(s: State): State {
    if |s.cache| >= MAX_CACHE_SIZE then s.(cache := map[], oldCache := s.cache) else s
  }

  function Emplace(m: map<Peer, Credentials>, peer: Peer, value: Credentials): map<Peer, Credentials> {
    if peer in m then m else m[peer := value]
  }

  function Received(s: State, peer: Peer, value: Credentials): State
  {
    var waiting := if peer in s.pending then s.pending[peer] else [];
    Rotate(s).(cache := Emplace(Rotate(s).cache, peer, value),
               pending := s.pending - {peer},
               resolved := s.resolved + Resolutions(waiting, peer, value))
  }

  /** The cache as it is coded: three maps updated in place. */
  class DBusPeerCache {
    var cache: map<Peer, Credentials>
    var oldCache: map<Peer, Credentials>
    var pending: map<Peer, seq<nat>>
    var calls: seq<Peer>
    var resolved: seq<Resolution>
    var nextTicket: nat

    function Abs(): State
      reads this
    {
      State(cache, oldCache, pending, calls, resolved, nextTicket)
    }

    constructor ()
      ensures Abs() == INITIAL
    {
      cache, oldCache, pending := map[], map[], map[];
      calls, resolved, nextTicket := [], [], 0;
    }

    method SetValue(ticket: nat, peer: Peer, value: Credentials)
      modifies `resolved
      ensures resolved == old(resolved) + [Resolution(ticket, peer, value)]
    {
      resolved := resolved + [Resolution(ticket, peer, value)];
    }

    method GetCredentials(peer: Peer) returns (ticket: nat)
      modifies this
      ensures ticket == old(nextTicket)
      ensures Abs() == Get(old(Abs()), peer)
    {
      ticket := nextTicket;
      nextTicket := nextTicket + 1;
      if peer in cache {
        SetValue(ticket, peer, cache[peer]);
        return;
      }
      if peer in oldCache {
        var credentials := oldCache[peer];
        cache := cache[peer := credentials];
        oldCache := oldCache - {peer};
        SetValue(ticket, peer, credentials);
        return;
      }
      if peer in pending {
        pending := pending[peer := pending[peer] + [ticket]];
        return;
      }
      calls := calls + [peer];
      pending := pending[peer := [ticket]];
    }

    method SetValues(promises: seq<nat>, peer: Peer, value: Credentials)
      modifies `resolved
      ensures resolved == old(resolved) + Resolutions(promises, peer, value)
    {
      ghost var all := Resolutions(promises, peer, value);
      for i := 0 to |promises|
        invariant resolved == old(resolved) + all[..i]
      {
        SetValue(promises[i], peer, value);
        assert all[..i + 1] == all[..i] + [all[i]];
      }
      assert all[..|promises|] == all;
    }

    method ReceivedCredentials(peer: Peer, credentials: Credentials)
      requires peer in pending
      modifies this
      ensures Abs() == Received(old(Abs()), peer, credentials)
    {
      if |cache| >= MAX_CACHE_SIZE {
        oldCache := cache;
        cache := map[];
      }
      cache := Emplace(cache, peer, credentials);
      SetValues(pending[peer], peer, credentials);
      pending := pending - {peer};
    }
  }

  // ----- runs -----

  datatype Event = Ask(peer: Peer) | Reply(peer: Peer, value: Credentials)

  /** What an observer outside the cache writes down: the peers in the order in which they were
      used (a hit, or the arrival of a reply), who asked for what, and the daemon's replies. */
  datatype History = History(uses: seq<Peer>, asked: seq<Peer>, answered: seq<Peer>, replies: seq<(Peer, Credentials)>)

  datatype World = World(s: State, h: History)

  function Count(s: seq<Peer>, p: Peer): int {
    if s == [] then 0 else Count(s[..|s| - 1], p) + if s[|s| - 1] == p then 1 else 0
  }

  lemma CountSnoc(s: seq<Peer>, q: Peer, p: Peer)
    ensures Count(s + [q], p) == Count(s, p) + if q == p then 1 else 0
  {
    assert (s + [q])[..|s|] == s;
  }

  /** Queries for `p` that the daemon has not answered yet. */
  function Outstanding(w: World, p: Peer): int {
    Count(w.s.calls, p) - Count(w.h.answered, p)
  }

  /** The daemon answers queries that were put to it, each once. */
  predicate Enabled(w: World, e: Event) {
    e.Reply? ==> Outstanding(w, e.peer) > 0
  }

  function Step(w: World, e: Event): World {
    match e
    case Ask(p) =>
      var hit := p in w.s.cache || p in w.s.oldCache;
      World(Get(w.s, p),
            w.h.(uses := if hit then w.h.uses + [p] else w.h.uses, asked := w.h.asked + [p]))
    case Reply(p, v) =>
      World(Received(w.s, p, v),
            w.h.(uses := w.h.uses + [p], answered := w.h.answered + [p], replies := w.h.replies + [(p, v)]))
  }

  ghost predicate IsRun(w: World, es: seq<Event>)
    decreases |es|
  {
    es == [] || (Enabled(w, es[0]) && IsRun(Step(w, es[0]), es[1..]))
  }

  ghost function Run(w: World, es: seq<Event>): World
    requires IsRun(w, es)
    decreases |es|
  {
    if es == [] then w else Run(Step(w, es[0]), es[1..])
  }

  const START := World(INITIAL, History([], [], [], []))

  // ----- the invariant -----

  function Elems(s: seq<Peer>): set<Peer> {
    if s == [] then {} else Elems(s[..|s| - 1]) + {s[|s| - 1]}
  }

  lemma {:induction false} ElemsAre(s: seq<Peer>, x: Peer)
    ensures x in Elems(s) <==> x in s
  {
    if s != [] {
      assert s == s[..|s| - 1] + [s[|s| - 1]];
      ElemsAre(s[..|s| - 1], x);
    }
  }

  function Retained(s: State): set<Peer> {
    s.cache.Keys + s.oldCache.Keys
  }

  /** The three maps never share a key. */
  ghost predicate Disjoint(s: State) {
    && s.cache.Keys !! s.oldCache.Keys
    && s.cache.Keys !! s.pending.Keys
    && s.oldCache.Keys !! s.pending.Keys
  }

  /** A query is outstanding, once, exactly for the pending peers. */
  ghost predicate QueriesMatch(w: World) {
    forall p :: Outstanding(w, p) == if p in w.s.pending then 1 else 0
  }

  /** Each generation is the set of peers of a suffix of the use history. */
  ghost predicate Suffixes(cached: set<Peer>, oldCached: set<Peer>, uses: seq<Peer>, older: nat, newer: nat) {
    && older <= newer <= |uses|
    && cached == Elems(uses[newer..])
    && cached + oldCached == Elems(uses[older..])
    && (newer == 0 ==> oldCached == {})
    && (newer > 0 ==> |cached + oldCached| >= MAX_CACHE_SIZE)
  }

  ghost predicate Generations(w: World, older: nat, newer: nat) {
    Suffixes(w.s.cache.Keys, w.s.oldCache.Keys, w.h.uses, older, newer)
  }

  predicate Waiting(s: State, t: nat, p: Peer) {
    p in s.pending && t in s.pending[p]
  }

  /** No promise waits twice, is fulfilled twice, or both. */
  ghost predicate NoDuplicates(s: State) {
    && (forall i, j :: 0 <= i < j < |s.resolved| ==> s.resolved[i].ticket != s.resolved[j].ticket)
    && (forall p, i, j :: p in s.pending && 0 <= i < j < |s.pending[p]| ==> s.pending[p][i] != s.pending[p][j])
    && (forall i, p :: 0 <= i < |s.resolved| ==> !Waiting(s, s.resolved[i].ticket, p))
  }

  /** Promises wait for, and are fulfilled with, the peer that was asked for. */
  ghost predicate KnownPromises(w: World) {
    && |w.h.asked| == w.s.nextTicket
    && (forall i :: 0 <= i < |w.s.resolved| ==>
          && w.s.resolved[i].ticket < w.s.nextTicket
          && w.h.asked[w.s.resolved[i].ticket] == w.s.resolved[i].peer)
    && (forall p, t: nat :: Waiting(w.s, t, p) ==> t < w.s.nextTicket && w.h.asked[t] == p)
  }

  ghost predicate NoneForgotten(w: World) {
    && |w.h.asked| == w.s.nextTicket
    && (forall t :: 0 <= t < w.s.nextTicket ==> Waiting(w.s, t, w.h.asked[t]) || Fulfilled(w.s, t))
  }

  predicate Fulfilled(s: State, t: nat) {
    exists i :: 0 <= i < |s.resolved| && s.resolved[i].ticket == t
  }

  ghost predicate Truthful(w: World) {
    && (forall p :: p in w.s.cache ==> (p, w.s.cache[p]) in w.h.replies)
    && (forall p :: p in w.s.oldCache ==> (p, w.s.oldCache[p]) in w.h.replies)
    && (forall r :: r in w.s.resolved ==> (r.peer, r.value) in w.h.replies)
  }

  ghost predicate Inv(w: World) {
    && Disjoint(w.s)
    && QueriesMatch(w)
    && (exists older, newer :: Generations(w, older, newer))
    && KnownPromises(w)
    && NoDuplicates(w.s)
    && NoneForgotten(w)
    && Truthful(w)
  }

  // ----- one step keeps it -----

  lemma StepDisjoint(w: World, e: Event)
    requires Disjoint(w.s) && (e.Reply? ==> e.peer in w.s.pending)
    ensures Disjoint(Step(w, e).s)
  {
  }

  lemma StepQueriesMatch(w: World, e: Event)
    requires QueriesMatch(w) && Enabled(w, e)
    ensures QueriesMatch(Step(w, e))
  {
    var w' := Step(w, e);
    forall p
      ensures Outstanding(w', p) == if p in w'.s.pending then 1 else 0
    {
      assert Outstanding(w, p) == if p in w.s.pending then 1 else 0;
      CountSnoc(w.s.calls, e.peer, p);
      CountSnoc(w.h.answered, e.peer, p);
    }
  }

  lemma SubsetSize(a: set<Peer>, b: set<Peer>)
    requires a <= b
    ensures |a| <= |b|
  {
    assert b == a + (b - a);
  }

  lemma ElemsSnoc(u: seq<Peer>, k: nat, p: Peer)
    requires k <= |u|
    ensures Elems((u + [p])[k..]) == Elems(u[k..]) + {p}
  {
    var v := (u + [p])[k..];
    assert v == u[k..] + [p];
    assert v[..|v| - 1] == u[k..];
  }

  lemma UseKeepsSuffixes(cached: set<Peer>, oldCached: set<Peer>, uses: seq<Peer>, older: nat, newer: nat, p: Peer)
    requires Suffixes(cached, oldCached, uses, older, newer)
    ensures Suffixes(cached + {p}, oldCached - {p}, uses + [p], older, newer)
  {
    ElemsSnoc(uses, newer, p);
    ElemsSnoc(uses, older, p);
    assert cached + {p} + (oldCached - {p}) == cached + oldCached + {p};
    SubsetSize(cached + oldCached, cached + oldCached + {p});
  }

  lemma RotationKeepsSuffixes(cached: set<Peer>, oldCached: set<Peer>, uses: seq<Peer>, older: nat, newer: nat, p: Peer)
    requires Suffixes(cached, oldCached, uses, older, newer)
    requires |cached| >= MAX_CACHE_SIZE
    ensures Suffixes({p}, cached, uses + [p], newer, |uses|)
  {
    ElemsSnoc(uses, newer, p);
    ElemsSnoc(uses, |uses|, p);
    assert {p} + cached == cached + {p};
    SubsetSize(cached, cached + {p});
  }

  lemma HitMovesToCurrent(s: State, p: Peer)
    requires Disjoint(s) && p in Retained(s)
    ensures Get(s, p).cache.Keys == s.cache.Keys + {p}
    ensures Get(s, p).oldCache.Keys == s.oldCache.Keys - {p}
  {
  }

  lemma EmplaceKeys(m: map<Peer, Credentials>, p: Peer, v: Credentials)
    ensures Emplace(m, p, v).Keys == m.Keys + {p}
    ensures |m.Keys| == |m|
  {
  }

  /** What a reply does to the two generations. */
  lemma RotatingReplyKeys(s: State, p: Peer, v: Credentials)
    requires |s.cache| >= MAX_CACHE_SIZE
    ensures Received(s, p, v).cache.Keys == {p} && Received(s, p, v).oldCache == s.cache
  {
    EmplaceKeys(map[], p, v);
  }

  lemma PlainReplyKeys(s: State, p: Peer, v: Credentials)
    requires |s.cache| < MAX_CACHE_SIZE
    ensures Received(s, p, v).cache.Keys == s.cache.Keys + {p} && Received(s, p, v).oldCache == s.oldCache
  {
    EmplaceKeys(s.cache, p, v);
  }

  lemma AskKeepsGenerations(w: World, p: Peer, older: nat, newer: nat)
    requires Disjoint(w.s) && Generations(w, older, newer)
    ensures Generations(Step(w, Ask(p)), older, newer)
  {
    if p in Retained(w.s) {
      HitMovesToCurrent(w.s, p);
      UseKeepsSuffixes(w.s.cache.Keys, w.s.oldCache.Keys, w.h.uses, older, newer, p);
    }
  }

  lemma RotatingReplyKeepsGenerations(w: World, p: Peer, v: Credentials, older: nat, newer: nat)
    requires Generations(w, older, newer) && |w.s.cache| >= MAX_CACHE_SIZE
    ensures Generations(Step(w, Reply(p, v)), newer, |w.h.uses|)
  {
    EmplaceKeys(w.s.cache, p, v);
    RotatingReplyKeys(w.s, p, v);
    RotationKeepsSuffixes(w.s.cache.Keys, w.s.oldCache.Keys, w.h.uses, older, newer, p);
  }

  lemma PlainReplyKeepsGenerations(w: World, p: Peer, v: Credentials, older: nat, newer: nat)
    requires Generations(w, older, newer) && |w.s.cache| < MAX_CACHE_SIZE && p !in w.s.oldCache
    ensures Generations(Step(w, Reply(p, v)), older, newer)
  {
    PlainReplyKeys(w.s, p, v);
    UseKeepsSuffixes(w.s.cache.Keys, w.s.oldCache.Keys, w.h.uses, older, newer, p);
    assert w.s.oldCache.Keys - {p} == w.s.oldCache.Keys;
  }

  /** What asking does to the promises: the new one waits for `p` or is fulfilled, the others stay. */
  lemma AskedPromise(s: State, p: Peer, t: nat, q: Peer)
    ensures Waiting(Get(s, p), t, q) <==> Waiting(s, t, q) || (t == s.nextTicket && q == p && p !in Retained(s))
  {
    if p in s.pending && p !in Retained(s) {
      var ts := s.pending[p] + [s.nextTicket];
      assert t in ts <==> t in s.pending[p] || t == s.nextTicket;
    }
  }

  /** The promises fulfilled by asking. */
  lemma AskedResolutions(s: State, p: Peer)
    ensures p !in Retained(s) ==> Get(s, p).resolved == s.resolved
    ensures p in Retained(s) ==> exists v :: Get(s, p).resolved == s.resolved + [Resolution(s.nextTicket, p, v)]
  {
  }

  lemma AskKeepsKnown(w: World, p: Peer)
    requires KnownPromises(w)
    ensures KnownPromises(Step(w, Ask(p)))
  {
    AskedResolutions(w.s, p);
    forall t: nat, q | Waiting(Step(w, Ask(p)).s, t, q)
      ensures t <= w.s.nextTicket && (w.h.asked + [p])[t] == q
    {
      AskedPromise(w.s, p, t, q);
    }
  }

  lemma AskKeepsQueues(w: World, p: Peer, q: Peer)
    requires KnownPromises(w) && NoDuplicates(w.s) && q in Get(w.s, p).pending
    ensures var ts := Get(w.s, p).pending[q]; forall i, j :: 0 <= i < j < |ts| ==> ts[i] != ts[j]
  {
    if q in w.s.pending {
      forall i | 0 <= i < |w.s.pending[q]|
        ensures w.s.pending[q][i] != w.s.nextTicket
      {
        assert Waiting(w.s, w.s.pending[q][i], q);
      }
    }
  }

  lemma AskDuplicatesNone(w: World, p: Peer)
    requires KnownPromises(w) && NoDuplicates(w.s)
    ensures NoDuplicates(Get(w.s, p))
  {
    AskedResolutions(w.s, p);
    forall q | q in Get(w.s, p).pending
      ensures var ts := Get(w.s, p).pending[q]; forall i, j :: 0 <= i < j < |ts| ==> ts[i] != ts[j]
    {
      AskKeepsQueues(w, p, q);
    }
    forall i, q | 0 <= i < |Get(w.s, p).resolved|
      ensures !Waiting(Get(w.s, p), Get(w.s, p).resolved[i].ticket, q)
    {
      AskedPromise(w.s, p, Get(w.s, p).resolved[i].ticket, q);
    }
  }

  lemma AskKeepsPromises(w: World, p: Peer)
    requires KnownPromises(w) && NoDuplicates(w.s)
    ensures KnownPromises(Step(w, Ask(p))) && NoDuplicates(Step(w, Ask(p)).s)
  {
    AskKeepsKnown(w, p);
    AskDuplicatesNone(w, p);
  }

  lemma ReplyKeepsPromises(w: World, p: Peer, v: Credentials)
    requires p in w.s.pending && KnownPromises(w) && NoDuplicates(w.s)
    ensures KnownPromises(Step(w, Reply(p, v))) && NoDuplicates(Step(w, Reply(p, v)).s)
  {
    var w' := Step(w, Reply(p, v));
    var n, ts := |w.s.resolved|, w.s.pending[p];
    forall i | 0 <= i < |w'.s.resolved|
      ensures i < n ==> w'.s.resolved[i] == w.s.resolved[i]
      ensures i >= n ==> w'.s.resolved[i] == Resolution(ts[i - n], p, v) && Waiting(w.s, ts[i - n], p)
    {
    }
    forall t: nat, q | Waiting(w'.s, t, q)
      ensures Waiting(w.s, t, q) && q != p
    {
    }
  }

  lemma FulfilledStays(s: State, more: seq<Resolution>, t: nat)
    requires Fulfilled(s, t)
    ensures Fulfilled(s.(resolved := s.resolved + more), t)
  {
    var i :| 0 <= i < |s.resolved| && s.resolved[i].ticket == t;
    assert (s.resolved + more)[i].ticket == t;
  }

  lemma AskForgetsNone(w: World, p: Peer)
    requires NoneForgotten(w)
    ensures NoneForgotten(Step(w, Ask(p)))
  {
    var w' := Step(w, Ask(p));
    forall t | 0 <= t < w'.s.nextTicket
      ensures Waiting(w'.s, t, w'.h.asked[t]) || Fulfilled(w'.s, t)
    {
      if t == w.s.nextTicket {
        assert w'.h.asked[t] == p;
        if p in Retained(w.s) {
          assert w'.s.resolved[|w.s.resolved|].ticket == t;
        }
      } else if Fulfilled(w.s, t) {
        FulfilledStays(w.s, w'.s.resolved[|w.s.resolved|..], t);
        assert w'.s.resolved == w.s.resolved + w'.s.resolved[|w.s.resolved|..];
      }
    }
  }

  lemma ReplyForgetsNot(s: State, p: Peer, v: Credentials, t: nat, q: Peer)
    requires p in s.pending && (Waiting(s, t, q) || Fulfilled(s, t))
    ensures Waiting(Received(s, p, v), t, q) || Fulfilled(Received(s, p, v), t)
  {
    var ts := s.pending[p];
    assert Received(s, p, v).resolved == s.resolved + Resolutions(ts, p, v);
    if Fulfilled(s, t) {
      FulfilledStays(s, Resolutions(ts, p, v), t);
    } else if q == p {
      var i :| 0 <= i < |ts| && ts[i] == t;
      assert Received(s, p, v).resolved[|s.resolved| + i].ticket == t;
    }
  }

  lemma ReplyForgetsNone(w: World, p: Peer, v: Credentials)
    requires p in w.s.pending && NoneForgotten(w)
    ensures NoneForgotten(Step(w, Reply(p, v)))
  {
    forall t | 0 <= t < w.s.nextTicket
      ensures Waiting(Received(w.s, p, v), t, w.h.asked[t]) || Fulfilled(Received(w.s, p, v), t)
    {
      ReplyForgetsNot(w.s, p, v, t, w.h.asked[t]);
    }
  }

  lemma ReplyIsTruthful(w: World, p: Peer, v: Credentials)
    requires Truthful(w)
    ensures Truthful(Step(w, Reply(p, v)))
  {
    var replies, more := w.h.replies, w.h.replies + [(p, v)];
    assert (p, v) == more[|replies|];
    assert forall x :: x in replies ==> x in more;
    var waiting := if p in w.s.pending then w.s.pending[p] else [];
    forall r | r in Received(w.s, p, v).resolved
      ensures (r.peer, r.value) in more
    {
      assert r in w.s.resolved || r in Resolutions(waiting, p, v);
    }
  }

  lemma AskIsTruthful(w: World, p: Peer)
    requires Disjoint(w.s) && Truthful(w)
    ensures Truthful(Step(w, Ask(p)))
  {
  }

  lemma StepKeepsInv(w: World, e: Event)
    requires Inv(w) && Enabled(w, e)
    ensures Inv(Step(w, e))
  {
    assert e.Reply? ==> Outstanding(w, e.peer) == 1;
    StepDisjoint(w, e);
    StepQueriesMatch(w, e);
    var older, newer :| Generations(w, older, newer);
    match e {
      case Ask(p) =>
        AskKeepsGenerations(w, p, older, newer);
        AskKeepsPromises(w, p);
        AskForgetsNone(w, p);
        AskIsTruthful(w, p);
      case Reply(p, v) =>
        if |w.s.cache| >= MAX_CACHE_SIZE {
          RotatingReplyKeepsGenerations(w, p, v, older, newer);
        } else {
          PlainReplyKeepsGenerations(w, p, v, older, newer);
        }
        ReplyKeepsPromises(w, p, v);
        ReplyForgetsNone(w, p, v);
        ReplyIsTruthful(w, p, v);
    }
  }

  lemma {:induction false} RunKeepsInv(w: World, es: seq<Event>)
    requires Inv(w) && IsRun(w, es)
    ensures Inv(Run(w, es))
    decreases |es|
  {
    if es != [] {
      StepKeepsInv(w, es[0]);
      RunKeepsInv(Step(w, es[0]), es[1..]);
    }
  }

  lemma ReachableInv(es: seq<Event>)
    requires IsRun(START, es)
    ensures Inv(Run(START, es))
  {
    assert Generations(START, 0, 0);
    RunKeepsInv(START, es);
  }

  // ----- the results -----

  /** The peers other than `uses[i]` that were used after position `i`. */
  function UsedSince(uses: seq<Peer>, i: nat): set<Peer>
    requires i < |uses|
  {
    Elems(uses[i + 1..]) - {uses[i]}
  }

  /** The cache is an LRU of varying capacity: in every run it holds exactly the peers of a
      suffix of the use history, which is the whole history or has MAX_CACHE_SIZE peers. */
  lemma HoldsARecencySuffix(es: seq<Event>) returns (k: nat)
    requires IsRun(START, es)
    ensures var w := Run(START, es);
            && k <= |w.h.uses|
            && Retained(w.s) == Elems(w.h.uses[k..])
            && (k == 0 || |Retained(w.s)| >= MAX_CACHE_SIZE)
  {
    ReachableInv(es);
    var older, newer :| Generations(Run(START, es), older, newer);
    k := older;
  }

  /** A peer that was used and then dropped saw MAX_CACHE_SIZE distinct others used after it. */
  lemma RetainsRecentlyUsed(es: seq<Event>, i: nat)
    requires IsRun(START, es)
    requires i < |Run(START, es).h.uses|
    requires |UsedSince(Run(START, es).h.uses, i)| < MAX_CACHE_SIZE
    ensures Run(START, es).h.uses[i] in Retained(Run(START, es).s)
  {
    var w := Run(START, es);
    var u := w.h.uses;
    var k := HoldsARecencySuffix(es);
    if i < k {
      if u[i] !in Retained(w.s) {
        forall x | x in Elems(u[k..])
          ensures x in UsedSince(u, i)
        {
          ElemsAre(u[k..], x);
          ElemsAre(u[i + 1..], x);
          assert u[i + 1..][k - i - 1..] == u[k..];
        }
        SubsetSize(Elems(u[k..]), UsedSince(u, i));
        assert false;
      }
    } else {
      assert u[k..][i - k] == u[i];
      ElemsAre(u[k..], u[i]);
    }
  }

  /** At most one query per peer is outstanding, no peer is cached while it is being asked for,
      and the reply to a query always finds the promises that wait for it. */
  lemma OneQueryPerPeer(es: seq<Event>, p: Peer)
    requires IsRun(START, es)
    ensures var w := Run(START, es);
            && 0 <= Outstanding(w, p) <= 1
            && (Outstanding(w, p) == 1 <==> p in w.s.pending)
            && (p in w.s.pending ==> p !in Retained(w.s))
            && !(p in w.s.cache && p in w.s.oldCache)
  {
    ReachableInv(es);
  }

  /** Each promise is fulfilled at most once, with a reply that the daemon gave for the peer that
      was asked for; and once no query is outstanding, every promise has been fulfilled. */
  lemma PromisesKept(es: seq<Event>)
    requires IsRun(START, es)
    ensures var w := Run(START, es);
            && |w.h.asked| == w.s.nextTicket
            && (forall i, j :: 0 <= i < j < |w.s.resolved| ==> w.s.resolved[i].ticket != w.s.resolved[j].ticket)
            && (forall r :: r in w.s.resolved ==> && r.ticket < |w.h.asked|
                                                  && w.h.asked[r.ticket] == r.peer
                                                  && (r.peer, r.value) in w.h.replies)
            && ((forall p :: Outstanding(w, p) == 0) ==> forall t :: 0 <= t < w.s.nextTicket ==> Fulfilled(w.s, t))
  {
    ReachableInv(es);
    var w := Run(START, es);
    if forall p :: Outstanding(w, p) == 0 {
      forall t | 0 <= t < w.s.nextTicket
        ensures Fulfilled(w.s, t)
      {
        assert Outstanding(w, w.h.asked[t]) == 0;
        assert Waiting(w.s, t, w.h.asked[t]) || Fulfilled(w.s, t);
      }
    }
  }
}
