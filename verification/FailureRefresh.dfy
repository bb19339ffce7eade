/** The bounded background refresh queue (services/account_service.py:1472-1506, 4115-4267). */
module FailureRefresh {
  import opened Accounts
  import opened TokenAliases

  const DEDUP_SECONDS := 30.0

  datatype Scope = AccountScope | ImageScope

  datatype Queue = Queue(pending: seq<Token>, pendingSet: set<Token>, scopes: map<Token, Scope>, active: set<Token>,
                         rerun: set<Token>, startedAt: map<Token, real>)

  // ---------------------------------------------------------------- resolution is stable

  function StopAfter(trail: seq<Token>, x: Token, i: nat): Token {
    if i + 1 < |trail| then trail[i + 1] else x
  }

  // A walk along aliases that has not met a live token, an end, or itself yet.
  predicate Trail(live: set<Token>, aliases: Aliases, trail: seq<Token>, x: Token) {
    && (forall i | 0 <= i < |trail| ::
          trail[i] !in live && trail[i] in aliases && aliases[trail[i]] == StopAfter(trail, x, i))
    && (forall i, j | 0 <= i < j < |trail| :: trail[i] != trail[j])
  }

  function Elements(s: seq<Token>): set<Token> {
    set t | t in s
  }

  lemma TrailStep(live: set<Token>, aliases: Aliases, trail: seq<Token>, x: Token, i: nat)
    requires Trail(live, aliases, trail, x) && i < |trail|
    ensures trail[i] !in live && trail[i] in aliases && aliases[trail[i]] == StopAfter(trail, x, i)
    ensures forall k | i < k < |trail| :: trail[k] != trail[i]
  {
  }

  lemma WalkStep(live: set<Token>, aliases: Aliases, t: Token, seen: set<Token>)
    requires t !in live && t in aliases && t !in seen
    ensures ResolveFrom(live, aliases, t, seen) == ResolveFrom(live, aliases, aliases[t], seen + {t})
  {
  }

  lemma WalkEnds(live: set<Token>, aliases: Aliases, t: Token, seen: set<Token>)
    requires t in seen
    ensures ResolveFrom(live, aliases, t, seen) == t
  {
  }

  // Walking again from a token on a closed trail comes back to it.
  lemma {:induction false} WalkAround(live: set<Token>, aliases: Aliases, trail: seq<Token>, j: nat, i: nat, seen: set<Token>)
    requires j <= i < |trail| && Trail(live, aliases, trail, trail[j])
    requires (forall k | i <= k < |trail| :: trail[k] !in seen) && (i > j ==> trail[j] in seen)
    ensures ResolveFrom(live, aliases, trail[i], seen) == trail[j]
    decreases |trail| - i
  {
    hide Trail, ResolveFrom;
    TrailStep(live, aliases, trail, trail[j], i);
    WalkStep(live, aliases, trail[i], seen);
    if i + 1 < |trail| {
      WalkAround(live, aliases, trail, j, i + 1, seen + {trail[i]});
    } else {
      WalkEnds(live, aliases, trail[j], seen + {trail[i]});
    }
  }

  lemma TrailGrows(live: set<Token>, aliases: Aliases, trail: seq<Token>, x: Token)
    requires Trail(live, aliases, trail, x) && x !in live && x in aliases && x !in trail
    ensures Trail(live, aliases, trail + [x], aliases[x])
  {
    var longer := trail + [x];
    forall i | 0 <= i < |longer|
      ensures longer[i] !in live && longer[i] in aliases
      ensures aliases[longer[i]] == StopAfter(longer, aliases[x], i)
    {
      if i < |trail| {
        assert longer[i] == trail[i] && aliases[trail[i]] == StopAfter(trail, x, i);
      }
    }
  }

  lemma {:induction false} EndIsStable(live: set<Token>, aliases: Aliases, trail: seq<Token>, x: Token)
    requires Trail(live, aliases, trail, x)
    ensures var end := ResolveFrom(live, aliases, x, Elements(trail)); Resolve(live, aliases, end) == end
    decreases aliases.Keys - Elements(trail)
  {
    if x !in live && x in aliases {
      if x in trail {
        var j :| 0 <= j < |trail| && trail[j] == x;
        WalkAround(live, aliases, trail, j, j, {});
      } else {
        assert Elements(trail + [x]) == Elements(trail) + {x};
        TrailGrows(live, aliases, trail, x);
        EndIsStable(live, aliases, trail + [x], aliases[x]);
      }
    }
  }

  lemma ResolveTwice(g: Graph, x: Token)
    ensures ResolveIn(g, ResolveIn(g, x)) == ResolveIn(g, x)
  {
    EndIsStable(g.accounts.Keys, g.aliases, [], x);
    assert Elements([]) == {};
  }

  // ---------------------------------------------------------------- the invariant

  predicate NoDuplicates(s: seq<Token>) {
    forall i, j | 0 <= i < j < |s| :: s[i] != s[j]
  }

  ghost function Referenced(q: Queue): set<Token> {
    Elements(q.pending) + q.active
  }

  /** The queue mirrors itself, stays within the worker limit, and names each live account at most once. */
  ghost predicate QueueInv(own: Token -> AccountId, g: Graph, q: Queue, limit: nat) {
    && NoDuplicates(q.pending)
    && q.pendingSet == Elements(q.pending) == q.scopes.Keys
    && q.pendingSet !! q.active
    && q.rerun <= q.active
    && |q.active| <= limit
    && Referenced(q) <= g.lineage && g.aliases.Values <= g.lineage
    && NamedOnce(own, g, Referenced(q))
  }

  ghost predicate NamedOnce(own: Token -> AccountId, g: Graph, tokens: set<Token>) {
    forall p, r, t | p in tokens && r in tokens && t in g.accounts && own(p) == own(r) == own(t) :: p == r
  }

  /** No live account is both active and pending, pending twice, or active twice under different tokens. */
  lemma NoAccountTwice(own: Token -> AccountId, g: Graph, q: Queue, limit: nat, p: Token, r: Token)
    requires GraphInv(own, g, {}) && QueueInv(own, g, q, limit)
    requires p in Referenced(q) && r in Referenced(q) && ResolveIn(g, p) == ResolveIn(g, r) && ResolveIn(g, p) in g.accounts
    ensures p == r && (p in q.active <==> p !in q.pending)
  {
    ResolveKeepsOwner(own, g.accounts.Keys, g.aliases, p, {});
    ResolveKeepsOwner(own, g.accounts.Keys, g.aliases, r, {});
  }

  // ---------------------------------------------------------------- scheduling

  function Widest(a: Scope, b: Scope): Scope {
    if a == AccountScope || b == AccountScope then AccountScope else ImageScope
  }

  function Enqueued(q: Queue, t: Token, scope: Scope): Queue {
    q.(pending := q.pending + [t], pendingSet := q.pendingSet + {t}, scopes := q.scopes[t := scope])
  }

  class RefreshQueue {
    ghost const own: Token -> AccountId
    const limit: nat
    var pending: seq<Token>
    var pendingSet: set<Token>
    var scopes: map<Token, Scope>
    var active: set<Token>
    var rerun: set<Token>
    var startedAt: map<Token, real>

    ghost function State(): Queue reads this {
      Queue(pending, pendingSet, scopes, active, rerun, startedAt)
    }

    constructor (ghost own: Token -> AccountId, limit: nat)
      ensures this.own == own && this.limit == limit && State() == Queue([], {}, map[], {}, {}, map[])
    {
      this.own, this.limit := own, limit;
      pending, pendingSet, scopes, active, rerun, startedAt := [], {}, map[], {}, {}, map[];
    }

    method FindReference(g: Graph, tokens: set<Token>, resolved: Token) returns (found: Option<Token>)
      ensures found.Some? ==> found.value in tokens && ResolveIn(g, found.value) == resolved
      ensures found.Some? <==> Refers(g, tokens, resolved)
    {
      found := None;
      var todo := tokens;
      while todo != {}
        invariant todo <= tokens && forall t | t in tokens - todo :: ResolveIn(g, t) != resolved
        decreases |todo|
      {
        var t :| t in todo;
        if ResolveIn(g, t) == resolved {
          return Some(t);
        }
        todo := todo - {t};
      }
    }

    method LastStarted(g: Graph, resolved: Token) returns (last: real)
      ensures last >= 0.0
      ensures last == 0.0 || exists t :: t in startedAt && ResolveIn(g, t) == resolved && startedAt[t] == last
      ensures forall t | t in startedAt && ResolveIn(g, t) == resolved :: startedAt[t] <= last
    {
      last := 0.0;
      var todo := startedAt.Keys;
      while todo != {}
        invariant todo <= startedAt.Keys && last >= 0.0
        invariant last == 0.0 || exists t :: t in startedAt && ResolveIn(g, t) == resolved && startedAt[t] == last
        invariant forall t | t in startedAt.Keys - todo && ResolveIn(g, t) == resolved :: startedAt[t] <= last
        decreases |todo|
      {
        var t :| t in todo;
        if ResolveIn(g, t) == resolved && startedAt[t] > last {
          last := startedAt[t];
        }
        todo := todo - {t};
      }
    }

    method DropOldStarts(now: real)
      modifies this`startedAt
      ensures RecentStarts(old(startedAt), active, now, startedAt)
    {
      startedAt := map t | t in startedAt && (t in active || startedAt[t] >= now - DEDUP_SECONDS) :: startedAt[t];
    }

    /** Asks for a background refresh of the account behind a token; the caller starts pending refreshes afterwards. */
    method Schedule(g: Graph, accessToken: Token, force: bool, requested: Scope, now: real) returns (accepted: bool)
      requires GraphInv(own, g, {}) && QueueInv(own, g, State(), limit) && accessToken in g.lineage
      modifies this
      ensures QueueInv(own, g, State(), limit)
      ensures Requested(old(State()), g, accessToken, force, requested, State())
      ensures accepted <==> Refers(g, active + pendingSet, ResolveIn(g, accessToken))
      ensures !accepted ==> !force && pending == old(pending)
      ensures !accepted && now >= DEDUP_SECONDS ==> RecentlyStarted(old(State()), g, ResolveIn(g, accessToken), now)
      ensures pending != old(pending) && !force ==> !RecentlyStarted(old(State()), g, ResolveIn(g, accessToken), now)
      ensures RecentStarts(old(startedAt), active, now, startedAt)
    {
      hide QueueInv, GraphInv, ResolveIn, Refers, Widest, RecentStarts;
      PendingHasScope(own, g, State(), limit);
      var token := ResolveToken(g, accessToken);
      DropOldStarts(now);
      var activeToken := FindReference(g, active, token);
      var pendingToken := FindReference(g, pendingSet, token);
      var lastStarted := LastStarted(g, token);
      if activeToken.Some? {
        if force {
          rerun := rerun + {activeToken.value};
        }
        accepted := true;
      } else if pendingToken.Some? {
        var existing := if pendingToken.value in scopes then scopes[pendingToken.value] else AccountScope;
        scopes := scopes[pendingToken.value := Widest(existing, requested)];
        accepted := true;
      } else if !force && now - lastStarted < DEDUP_SECONDS {
        accepted := false;
      } else {
        pending, pendingSet, scopes := pending + [token], pendingSet + {token}, scopes[token := requested];
        NowRefers(g, pendingSet, accessToken);
        accepted := true;
      }
      RefersInEither(g, active, pendingSet, token);
      RequestedInv(own, g, old(State()), limit, accessToken, force, requested, State());
    }

    /** Moves the oldest pending refresh to the active ones, if the worker limit allows. */
    method StartOne(now: real) returns (token: Option<Token>)
      modifies this
      ensures token.Some? <==> old(pending) != [] && |old(active)| < limit
      ensures token.Some? ==> token.value == old(pending)[0] && State() == Started(old(State()), now)
      ensures token.None? ==> State() == old(State())
    {
      if pending == [] {
        return None;
      }
      var taskCount := |active| + |pending|;
      var maxWorkers := if taskCount < limit then taskCount else limit;
      if |active| >= maxWorkers {
        return None;
      }
      var t := pending[0];
      pending, pendingSet, scopes := pending[1..], pendingSet - {t}, scopes - {t};
      active, startedAt := active + {t}, startedAt[t := now];
      token := Some(t);
    }

    /** Starts pending refreshes, oldest first, until none is left or the worker limit is reached. */
    method StartPending(ghost g: Graph, now: real) returns (workers: seq<Token>)
      requires QueueInv(own, g, State(), limit)
      modifies this
      ensures QueueInv(own, g, State(), limit) && rerun == old(rerun)
      ensures old(pending) == workers + pending && active == old(active) + Elements(workers)
      ensures pending == [] || |active| == limit
    {
      hide QueueInv, Elements;
      workers := [];
      NoElements();
      while true
        invariant QueueInv(own, g, State(), limit) && rerun == old(rerun)
        invariant old(pending) == workers + pending && active == old(active) + Elements(workers)
        decreases |pending|
      {
        ghost var before := State();
        WithinLimit(own, g, before, limit);
        if pending != [] && |active| < limit {
          StartedInv(own, g, before, limit, now);
          Appended(workers, pending[0]);
        }
        var token := StartOne(now);
        if token.None? {
          return;
        }
        workers := workers + [token.value];
      }
    }

    /** A worker ends; a rerun asked for meanwhile is queued again if the account still waits for its check. */
    method Finish(g: Graph, token: Token, marked: bool, scope: Scope)
      requires GraphInv(own, g, {}) && QueueInv(own, g, State(), limit) && token in active
      modifies this
      ensures QueueInv(own, g, State(), limit)
      ensures State() == Finished(old(State()), g, token, marked, scope)
    {
      hide GraphInv, QueueInv, ResolveIn, Elements;
      FinishedInv(own, g, State(), limit, token, marked, scope);
      var resolved := ResolveToken(g, token);
      active := active - {token};
      var rerunRequested := token in rerun;
      rerun := rerun - {token};
      if rerunRequested && resolved in g.accounts && marked && resolved !in pendingSet {
        pending, pendingSet, scopes := pending + [resolved], pendingSet + {resolved}, scopes[resolved := scope];
      }
    }

    // The latest start among the given tokens.
    method LatestStart(tokens: set<Token>) returns (latest: real)
      requires tokens != {} && tokens <= startedAt.Keys
      ensures exists t :: t in tokens && startedAt[t] == latest
      ensures forall t | t in tokens :: startedAt[t] <= latest
    {
      var first :| first in tokens;
      latest := startedAt[first];
      var todo := tokens - {first};
      while todo != {}
        invariant todo <= tokens && exists t :: t in tokens && startedAt[t] == latest
        invariant forall t | t in tokens - todo :: startedAt[t] <= latest
        decreases |todo|
      {
        var t :| t in todo;
        latest := if startedAt[t] > latest then startedAt[t] else latest;
        todo := todo - {t};
      }
    }

    /** The queue's part of a token rotation: pending entries take the new name, active workers keep theirs. */
    method RenamePending(ghost g: Graph, newToken: Token, sources: set<Token>)
      requires QueueInv(own, g, State(), limit) && newToken in g.accounts && newToken in g.lineage
      requires forall s | s in sources :: own(s) == own(newToken)
      modifies this
      ensures QueueInv(own, Redirected(g, newToken, sources), State(), limit)
      ensures pending == RenamedAll(old(pending), newToken, sources)
      ensures scopes == RenamedScopes(old(scopes), newToken, sources)
      ensures active == old(active) && rerun == old(rerun)
      ensures RenamedStarts(old(startedAt), startedAt, newToken, sources)
    {
      hide QueueInv, Elements, NoDuplicates, RenamedAll, RenamedScopes, RenamedStarts;
      ghost var before := State();
      RenameScopes(newToken, sources);
      RenameQueue(newToken, sources);
      RenamedDistinct(own, g, before, limit, newToken, sources);
      RenameStarts(newToken, sources);
      RenamedInv(own, g, before, limit, newToken, sources, startedAt);
    }

    method RenameQueue(newToken: Token, sources: set<Token>)
      modifies this`pending, this`pendingSet
      ensures pending == Deduplicated(RenamedAll(old(pending), newToken, sources)) && pendingSet == Elements(pending)
    {
      RenamedNone(newToken, sources);
      hide RenamedAll, Deduplicated;
      var renamed := [];
      for i := 0 to |pending|
        invariant i <= |pending| && pending == old(pending)
        invariant renamed == Deduplicated(RenamedAll(pending[..i], newToken, sources))
      {
        RenamedPrefix(pending, i, newToken, sources);
        var name := RenamedToken(pending[i], newToken, sources);
        renamed := if name in renamed then renamed else renamed + [name];
      }
      assert pending[..|pending|] == pending;
      pending, pendingSet := renamed, Elements(renamed);
    }

    method RenameScopes(newToken: Token, sources: set<Token>)
      modifies this`scopes
      ensures scopes == RenamedScopes(old(scopes), newToken, sources)
    {
      hide AnyWide;
      ScopesRenamed(scopes, newToken, sources);
      var oldScopes := scopes.Keys * sources;
      var wide := AnyWide(scopes, oldScopes);
      scopes := scopes - sources;
      if oldScopes != {} {
        var current := AnyWide(scopes, scopes.Keys * {newToken});
        scopes := scopes[newToken := if wide || current then AccountScope else ImageScope];
      }
    }

    method RenameStarts(newToken: Token, sources: set<Token>)
      modifies this`startedAt
      ensures RenamedStarts(old(startedAt), startedAt, newToken, sources)
    {
      hide RenamedStarts;
      var moved := startedAt.Keys * sources;
      if moved != {} {
        var latest := LatestStart(moved);
        startedAt := startedAt - sources;
        var current := if newToken in startedAt then startedAt[newToken] else 0.0;
        startedAt := startedAt[newToken := if current > latest then current else latest];
      }
      StartsRenamed(old(startedAt), startedAt, newToken, sources);
    }
  }

  /** A start time is kept as long as its worker runs, and for thirty seconds. */
  ghost predicate RecentStarts(before: map<Token, real>, active: set<Token>, now: real, after: map<Token, real>) {
    && (forall t | t in after :: t in before && after[t] == before[t])
    && (forall t | t in before :: t in after <==> t in active || now - before[t] <= DEDUP_SECONDS)
  }

  ghost predicate RecentlyStarted(q: Queue, g: Graph, resolved: Token, now: real) {
    exists t :: t in q.startedAt && ResolveIn(g, t) == resolved && now - q.startedAt[t] < DEDUP_SECONDS
  }

  /** What asking for a refresh may do: mark the account's active worker, widen its pending entry, or append one entry. */
  ghost predicate Requested(q: Queue, g: Graph, x: Token, force: bool, requested: Scope, q': Queue) {
    var t := ResolveIn(g, x);
    var q0 := q.(startedAt := q'.startedAt);
    if Refers(g, q.active, t) then
      if force then exists a :: a in q.active && ResolveIn(g, a) == t && q' == q0.(rerun := q.rerun + {a}) else q' == q0
    else if Refers(g, q.pendingSet, t) then
      exists p :: p in q.pendingSet && p in q.scopes && ResolveIn(g, p) == t && q' == Widened(q0, p, requested)
    else
      (!force && q' == q0) || q' == Enqueued(q0, t, requested)
  }

  function Widened(q: Queue, p: Token, requested: Scope): Queue
    requires p in q.scopes
  {
    q.(scopes := q.scopes[p := Widest(q.scopes[p], requested)])
  }

  /** One of the tokens leads to the resolved token. */
  ghost predicate Refers(g: Graph, tokens: set<Token>, resolved: Token) {
    exists t :: t in tokens && ResolveIn(g, t) == resolved
  }

  lemma NowRefers(g: Graph, tokens: set<Token>, x: Token)
    requires ResolveIn(g, x) in tokens
    ensures Refers(g, tokens, ResolveIn(g, x))
  {
    ResolveTwice(g, x);
  }

  lemma RefersInEither(g: Graph, a: set<Token>, b: set<Token>, resolved: Token)
    ensures Refers(g, a + b, resolved) <==> Refers(g, a, resolved) || Refers(g, b, resolved)
  {
    hide ResolveIn;
    if t :| t in a && ResolveIn(g, t) == resolved {
      assert t in a + b;
    }
    if t :| t in b && ResolveIn(g, t) == resolved {
      assert t in a + b;
    }
  }

  lemma PendingHasScope(own: Token -> AccountId, g: Graph, q: Queue, limit: nat)
    requires QueueInv(own, g, q, limit)
    ensures q.pendingSet == q.scopes.Keys
  {
  }

  lemma StartTimesFree(own: Token -> AccountId, g: Graph, q: Queue, limit: nat, startedAt: map<Token, real>)
    requires QueueInv(own, g, q, limit)
    ensures QueueInv(own, g, q.(startedAt := startedAt), limit)
  {
  }

  lemma MarkInv(own: Token -> AccountId, g: Graph, q: Queue, limit: nat, t: Token)
    requires QueueInv(own, g, q, limit) && t in q.active
    ensures QueueInv(own, g, q.(rerun := q.rerun + {t}), limit)
  {
  }

  lemma ScopeInv(own: Token -> AccountId, g: Graph, q: Queue, limit: nat, t: Token, scope: Scope)
    requires QueueInv(own, g, q, limit) && t in q.pendingSet
    ensures QueueInv(own, g, q.(scopes := q.scopes[t := scope]), limit)
  {
    assert q.scopes[t := scope].Keys == q.scopes.Keys;
  }

  method ResolveToken(g: Graph, accessToken: Token) returns (token: Token)
    ensures token == ResolveIn(g, accessToken)
  {
    token := ResolveAccessToken(g.accounts.Keys, g.aliases, accessToken);
  }

  lemma ResolvedInLineage(g: Graph, x: Token, seen: set<Token>)
    requires x in g.lineage && g.aliases.Values <= g.lineage
    ensures ResolveFrom(g.accounts.Keys, g.aliases, x, seen) in g.lineage
    decreases g.aliases.Keys - seen
  {
    if x !in g.accounts && x in g.aliases && x !in seen {
      assert g.aliases[x] in g.aliases.Values;
      ResolvedInLineage(g, g.aliases[x], seen + {x});
    }
  }

  // A queued account with a live token is referenced through a token that resolves to it.
  lemma LiveReferenceResolves(own: Token -> AccountId, g: Graph, q: Queue, limit: nat, p: Token, u: Token)
    requires GraphInv(own, g, {}) && QueueInv(own, g, q, limit) && p in Referenced(q) && u in g.accounts && own(p) == own(u)
    ensures ResolveIn(g, p) == u
  {
  }

  lemma UnreferencedAccount(own: Token -> AccountId, g: Graph, q: Queue, limit: nat, x: Token, p: Token, u: Token)
    requires GraphInv(own, g, {}) && QueueInv(own, g, q, limit) && x in g.lineage
    requires !Refers(g, q.active, ResolveIn(g, x)) && !Refers(g, q.pendingSet, ResolveIn(g, x))
    requires p in Referenced(q) && u in g.accounts && own(p) == own(u)
    ensures own(p) != own(x)
  {
    LiveReferenceResolves(own, g, q, limit, p, u);
    assert own(x) == own(u) ==> ResolveIn(g, x) == u;
    assert p in q.active || p in q.pendingSet;
  }

  lemma EnqueueInv(own: Token -> AccountId, g: Graph, q: Queue, limit: nat, x: Token, scope: Scope)
    requires GraphInv(own, g, {}) && QueueInv(own, g, q, limit) && x in g.lineage
    requires !Refers(g, q.active, ResolveIn(g, x)) && !Refers(g, q.pendingSet, ResolveIn(g, x))
    ensures QueueInv(own, g, Enqueued(q, ResolveIn(g, x), scope), limit)
  {
    var t := ResolveIn(g, x);
    ResolveTwice(g, x);
    assert t !in q.active && t !in q.pendingSet;
    assert t in g.lineage by { ResolvedInLineage(g, x, {}); }
    assert own(t) == own(x) by { ResolveKeepsOwner(own, g.accounts.Keys, g.aliases, x, {}); }
    hide GraphInv, ResolveIn, Refers, QueueInv;
    forall p, u | p in Referenced(q) && u in g.accounts && own(p) == own(u)
      ensures own(p) != own(t)
    {
      UnreferencedAccount(own, g, q, limit, x, p, u);
    }
    EnqueuedRecords(own, g, q, limit, t, scope);
  }

  lemma RequestedInv(own: Token -> AccountId, g: Graph, q: Queue, limit: nat, x: Token, force: bool, requested: Scope, q': Queue)
    requires GraphInv(own, g, {}) && QueueInv(own, g, q, limit) && x in g.lineage
    requires Requested(q, g, x, force, requested, q')
    ensures QueueInv(own, g, q', limit)
  {
    hide GraphInv, QueueInv, ResolveIn, Refers;
    var t := ResolveIn(g, x);
    var q0 := q.(startedAt := q'.startedAt);
    StartTimesFree(own, g, q, limit, q'.startedAt);
    if Refers(g, q.active, t) {
      if force {
        var a :| a in q.active && ResolveIn(g, a) == t && q' == q0.(rerun := q.rerun + {a});
        MarkInv(own, g, q0, limit, a);
      }
    } else if Refers(g, q.pendingSet, t) {
      var p :| p in q.pendingSet && p in q.scopes && ResolveIn(g, p) == t && q' == Widened(q0, p, requested);
      ScopeInv(own, g, q0, limit, p, Widest(q.scopes[p], requested));
    } else if q' != q0 {
      EnqueueInv(own, g, q0, limit, x, requested);
    }
  }

  lemma NamedOnceMore(own: Token -> AccountId, g: Graph, tokens: set<Token>, t: Token)
    requires NamedOnce(own, g, tokens)
    requires forall p, u | p in tokens && u in g.accounts && own(p) == own(u) :: own(p) != own(t)
    ensures NamedOnce(own, g, tokens + {t})
  {
  }

  lemma EnqueuedRecords(own: Token -> AccountId, g: Graph, q: Queue, limit: nat, t: Token, scope: Scope)
    requires QueueInv(own, g, q, limit) && t in g.lineage && t !in q.active && t !in q.pendingSet
    requires forall p, u | p in Referenced(q) && u in g.accounts && own(p) == own(u) :: own(p) != own(t)
    ensures QueueInv(own, g, Enqueued(q, t, scope), limit)
  {
    NamedOnceMore(own, g, Referenced(q), t);
    EnqueuedShape(q, t, scope);
    hide NamedOnce, NoDuplicates, Elements, Referenced;
  }

  lemma EnqueuedShape(q: Queue, t: Token, scope: Scope)
    ensures var q' := Enqueued(q, t, scope);
      && Elements(q'.pending) == Elements(q.pending) + {t}
      && (NoDuplicates(q.pending) && t !in Elements(q.pending) ==> NoDuplicates(q'.pending))
      && q'.scopes.Keys == q.scopes.Keys + {t} && Referenced(q') == Referenced(q) + {t}
  {
    Appended(q.pending, t);
  }

  lemma Appended(s: seq<Token>, t: Token)
    ensures Elements(s + [t]) == Elements(s) + {t}
    ensures NoDuplicates(s) && t !in Elements(s) ==> NoDuplicates(s + [t])
  {
  }

  // ---------------------------------------------------------------- starting, finishing and renaming

  function Started(q: Queue, now: real): Queue
    requires q.pending != []
  {
    var t := q.pending[0];
    Queue(q.pending[1..], q.pendingSet - {t}, q.scopes - {t}, q.active + {t}, q.rerun, q.startedAt[t := now])
  }

  function Finished(q: Queue, g: Graph, token: Token, marked: bool, scope: Scope): Queue {
    var resolved := ResolveIn(g, token);
    var ended := q.(active := q.active - {token}, rerun := q.rerun - {token});
    if token in q.rerun && resolved in g.accounts && marked && resolved !in q.pendingSet then
      Enqueued(ended, resolved, scope)
    else
      ended
  }

  function RenamedToken(t: Token, target: Token, sources: set<Token>): Token {
    if t in sources then target else t
  }

  function RenamedAll(pending: seq<Token>, target: Token, sources: set<Token>): seq<Token> {
    seq(|pending|, i requires 0 <= i < |pending| => RenamedToken(pending[i], target, sources))
  }

  // The first occurrence of each element, in order.
  function Deduplicated(s: seq<Token>): seq<Token> {
    if s == [] then []
    else
      var first, last := Deduplicated(s[..|s| - 1]), s[|s| - 1];
      if last in first then first else first + [last]
  }

  predicate AnyWide(scopes: map<Token, Scope>, tokens: set<Token>) {
    exists t :: t in tokens && t in scopes && scopes[t] == AccountScope
  }

  function RenamedScopes(scopes: map<Token, Scope>, target: Token, sources: set<Token>): map<Token, Scope> {
    if scopes.Keys !! sources then scopes
    else (scopes - sources)[target := if AnyWide(scopes, sources + {target}) then AccountScope else ImageScope]
  }

  /** The new token takes over the latest start of its sources and itself, and no other start changes. */
  ghost predicate RenamedStarts(starts: map<Token, real>, starts': map<Token, real>, target: Token, sources: set<Token>) {
    && starts'.Keys == (starts.Keys - sources) + (if starts.Keys !! sources then {} else {target})
    && (forall t | t in starts' && t != target :: starts'[t] == starts[t])
    && (forall t | t in starts && t in sources + {target} :: starts[t] <= starts'[target])
    && (target in starts' ==> starts'[target] == 0.0 || exists t :: t in starts && t in sources + {target} && starts[t] == starts'[target])
    && (starts.Keys !! sources ==> starts' == starts)
  }

  lemma StartsRenamed(starts: map<Token, real>, starts': map<Token, real>, target: Token, sources: set<Token>)
    requires starts.Keys * sources == {} ==> starts' == starts
    requires starts.Keys * sources != {} ==>
      && target in starts' && starts' == (starts - sources)[target := starts'[target]]
      && (forall t | t in starts && t in sources + {target} :: starts[t] <= starts'[target])
      && (starts'[target] == 0.0 || exists t :: t in starts && t in sources + {target} && starts[t] == starts'[target])
    ensures RenamedStarts(starts, starts', target, sources)
  {
  }

  lemma NoElements()
    ensures Elements([]) == {}
  {
  }

  lemma RenamedNone(target: Token, sources: set<Token>)
    ensures Deduplicated(RenamedAll([], target, sources)) == []
  {
  }

  lemma ScopesRenamed(scopes: map<Token, Scope>, target: Token, sources: set<Token>)
    ensures AnyWide(scopes, sources + {target}) <==>
            AnyWide(scopes, scopes.Keys * sources) || AnyWide(scopes - sources, (scopes - sources).Keys * {target})
    ensures scopes.Keys * sources == {} ==> scopes - sources == scopes
  {
    forall t | t in scopes && scopes[t] == AccountScope && t in sources + {target}
      ensures t in scopes.Keys * sources || (t in scopes - sources && t in (scopes - sources).Keys * {target})
    {
    }
    if scopes.Keys * sources == {} {
      forall t | t in scopes ensures t in scopes - sources && (scopes - sources)[t] == scopes[t] {
        assert t !in scopes.Keys * sources;
      }
    }
  }

  lemma RenamedPrefix(pending: seq<Token>, i: nat, target: Token, sources: set<Token>)
    requires i < |pending|
    ensures var before := Deduplicated(RenamedAll(pending[..i], target, sources));
      var name := RenamedToken(pending[i], target, sources);
      Deduplicated(RenamedAll(pending[..i + 1], target, sources)) == if name in before then before else before + [name]
  {
    var s := RenamedAll(pending[..i + 1], target, sources);
    assert s[..|s| - 1] == RenamedAll(pending[..i], target, sources);
  }

  lemma {:induction false} DistinctKept(s: seq<Token>)
    requires NoDuplicates(s)
    ensures Deduplicated(s) == s
  {
    if s != [] {
      var first := s[..|s| - 1];
      DistinctKept(first);
      assert s[|s| - 1] !in first;
      assert s == first + [s[|s| - 1]];
    }
  }

  // At most one pending entry belongs to the rotated account.
  lemma RenamedDistinct(own: Token -> AccountId, g: Graph, q: Queue, limit: nat, target: Token, sources: set<Token>)
    requires QueueInv(own, g, q, limit) && target in g.accounts
    requires forall s | s in sources :: own(s) == own(target)
    ensures NoDuplicates(RenamedAll(q.pending, target, sources))
    ensures Deduplicated(RenamedAll(q.pending, target, sources)) == RenamedAll(q.pending, target, sources)
  {
    var r := RenamedAll(q.pending, target, sources);
    forall i, j | 0 <= i < j < |r| ensures r[i] != r[j] {
      assert q.pending[i] in Referenced(q) && q.pending[j] in Referenced(q);
    }
    DistinctKept(r);
  }

  lemma RenamedElements(pending: seq<Token>, target: Token, sources: set<Token>)
    ensures Elements(RenamedAll(pending, target, sources)) ==
            (Elements(pending) - sources) + (if Elements(pending) !! sources then {} else {target})
  {
    var r := RenamedAll(pending, target, sources);
    forall t | t in Elements(pending) ensures RenamedToken(t, target, sources) in Elements(r) {
      var i :| 0 <= i < |pending| && pending[i] == t;
      assert r[i] == RenamedToken(t, target, sources);
    }
    if !(Elements(pending) !! sources) {
      var t :| t in Elements(pending) && t in sources;
      assert RenamedToken(t, target, sources) == target;
    }
    forall t | t in Elements(pending) - sources ensures t in Elements(r) {
      assert RenamedToken(t, target, sources) == t;
    }
  }

  lemma RenamedFree(own: Token -> AccountId, g: Graph, q: Queue, limit: nat, target: Token, sources: set<Token>)
    requires QueueInv(own, g, q, limit) && target in g.accounts
    requires forall s | s in sources :: own(s) == own(target)
    requires !(Elements(q.pending) !! sources)
    ensures target !in q.active
  {
    hide Elements, NoDuplicates;
    var p :| p in Elements(q.pending) && p in sources;
    assert p in Referenced(q) && (target in q.active ==> target in Referenced(q));
  }

  lemma RenamedScopeKeys(q: Queue, target: Token, sources: set<Token>)
    requires Elements(q.pending) == q.scopes.Keys
    ensures RenamedScopes(q.scopes, target, sources).Keys == Elements(RenamedAll(q.pending, target, sources))
  {
    RenamedElements(q.pending, target, sources);
    hide RenamedAll, Elements, AnyWide;
  }

  lemma RenamedInv(own: Token -> AccountId, g: Graph, q: Queue, limit: nat, target: Token, sources: set<Token>, startedAt: map<Token, real>)
    requires QueueInv(own, g, q, limit) && target in g.accounts && target in g.lineage
    requires forall s | s in sources :: own(s) == own(target)
    ensures var pending := RenamedAll(q.pending, target, sources);
      QueueInv(own, Redirected(g, target, sources),
               Queue(pending, Elements(pending), RenamedScopes(q.scopes, target, sources), q.active, q.rerun, startedAt), limit)
  {
    var pending := RenamedAll(q.pending, target, sources);
    var q' := Queue(pending, Elements(pending), RenamedScopes(q.scopes, target, sources), q.active, q.rerun, startedAt);
    var g' := Redirected(g, target, sources);
    hide RenamedAll, Elements, NoDuplicates, NamedOnce, RenamedScopes, Redirected, Referenced, QueueInv;
    RenamedDistinct(own, g, q, limit, target, sources);
    RenamedMirror(own, g, q, limit, target, sources);
    RenamedReferences(own, g, q, limit, target, sources);
    RenamedNamesOnce(own, g, q, limit, target, sources);
    assert Referenced(q') == Elements(pending) + q.active by { ReferencesOf(q'); }
    FromParts(own, g, q, g', q', limit);
  }

  lemma ReferencesOf(q: Queue)
    ensures Referenced(q) == Elements(q.pending) + q.active
  {
  }

  lemma FromParts(own: Token -> AccountId, g: Graph, q: Queue, g': Graph, q': Queue, limit: nat)
    requires QueueInv(own, g, q, limit) && q'.active == q.active && q'.rerun == q.rerun
    requires NoDuplicates(q'.pending) && q'.pendingSet == Elements(q'.pending) == q'.scopes.Keys && q'.pendingSet !! q'.active
    requires Referenced(q') <= g'.lineage && g'.aliases.Values <= g'.lineage && NamedOnce(own, g', Referenced(q'))
    ensures QueueInv(own, g', q', limit)
  {
    hide NoDuplicates, NamedOnce, Elements, Referenced;
  }

  lemma RenamedMirror(own: Token -> AccountId, g: Graph, q: Queue, limit: nat, target: Token, sources: set<Token>)
    requires QueueInv(own, g, q, limit) && target in g.accounts
    requires forall s | s in sources :: own(s) == own(target)
    ensures RenamedScopes(q.scopes, target, sources).Keys == Elements(RenamedAll(q.pending, target, sources))
    ensures Elements(RenamedAll(q.pending, target, sources)) !! q.active
  {
    hide RenamedAll, Elements, NoDuplicates, NamedOnce, RenamedScopes, Referenced;
    RenamedElements(q.pending, target, sources);
    RenamedScopeKeys(q, target, sources);
    if !(Elements(q.pending) !! sources) {
      RenamedFree(own, g, q, limit, target, sources);
    }
  }

  lemma RenamedReferences(own: Token -> AccountId, g: Graph, q: Queue, limit: nat, target: Token, sources: set<Token>)
    requires QueueInv(own, g, q, limit) && target in g.lineage
    ensures var g' := Redirected(g, target, sources);
      && Elements(RenamedAll(q.pending, target, sources)) + q.active <= g'.lineage
      && g'.aliases.Values <= g'.lineage
  {
    hide RenamedAll, Elements, NoDuplicates, NamedOnce, Redirected;
    RenamedElements(q.pending, target, sources);
    RedirectedLineage(g, target, sources);
  }

  lemma RedirectedLineage(g: Graph, target: Token, sources: set<Token>)
    ensures Redirected(g, target, sources).aliases.Values <= g.aliases.Values + {target}
    ensures Redirected(g, target, sources).lineage == g.lineage
  {
  }

  lemma RenamedNamesOnce(own: Token -> AccountId, g: Graph, q: Queue, limit: nat, target: Token, sources: set<Token>)
    requires QueueInv(own, g, q, limit) && target in g.accounts
    requires forall s | s in sources :: own(s) == own(target)
    ensures NamedOnce(own, Redirected(g, target, sources), Elements(RenamedAll(q.pending, target, sources)) + q.active)
  {
    RenamedElements(q.pending, target, sources);
    hide RenamedAll, Elements, NoDuplicates;
  }

  lemma StartedShape(q: Queue, now: real)
    requires q.pending != [] && NoDuplicates(q.pending)
    ensures var q' := Started(q, now);
      && NoDuplicates(q'.pending) && Elements(q'.pending) == Elements(q.pending) - {q.pending[0]}
      && q.pending[0] in Elements(q.pending) && Referenced(q') == Referenced(q)
  {
    var q' := Started(q, now);
    assert q.pending == [q.pending[0]] + q'.pending;
    assert Elements(q'.pending) == Elements(q.pending) - {q.pending[0]};
  }

  lemma StartedInv(own: Token -> AccountId, g: Graph, q: Queue, limit: nat, now: real)
    requires QueueInv(own, g, q, limit) && q.pending != [] && |q.active| < limit
    ensures QueueInv(own, g, Started(q, now), limit)
  {
    StartedShape(q, now);
    hide NamedOnce, Elements, NoDuplicates, Referenced;
  }

  lemma WithinLimit(own: Token -> AccountId, g: Graph, q: Queue, limit: nat)
    requires QueueInv(own, g, q, limit)
    ensures |q.active| <= limit
  {
  }

  lemma EndedInv(own: Token -> AccountId, g: Graph, q: Queue, limit: nat, token: Token)
    requires QueueInv(own, g, q, limit) && token in q.active
    ensures QueueInv(own, g, q.(active := q.active - {token}, rerun := q.rerun - {token}), limit)
  {
    var q' := q.(active := q.active - {token}, rerun := q.rerun - {token});
    assert Referenced(q') <= Referenced(q);
    hide NoDuplicates, Elements;
  }

  lemma FinishedInv(own: Token -> AccountId, g: Graph, q: Queue, limit: nat, token: Token, marked: bool, scope: Scope)
    requires GraphInv(own, g, {}) && QueueInv(own, g, q, limit) && token in q.active
    ensures QueueInv(own, g, Finished(q, g, token, marked, scope), limit)
  {
    hide QueueInv, GraphInv, ResolveIn, Referenced, Enqueued;
    var resolved := ResolveIn(g, token);
    var ended := q.(active := q.active - {token}, rerun := q.rerun - {token});
    EndedInv(own, g, q, limit, token);
    if resolved in g.accounts && resolved !in q.pendingSet {
      ResolvesToOwner(own, g, token);
      EndedFreesAccount(own, g, q, limit, token, resolved);
      FreeToken(own, g, ended, limit, resolved);
      EnqueuedRecords(own, g, ended, limit, resolved, scope);
    }
  }

  lemma ResolvesToOwner(own: Token -> AccountId, g: Graph, x: Token)
    requires GraphInv(own, g, {})
    ensures own(ResolveIn(g, x)) == own(x)
  {
    ResolveKeepsOwner(own, g.accounts.Keys, g.aliases, x, {});
  }

  lemma EndedFreesAccount(own: Token -> AccountId, g: Graph, q: Queue, limit: nat, token: Token, resolved: Token)
    requires QueueInv(own, g, q, limit) && token in q.active && resolved in g.accounts && own(resolved) == own(token)
    ensures var ended := q.(active := q.active - {token}, rerun := q.rerun - {token});
      forall p, u | p in Referenced(ended) && u in g.accounts && own(p) == own(u) :: own(p) != own(resolved)
  {
    var ended := q.(active := q.active - {token}, rerun := q.rerun - {token});
    forall p, u | p in Referenced(ended) && u in g.accounts && own(p) == own(u) ensures own(p) != own(resolved) {
      assert p in Referenced(q) && token in Referenced(q);
    }
  }

  lemma FreeToken(own: Token -> AccountId, g: Graph, q: Queue, limit: nat, t: Token)
    requires QueueInv(own, g, q, limit) && t in g.accounts && GraphInv(own, g, {})
    requires forall p, u | p in Referenced(q) && u in g.accounts && own(p) == own(u) :: own(p) != own(t)
    ensures t in g.lineage && t !in q.active && t !in q.pendingSet
  {
    assert t in Referenced(q) ==> own(t) != own(t);
  }
}
