/** How far a pending refresh reaches: the scopes of the requests that joined it (services/account_service.py:1472-1506,
    4115-4230). */
module RefreshScopes {
  import opened Accounts
  import opened TokenAliases
  import opened FailureRefresh
  import opened RefreshRuns

  /** The account has a pending entry. */
  ghost predicate Waiting(own: Token -> AccountId, q: Queue, id: AccountId) {
    exists p :: p in q.scopes && own(p) == id
  }

  /** The account has a pending entry for the whole account. */
  ghost predicate Wide(own: Token -> AccountId, q: Queue, id: AccountId) {
    exists p :: p in q.scopes && own(p) == id && q.scopes[p] == AccountScope
  }

  ghost predicate Live(own: Token -> AccountId, g: Graph, id: AccountId) {
    exists u :: u in g.accounts && own(u) == id
  }

  // A live account has one entry in the queue, pending or active.
  ghost predicate OneEntry(own: Token -> AccountId, q: Queue, id: AccountId) {
    && (forall p, r | p in q.scopes && r in q.scopes && own(p) == id && own(r) == id :: p == r)
    && (forall p, a | p in q.scopes && a in q.active && own(p) == id :: own(a) != id)
  }

  lemma LiveOneEntry(own: Token -> AccountId, g: Graph, q: Queue, limit: nat, id: AccountId)
    requires QueueInv(own, g, q, limit) && Live(own, g, id)
    ensures OneEntry(own, q, id)
  {
    hide NoDuplicates;
    var u :| u in g.accounts && own(u) == id;
    forall p | p in q.scopes || p in q.active ensures p in Referenced(q) {
    }
  }

  // ---------------------------------------------------------------- one step

  lemma RequestedOwner(own: Token -> AccountId, g: Graph, x: Token, p: Token)
    requires GraphInv(own, g, {}) && ResolveIn(g, p) == ResolveIn(g, x)
    ensures own(p) == own(x) == own(ResolveIn(g, x))
  {
    ResolvesToOwner(own, g, p);
    ResolvesToOwner(own, g, x);
  }

  /** A request that meets the account's pending entry makes it reach the whole account iff it did so before or the request
      asks for that; one that finds no entry gets the scope it asks for; no other account's entry changes. */
  lemma RequestScope(own: Token -> AccountId, g: Graph, q: Queue, limit: nat, x: Token, force: bool, requested: Scope, q': Queue,
                     id: AccountId)
    requires GraphInv(own, g, {}) && QueueInv(own, g, q, limit) && x in g.lineage
    requires Requested(q, g, x, force, requested, q') && Live(own, g, id) && Waiting(own, q', id)
    ensures own(x) != id ==> Waiting(own, q, id) && (Wide(own, q', id) <==> Wide(own, q, id))
    ensures own(x) == id && Waiting(own, q, id) ==> (Wide(own, q', id) <==> Wide(own, q, id) || requested == AccountScope)
    ensures own(x) == id && !Waiting(own, q, id) ==> (Wide(own, q', id) <==> requested == AccountScope)
  {
    hide ResolveIn, QueueInv, GraphInv, Waiting, Wide, OneEntry, Refers, Live;
    var t := ResolveIn(g, x);
    LiveOneEntry(own, g, q, limit, id);
    if own(x) == id && Waiting(own, q, id) {
      WaitingRefers(own, g, q, limit, x, id);
    }
    if Refers(g, q.active, t) {
      SameScopes(own, q, q', id);
      if own(x) == id {
        ActiveOrWaiting(own, g, q, x, id);
      }
    } else if Refers(g, q.pendingSet, t) {
      JoinedScope(own, g, q, x, requested, q', id);
    } else if q'.scopes == q.scopes {
      SameScopes(own, q, q', id);
    } else {
      RequestedOwner(own, g, x, x);
      OneScopeAdded(own, q, q', t, id);
    }
  }

  lemma SameScopes(own: Token -> AccountId, q: Queue, q': Queue, id: AccountId)
    requires q'.scopes == q.scopes
    ensures (Waiting(own, q', id) <==> Waiting(own, q, id)) && (Wide(own, q', id) <==> Wide(own, q, id))
  {
  }

  lemma JoinedScope(own: Token -> AccountId, g: Graph, q: Queue, x: Token, requested: Scope, q': Queue, id: AccountId)
    requires GraphInv(own, g, {}) && OneEntry(own, q, id)
    requires exists p :: (p in q.pendingSet && p in q.scopes && ResolveIn(g, p) == ResolveIn(g, x)
                          && q' == Widened(q.(startedAt := q'.startedAt), p, requested))
    ensures Waiting(own, q', id) <==> Waiting(own, q, id)
    ensures own(x) != id ==> (Wide(own, q', id) <==> Wide(own, q, id))
    ensures own(x) == id ==> Waiting(own, q, id) && (Wide(own, q', id) <==> Wide(own, q, id) || requested == AccountScope)
  {
    hide GraphInv, ResolveIn, OneEntry, Waiting, Wide;
    var p :| p in q.pendingSet && p in q.scopes && ResolveIn(g, p) == ResolveIn(g, x) &&
      q' == Widened(q.(startedAt := q'.startedAt), p, requested);
    RequestedOwner(own, g, x, p);
    OneScopeChanged(own, q, q', p, id);
  }

  lemma WaitingRefers(own: Token -> AccountId, g: Graph, q: Queue, limit: nat, x: Token, id: AccountId)
    requires GraphInv(own, g, {}) && QueueInv(own, g, q, limit) && x in g.lineage
    requires Live(own, g, id) && Waiting(own, q, id) && own(x) == id
    ensures Refers(g, q.pendingSet, ResolveIn(g, x))
  {
    var p :| p in q.scopes && own(p) == id;
    var u :| u in g.accounts && own(u) == id;
    assert p in Referenced(q);
    LiveReferenceResolves(own, g, q, limit, p, u);
    assert ResolveIn(g, x) == u;
  }

  lemma ActiveOrWaiting(own: Token -> AccountId, g: Graph, q: Queue, x: Token, id: AccountId)
    requires GraphInv(own, g, {}) && Refers(g, q.active, ResolveIn(g, x)) && own(x) == id
    requires OneEntry(own, q, id)
    ensures !Waiting(own, q, id)
  {
    var a :| a in q.active && ResolveIn(g, a) == ResolveIn(g, x);
    RequestedOwner(own, g, x, a);
    hide GraphInv, ResolveIn;
  }

  lemma OneScopeChanged(own: Token -> AccountId, q: Queue, q': Queue, p: Token, id: AccountId)
    requires p in q.scopes && p in q'.scopes && q'.scopes == q.scopes[p := q'.scopes[p]] && OneEntry(own, q, id)
    ensures Waiting(own, q', id) <==> Waiting(own, q, id)
    ensures own(p) != id ==> (Wide(own, q', id) <==> Wide(own, q, id))
    ensures own(p) == id ==>
      Waiting(own, q, id) && (Wide(own, q, id) <==> q.scopes[p] == AccountScope) && (Wide(own, q', id) <==> q'.scopes[p] == AccountScope)
  {
    forall r | r in q.scopes && own(r) == id ensures own(p) == id ==> r == p {
    }
    assert forall r :: r in q.scopes <==> r in q'.scopes;
    assert forall r | r in q.scopes && r != p :: q'.scopes[r] == q.scopes[r];
    if own(p) != id {
      forall r | r in q.scopes && own(r) == id ensures q'.scopes[r] == q.scopes[r] {
      }
    }
  }

  lemma OneScopeAdded(own: Token -> AccountId, q: Queue, q': Queue, t: Token, id: AccountId)
    requires t in q'.scopes && q'.scopes == q.scopes[t := q'.scopes[t]]
    ensures own(t) != id ==> (Waiting(own, q', id) <==> Waiting(own, q, id)) && (Wide(own, q', id) <==> Wide(own, q, id))
    ensures own(t) == id && !Waiting(own, q, id) ==> (Wide(own, q', id) <==> q'.scopes[t] == AccountScope)
  {
    assert forall r | r != t :: r in q.scopes <==> r in q'.scopes;
    assert forall r | r in q.scopes && r != t :: q'.scopes[r] == q.scopes[r];
    if own(t) != id {
      forall r | own(r) == id ensures r != t && (r in q.scopes <==> r in q'.scopes) {
      }
    }
  }

  lemma StartScope(own: Token -> AccountId, q: Queue, now: real, id: AccountId)
    requires q.pending != [] && q.pending[0] in q.scopes && OneEntry(own, q, id) && Waiting(own, Started(q, now), id)
    ensures Waiting(own, q, id) && (Wide(own, Started(q, now), id) <==> Wide(own, q, id))
  {
    var q' := Started(q, now);
    var p :| p in q'.scopes && own(p) == id;
    assert own(q.pending[0]) != id;
    forall r | own(r) == id ensures r in q.scopes <==> r in q'.scopes {
    }
  }

  lemma FinishScope(own: Token -> AccountId, g: Graph, q: Queue, token: Token, marked: bool, scope: Scope, id: AccountId)
    requires GraphInv(own, g, {}) && token in q.active && OneEntry(own, q, id)
    requires Waiting(own, Finished(q, g, token, marked, scope), id)
    ensures var q' := Finished(q, g, token, marked, scope);
      if Waiting(own, q, id) then Wide(own, q', id) <==> Wide(own, q, id) else Wide(own, q', id) <==> scope == AccountScope
  {
    ResolvesToOwner(own, g, token);
    var q' := Finished(q, g, token, marked, scope);
    var resolved := ResolveIn(g, token);
    hide GraphInv, ResolveIn;
    if q'.scopes != q.scopes {
      OneScopeAdded(own, q, q', resolved, id);
    }
  }

  lemma RotateScope(own: Token -> AccountId, q: Queue, q': Queue, target: Token, sources: set<Token>, id: AccountId)
    requires forall s | s in sources :: own(s) == own(target)
    requires q'.scopes == RenamedScopes(q.scopes, target, sources) && OneEntry(own, q, id) && Waiting(own, q', id)
    ensures Waiting(own, q, id) && (Wide(own, q', id) <==> Wide(own, q, id))
  {
    if !(q.scopes.Keys !! sources) {
      var p :| p in q.scopes && p in sources;
      if own(target) == id {
        assert forall r | r in q.scopes && own(r) == id :: r == p;
        assert Wide(own, q, id) <==> q.scopes[p] == AccountScope;
        assert forall r | r in q'.scopes && own(r) == id :: r == target;
      } else {
        forall r | own(r) == id ensures (r in q.scopes <==> r in q'.scopes) && (r in q.scopes ==> q.scopes[r] == q'.scopes[r]) {
        }
      }
    }
  }

  // ---------------------------------------------------------------- runs

  /** The scopes that joined the account's pending entry since it was queued; empty if it has none. */
  ghost function Asked(own: Token -> AccountId, worlds: seq<World>, steps: seq<Step>, k: nat, id: AccountId): seq<Scope>
    requires k < |worlds| == |steps| + 1
  {
    if !Waiting(own, worlds[k].queue, id) then []
    else if k == 0 then [if Wide(own, worlds[0].queue, id) then AccountScope else ImageScope]
    else
      var before := Asked(own, worlds, steps, k - 1, id);
      match steps[k - 1]
      case Request(x, _, requested) => if own(x) == id then before + [requested] else before
      case Finish(_, _, scope) => if Waiting(own, worlds[k - 1].queue, id) then before else [scope]
      case _ => before
  }

  // Accounts do not come back, so one that is live now and has been queued was live before.
  lemma LiveBefore(own: Token -> AccountId, limit: nat, w: World, step: Step, w': World, id: AccountId)
    requires Inv(own, limit, w) && Inv(own, limit, w') && Next(own, limit, w, step, w') && Live(own, w'.graph, id)
    requires Waiting(own, w'.queue, id)
    ensures Live(own, w.graph, id)
  {
    hide Requested, GraphInv, QueueInv, RenamedStarts, Waiting, Live, NoRevival, Displaced, Started, Finished, Renamed, Pruned;
    match step
    case Load(accounts) => LoadedLive(own, w.graph, w.queue, limit, accounts, id);
    case _ => SameAccountsLive(own, w.graph, w'.graph, id);
  }

  lemma SameAccountsLive(own: Token -> AccountId, g: Graph, g': Graph, id: AccountId)
    requires g'.accounts == g.accounts
    ensures Live(own, g', id) <==> Live(own, g, id)
  {
  }

  lemma LoadedLive(own: Token -> AccountId, g: Graph, q: Queue, limit: nat, accounts: map<Token, AccountId>, id: AccountId)
    requires QueueInv(own, g, q, limit) && NoRevival(own, g, accounts) && Live(own, Replaced(g, accounts), id) && Waiting(own, q, id)
    ensures Live(own, g, id)
  {
    hide NoDuplicates;
    var p :| p in q.scopes && own(p) == id;
    assert p in Referenced(q);
    var u :| u in accounts && own(u) == id;
  }

  lemma StepScope(own: Token -> AccountId, limit: nat, w: World, step: Step, w': World, id: AccountId)
    requires Inv(own, limit, w) && Next(own, limit, w, step, w') && Live(own, w.graph, id) && Waiting(own, w'.queue, id)
    ensures match step
      case Request(x, _, requested) =>
        if own(x) != id then Waiting(own, w.queue, id) && (Wide(own, w'.queue, id) <==> Wide(own, w.queue, id))
        else Wide(own, w'.queue, id) <==> requested == AccountScope || (Waiting(own, w.queue, id) && Wide(own, w.queue, id))
      case Finish(_, _, scope) =>
        if Waiting(own, w.queue, id) then Wide(own, w'.queue, id) <==> Wide(own, w.queue, id)
        else Wide(own, w'.queue, id) <==> scope == AccountScope
      case _ => Waiting(own, w.queue, id) && (Wide(own, w'.queue, id) <==> Wide(own, w.queue, id))
  {
    hide GraphInv, QueueInv, Requested, ResolveIn, RenamedStarts, RenamedScopes, RenamedAll, Waiting, Wide, Live, Started, Finished,
      NoRevival, Displaced, OneEntry;
    LiveOneEntry(own, w.graph, w.queue, limit, id);
    match step
    case Request(x, force, requested) =>
      RequestScope(own, w.graph, w.queue, limit, x, force, requested, w'.queue, id);
    case Start(now) =>
      HeadHasScope(own, w.graph, w.queue, limit);
      StartScope(own, w.queue, now, id);
    case Finish(token, marked, scope) =>
      FinishScope(own, w.graph, w.queue, token, marked, scope, id);
    case Rotate(target, sources) =>
      RotateScope(own, w.queue, w'.queue, target, sources, id);
    case _ =>
  }

  lemma HeadHasScope(own: Token -> AccountId, g: Graph, q: Queue, limit: nat)
    requires QueueInv(own, g, q, limit) && q.pending != []
    ensures q.pending[0] in q.scopes
  {
    assert q.pending[0] in Elements(q.pending);
  }

  lemma NothingAsked(own: Token -> AccountId, worlds: seq<World>, steps: seq<Step>, k: nat, id: AccountId)
    requires k < |worlds| == |steps| + 1 && !Waiting(own, worlds[k].queue, id)
    ensures Asked(own, worlds, steps, k, id) == []
  {
  }

  lemma {:induction false} WideIff(own: Token -> AccountId, limit: nat, worlds: seq<World>, steps: seq<Step>, k: nat, id: AccountId)
    requires Run(own, limit, worlds, steps) && Inv(own, limit, worlds[0]) && k < |worlds|
    requires Live(own, worlds[k].graph, id) && Waiting(own, worlds[k].queue, id)
    ensures Wide(own, worlds[k].queue, id) <==> AccountScope in Asked(own, worlds, steps, k, id)
    decreases k
  {
    hide RefreshRuns.Inv, Live, Waiting, Wide;
    if k > 0 {
      assert Next(own, limit, worlds[k - 1], steps[k - 1], worlds[k]);
      EveryStateIsGood(own, limit, worlds, steps, k - 1);
      EveryStateIsGood(own, limit, worlds, steps, k);
      LiveBefore(own, limit, worlds[k - 1], steps[k - 1], worlds[k], id);
      StepScope(own, limit, worlds[k - 1], steps[k - 1], worlds[k], id);
      if Waiting(own, worlds[k - 1].queue, id) {
        WideIff(own, limit, worlds, steps, k - 1, id);
      } else {
        NothingAsked(own, worlds, steps, k - 1, id);
      }
    }
  }

  /** Over any run, rotations included: the pending entry of a live account is for the whole account exactly if at least one of
      the requests that joined it since it was queued, under whatever token, asked for that. */
  lemma PendingScopeIff(own: Token -> AccountId, limit: nat, worlds: seq<World>, steps: seq<Step>, k: nat, p: Token)
    requires Run(own, limit, worlds, steps) && Inv(own, limit, worlds[0]) && k < |worlds|
    requires p in worlds[k].queue.pendingSet && Live(own, worlds[k].graph, own(p))
    ensures p in worlds[k].queue.scopes
    ensures worlds[k].queue.scopes[p] == AccountScope <==> AccountScope in Asked(own, worlds, steps, k, own(p))
  {
    hide Run, Asked;
    EveryStateIsGood(own, limit, worlds, steps, k);
    PendingHasScope(own, worlds[k].graph, worlds[k].queue, limit);
    LiveOneEntry(own, worlds[k].graph, worlds[k].queue, limit, own(p));
    hide RefreshRuns.Inv;
    WideIff(own, limit, worlds, steps, k, own(p));
  }
}
