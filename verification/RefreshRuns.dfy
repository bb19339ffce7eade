/** Every interleaving of requests, starts, ends, rotations and view changes of the refresh queue
    (services/account_service.py:1472-1506, 4115-4267). */
module RefreshRuns {
  import opened Accounts
  import opened TokenAliases
  import opened FailureRefresh

  /** transit holds the tokens a new view displaced and that no rotation has redirected yet. */
  datatype World = World(graph: Graph, transit: set<Token>, queue: Queue)

  datatype Step =
    | Request(x: Token, force: bool, requested: Scope)
    | Start(now: real)
    | Finish(token: Token, marked: bool, scope: Scope)
    | Rotate(target: Token, sources: set<Token>)
    | Load(accounts: map<Token, AccountId>)
    | Compact

  /** One atomic step under the locks; requests and ends read the graph only between view changes. */
  ghost predicate Next(own: Token -> AccountId, limit: nat, w: World, step: Step, w': World) {
    match step
    case Request(x, force, requested) =>
      && w.transit == {} && x in w.graph.lineage
      && Requested(w.queue, w.graph, x, force, requested, w'.queue) && w' == w.(queue := w'.queue)
    case Start(now) =>
      && w.queue.pending != [] && |w.queue.active| < limit
      && w' == w.(queue := Started(w.queue, now))
    case Finish(token, marked, scope) =>
      && w.transit == {} && token in w.queue.active
      && w' == w.(queue := Finished(w.queue, w.graph, token, marked, scope))
    case Rotate(target, sources) =>
      && target in w.graph.accounts && (forall s | s in sources :: own(s) == own(target))
      && RenamedStarts(w.queue.startedAt, w'.queue.startedAt, target, sources)
      && w' == World(Redirected(w.graph, target, sources), w.transit - sources, Renamed(w.queue, target, sources, w'.queue.startedAt))
    case Load(accounts) =>
      && GoodAccounts(own, accounts) && NoRevival(own, w.graph, accounts)
      && w' == w.(graph := Replaced(w.graph, accounts), transit := w.transit + Displaced(own, w.graph, accounts))
    case Compact =>
      w' == w.(graph := Compacted(w.graph))
  }

  function Renamed(q: Queue, target: Token, sources: set<Token>, startedAt: map<Token, real>): Queue {
    var pending := RenamedAll(q.pending, target, sources);
    Queue(pending, Elements(pending), RenamedScopes(q.scopes, target, sources), q.active, q.rerun, startedAt)
  }

  ghost predicate Inv(own: Token -> AccountId, limit: nat, w: World) {
    GraphInv(own, w.graph, w.transit) && QueueInv(own, w.graph, w.queue, limit)
  }

  lemma LoadedInv(own: Token -> AccountId, g: Graph, q: Queue, limit: nat, accounts: map<Token, AccountId>)
    requires QueueInv(own, g, q, limit) && GoodAccounts(own, accounts) && NoRevival(own, g, accounts)
    ensures QueueInv(own, Replaced(g, accounts), q, limit)
  {
    hide NoDuplicates, Elements;
    forall p, r, t | p in Referenced(q) && r in Referenced(q) && t in accounts && own(p) == own(r) == own(t) ensures p == r {
      var u :| u in g.accounts && own(u) == own(t);
    }
  }

  lemma CompactedInv(own: Token -> AccountId, g: Graph, transit: set<Token>, q: Queue, limit: nat)
    requires GraphInv(own, g, transit) && QueueInv(own, g, q, limit)
    ensures QueueInv(own, Compacted(g), q, limit)
  {
    hide NoDuplicates, Elements, ResolveIn;
    PrunedLeadsToLive(g);
  }

  lemma PrunedLeadsToLive(g: Graph)
    ensures Pruned(g.accounts.Keys, g.aliases).Values <= g.accounts.Keys
  {
  }

  lemma StepKeepsInv(own: Token -> AccountId, limit: nat, w: World, step: Step, w': World)
    requires Inv(own, limit, w) && Next(own, limit, w, step, w')
    ensures Inv(own, limit, w')
  {
    hide GraphInv, QueueInv, NoRevival, Displaced, ResolveIn, RenamedStarts, Requested, GoodAccounts;
    match step
    case Request(x, force, requested) =>
      RequestedInv(own, w.graph, w.queue, limit, x, force, requested, w'.queue);
    case Start(now) =>
      StartedInv(own, w.graph, w.queue, limit, now);
    case Finish(token, marked, scope) =>
      FinishedInv(own, w.graph, w.queue, limit, token, marked, scope);
    case Rotate(target, sources) =>
      RedirectInv(own, w.graph, w.transit, target, sources);
      InLineage(own, w.graph, w.transit, target);
      RenamedInv(own, w.graph, w.queue, limit, target, sources, w'.queue.startedAt);
    case Load(accounts) =>
      ReplaceInv(own, w.graph, w.transit, accounts);
      LoadedInv(own, w.graph, w.queue, limit, accounts);
    case Compact =>
      CompactInv(own, w.graph, w.transit);
      CompactedInv(own, w.graph, w.transit, w.queue, limit);
  }

  lemma InLineage(own: Token -> AccountId, g: Graph, transit: set<Token>, t: Token)
    requires GraphInv(own, g, transit) && t in g.accounts
    ensures t in g.lineage
  {
  }

  ghost predicate Run(own: Token -> AccountId, limit: nat, worlds: seq<World>, steps: seq<Step>) {
    |worlds| == |steps| + 1 && forall i | 0 <= i < |steps| :: Next(own, limit, worlds[i], steps[i], worlds[i + 1])
  }

  /** The queue invariant holds in every state of every run. */
  lemma {:induction false} EveryStateIsGood(own: Token -> AccountId, limit: nat, worlds: seq<World>, steps: seq<Step>, k: nat)
    requires Run(own, limit, worlds, steps) && Inv(own, limit, worlds[0]) && k < |worlds|
    ensures Inv(own, limit, worlds[k])
  {
    hide Inv, Next;
    if k > 0 {
      EveryStateIsGood(own, limit, worlds, steps, k - 1);
      StepKeepsInv(own, limit, worlds[k - 1], steps[k - 1], worlds[k]);
    }
  }

  // A rerun mark stays with its worker until that worker ends, under whatever name the account has by then.
  lemma StepKeepsMark(own: Token -> AccountId, limit: nat, w: World, step: Step, w': World, worker: Token)
    requires Next(own, limit, w, step, w') && worker in w.queue.rerun && worker in w.queue.active
    requires step.Finish? ==> step.token != worker
    ensures worker in w'.queue.rerun && worker in w'.queue.active
  {
    hide ResolveIn, RenamedStarts, NoRevival, Displaced, Refers, Compacted, Redirected;
    if step.Request? {
      RequestKeepsMarks(w.queue, w.graph, step.x, step.force, step.requested, w'.queue);
    }
  }

  lemma RequestKeepsMarks(q: Queue, g: Graph, x: Token, force: bool, requested: Scope, q': Queue)
    requires Requested(q, g, x, force, requested, q')
    ensures q.rerun <= q'.rerun && q.active == q'.active
  {
    hide ResolveIn, Refers;
  }

  /** A request forced while its account's refresh was running is not lost: whatever happens until that worker ends,
      rotations and reloads included, the account is pending again afterwards if it is live and still marked. */
  lemma {:induction false} ForcedRequestIsRequeued(own: Token -> AccountId, limit: nat, worlds: seq<World>, steps: seq<Step>, worker: Token)
    requires Run(own, limit, worlds, steps) && |steps| >= 2 && Inv(own, limit, worlds[0])
    requires steps[0].Request? && steps[0].force && worker in worlds[0].queue.active
    requires ResolveIn(worlds[0].graph, worker) == ResolveIn(worlds[0].graph, steps[0].x)
    requires ResolveIn(worlds[0].graph, worker) in worlds[0].graph.accounts
    requires forall i | 1 <= i < |steps| - 1 :: steps[i].Finish? ==> steps[i].token != worker
    requires var last := steps[|steps| - 1]; last.Finish? && last.token == worker && last.marked
    ensures var w := worlds[|steps|];
      var resolved := ResolveIn(w.graph, worker);
      && worker !in w.queue.active
      && (resolved in w.graph.accounts ==> resolved in w.queue.pendingSet && resolved in w.queue.pending)
  {
    hide Inv, Requested, ResolveIn;
    var n := |steps| - 1;
    assert Next(own, limit, worlds[0], steps[0], worlds[1]) && Next(own, limit, worlds[n], steps[n], worlds[n + 1]);
    MarkedAfterRequest(own, limit, worlds[0], steps[0], worlds[1], worker);
    MarkPersists(own, limit, worlds, steps, worker, n);
    EveryStateIsGood(own, limit, worlds, steps, n + 1);
    PendingMirrors(own, limit, worlds[n + 1]);
    hide Run;
  }

  lemma MarkedAfterRequest(own: Token -> AccountId, limit: nat, w: World, step: Step, w': World, worker: Token)
    requires Inv(own, limit, w) && Next(own, limit, w, step, w') && step.Request? && step.force && worker in w.queue.active
    requires ResolveIn(w.graph, worker) == ResolveIn(w.graph, step.x) && ResolveIn(w.graph, worker) in w.graph.accounts
    ensures worker in w'.queue.rerun && worker in w'.queue.active
  {
    hide GraphInv, QueueInv, ResolveIn;
    assert Refers(w.graph, w.queue.active, ResolveIn(w.graph, worker));
    var a :| a in w.queue.active && ResolveIn(w.graph, a) == ResolveIn(w.graph, step.x) && a in w'.queue.rerun;
    InReferenced(w.queue, a);
    InReferenced(w.queue, worker);
    NoAccountTwice(own, w.graph, w.queue, limit, a, worker);
  }

  lemma InReferenced(q: Queue, t: Token)
    requires t in q.active
    ensures t in Referenced(q)
  {
  }

  lemma {:induction false} MarkPersists(own: Token -> AccountId, limit: nat, worlds: seq<World>, steps: seq<Step>, worker: Token, k: nat)
    requires Run(own, limit, worlds, steps) && 1 <= k < |worlds|
    requires worker in worlds[1].queue.rerun && worker in worlds[1].queue.active
    requires forall i | 1 <= i < k :: steps[i].Finish? ==> steps[i].token != worker
    ensures worker in worlds[k].queue.rerun && worker in worlds[k].queue.active
  {
    hide Next;
    if k > 1 {
      MarkPersists(own, limit, worlds, steps, worker, k - 1);
      StepKeepsMark(own, limit, worlds[k - 1], steps[k - 1], worlds[k], worker);
    }
  }

  lemma PendingMirrors(own: Token -> AccountId, limit: nat, w: World)
    requires Inv(own, limit, w)
    ensures forall t :: t in w.queue.pendingSet <==> t in w.queue.pending
  {
  }
}
