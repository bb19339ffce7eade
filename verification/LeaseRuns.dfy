/** Lease accounting over whole runs (services/account_service.py:751-762, 1443-1531, 2049-2166). */
module LeaseRuns {
  import opened Accounts
  import opened TokenAliases
  import opened ImageLeases

  /** transit holds the tokens that a new view displaced and no move has redirected yet; taken and given count the
      leases of one account that were handed out and given back. */
  datatype World = World(state: Runtime, transit: set<Token>, taken: map<AccountId, nat>, given: map<AccountId, nat>)

  datatype Step =
    | Acquire(t: Token, now: real)
    | Release(x: Token, lease: nat)
    | Move(target: Token, sources: set<Token>)
    | View(loaded: map<Token, AccountId>)
    | Prune
    | Forget(tokens: set<Token>)

  function CountAt(m: map<AccountId, nat>, id: AccountId): nat {
    if id in m then m[id] else 0
  }

  ghost predicate Next(own: Token -> AccountId, limit: nat, w: World, step: Step, w': World) {
    var s, g := w.state, w.state.graph;
    match step
    case Acquire(t, now) =>
      && w.transit == {} && t in g.accounts && InflightOf(s, t) < limit && s.clock <= now
      && w' == w.(state := Acquired(s, t, now), taken := w.taken[own(t) := CountAt(w.taken, own(t)) + 1])
    case Release(x, lease) =>
      && w.transit == {} && lease < |s.leases| && x in g.lineage && own(x) == own(s.leases[lease])
      && w' == w.(state := Released(s, x, lease), given := w.given[own(x) := CountAt(w.given, own(x)) + 1])
    case Move(target, sources) =>
      && target in g.accounts && (forall x | x in sources :: own(x) == own(target))
      && Moved(s, w'.state, target, sources) && w' == w.(state := w'.state, transit := w.transit - sources)
    case View(loaded) =>
      && GoodAccounts(own, loaded) && NoRevival(own, g, loaded)
      && w' == w.(state := Viewed(s, loaded), transit := w.transit + Displaced(own, g, loaded))
    case Prune => w' == w.(state := CompactedState(s))
    case Forget(tokens) => OwnersGone(own, g, tokens) && w' == w.(state := Removed(s, tokens))
  }

  ghost predicate Good(own: Token -> AccountId, limit: nat, w: World) {
    Inv(own, w.state, w.transit, limit)
  }

  lemma StepKeepsGood(own: Token -> AccountId, limit: nat, w: World, step: Step, w': World)
    requires Good(own, limit, w) && Next(own, limit, w, step, w')
    ensures Good(own, limit, w')
  {
    hide Inv, Moved, NoRevival, Displaced, GoodAccounts, OwnersGone;
    match step
    case Acquire(t, now) => AcquireInv(own, w.state, limit, t, now);
    case Release(x, lease) => ReleaseInv(own, w.state, limit, x, lease);
    case Move(target, sources) => MoveInv(own, w.state, w'.state, w.transit, limit, target, sources);
    case View(loaded) => ViewInv(own, w.state, w.transit, limit, loaded);
    case Prune => CompactStateInv(own, w.state, w.transit, limit);
    case Forget(tokens) => RemoveInv(own, w.state, w.transit, limit, tokens);
  }

  /** The account's outstanding leases are the ones handed out and not given back. */
  ghost predicate Balanced(own: Token -> AccountId, w: World, id: AccountId) {
    OwnedLeases(own, w.state.leases, id) + CountAt(w.given, id) == CountAt(w.taken, id)
  }

  lemma StepBalances(own: Token -> AccountId, limit: nat, w: World, step: Step, w': World, id: AccountId)
    requires Balanced(own, w, id) && Next(own, limit, w, step, w')
    ensures Balanced(own, w', id)
  {
    hide NoRevival, Displaced, GoodAccounts, OwnersGone, ResolveIn, OwnedLeases, Moved;
    match step
    case Acquire(t, now) =>
      LeasesConcat(own, w.state.leases, [t], id);
      OneLease(own, t, id);
    case Release(x, lease) => LeaseRemoved(own, w.state.leases, lease, id);
    case Move(target, sources) => MovedFrame(w.state, w'.state, target, sources);
    case _ =>
  }

  ghost predicate Run(own: Token -> AccountId, limit: nat, worlds: seq<World>, steps: seq<Step>) {
    |worlds| == |steps| + 1 && forall i | 0 <= i < |steps| :: Next(own, limit, worlds[i], steps[i], worlds[i + 1])
  }

  /** After any run of acquires, releases, rotations, view changes, pruning and deletions, whenever no move is
      outstanding: a live account's slot count is the number of its leases handed out and not yet given back, it is the
      number of outstanding leases that resolve to the account, with as many start times in order, within the limit. */
  lemma SlotsMatchLeases(own: Token -> AccountId, limit: nat, worlds: seq<World>, steps: seq<Step>, k: nat, t: Token)
    requires Run(own, limit, worlds, steps) && Good(own, limit, worlds[0]) && k < |worlds|
    requires Balanced(own, worlds[0], own(t)) && worlds[k].transit == {} && t in worlds[k].state.graph.accounts
    ensures var s := worlds[k].state;
      && InflightOf(s, t) == CountAt(worlds[k].taken, own(t)) - CountAt(worlds[k].given, own(t))
      && InflightOf(s, t) == ResolvingLeases(s.graph, s.leases, t) <= limit
      && |StartsOf(s, t)| == InflightOf(s, t) && Ordered(StartsOf(s, t))
  {
    hide Run, Next, Inv, ResolveIn, OwnedLeases, ResolvingLeases;
    Reachable(own, limit, worlds, steps, k, own(t));
    LeaseAccounting(own, worlds[k].state, limit, t);
    LeasesAreOwned(own, worlds[k].state, limit, t);
  }

  lemma {:induction false} Reachable(own: Token -> AccountId, limit: nat, worlds: seq<World>, steps: seq<Step>, k: nat, id: AccountId)
    requires Run(own, limit, worlds, steps) && Good(own, limit, worlds[0]) && k < |worlds| && Balanced(own, worlds[0], id)
    ensures Good(own, limit, worlds[k]) && Balanced(own, worlds[k], id)
  {
    hide Next, Good, Balanced;
    if k > 0 {
      Reachable(own, limit, worlds, steps, k - 1, id);
      StepKeepsGood(own, limit, worlds[k - 1], steps[k - 1], worlds[k]);
      StepBalances(own, limit, worlds[k - 1], steps[k - 1], worlds[k], id);
    }
  }

  lemma LeasesAreOwned(own: Token -> AccountId, s: Runtime, limit: nat, t: Token)
    requires Inv(own, s, {}, limit) && t in s.graph.accounts
    ensures ResolvingLeases(s.graph, s.leases, t) == OwnedLeases(own, s.leases, own(t))
  {
    ResolvingIsOwning(own, s.graph, s.leases, t);
  }
}
