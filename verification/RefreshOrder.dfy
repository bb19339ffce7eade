/** In which order accounts are refreshed (services/account_service.py:1472-1506, 4115-4230). */
module RefreshOrder {
  import opened Accounts
  import opened TokenAliases
  import opened FailureRefresh
  import opened RefreshRuns
  import opened RefreshScopes

  /** The accounts whose refreshes are pending, in the order of the queue. */
  function Owners(own: Token -> AccountId, pending: seq<Token>): seq<AccountId> {
    seq(|pending|, i requires 0 <= i < |pending| => own(pending[i]))
  }

  /** The account for which the step queues a refresh: the one requested, or the one whose refresh ended and is asked for again. */
  function QueuedBy(own: Token -> AccountId, q: Queue, step: Step, q': Queue): seq<AccountId> {
    if |q'.pending| <= |q.pending| then []
    else
      match step
      case Request(x, _, _) => [own(x)]
      case Finish(token, _, _) => [own(token)]
      case _ => []
  }

  /** The account whose refresh the step starts. */
  ghost function StartedBy(own: Token -> AccountId, q: Queue, step: Step, q': Queue): seq<AccountId> {
    if step.Start? && q'.active - q.active != {} then
      var t :| t in q'.active - q.active;
      [own(t)]
    else []
  }

  ghost predicate InOrder(own: Token -> AccountId, q: Queue, step: Step, q': Queue) {
    Owners(own, q.pending) + QueuedBy(own, q, step, q') == StartedBy(own, q, step, q') + Owners(own, q'.pending)
  }

  lemma SameOrder(own: Token -> AccountId, q: Queue, step: Step, q': Queue)
    requires !step.Start? && Owners(own, q'.pending) == Owners(own, q.pending)
    ensures InOrder(own, q, step, q')
  {
    assert |Owners(own, q'.pending)| == |q'.pending| && |Owners(own, q.pending)| == |q.pending|;
    assert Owners(own, q.pending) + [] == Owners(own, q.pending);
    assert [] + Owners(own, q'.pending) == Owners(own, q'.pending);
  }

  lemma OneMoreQueued(own: Token -> AccountId, q: Queue, step: Step, q': Queue, t: Token)
    requires step.Request? || step.Finish?
    requires q'.pending == q.pending + [t] && own(t) == own(if step.Request? then step.x else step.token)
    ensures InOrder(own, q, step, q')
  {
    assert Owners(own, q'.pending) == Owners(own, q.pending) + [own(t)];
    assert [] + Owners(own, q'.pending) == Owners(own, q'.pending);
  }

  lemma StartOrder(own: Token -> AccountId, g: Graph, q: Queue, limit: nat, now: real)
    requires QueueInv(own, g, q, limit) && q.pending != []
    ensures InOrder(own, q, Start(now), Started(q, now))
  {
    hide NamedOnce, NoDuplicates;
    var q', t := Started(q, now), q.pending[0];
    assert t in Elements(q.pending);
    assert q'.active - q.active == {t};
    assert Owners(own, q.pending) == [own(t)] + Owners(own, q'.pending);
    assert Owners(own, q.pending) + [] == Owners(own, q.pending);
  }

  lemma RequestOrder(own: Token -> AccountId, g: Graph, q: Queue, x: Token, force: bool, requested: Scope, q': Queue)
    requires GraphInv(own, g, {}) && Requested(q, g, x, force, requested, q')
    ensures InOrder(own, q, Request(x, force, requested), q')
  {
    RequestedOwner(own, g, x, x);
    RequestAppends(g, q, x, force, requested, q');
    hide Requested, GraphInv, ResolveIn;
    if q'.pending == q.pending {
      SameOrder(own, q, Request(x, force, requested), q');
    } else {
      OneMoreQueued(own, q, Request(x, force, requested), q', ResolveIn(g, x));
    }
  }

  lemma RequestAppends(g: Graph, q: Queue, x: Token, force: bool, requested: Scope, q': Queue)
    requires Requested(q, g, x, force, requested, q')
    ensures q'.pending == q.pending || q'.pending == q.pending + [ResolveIn(g, x)]
  {
    hide ResolveIn, Refers;
  }

  lemma FinishOrder(own: Token -> AccountId, g: Graph, q: Queue, token: Token, marked: bool, scope: Scope)
    requires GraphInv(own, g, {})
    ensures InOrder(own, q, RefreshRuns.Finish(token, marked, scope), Finished(q, g, token, marked, scope))
  {
    ResolvesToOwner(own, g, token);
    var q' := Finished(q, g, token, marked, scope);
    hide GraphInv, ResolveIn;
    if q'.pending == q.pending {
      SameOrder(own, q, RefreshRuns.Finish(token, marked, scope), q');
    } else {
      OneMoreQueued(own, q, RefreshRuns.Finish(token, marked, scope), q', ResolveIn(g, token));
    }
  }

  lemma StepOrder(own: Token -> AccountId, limit: nat, w: World, step: Step, w': World)
    requires Inv(own, limit, w) && Next(own, limit, w, step, w')
    ensures InOrder(own, w.queue, step, w'.queue)
  {
    hide GraphInv, QueueInv, Requested, ResolveIn, RenamedStarts, RenamedScopes, Started, Finished, NoRevival, Displaced, InOrder;
    match step
    case Request(x, force, requested) => RequestOrder(own, w.graph, w.queue, x, force, requested, w'.queue);
    case Start(now) => StartOrder(own, w.graph, w.queue, limit, now);
    case Finish(token, marked, scope) => FinishOrder(own, w.graph, w.queue, token, marked, scope);
    case Rotate(target, sources) =>
      assert Owners(own, RenamedAll(w.queue.pending, target, sources)) == Owners(own, w.queue.pending);
      SameOrder(own, w.queue, step, w'.queue);
    case _ => SameOrder(own, w.queue, step, w'.queue);
  }

  // ---------------------------------------------------------------- runs

  /** The accounts queued in the first k steps, after those that were queued at the start, in this order. */
  ghost function QueuedIn(own: Token -> AccountId, worlds: seq<World>, steps: seq<Step>, k: nat): seq<AccountId>
    requires k < |worlds| == |steps| + 1
  {
    if k == 0 then Owners(own, worlds[0].queue.pending)
    else QueuedIn(own, worlds, steps, k - 1) + QueuedBy(own, worlds[k - 1].queue, steps[k - 1], worlds[k].queue)
  }

  /** The accounts whose refreshes were started in the first k steps, in this order. */
  ghost function StartedIn(own: Token -> AccountId, worlds: seq<World>, steps: seq<Step>, k: nat): seq<AccountId>
    requires k < |worlds| == |steps| + 1
  {
    if k == 0 then []
    else StartedIn(own, worlds, steps, k - 1) + StartedBy(own, worlds[k - 1].queue, steps[k - 1], worlds[k].queue)
  }

  /** First in, first out, over any run: the refreshes started so far are those of the accounts queued first, in this order, and
      the rest is pending in that order, whatever tokens the accounts rotated to meanwhile. */
  lemma {:induction false} FirstInFirstOut(own: Token -> AccountId, limit: nat, worlds: seq<World>, steps: seq<Step>, k: nat)
    requires Run(own, limit, worlds, steps) && Inv(own, limit, worlds[0]) && k < |worlds|
    ensures QueuedIn(own, worlds, steps, k) == StartedIn(own, worlds, steps, k) + Owners(own, worlds[k].queue.pending)
  {
    hide RefreshRuns.Inv, Owners, QueuedBy, StartedBy, Next;
    if k == 0 {
      assert [] + Owners(own, worlds[0].queue.pending) == Owners(own, worlds[0].queue.pending);
    } else {
      assert Next(own, limit, worlds[k - 1], steps[k - 1], worlds[k]);
      EveryStateIsGood(own, limit, worlds, steps, k - 1);
      FirstInFirstOut(own, limit, worlds, steps, k - 1);
      StepOrder(own, limit, worlds[k - 1], steps[k - 1], worlds[k]);
      var q, q' := worlds[k - 1].queue, worlds[k].queue;
      Regrouped(StartedIn(own, worlds, steps, k - 1), Owners(own, q.pending), QueuedBy(own, q, steps[k - 1], q'),
                StartedBy(own, q, steps[k - 1], q'), Owners(own, q'.pending));
    }
  }

  lemma Regrouped<T>(started: seq<T>, before: seq<T>, queued: seq<T>, next: seq<T>, after: seq<T>)
    requires before + queued == next + after
    ensures (started + before) + queued == (started + next) + after
  {
    assert (started + before) + queued == started + (before + queued);
    assert (started + next) + after == started + (next + after);
  }

  /** So the i-th refresh that is started is that of the i-th account queued: no account overtakes another. */
  lemma StartedInTurn(own: Token -> AccountId, limit: nat, worlds: seq<World>, steps: seq<Step>, k: nat, i: nat)
    requires Run(own, limit, worlds, steps) && Inv(own, limit, worlds[0]) && k < |worlds| && i < |StartedIn(own, worlds, steps, k)|
    ensures i < |QueuedIn(own, worlds, steps, k)| && StartedIn(own, worlds, steps, k)[i] == QueuedIn(own, worlds, steps, k)[i]
  {
    hide RefreshRuns.Inv, Run, QueuedIn, StartedIn;
    FirstInFirstOut(own, limit, worlds, steps, k);
  }
}
