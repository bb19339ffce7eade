/** Single-flight OAuth exchanges inside one process (services/account_service.py:1700-1862). */
module OAuthFlights {
  import opened Accounts
  import PoolProtocol

  type Generation = PoolProtocol.Generation
  type Tid = nat
  type Flight = nat

  datatype Outcome = Applied(next: Generation) | Discarded | Error

  /** Where a request stands: it has read its account's generation, exchanges it, has settled its flight, or waits for one. */
  datatype Phase =
    | Idle
    | Snapped(gen: Generation)
    | Owner(gen: Generation, flight: Flight)
    | Settled(gen: Generation, flight: Flight)
    | Waiter(gen: Generation, flight: Flight)

  /** current is each account's generation, seen every generation there ever was, used those an exchange replaced. */
  datatype World = World(current: map<AccountId, Generation>, seen: set<Generation>, used: set<Generation>,
                         flights: map<Generation, Flight>, results: map<Flight, Outcome>, issued: nat, threads: map<Tid, Phase>)

  datatype Step =
    | Snap(t: Tid, id: AccountId)
    | Join(t: Tid, guarded: bool, needed: bool)
    | Settle(t: Tid, id: AccountId, answer: Option<Generation>)
    | Leave(t: Tid)
    | Wake(t: Tid)
    | Replace(id: AccountId, next: Generation)

  predicate IsCurrent(w: World, gen: Generation) {
    exists id :: id in w.current && w.current[id] == gen
  }

  predicate Enabled(w: World, s: Step) {
    match s
    case Snap(t, id) => t in w.threads && w.threads[t].Idle? && id in w.current
    case Join(t, _, _) => t in w.threads && w.threads[t].Snapped?
    case Settle(t, id, answer) => t in w.threads && w.threads[t].Owner? && (answer.Some? ==> answer.value !in w.seen)
    case Leave(t) => t in w.threads && w.threads[t].Settled?
    case Wake(t) => t in w.threads && w.threads[t].Waiter? && w.threads[t].flight in w.results
    case Replace(id, next) => next !in w.seen
  }

  // Under the flight lock: wait for the flight of the generation, or start it if a refresh is needed.
  function Joined(w: World, t: Tid, guarded: bool, needed: bool): World
    requires t in w.threads && w.threads[t].Snapped?
  {
    var gen := w.threads[t].gen;
    if guarded && !IsCurrent(w, gen) then
      w.(threads := w.threads[t := Idle])
    else if gen in w.flights then
      w.(threads := w.threads[t := Waiter(gen, w.flights[gen])])
    else if !needed then
      w.(threads := w.threads[t := Idle])
    else
      w.(threads := w.threads[t := Owner(gen, w.issued)], flights := w.flights[gen := w.issued], issued := w.issued + 1)
  }

  // The exchange answered: new credentials are stored only while the account is still at the generation they come from.
  function Finished(w: World, t: Tid, id: AccountId, answer: Option<Generation>): World
    requires t in w.threads && w.threads[t].Owner?
  {
    var gen, flight := w.threads[t].gen, w.threads[t].flight;
    var settled := w.threads[t := Settled(gen, flight)];
    if answer.None? then
      w.(threads := settled, results := w.results[flight := Error])
    else if id !in w.current || w.current[id] != gen then
      w.(threads := settled, results := w.results[flight := Discarded])
    else
      w.(threads := settled, results := w.results[flight := Applied(answer.value)], current := w.current[id := answer.value],
         seen := w.seen + {answer.value}, used := w.used + {gen})
  }

  function Next(w: World, s: Step): World
    requires Enabled(w, s)
  {
    match s
    case Snap(t, id) => w.(threads := w.threads[t := Snapped(w.current[id])])
    case Join(t, guarded, needed) => Joined(w, t, guarded, needed)
    case Settle(t, id, answer) => Finished(w, t, id, answer)
    case Leave(t) =>
      var gen, flight := w.threads[t].gen, w.threads[t].flight;
      w.(threads := w.threads[t := Idle],
         flights := if gen in w.flights && w.flights[gen] == flight then w.flights - {gen} else w.flights)
    case Wake(t) => w.(threads := w.threads[t := Idle])
    case Replace(id, next) => w.(current := w.current[id := next], seen := w.seen + {next})
  }

  // ---------------------------------------------------------------- the invariant

  predicate Holds(p: Phase) {
    p.Owner? || p.Settled?
  }

  // The thread that holds a flight holds it alone, under its generation's key, unanswered until it settles.
  ghost predicate HolderOk(w: World, t: Tid)
    requires t in w.threads
  {
    var p := w.threads[t];
    Holds(p) ==>
      && Lookup(w.flights, p.gen) == Some(p.flight)
      && (p.Settled? <==> p.flight in w.results)
      && forall u | u in w.threads && Holds(w.threads[u]) && w.threads[u].flight == p.flight :: u == t
  }

  ghost predicate WaiterOk(w: World, t: Tid)
    requires t in w.threads
  {
    var p := w.threads[t];
    p.Waiter? ==> p.flight in w.results || exists u :: u in w.threads && w.threads[u] == Owner(p.gen, p.flight)
  }

  ghost predicate Held(w: World, gen: Generation) {
    exists t :: t in w.threads && Holds(w.threads[t]) && w.threads[t].gen == gen && Lookup(w.flights, gen) == Some(w.threads[t].flight)
  }

  ghost predicate FlightsOk(w: World) {
    && (forall t | t in w.threads :: HolderOk(w, t) && WaiterOk(w, t))
    && (forall gen | gen in w.flights :: Held(w, gen))
    && (forall t | t in w.threads && Holds(w.threads[t]) :: w.threads[t].flight < w.issued)
    && (forall f | f in w.results :: f < w.issued)
  }

  // Generations never come back: the current ones are unused and distinct.
  ghost predicate GenerationsOk(w: World) {
    && (forall t | t in w.threads && !w.threads[t].Idle? :: w.threads[t].gen in w.seen)
    && (forall id | id in w.current :: w.current[id] in w.seen && w.current[id] !in w.used)
    && (forall i, j | i in w.current && j in w.current && w.current[i] == w.current[j] :: i == j)
    && w.used <= w.seen
  }

  ghost predicate Inv(w: World) {
    FlightsOk(w) && GenerationsOk(w)
  }

  /** At any time at most one exchange per credential generation is in flight. */
  lemma OneExchangePerGeneration(w: World, t: Tid, u: Tid)
    requires Inv(w) && t in w.threads && u in w.threads
    requires w.threads[t].Owner? && w.threads[u].Owner? && w.threads[t].gen == w.threads[u].gen
    ensures t == u
  {
    assert HolderOk(w, t) && HolderOk(w, u);
  }

  /** Nobody waits for an answer that no one will give: a waiter's flight is answered, or its owner still exchanges. */
  lemma NoOrphanedWaiter(w: World, t: Tid)
    requires Inv(w) && t in w.threads && w.threads[t].Waiter? && w.threads[t].flight !in w.results
    ensures exists u :: u in w.threads && w.threads[u] == Owner(w.threads[t].gen, w.threads[t].flight)
  {
    assert WaiterOk(w, t);
  }

  /** A flight is answered once; an answer replaces the very generation it came from, which no later one replaces again. */
  lemma StepAnswersOnce(w: World, s: Step)
    requires Inv(w) && Enabled(w, s)
    ensures forall f | f in w.results :: f in Next(w, s).results && Next(w, s).results[f] == w.results[f]
    ensures var w' := Next(w, s);
      w'.used != w.used ==>
        && s.Settle? && s.id in w.current && w'.used == w.used + {w.current[s.id]} && w.current[s.id] !in w.used
        && w.threads[s.t].gen == w.current[s.id] && w'.current[s.id] !in w.seen
  {
    if s.Settle? {
      assert HolderOk(w, s.t);
    }
  }

  // ---------------------------------------------------------------- every step keeps it

  lemma StepKeepsGenerations(w: World, s: Step)
    requires GenerationsOk(w) && Enabled(w, s)
    ensures GenerationsOk(Next(w, s))
  {
    hide Next, Enabled, GenerationsOk;
    var w' := Next(w, s);
    SeenStays(w, s);
    CurrentStays(w, s);
    assert GenerationsOk(w') by { FromParts(w'); }
  }

  lemma FromParts(w: World)
    requires ThreadsSeen(w) && CurrentsOk(w)
    ensures GenerationsOk(w)
  {
  }

  ghost predicate ThreadsSeen(w: World) {
    forall t | t in w.threads && !w.threads[t].Idle? :: w.threads[t].gen in w.seen
  }

  ghost predicate CurrentsOk(w: World) {
    && (forall id | id in w.current :: w.current[id] in w.seen && w.current[id] !in w.used)
    && (forall i, j | i in w.current && j in w.current && w.current[i] == w.current[j] :: i == j)
    && w.used <= w.seen
  }

  lemma SeenStays(w: World, s: Step)
    requires GenerationsOk(w) && Enabled(w, s)
    ensures ThreadsSeen(Next(w, s))
  {
    hide IsCurrent;
  }

  lemma CurrentStays(w: World, s: Step)
    requires GenerationsOk(w) && Enabled(w, s)
    ensures CurrentsOk(Next(w, s))
  {
    hide IsCurrent, Joined;
    if s.Join? {
      JoinKeeps(w, s);
    }
  }

  lemma JoinKeeps(w: World, s: Step)
    requires Enabled(w, s) && s.Join?
    ensures var w' := Next(w, s); w'.current == w.current && w'.seen == w.seen && w'.used == w.used && w'.results == w.results
  {
  }

  /** The thread's phase changes, and neither before nor after does it hold a flight. */
  ghost predicate Bystander(w: World, w': World, u: Tid) {
    && u in w.threads && !Holds(w.threads[u]) && w'.threads.Keys == w.threads.Keys && !Holds(w'.threads[u])
    && (forall t | t in w.threads && t != u :: w'.threads[t] == w.threads[t])
    && w'.flights == w.flights && w'.results == w.results
  }

  // What a step does to flights: nothing, start one, answer one, or clear an answered one.
  lemma StepKinds(w: World, s: Step)
    requires FlightsOk(w) && Enabled(w, s)
    ensures var w' := Next(w, s);
      match s
      case Replace(_, _) => w'.threads == w.threads && w'.flights == w.flights && w'.results == w.results
      case Settle(u, _, _) =>
        && w.threads[u].Owner? && w'.flights == w.flights
        && w'.threads == w.threads[u := Settled(w.threads[u].gen, w.threads[u].flight)]
        && w'.results.Keys == w.results.Keys + {w.threads[u].flight}
      case Leave(u) =>
        && w.threads[u].Settled? && w'.threads == w.threads[u := Idle] && w'.results == w.results
        && w'.flights == w.flights - {w.threads[u].gen}
      case Join(u, _, _) =>
        || Bystander(w, w', u)
        || (w.threads[u].Snapped? && w.threads[u].gen !in w.flights && w'.results == w.results
            && w'.threads == w.threads[u := Owner(w.threads[u].gen, w.issued)] && w'.flights == w.flights[w.threads[u].gen := w.issued])
      case _ => Bystander(w, w', s.t)
  {
    hide WaiterOk, Held, IsCurrent;
    if s.Leave? {
      assert HolderOk(w, s.t);
    }
  }

  lemma StepKeepsHolder(w: World, s: Step, t: Tid)
    requires FlightsOk(w) && Enabled(w, s) && t in Next(w, s).threads
    ensures HolderOk(Next(w, s), t)
  {
    var w' := Next(w, s);
    StepKinds(w, s);
    hide Next, Enabled, WaiterOk, Held, HolderOk;
    assert t in w.threads && HolderOk(w, t);
    match s
    case Join(u, _, _) =>
      if Bystander(w, w', u) {
        BystanderHolders(w, w', u, t);
      } else {
        StartedHolders(w, w', u, t);
      }
    case Settle(u, _, _) => SettledHolders(w, w', u, t);
    case Leave(u) => LeftHolders(w, w', u, t);
    case Replace(_, _) => SameHolders(w, w', t);
    case _ => BystanderHolders(w, w', s.t, t);
  }

  lemma SameHolders(w: World, w': World, t: Tid)
    requires t in w.threads && HolderOk(w, t) && w'.threads == w.threads && w'.flights == w.flights && w'.results == w.results
    ensures HolderOk(w', t)
  {
  }

  lemma BystanderHolders(w: World, w': World, u: Tid, t: Tid)
    requires t in w.threads && HolderOk(w, t) && Bystander(w, w', u)
    ensures HolderOk(w', t)
  {
  }

  lemma StartedHolders(w: World, w': World, u: Tid, t: Tid)
    requires FlightsOk(w) && t in w.threads && u in w.threads && w.threads[u].Snapped? && w.threads[u].gen !in w.flights
    requires w'.threads == w.threads[u := Owner(w.threads[u].gen, w.issued)]
    requires w'.flights == w.flights[w.threads[u].gen := w.issued] && w'.results == w.results
    ensures HolderOk(w', t)
  {
    hide WaiterOk, Held;
    assert HolderOk(w, t);
  }

  lemma SettledHolders(w: World, w': World, u: Tid, t: Tid)
    requires FlightsOk(w) && t in w.threads && u in w.threads && w.threads[u].Owner? && w'.flights == w.flights
    requires w'.threads == w.threads[u := Settled(w.threads[u].gen, w.threads[u].flight)]
    requires w'.results.Keys == w.results.Keys + {w.threads[u].flight}
    ensures HolderOk(w', t)
  {
    hide WaiterOk, Held;
    assert HolderOk(w, t) && HolderOk(w, u);
  }

  lemma LeftHolders(w: World, w': World, u: Tid, t: Tid)
    requires FlightsOk(w) && t in w.threads && u in w.threads && w.threads[u].Settled?
    requires w'.threads == w.threads[u := Idle] && w'.results == w.results && w'.flights == w.flights - {w.threads[u].gen}
    ensures HolderOk(w', t)
  {
    hide WaiterOk, Held;
    assert HolderOk(w, t) && HolderOk(w, u);
  }

  lemma StepKeepsWaiter(w: World, s: Step, t: Tid)
    requires FlightsOk(w) && Enabled(w, s) && t in Next(w, s).threads
    ensures WaiterOk(Next(w, s), t)
  {
    var w' := Next(w, s);
    StepKinds(w, s);
    WaitsFor(w, s, t);
    hide Next, Enabled, WaiterOk, Held, HolderOk;
    var p := w'.threads[t];
    if p.Waiter? && p.flight !in w'.results {
      var u :| u in w.threads && w.threads[u] == Owner(p.gen, p.flight);
      assert w'.threads[u] == Owner(p.gen, p.flight);
      StillWaits(w', t, u);
    } else {
      NotWaiting(w', t);
    }
  }

  lemma StillWaits(w: World, t: Tid, u: Tid)
    requires t in w.threads && u in w.threads && w.threads[t].Waiter? && w.threads[u] == Owner(w.threads[t].gen, w.threads[t].flight)
    ensures WaiterOk(w, t)
  {
  }

  lemma NotWaiting(w: World, t: Tid)
    requires t in w.threads && (w.threads[t].Waiter? ==> w.threads[t].flight in w.results)
    ensures WaiterOk(w, t)
  {
  }

  // A thread that waits after the step waits for a flight that had an owner, or an answer, before it.
  lemma WaitsFor(w: World, s: Step, t: Tid)
    requires FlightsOk(w) && Enabled(w, s) && t in Next(w, s).threads
    ensures var p := Next(w, s).threads[t];
      p.Waiter? && p.flight !in w.results ==> exists u :: u in w.threads && w.threads[u] == Owner(p.gen, p.flight)
  {
    WaitStarts(w, s, t);
    hide HolderOk, Held, IsCurrent, Next, Enabled;
    var p := Next(w, s).threads[t];
    assert t in w.threads && WaiterOk(w, t);
    if p.Waiter? && p.flight !in w.results && w.threads[t] != p {
      JoinsAnOwner(w, p.gen);
    }
  }

  lemma WaitStarts(w: World, s: Step, t: Tid)
    requires Enabled(w, s) && t in Next(w, s).threads
    ensures t in w.threads
    ensures var p := Next(w, s).threads[t];
      p.Waiter? && w.threads[t] != p ==> Lookup(w.flights, p.gen) == Some(p.flight)
  {
    hide IsCurrent;
  }

  lemma JoinsAnOwner(w: World, gen: Generation)
    requires FlightsOk(w) && gen in w.flights && w.flights[gen] !in w.results
    ensures exists u :: u in w.threads && w.threads[u] == Owner(gen, w.flights[gen])
  {
    assert Held(w, gen);
    var u :| u in w.threads && Holds(w.threads[u]) && w.threads[u].gen == gen && Lookup(w.flights, gen) == Some(w.threads[u].flight);
    assert HolderOk(w, u);
  }

  lemma StepKeepsHeld(w: World, s: Step, gen: Generation)
    requires FlightsOk(w) && Enabled(w, s) && gen in Next(w, s).flights
    ensures Held(Next(w, s), gen)
  {
    var w' := Next(w, s);
    StepKinds(w, s);
    hide Next, Enabled, WaiterOk, HolderOk;
    if gen in w.flights && w'.flights[gen] == w.flights[gen] {
      assert Held(w, gen);
      var u :| u in w.threads && Holds(w.threads[u]) && w.threads[u].gen == gen && Lookup(w.flights, gen) == Some(w.threads[u].flight);
      assert w'.threads[u] == w.threads[u] || (s.Settle? && s.t == u);
      HeldBy(w', gen, u);
    } else {
      HeldBy(w', gen, s.t);
    }
  }

  lemma HeldBy(w: World, gen: Generation, u: Tid)
    requires u in w.threads && Holds(w.threads[u]) && w.threads[u].gen == gen && Lookup(w.flights, gen) == Some(w.threads[u].flight)
    ensures Held(w, gen)
  {
  }

  lemma StepKeepsInv(w: World, s: Step)
    requires Inv(w) && Enabled(w, s)
    ensures Inv(Next(w, s))
  {
    var w' := Next(w, s);
    StepKeepsGenerations(w, s);
    StepKeepsNumbers(w, s);
    hide HolderOk, WaiterOk, Held, GenerationsOk, Next, Enabled;
    forall t | t in w'.threads ensures HolderOk(w', t) && WaiterOk(w', t) {
      StepKeepsHolder(w, s, t);
      StepKeepsWaiter(w, s, t);
    }
    forall gen | gen in w'.flights ensures Held(w', gen) {
      StepKeepsHeld(w, s, gen);
    }
  }

  lemma StepKeepsNumbers(w: World, s: Step)
    requires FlightsOk(w) && Enabled(w, s)
    ensures var w' := Next(w, s);
      && (forall t | t in w'.threads && Holds(w'.threads[t]) :: w'.threads[t].flight < w'.issued)
      && (forall f | f in w'.results :: f < w'.issued)
  {
    hide HolderOk, WaiterOk, Held;
  }

  ghost predicate Run(worlds: seq<World>, steps: seq<Step>) {
    |worlds| == |steps| + 1 && forall i | 0 <= i < |steps| :: Enabled(worlds[i], steps[i]) && worlds[i + 1] == Next(worlds[i], steps[i])
  }

  lemma {:induction false} EveryStateIsGood(worlds: seq<World>, steps: seq<Step>, k: nat)
    requires Run(worlds, steps) && Inv(worlds[0]) && k < |worlds|
    ensures Inv(worlds[k])
  {
    hide Inv, Enabled, Next;
    if k > 0 {
      EveryStateIsGood(worlds, steps, k - 1);
      StepKeepsInv(worlds[k - 1], steps[k - 1]);
    }
  }

  /** The answer of an exchange whose generation was replaced meanwhile is never stored. */
  lemma StaleAnswerIsDiscarded(w: World, s: Step)
    requires Enabled(w, s) && s.Settle? && !IsCurrent(w, w.threads[s.t].gen)
    ensures Next(w, s).current == w.current && !Next(w, s).results[w.threads[s.t].flight].Applied?
  {
  }

  /** A request that needs its account's current generation refreshed never goes away without: it exchanges that generation
      itself, or waits for the one exchange of it that is under way or was just answered. */
  lemma NeededIsRefreshed(w: World, s: Step)
    requires Inv(w) && Enabled(w, s) && s.Join? && s.needed && IsCurrent(w, w.threads[s.t].gen)
    ensures var w', gen := Next(w, s), w.threads[s.t].gen;
      || (w'.threads[s.t].Owner? && w'.threads[s.t].gen == gen && gen !in w.flights)
      || (w'.threads[s.t].Waiter? && w'.threads[s.t].gen == gen && Held(w, gen)
          && Lookup(w.flights, gen) == Some(w'.threads[s.t].flight))
  {
    hide HolderOk, WaiterOk, GenerationsOk, Held;
  }

  lemma {:induction false} StaleStaysStale(worlds: seq<World>, steps: seq<Step>, i: nat, j: nat, gen: Generation)
    requires Run(worlds, steps) && Inv(worlds[0]) && i <= j <= |steps|
    requires gen in worlds[i].seen && !IsCurrent(worlds[i], gen)
    ensures gen in worlds[j].seen && !IsCurrent(worlds[j], gen)
    decreases j
  {
    hide Inv, Enabled, Next, IsCurrent;
    if i < j {
      StaleStaysStale(worlds, steps, i, j - 1, gen);
      StaleStep(worlds[j - 1], steps[j - 1], gen);
    }
  }

  // No step brings a generation back.
  lemma StaleStep(w: World, s: Step, gen: Generation)
    requires Enabled(w, s) && gen in w.seen && !IsCurrent(w, gen)
    ensures gen in Next(w, s).seen && !IsCurrent(Next(w, s), gen)
  {
    forall id | id in Next(w, s).current ensures Next(w, s).current[id] != gen {
      assert id in w.current ==> w.current[id] != gen;
    }
  }

  /** Whatever replaced a generation, another exchange or an outside change, an exchange that started from it is never
      stored, however much later it is answered. */
  lemma StaleStartIsNeverStored(worlds: seq<World>, steps: seq<Step>, i: nat, j: nat, t: Tid)
    requires Run(worlds, steps) && Inv(worlds[0]) && i <= j < |steps|
    requires t in worlds[i].threads && worlds[i].threads[t].Owner? && !IsCurrent(worlds[i], worlds[i].threads[t].gen)
    requires steps[j].Settle? && steps[j].t == t && t in worlds[j].threads && worlds[j].threads[t] == worlds[i].threads[t]
    ensures worlds[j + 1].current == worlds[j].current
    ensures Lookup(worlds[j + 1].results, worlds[i].threads[t].flight) in {Some(Discarded), Some(Error)}
  {
    EveryStateIsGood(worlds, steps, i);
    StaleStaysStale(worlds, steps, i, j, worlds[i].threads[t].gen);
    assert Enabled(worlds[j], steps[j]) && worlds[j + 1] == Next(worlds[j], steps[j]);
    StaleAnswerIsDiscarded(worlds[j], steps[j]);
  }

  /** The step stores an answer obtained for the generation. */
  ghost predicate StoresAnswer(w: World, s: Step, gen: Generation)
    requires Enabled(w, s)
  {
    s.Settle? && w.threads[s.t].gen == gen && Next(w, s).results[w.threads[s.t].flight].Applied?
  }

  ghost function StoredAnswers(worlds: seq<World>, steps: seq<Step>, gen: Generation): nat
    requires Run(worlds, steps)
    decreases |steps|
  {
    if steps == [] then 0
    else
      var n := |steps| - 1;
      StoredAnswers(worlds[..n + 1], steps[..n], gen) + if StoresAnswer(worlds[n], steps[n], gen) then 1 else 0
  }

  // A stored answer uses its generation up, and used generations stay used.
  lemma StoringUses(w: World, s: Step, gen: Generation)
    requires Inv(w) && Enabled(w, s)
    ensures w.used <= Next(w, s).used
    ensures StoresAnswer(w, s, gen) ==> gen in Next(w, s).used && gen !in w.used
  {
    if StoresAnswer(w, s, gen) && gen in w.used {
      StaleAnswerIsDiscarded(w, s);
    }
  }

  /** Over any run, at most one answer obtained for a generation is ever stored. */
  lemma {:induction false} StoredAtMostOnce(worlds: seq<World>, steps: seq<Step>, gen: Generation)
    requires Run(worlds, steps) && Inv(worlds[0])
    ensures StoredAnswers(worlds, steps, gen) <= if gen in worlds[|steps|].used && gen !in worlds[0].used then 1 else 0
    ensures worlds[0].used <= worlds[|steps|].used
    decreases |steps|
  {
    hide Inv, Enabled, Next, StoresAnswer;
    if steps != [] {
      var n := |steps| - 1;
      StoredAtMostOnce(worlds[..n + 1], steps[..n], gen);
      EveryStateIsGood(worlds, steps, n);
      StoringUses(worlds[n], steps[n], gen);
    }
  }

  // ---------------------------------------------------------------- when a start is stale

  predicate Acts(s: Step, t: Tid) {
    !s.Replace? && s.t == t
  }

  /** The step gives the account other credentials: an outside change, or an exchange's stored answer. */
  predicate Replaces(w: World, s: Step, id: AccountId)
    requires Enabled(w, s)
  {
    || (s.Replace? && s.id == id)
    || (s.Settle? && s.id == id && s.answer.Some? && id in w.current && w.current[id] == w.threads[s.t].gen)
  }

  lemma ReplacedIsStale(w: World, s: Step, id: AccountId, gen: Generation)
    requires Inv(w) && Enabled(w, s) && id in w.current && w.current[id] == gen
    ensures var w' := Next(w, s);
      if Replaces(w, s, id) then !IsCurrent(w', gen) else id in w'.current && w'.current[id] == gen
    ensures gen in w.seen
  {
    hide FlightsOk;
  }

  lemma SeenGrows(w: World, s: Step)
    requires Enabled(w, s)
    ensures w.seen <= Next(w, s).seen
  {
  }

  /** No step from i on, up to m, gives the account other credentials. */
  ghost predicate Undisturbed(worlds: seq<World>, steps: seq<Step>, i: nat, m: nat, id: AccountId)
    requires Run(worlds, steps) && m <= |steps|
  {
    forall k | i <= k < m :: !Replaces(worlds[k], steps[k], id)
  }

  // A generation is current as long as nothing replaces it, and never again afterwards.
  lemma {:induction false} GenerationAges(worlds: seq<World>, steps: seq<Step>, i: nat, m: nat, id: AccountId, gen: Generation)
    requires Run(worlds, steps) && Inv(worlds[0]) && i <= m <= |steps|
    requires Lookup(worlds[i].current, id) == Some(gen)
    ensures gen in worlds[m].seen
    ensures if Undisturbed(worlds, steps, i, m, id) then Lookup(worlds[m].current, id) == Some(gen) else !IsCurrent(worlds[m], gen)
    decreases m
  {
    hide Inv, IsCurrent, Next, Enabled, Replaces;
    EveryStateIsGood(worlds, steps, m);
    if m == i {
      CurrentIsSeen(worlds[i], id);
    } else {
      GenerationAges(worlds, steps, i, m - 1, id, gen);
      SeenGrows(worlds[m - 1], steps[m - 1]);
      EveryStateIsGood(worlds, steps, m - 1);
      if Undisturbed(worlds, steps, i, m - 1, id) {
        ReplacedIsStale(worlds[m - 1], steps[m - 1], id, gen);
      } else {
        StaleStep(worlds[m - 1], steps[m - 1], gen);
      }
    }
  }

  lemma CurrentIsSeen(w: World, id: AccountId)
    requires Inv(w) && id in w.current
    ensures w.current[id] in w.seen
  {
    hide FlightsOk;
  }

  /** From any moment on at which an exchange of an account's current generation is under way: its answer is stored iff the
      issuer gives new credentials and nothing gives the account others until then. Whoever waits learns the outcome, and an
      answer that is stored is exactly what the account then has. */
  lemma AnswerIsStoredIff(worlds: seq<World>, steps: seq<Step>, i: nat, j: nat, t: Tid, id: AccountId)
    requires Run(worlds, steps) && Inv(worlds[0]) && i <= j < |steps|
    requires t in worlds[i].threads && worlds[i].threads[t].Owner? && Lookup(worlds[i].current, id) == Some(worlds[i].threads[t].gen)
    requires steps[j].Settle? && steps[j].t == t && steps[j].id == id
    requires t in worlds[j].threads && worlds[j].threads[t] == worlds[i].threads[t]
    ensures var outcome := Lookup(worlds[j + 1].results, worlds[i].threads[t].flight);
      var stored := steps[j].answer.Some? && Undisturbed(worlds, steps, i, j, id);
      && outcome.Some? && (outcome.value.Applied? <==> stored)
      && (stored ==> outcome.value.next == steps[j].answer.value
                     && worlds[j + 1].current == worlds[j].current[id := steps[j].answer.value])
      && (!stored ==> worlds[j + 1].current == worlds[j].current)
  {
    hide Inv, IsCurrent, Undisturbed;
    GenerationAges(worlds, steps, i, j, id, worlds[i].threads[t].gen);
    NotCurrent(worlds[j], id, worlds[i].threads[t].gen);
    assert Enabled(worlds[j], steps[j]) && worlds[j + 1] == Next(worlds[j], steps[j]);
  }

  lemma NotCurrent(w: World, id: AccountId, gen: Generation)
    ensures !IsCurrent(w, gen) ==> Lookup(w.current, id) != Some(gen)
  {
  }

  lemma {:induction false} SnapshotIsKept(worlds: seq<World>, steps: seq<Step>, i: nat, m: nat)
    requires Run(worlds, steps) && i < m <= |steps| && steps[i].Snap?
    requires forall k | i < k < m :: !Acts(steps[k], steps[i].t)
    ensures var t, id := steps[i].t, steps[i].id;
      id in worlds[i].current && t in worlds[m].threads && worlds[m].threads[t] == Snapped(worlds[i].current[id])
    decreases m
  {
    if m > i + 1 {
      SnapshotIsKept(worlds, steps, i, m - 1);
      OthersLeaveThread(worlds[m - 1], steps[m - 1], steps[i].t);
      hide Next, Enabled;
    }
  }

  lemma OthersLeaveThread(w: World, s: Step, t: Tid)
    requires Enabled(w, s) && t in w.threads && !Acts(s, t)
    ensures t in Next(w, s).threads && Next(w, s).threads[t] == w.threads[t]
  {
    hide IsCurrent;
  }

  /** An exchange that a request starts after reading its account's generation starts from the current generation exactly if
      it started under the account lock, or nothing gave the account other credentials since the request read them. */
  lemma StartIsCurrentIff(worlds: seq<World>, steps: seq<Step>, i: nat, j: nat)
    requires Run(worlds, steps) && Inv(worlds[0]) && i < j < |steps|
    requires steps[i].Snap? && steps[j].Join? && steps[j].t == steps[i].t
    requires forall k | i < k < j :: !Acts(steps[k], steps[i].t)
    requires steps[j].t in worlds[j + 1].threads && worlds[j + 1].threads[steps[j].t].Owner?
    ensures IsCurrent(worlds[j], worlds[j + 1].threads[steps[j].t].gen) <==>
            steps[j].guarded || Undisturbed(worlds, steps, i, j, steps[i].id)
  {
    SnapshotIsKept(worlds, steps, i, j);
    var id := steps[i].id;
    GenerationAges(worlds, steps, i, j, id, worlds[i].current[id]);
    EveryStateIsGood(worlds, steps, j);
    GuardedJoin(worlds[j], steps[j]);
    hide Inv, Undisturbed, Next, Enabled;
  }

  lemma GuardedJoin(w: World, s: Step)
    requires Enabled(w, s) && s.Join? && Next(w, s).threads[s.t].Owner?
    ensures Next(w, s).threads[s.t].gen == w.threads[s.t].gen
    ensures s.guarded ==> IsCurrent(w, w.threads[s.t].gen)
  {
  }

  // Two requests read the same generation; the first one's exchange is stored before the second looks for a flight.
  function Stage(i: nat, id: AccountId, first: Generation, second: Generation): World {
    var flights: map<Generation, Flight> := map[first := 0];
    var applied := map[0 := Applied(second)];
    if i == 0 then World(map[id := first], {first}, {}, map[], map[], 0, map[1 := Idle, 2 := Idle])
    else if i == 1 then World(map[id := first], {first}, {}, map[], map[], 0, map[1 := Snapped(first), 2 := Idle])
    else if i == 2 then World(map[id := first], {first}, {}, map[], map[], 0, map[1 := Snapped(first), 2 := Snapped(first)])
    else if i == 3 then World(map[id := first], {first}, {}, flights, map[], 1, map[1 := Owner(first, 0), 2 := Snapped(first)])
    else if i == 4 then
      World(map[id := second], {first, second}, {first}, flights, applied, 1, map[1 := Settled(first, 0), 2 := Snapped(first)])
    else if i == 5 then World(map[id := second], {first, second}, {first}, map[], applied, 1, map[1 := Idle, 2 := Snapped(first)])
    else World(map[id := second], {first, second}, {first}, map[first := 1], applied, 2, map[1 := Idle, 2 := Owner(first, 1)])
  }

  function Script(i: nat, id: AccountId, second: Generation): Step {
    if i == 0 then Snap(1, id)
    else if i == 1 then Snap(2, id)
    else if i == 2 then Join(1, false, true)
    else if i == 3 then Settle(1, id, Some(second))
    else if i == 4 then Leave(1)
    else Join(2, false, true)
  }

  lemma ScriptRuns(i: nat, id: AccountId, first: Generation, second: Generation)
    requires i < 6 && first != second
    ensures var w, s := Stage(i, id, first, second), Script(i, id, second);
      Enabled(w, s) && Next(w, s) == Stage(i + 1, id, first, second)
  {
    if i < 3 {
      ScriptStarts(i, id, first, second);
    } else {
      ScriptEnds(i, id, first, second);
    }
    hide Next, Enabled, Stage, Script;
  }

  lemma ScriptStarts(i: nat, id: AccountId, first: Generation, second: Generation)
    requires i < 3
    ensures var w, s := Stage(i, id, first, second), Script(i, id, second);
      Enabled(w, s) && Next(w, s) == Stage(i + 1, id, first, second)
  {
    hide IsCurrent;
  }

  lemma ScriptEnds(i: nat, id: AccountId, first: Generation, second: Generation)
    requires 3 <= i < 6 && first != second
    ensures var w, s := Stage(i, id, first, second), Script(i, id, second);
      Enabled(w, s) && Next(w, s) == Stage(i + 1, id, first, second)
  {
    hide IsCurrent;
  }

  predicate ReusesGeneration(w: World, t: Tid, gen: Generation) {
    t in w.threads && w.threads[t].Owner? && w.threads[t].gen == gen && gen in w.used
  }

  /** Without the account lock the snapshot and the flight lookup are apart: a request that read a generation before
      another one's exchange replaced it starts a second exchange of the used generation. */
  lemma StaleExchangeCanStart(id: AccountId, first: Generation, second: Generation)
    requires first != second
    ensures Inv(Stage(0, id, first, second))
    ensures exists worlds: seq<World>, steps: seq<Step> ::
      Run(worlds, steps) && worlds[0] == Stage(0, id, first, second) && ReusesGeneration(worlds[|steps|], 2, first)
  {
    var worlds := seq(7, i requires 0 <= i < 7 => Stage(i, id, first, second));
    var steps := seq(6, i requires 0 <= i < 6 => Script(i, id, second));
    forall i | 0 <= i < 6 ensures Enabled(worlds[i], steps[i]) && worlds[i + 1] == Next(worlds[i], steps[i]) {
      ScriptRuns(i, id, first, second);
    }
    assert Run(worlds, steps);
  }
}
