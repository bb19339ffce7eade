/** What every reachable state of the task runner keeps (services/bounded_task_runner.py). */
module RunnerSafety {
  import opened TaskRunner

  // ---------------------------------------------------------------- the invariant

  /** Admission is closed exactly when the current run no longer runs; every pending reservation belongs to it. */
  ghost predicate Shape(s: Runner) {
    && Proper(s)
    && (s.closed <==> CurrentRun(s).mode != Running)
    && (s.closed ==> s.reservations == map[])
    && (forall id | id in s.reservations :: s.reservations[id] == Current(s))
    && (forall id | id in s.reservations :: id in s.states && s.states[id] == Reserved)
    && (forall id | id in s.states && s.states[id] == Reserved :: id in s.reservations)
  }

  /** The counters: accepted work over all generations, active callbacks, free worker slots. */
  ghost predicate Counts(s: Runner) {
    && s.accepted == |s.reservations| + |Queued(s)| + |Handed(s)| + |Acting(s)|
    && s.accepted <= s.capacity
    && s.active == |Acting(s)|
    && s.slots >= 0 && s.slots + SlotsHeld(s) == s.maxWorkers
  }

  function CommittedIds(s: Runner): set<Id> {
    set id | id in s.states && s.states[id] == Committed
  }

  /** Every slot ever given out is held in one place or was released once; every committed task is in one place. */
  ghost predicate Balanced(ids: set<Id>, pending: set<Id>, committed: set<Id>,
                           queued: multiset<Id>, handed: multiset<Id>, acting: multiset<Id>, log: Log)
  {
    && multiset(ids) == multiset(pending) + queued + handed + acting + log.released
    && multiset(committed) == queued + handed + log.started + log.owed + log.notified
    && log.started == acting + log.finished
  }

  ghost predicate Ledger(s: Runner) {
    Balanced(s.states.Keys, s.reservations.Keys, CommittedIds(s), Queued(s), Handed(s), Acting(s), s.log)
  }

  function Refusals(s: Runner, id: Id): nat {
    if id in s.observed && id !in s.submitting && id in s.states && s.states[id] != Committed then 1 else 0
  }

  /** A future is resolved by its callback's return, by its cancellation, or by a refused commit. */
  ghost predicate Futures(s: Runner) {
    && s.observed <= s.states.Keys && s.submitting <= s.observed
    && (forall id | id in s.log.returned :: id in s.states)
    && (forall id | id in s.submitting :: s.states[id] != Committed)
    && (forall id :: s.log.resolved[id] ==
          if id in s.observed then s.log.returned[id] + s.log.notified[id] + Refusals(s, id) else 0)
  }

  ghost predicate Inv(s: Runner) {
    Shape(s) && Counts(s) && Ledger(s) && Futures(s)
  }

  // ---------------------------------------------------------------- how steps move tasks between places

  lemma SetQueue(s: Runner, r: nat, run: RunState)
    requires r < |s.runs|
    ensures var s' := s.(runs := s.runs[r := run]);
      Queued(s') + multiset(s.runs[r].queue) == Queued(s) + multiset(run.queue)
  {
    GatherUpdate(s.runs, RunBag, r, run);
  }

  // before + b == after + a, read where one of the two differences is empty.
  ghost predicate Shifted(before: multiset<Id>, after: multiset<Id>, a: multiset<Id>, b: multiset<Id>) {
    && (a == multiset{} ==> after == before + b)
    && (b == multiset{} ==> after + a == before)
    && (a == b ==> after == before)
  }

  lemma Shift(before: multiset<Id>, after: multiset<Id>, a: multiset<Id>, b: multiset<Id>)
    requires after + a == before + b
    ensures Shifted(before, after, a, b)
  {
    forall x ensures after[x] + a[x] == before[x] + b[x] {
      assert (after + a)[x] == (before + b)[x];
    }
  }

  lemma SetWorker(s: Runner, w: nat, at: Place)
    requires w < |s.workers|
    ensures var s' := Moved(s, w, at);
      var x, y := s.workers[w], s'.workers[w];
      && Shifted(Handed(s), Handed(s'), HandBag(x), HandBag(y))
      && Shifted(Acting(s), Acting(s'), ActiveBag(x), ActiveBag(y))
      && SlotsHeld(s') + |SlotBag(x)| == SlotsHeld(s) + |SlotBag(y)|
      && Queued(s') == Queued(s)
  {
    var x, s' := s.workers[w].(at := at), Moved(s, w, at);
    GatherUpdate(s.workers, HandBag, w, x);
    GatherUpdate(s.workers, ActiveBag, w, x);
    GatherUpdate(s.workers, SlotBag, w, x);
    Shift(Handed(s), Handed(s'), HandBag(s.workers[w]), HandBag(x));
    Shift(Acting(s), Acting(s'), ActiveBag(s.workers[w]), ActiveBag(x));
    assert |Gather(s'.workers, SlotBag) + SlotBag(s.workers[w])| == |Gather(s.workers, SlotBag) + SlotBag(x)|;
  }

  lemma CrewBags(s: Runner)
    requires Proper(s)
    ensures var s' := WithCrew(s);
      Queued(s') == Queued(s) && Handed(s') == Handed(s) && Acting(s') == Acting(s) && SlotsHeld(s') == SlotsHeld(s)
  {
    if !CurrentRun(s).started {
      SetQueue(s, Current(s), CurrentRun(s).(started := true));
      GatherAppend(s.workers, HandBag, Crew(s));
      GatherAppend(s.workers, ActiveBag, Crew(s));
      GatherAppend(s.workers, SlotBag, Crew(s));
      hide Gather;
    }
  }

  lemma CrewShape(s: Runner)
    requires Proper(s)
    ensures var s' := WithCrew(s);
      && Proper(s') && |s'.runs| == |s.runs| && CurrentRun(s') == CurrentRun(s).(started := true)
      && s' == s.(runs := s'.runs, workers := s'.workers)
  {
  }

  lemma NextRunBags(s: Runner)
    requires Proper(s)
    ensures Queued(NextRun(s)) == Queued(s) && Proper(NextRun(s))
  {
    GatherAppend(s.runs, RunBag, [RunState([], Running, false)]);
  }

  // ---------------------------------------------------------------- single updates keep the invariant

  lemma CrewInv(s: Runner)
    requires Inv(s)
    ensures Inv(WithCrew(s))
  {
    hide Shape, Counts, Ledger, Futures, WithCrew;
    ShapeIsProper(s);
    CrewBags(s);
    CrewShape(s);
    CrewKeepsShape(s);
    assert Counts(WithCrew(s)) by { SameCounts(s, WithCrew(s)); }
    assert Ledger(WithCrew(s)) by { SameLedger(s, WithCrew(s)); }
    assert Futures(WithCrew(s)) by { SameFutures(s, WithCrew(s)); }
  }

  lemma CrewKeepsShape(s: Runner)
    requires Shape(s)
    ensures Shape(WithCrew(s))
  {
    CrewShape(s);
    OldRunsStay(s);
    hide WithCrew;
  }

  lemma OldRunsStay(s: Runner)
    requires Proper(s)
    ensures |WithCrew(s).runs| == |s.runs| && forall i | 0 <= i < |s.runs| - 1 :: WithCrew(s).runs[i] == s.runs[i]
  {
  }

  lemma SameCounts(s: Runner, s': Runner)
    requires Counts(s) && s' == s.(runs := s'.runs, workers := s'.workers)
    requires Queued(s') == Queued(s) && Handed(s') == Handed(s) && Acting(s') == Acting(s) && SlotsHeld(s') == SlotsHeld(s)
    ensures Counts(s')
  {
    hide Gather, Queued, Handed, Acting, SlotsHeld;
  }

  lemma SameLedger(s: Runner, s': Runner)
    requires Ledger(s) && s' == s.(runs := s'.runs, workers := s'.workers)
    requires Queued(s') == Queued(s) && Handed(s') == Handed(s) && Acting(s') == Acting(s)
    ensures Ledger(s')
  {
    hide Gather, Queued, Handed, Acting, Balanced, CommittedIds;
    SameIds(s, s');
  }

  lemma NextRunInv(s: Runner)
    requires Inv(s) && s.closed
    ensures Inv(NextRun(s))
  {
    hide Shape, Counts, Ledger, Futures, NextRun;
    NextRunShape(s);
    NextRunBalance(s);
    NextRunFutures(s);
  }

  lemma NextRunShape(s: Runner)
    requires Shape(s) && s.closed
    ensures Shape(NextRun(s))
  {
  }

  lemma NextRunBalance(s: Runner)
    requires Shape(s) && Counts(s) && Ledger(s)
    ensures Counts(NextRun(s)) && Ledger(NextRun(s))
  {
    NextRunBags(s);
    hide Gather, Queued, Balanced, Shape;
    assert CommittedIds(NextRun(s)) == CommittedIds(s);
  }

  lemma NextRunFutures(s: Runner)
    requires Futures(s)
    ensures Futures(NextRun(s))
  {
  }

  lemma AddedToSet(ids: set<Id>, id: Id)
    requires id !in ids
    ensures multiset(ids + {id}) == multiset(ids) + multiset{id} && |ids + {id}| == |ids| + 1
  {
  }

  lemma RemovedFromSet(ids: set<Id>, id: Id)
    requires id in ids
    ensures multiset(ids) == multiset(ids - {id}) + multiset{id} && |ids - {id}| == |ids| - 1
  {
    AddedToSet(ids - {id}, id);
    assert ids - {id} + {id} == ids;
  }

  // A committed task is in exactly one place; nothing else is ever run or cancelled.
  lemma OnlyCommitted(s: Runner, id: Id)
    requires Ledger(s)
    ensures Queued(s)[id] + Handed(s)[id] + s.log.started[id] + s.log.owed[id] + s.log.notified[id] ==
            if id in CommittedIds(s) then 1 else 0
    ensures s.log.started[id] == Acting(s)[id] + s.log.finished[id]
  {
    hide Queued, Handed, Acting, CommittedIds;
    assert multiset(CommittedIds(s))[id] == if id in CommittedIds(s) then 1 else 0;
  }

  lemma SameBags(s: Runner, s': Runner)
    requires s.runs == s'.runs && s.workers == s'.workers
    ensures Queued(s') == Queued(s) && Handed(s') == Handed(s) && Acting(s') == Acting(s) && SlotsHeld(s') == SlotsHeld(s)
  {
  }

  lemma IssuedBalance(ids: set<Id>, pending: set<Id>, committed: set<Id>,
                      queued: multiset<Id>, handed: multiset<Id>, acting: multiset<Id>, log: Log, id: Id)
    requires Balanced(ids, pending, committed, queued, handed, acting, log) && id !in ids && id !in pending
    ensures Balanced(ids + {id}, pending + {id}, committed, queued, handed, acting, log)
  {
    AddedToSet(ids, id);
    AddedToSet(pending, id);
  }

  lemma IssuedInv(s: Runner, id: Id, future: bool)
    requires Inv(s) && Admits(s) && id !in s.states
    ensures Inv(Issued(s, id, future))
  {
    hide Shape, Counts, Ledger, Futures, Issued;
    IssuedShape(s, id, future);
    IssuedCounts(s, id, future);
    IssuedLedger(s, id, future);
    OnlyCommitted(s, id);
    IssuedFutures(s, id, future);
  }

  lemma IssuedShape(s: Runner, id: Id, future: bool)
    requires Shape(s) && Admits(s) && id !in s.states
    ensures Shape(Issued(s, id, future))
  {
  }

  lemma IssuedCounts(s: Runner, id: Id, future: bool)
    requires Shape(s) && Counts(s) && Admits(s) && id !in s.states
    ensures Counts(Issued(s, id, future))
  {
    hide Gather, Queued, Handed, Acting, SlotsHeld;
    var s' := Issued(s, id, future);
    SameBags(s, s');
    assert s'.reservations.Keys == s.reservations.Keys + {id};
    AddedToSet(s.reservations.Keys, id);
  }

  lemma IssuedLedger(s: Runner, id: Id, future: bool)
    requires Shape(s) && Ledger(s) && id !in s.states
    ensures Ledger(Issued(s, id, future))
  {
    hide Gather, Queued, Handed, Acting, SlotsHeld, Balanced;
    var s' := Issued(s, id, future);
    SameBags(s, s');
    assert s'.states.Keys == s.states.Keys + {id} && s'.reservations.Keys == s.reservations.Keys + {id};
    assert CommittedIds(s') == CommittedIds(s);
    IssuedBalance(s.states.Keys, s.reservations.Keys, CommittedIds(s), Queued(s), Handed(s), Acting(s), s.log, id);
  }

  lemma IssuedFutures(s: Runner, id: Id, future: bool)
    requires Shape(s) && Futures(s) && id !in s.states && id !in s.log.notified
    ensures Futures(Issued(s, id, future))
  {
  }

  lemma GivenUpBalance(ids: set<Id>, pending: set<Id>, committed: set<Id>,
                       queued: multiset<Id>, handed: multiset<Id>, acting: multiset<Id>, log: Log, gone: set<Id>)
    requires Balanced(ids, pending, committed, queued, handed, acting, log) && gone <= pending
    ensures Balanced(ids, pending - gone, committed, queued, handed, acting, log.(released := log.released + multiset(gone)))
  {
    assert multiset(pending) == multiset(pending - gone) + multiset(gone);
  }

  lemma GivenUpInv(s: Runner, id: Id, outcome: Outcome)
    requires Inv(s) && Owned(s, id) && (outcome == Dropped || outcome == RolledBack) && (id in s.observed ==> id in s.submitting)
    ensures Inv(GivenUp(s, id, outcome))
  {
    hide Shape, Counts, Ledger, Futures, GivenUp;
    GivenUpShape(s, id, outcome);
    GivenUpCounts(s, id, outcome);
    GivenUpLedger(s, id, outcome);
    GivenUpFutures(s, id, outcome);
  }

  lemma GivenUpShape(s: Runner, id: Id, outcome: Outcome)
    requires Shape(s) && Owned(s, id) && outcome != Reserved
    ensures Shape(GivenUp(s, id, outcome))
  {
  }

  lemma GivenUpCounts(s: Runner, id: Id, outcome: Outcome)
    requires Counts(s) && Owned(s, id)
    ensures Counts(GivenUp(s, id, outcome))
  {
    hide Gather, Queued, Handed, Acting, SlotsHeld;
    var s' := GivenUp(s, id, outcome);
    SameBags(s, s');
    assert s'.reservations.Keys == s.reservations.Keys - {id};
    RemovedFromSet(s.reservations.Keys, id);
  }

  lemma GivenUpLedger(s: Runner, id: Id, outcome: Outcome)
    requires Ledger(s) && Owned(s, id) && (outcome == Dropped || outcome == RolledBack)
    ensures Ledger(GivenUp(s, id, outcome))
  {
    hide Gather, Queued, Handed, Acting, SlotsHeld, Balanced;
    var s' := GivenUp(s, id, outcome);
    SameBags(s, s');
    assert s'.states.Keys == s.states.Keys && s'.reservations.Keys == s.reservations.Keys - {id};
    assert CommittedIds(s') == CommittedIds(s);
    assert multiset({id}) == multiset{id};
    GivenUpBalance(s.states.Keys, s.reservations.Keys, CommittedIds(s), Queued(s), Handed(s), Acting(s), s.log, {id});
  }

  lemma GivenUpFutures(s: Runner, id: Id, outcome: Outcome)
    requires Futures(s) && Owned(s, id) && (outcome == Dropped || outcome == RolledBack) && (id in s.observed ==> id in s.submitting)
    ensures Futures(GivenUp(s, id, outcome))
  {
  }

  // The answer of a commit settles the future: not yet resolved if the task is queued, failed otherwise.
  lemma AnsweredInv(s: Runner, id: Id)
    requires Inv(s) && id in s.states && s.states[id] != Reserved && s.states[id] != Committed
    ensures Inv(Answered(s, id, false))
  {
    hide Gather, Queued, Handed, Acting, SlotsHeld, Balanced, Futures;
    var s' := Answered(s, id, false);
    SameBags(s, s');
    AnsweredFutures(s, id);
    AnsweredBalance(s, id);
  }

  lemma AnsweredBalance(s: Runner, id: Id)
    requires Ledger(s)
    ensures Ledger(Answered(s, id, false))
  {
    SameBags(s, Answered(s, id, false));
    hide Queued, Handed, Acting;
  }

  lemma AnsweredFutures(s: Runner, id: Id)
    requires Futures(s) && id in s.states && s.states[id] != Committed
    ensures Futures(Answered(s, id, false))
  {
  }

  lemma EnqueuedBalance(ids: set<Id>, pending: set<Id>, committed: set<Id>, queued: multiset<Id>, handed: multiset<Id>,
                        acting: multiset<Id>, log: Log, id: Id)
    requires Balanced(ids, pending, committed, queued, handed, acting, log) && id in pending && id !in committed
    ensures Balanced(ids, pending - {id}, committed + {id}, queued + multiset{id}, handed, acting, log)
  {
    RemovedFromSet(pending, id);
    AddedToSet(committed, id);
  }

  lemma EnqueuedBags(s: Runner, id: Id)
    requires Proper(s)
    ensures Queued(Enqueued(s, id)) == Queued(s) + multiset{id}
    ensures Handed(Enqueued(s, id)) == Handed(s) && Acting(Enqueued(s, id)) == Acting(s) && SlotsHeld(Enqueued(s, id)) == SlotsHeld(s)
  {
    SetQueue(s, Current(s), CurrentRun(s).(queue := CurrentRun(s).queue + [id]));
    hide Gather;
  }

  lemma CommittedInv(s: Runner, id: Id)
    requires Inv(s) && CommitSucceeds(s, id) && (id in s.observed ==> id in s.submitting)
    ensures Inv(Answered(Enqueued(s, id), id, true))
  {
    hide Shape, Counts, Ledger, Futures, Enqueued, Answered, CommitSucceeds;
    CommittedShape(s, id);
    CommittedLedger(s, id);
    CommittedFutures(s, id);
    CommittedCounts(s, id);
  }

  lemma CommittedShape(s: Runner, id: Id)
    requires Shape(s) && CommitSucceeds(s, id)
    ensures Shape(Answered(Enqueued(s, id), id, true))
  {
  }

  lemma CommittedCounts(s: Runner, id: Id)
    requires Shape(s) && Counts(s) && CommitSucceeds(s, id)
    ensures Counts(Answered(Enqueued(s, id), id, true))
  {
    hide Gather, Queued, Handed, Acting, SlotsHeld;
    EnqueuedBags(s, id);
    SameBags(Enqueued(s, id), Answered(Enqueued(s, id), id, true));
    assert Enqueued(s, id).reservations.Keys == s.reservations.Keys - {id};
    RemovedFromSet(s.reservations.Keys, id);
  }

  lemma CommittedLedger(s: Runner, id: Id)
    requires Shape(s) && Ledger(s) && CommitSucceeds(s, id)
    ensures Ledger(Answered(Enqueued(s, id), id, true))
  {
    hide Gather, Queued, Handed, Acting, SlotsHeld, Balanced;
    var s' := Enqueued(s, id);
    EnqueuedBags(s, id);
    SameBags(s', Answered(s', id, true));
    assert s'.reservations.Keys == s.reservations.Keys - {id} && s'.states.Keys == s.states.Keys;
    assert CommittedIds(s') == CommittedIds(s) + {id};
    EnqueuedBalance(s.states.Keys, s.reservations.Keys, CommittedIds(s), Queued(s), Handed(s), Acting(s), s.log, id);
  }

  lemma CommittedFutures(s: Runner, id: Id)
    requires Shape(s) && Futures(s) && CommitSucceeds(s, id) && (id in s.observed ==> id in s.submitting)
    ensures Futures(Answered(Enqueued(s, id), id, true))
  {
  }

  // ---------------------------------------------------------------- closing a run

  lemma OrphansInv(s: Runner, wait: bool)
    requires Inv(s)
    ensures Inv(WithoutOrphans(s, wait))
  {
    hide Shape, Counts, Ledger, Futures, WithoutOrphans;
    OrphansShape(s, wait);
    OrphansCounts(s, wait);
    OrphansLedger(s, wait);
    OrphansFutures(s, wait);
  }

  lemma AllOrphans(s: Runner)
    requires Shape(s)
    ensures Orphans(s) == s.reservations.Keys
  {
  }

  lemma OrphanStates(s: Runner, wait: bool)
    requires Shape(s)
    ensures var s' := WithoutOrphans(s, wait);
      && s'.reservations == map[] && s'.states.Keys == s.states.Keys
      && forall id | id in s.states :: s'.states[id] == if s.states[id] == Reserved then Dropped else s.states[id]
  {
    hide Orphans, WithoutOrphans, Shape;
    ShapeIsProper(s);
    AllOrphans(s);
    OrphanFields(s, wait);
    DroppedStates(s);
  }

  lemma OrphanFields(s: Runner, wait: bool)
    requires Proper(s)
    ensures WithoutOrphans(s, wait).reservations == s.reservations - Orphans(s)
    ensures WithoutOrphans(s, wait).states == s.states + map id | id in Orphans(s) :: Dropped
  {
    hide Orphans;
  }

  lemma DroppedStates(s: Runner)
    requires Shape(s)
    ensures s.reservations.Keys <= s.states.Keys
    ensures forall id | id in s.states :: (id in s.reservations <==> s.states[id] == Reserved)
  {
  }

  lemma OrphansShape(s: Runner, wait: bool)
    requires Shape(s)
    ensures Shape(WithoutOrphans(s, wait))
  {
    OrphanStates(s, wait);
    var s' := WithoutOrphans(s, wait);
    assert Proper(s') && s'.closed && CurrentRun(s').mode != Running && |s'.runs| == |s.runs|;
    assert forall i | 0 <= i < |s.runs| - 1 :: s'.runs[i] == s.runs[i];
    hide Orphans, WithoutOrphans;
  }

  lemma OrphansBags(s: Runner, wait: bool)
    requires Proper(s)
    ensures var s' := WithoutOrphans(s, wait);
      Queued(s') == Queued(s) && Handed(s') == Handed(s) && Acting(s') == Acting(s) && SlotsHeld(s') == SlotsHeld(s)
  {
    SetQueue(s, Current(s), CurrentRun(s).(mode := ClosedMode(CurrentRun(s).mode, wait)));
    hide Gather;
  }

  lemma OrphansCounts(s: Runner, wait: bool)
    requires Shape(s) && Counts(s)
    ensures Counts(WithoutOrphans(s, wait))
  {
    AllOrphans(s);
    OrphansBags(s, wait);
    hide Gather, Queued, Handed, Acting, SlotsHeld, Orphans;
    assert WithoutOrphans(s, wait).reservations == map[];
  }

  lemma OrphansCommitted(s: Runner, wait: bool)
    requires Shape(s)
    ensures CommittedIds(WithoutOrphans(s, wait)) == CommittedIds(s)
  {
    OrphanStates(s, wait);
    hide WithoutOrphans, Shape;
  }

  lemma OrphansLog(s: Runner, wait: bool)
    requires Shape(s)
    ensures WithoutOrphans(s, wait).log == s.log.(released := s.log.released + multiset(s.reservations.Keys))
  {
    AllOrphans(s);
  }

  lemma OrphansLedger(s: Runner, wait: bool)
    requires Shape(s) && Ledger(s)
    ensures Ledger(WithoutOrphans(s, wait))
  {
    hide Gather, Queued, Handed, Acting, SlotsHeld, Orphans, Balanced, WithoutOrphans, CommittedIds, Shape;
    OrphansLog(s, wait);
    OrphansCommitted(s, wait);
    OrphanStates(s, wait);
    ShapeIsProper(s);
    OrphansBags(s, wait);
    var pending := s.reservations.Keys;
    GivenUpBalance(s.states.Keys, pending, CommittedIds(s), Queued(s), Handed(s), Acting(s), s.log, pending);
    assert WithoutOrphans(s, wait).reservations.Keys == pending - pending;
  }

  lemma ShapeIsProper(s: Runner)
    requires Shape(s)
    ensures Proper(s)
  {
  }

  lemma OrphansFutures(s: Runner, wait: bool)
    requires Shape(s) && Futures(s)
    ensures Futures(WithoutOrphans(s, wait))
  {
    OrphanStates(s, wait);
    OrphansLogFutures(s, wait);
    hide Orphans, WithoutOrphans, Shape;
  }

  lemma OrphansLogFutures(s: Runner, wait: bool)
    requires Proper(s)
    ensures var s' := WithoutOrphans(s, wait);
      && s'.observed == s.observed && s'.submitting == s.submitting
      && s'.log.resolved == s.log.resolved && s'.log.returned == s.log.returned && s'.log.notified == s.log.notified
  {
  }

  lemma DrainedInv(s: Runner)
    requires Inv(s) && s.closed
    ensures Inv(Drained(s))
  {
    hide Shape, Counts, Ledger, Futures, Drained;
    DrainedShape(s);
    DrainedCounts(s);
    DrainedLedger(s);
    DrainedFutures(s);
  }

  lemma DrainedShape(s: Runner)
    requires Shape(s) && s.closed
    ensures Shape(Drained(s))
  {
  }

  lemma DrainedBags(s: Runner)
    requires Proper(s)
    ensures var s' := Drained(s);
      && Queued(s') + multiset(CurrentRun(s).queue) == Queued(s)
      && Handed(s') == Handed(s) && Acting(s') == Acting(s) && SlotsHeld(s') == SlotsHeld(s)
  {
    SetQueue(s, Current(s), CurrentRun(s).(queue := []));
    hide Gather;
  }

  lemma DrainedCounts(s: Runner)
    requires Shape(s) && Counts(s)
    ensures Counts(Drained(s))
  {
    DrainedBags(s);
    hide Gather, Queued, Handed, Acting, SlotsHeld;
    assert |Queued(Drained(s)) + multiset(CurrentRun(s).queue)| == |Queued(s)|;
  }

  lemma DrainedLedger(s: Runner)
    requires Shape(s) && Ledger(s)
    ensures Ledger(Drained(s))
  {
    DrainedBags(s);
    hide Gather, Queued, Handed, Acting, SlotsHeld, Balanced;
    DrainedBalance(s.states.Keys, s.reservations.Keys, CommittedIds(s), Queued(s), Handed(s), Acting(s), s.log,
                   Queued(Drained(s)), multiset(CurrentRun(s).queue));
  }

  lemma DrainedBalance(ids: set<Id>, pending: set<Id>, committed: set<Id>, queued: multiset<Id>, handed: multiset<Id>,
                       acting: multiset<Id>, log: Log, rest: multiset<Id>, tasks: multiset<Id>)
    requires Balanced(ids, pending, committed, queued, handed, acting, log) && rest + tasks == queued
    ensures Balanced(ids, pending, committed, rest, handed, acting, log.(released := log.released + tasks, owed := log.owed + tasks))
  {
  }

  lemma DrainedFutures(s: Runner)
    requires Shape(s) && Futures(s)
    ensures Futures(Drained(s))
  {
  }

  lemma ClosedInv(s: Runner, wait: bool)
    requires Inv(s)
    ensures Inv(Closed(s, wait)) && Closed(s, wait).closed
  {
    OrphansInv(s, wait);
    hide Shape, Counts, Ledger, Futures;
    if CurrentRun(WithoutOrphans(s, wait)).mode == Cancelled {
      DrainedInv(WithoutOrphans(s, wait));
    }
  }

  // ---------------------------------------------------------------- workers

  lemma SameFutures(s: Runner, s': Runner)
    requires Futures(s) && s'.states == s.states && s'.observed == s.observed && s'.submitting == s.submitting
    requires s'.log.resolved == s.log.resolved && s'.log.returned == s.log.returned && s'.log.notified == s.log.notified
    ensures Futures(s')
  {
  }

  predicate NoTask(at: Place) {
    !at.InHand? && !at.Active? && !at.Returned?
  }

  // Moves a worker between places that hold no task.
  lemma SteppedInv(s: Runner, w: nat, at: Place, slots: int)
    requires Inv(s) && w < |s.workers|
    requires NoTask(s.workers[w].at) && NoTask(at)
    requires slots >= 0 && slots + |SlotBag(s.workers[w].(at := at))| == s.slots + |SlotBag(s.workers[w])|
    ensures Inv(Moved(s, w, at).(slots := slots))
  {
    hide Shape, Counts, Ledger, Futures;
    SteppedShape(s, w, at, slots);
    SteppedCounts(s, w, at, slots);
    SteppedLedger(s, w, at, slots);
    SameFutures(s, Moved(s, w, at).(slots := slots));
  }

  lemma SteppedCounts(s: Runner, w: nat, at: Place, slots: int)
    requires Counts(s) && w < |s.workers| && NoTask(s.workers[w].at) && NoTask(at)
    requires slots >= 0 && slots + |SlotBag(s.workers[w].(at := at))| == s.slots + |SlotBag(s.workers[w])|
    ensures Counts(Moved(s, w, at).(slots := slots))
  {
    SteppedBags(s, w, at, slots);
    hide Gather, Queued, Handed, Acting, SlotsHeld, SlotBag;
  }

  lemma SteppedLedger(s: Runner, w: nat, at: Place, slots: int)
    requires Ledger(s) && w < |s.workers| && NoTask(s.workers[w].at) && NoTask(at)
    ensures Ledger(Moved(s, w, at).(slots := slots))
  {
    SteppedBags(s, w, at, slots);
    SameIds(s, Moved(s, w, at).(slots := slots));
    hide Gather, Queued, Handed, Acting, SlotsHeld, Balanced, CommittedIds;
  }

  lemma SteppedBags(s: Runner, w: nat, at: Place, slots: int)
    requires w < |s.workers|
    requires NoTask(s.workers[w].at) && NoTask(at)
    ensures var s' := Moved(s, w, at).(slots := slots);
      && Queued(s') == Queued(s) && Handed(s') == Handed(s) && Acting(s') == Acting(s)
      && SlotsHeld(s') + |SlotBag(s.workers[w])| == SlotsHeld(s) + |SlotBag(s.workers[w].(at := at))|
  {
    SetWorker(s, w, at);
    SameBags(Moved(s, w, at), Moved(s, w, at).(slots := slots));
    hide Queued, Handed, Acting, SlotsHeld;
  }

  lemma SteppedShape(s: Runner, w: nat, at: Place, slots: int)
    requires Shape(s) && w < |s.workers|
    ensures Shape(Moved(s, w, at).(slots := slots))
  {
  }

  lemma TakenBags(s: Runner, w: nat)
    requires Enabled(s, Take(w))
    ensures var s' := Taken(s, w);
      var id := s.runs[s.workers[w].run].queue[0];
      && Queued(s') + multiset{id} == Queued(s) && Handed(s') == Handed(s) + multiset{id}
      && Acting(s') == Acting(s) && SlotsHeld(s') == SlotsHeld(s)
  {
    var r := s.workers[w].run;
    var t := s.(runs := s.runs[r := s.runs[r].(queue := s.runs[r].queue[1..])]);
    var id := s.runs[r].queue[0];
    HeadLeaves(s, r);
    HandedOver(t, w, id);
    TakenFrame(s, t);
    assert Taken(s, w) == Moved(t, w, InHand(id));
    hide Queued, Handed, Acting, SlotsHeld, Gather, Taken, Moved;
  }

  lemma HeadLeaves(s: Runner, r: nat)
    requires r < |s.runs| && s.runs[r].queue != []
    ensures var t := s.(runs := s.runs[r := s.runs[r].(queue := s.runs[r].queue[1..])]);
      Queued(t) + multiset{s.runs[r].queue[0]} == Queued(s)
  {
    var run := s.runs[r].(queue := s.runs[r].queue[1..]);
    SetQueue(s, r, run);
    hide Queued;
    HeadAndTail(s.runs[r].queue);
    HeadTaken(Queued(s), Queued(s.(runs := s.runs[r := run])), multiset(run.queue), multiset{s.runs[r].queue[0]});
  }

  lemma HandedOver(t: Runner, w: nat, id: Id)
    requires w < |t.workers| && t.workers[w].at.Idle?
    ensures var s' := Moved(t, w, InHand(id));
      && Queued(s') == Queued(t) && Handed(s') == Handed(t) + multiset{id}
      && Acting(s') == Acting(t) && SlotsHeld(s') == SlotsHeld(t)
  {
    SetWorker(t, w, InHand(id));
    hide Queued, Handed, Acting, SlotsHeld;
  }

  lemma HeadTaken(before: multiset<Id>, after: multiset<Id>, tail: multiset<Id>, head: multiset<Id>)
    requires after + (tail + head) == before + tail
    ensures after + head == before
  {
    forall x ensures (after + head)[x] == before[x] {
      assert (after + (tail + head))[x] == (before + tail)[x];
    }
  }

  lemma HeadAndTail(queue: seq<Id>)
    requires queue != []
    ensures multiset(queue) == multiset(queue[1..]) + multiset{queue[0]}
  {
    assert queue == [queue[0]] + queue[1..];
  }

  lemma TakenFrame(s: Runner, t: Runner)
    requires s.workers == t.workers
    ensures Handed(t) == Handed(s) && Acting(t) == Acting(s) && SlotsHeld(t) == SlotsHeld(s)
  {
  }

  lemma TakenInv(s: Runner, w: nat)
    requires Inv(s) && Enabled(s, Take(w))
    ensures Inv(After(s, Take(w)))
  {
    hide Shape, Counts, Ledger, Futures, Enabled, Taken;
    TakenShape(s, w);
    TakenCounts(s, w);
    TakenLedger(s, w);
    TakenFutures(s, w);
  }

  lemma TakenFrameFields(s: Runner, w: nat)
    requires Enabled(s, Take(w))
    ensures var s' := Taken(s, w);
      && s' == s.(runs := s'.runs, workers := s'.workers)
  {
  }

  lemma TakenCounts(s: Runner, w: nat)
    requires Counts(s) && Enabled(s, Take(w))
    ensures Counts(Taken(s, w))
  {
    var id := s.runs[s.workers[w].run].queue[0];
    var s' := Taken(s, w);
    hide Gather, Queued, Handed, Acting, SlotsHeld, Taken, Enabled;
    TakenBags(s, w);
    TakenFrameFields(s, w);
    OneMoreTask(Queued(s'), id);
    OneMoreTask(Handed(s), id);
  }

  lemma TakenLedger(s: Runner, w: nat)
    requires Ledger(s) && Enabled(s, Take(w))
    ensures Ledger(Taken(s, w))
  {
    TakenBags(s, w);
    SameIds(s, Taken(s, w));
    hide Gather, Queued, Handed, Acting, SlotsHeld, CommittedIds, Balanced;
    TakenBalance(s.states.Keys, s.reservations.Keys, CommittedIds(s), Queued(s), Handed(s), Acting(s), s.log,
                 Queued(Taken(s, w)), s.runs[s.workers[w].run].queue[0]);
  }

  lemma TakenBalance(ids: set<Id>, pending: set<Id>, committed: set<Id>, queued: multiset<Id>, handed: multiset<Id>,
                     acting: multiset<Id>, log: Log, rest: multiset<Id>, id: Id)
    requires Balanced(ids, pending, committed, queued, handed, acting, log) && rest + multiset{id} == queued
    ensures Balanced(ids, pending, committed, rest, handed + multiset{id}, acting, log)
  {
    assert rest + (handed + multiset{id}) == queued + handed;
  }

  lemma TakenFutures(s: Runner, w: nat)
    requires Futures(s) && Enabled(s, Take(w))
    ensures Futures(Taken(s, w))
  {
    SameFutures(s, Taken(s, w));
  }

  lemma TakenShape(s: Runner, w: nat)
    requires Shape(s) && Enabled(s, Take(w))
    ensures Shape(Taken(s, w))
  {
  }

  function Verdict(s: Runner, w: nat): Place
    requires Enabled(s, Decide(w))
  {
    if s.runs[s.workers[w].run].mode != Cancelled then Active(s.workers[w].at.id) else Leaving
  }

  lemma DecidedBags(s: Runner, w: nat)
    requires Enabled(s, Decide(w))
    ensures var s' := Decided(s, w);
      var id := s.workers[w].at.id;
      && Queued(s') == Queued(s) && Handed(s') + multiset{id} == Handed(s) && SlotsHeld(s') == SlotsHeld(s)
      && Acting(s') == if Verdict(s, w) == Leaving then Acting(s) else Acting(s) + multiset{id}
  {
    HandOff(s, w, Verdict(s, w));
    SameBags(Moved(s, w, Verdict(s, w)), Decided(s, w));
    hide Queued, Handed, Acting, SlotsHeld;
  }

  lemma HandOff(s: Runner, w: nat, at: Place)
    requires w < |s.workers| && s.workers[w].at.InHand? && (at == Leaving || at == Active(s.workers[w].at.id))
    ensures var s' := Moved(s, w, at);
      var id := s.workers[w].at.id;
      && Queued(s') == Queued(s) && Handed(s') + multiset{id} == Handed(s) && SlotsHeld(s') == SlotsHeld(s)
      && Acting(s') == if at == Leaving then Acting(s) else Acting(s) + multiset{id}
  {
    SetWorker(s, w, at);
    hide Queued, Handed, Acting, SlotsHeld;
  }

  lemma DecidedInv(s: Runner, w: nat)
    requires Inv(s) && Enabled(s, Decide(w))
    ensures Inv(After(s, Decide(w)))
  {
    hide Shape, Counts, Ledger, Futures, Enabled, Decided;
    DecidedShape(s, w);
    DecidedCounts(s, w);
    DecidedLedger(s, w);
    DecidedFutures(s, w);
  }

  lemma DecidedFutures(s: Runner, w: nat)
    requires Futures(s) && Enabled(s, Decide(w))
    ensures Futures(Decided(s, w))
  {
    DecidedLog(s, w);
    hide Futures, Decided;
    SameFutures(s, Decided(s, w));
  }

  lemma DecidedLog(s: Runner, w: nat)
    requires Enabled(s, Decide(w))
    ensures var s' := Decided(s, w);
      && s'.states == s.states && s'.observed == s.observed && s'.submitting == s.submitting
      && s'.log.resolved == s.log.resolved && s'.log.returned == s.log.returned && s'.log.notified == s.log.notified
      && s'.reservations == s.reservations && s'.slots == s.slots && s'.maxWorkers == s.maxWorkers && s'.capacity == s.capacity
      && (if Verdict(s, w) == Leaving then s'.accepted == s.accepted - 1 && s'.active == s.active
          else s'.accepted == s.accepted && s'.active == s.active + 1)
  {
  }

  lemma OneMoreTask(bag: multiset<Id>, id: Id)
    ensures |bag + multiset{id}| == |bag| + 1
  {
  }

  lemma DecidedCounts(s: Runner, w: nat)
    requires Counts(s) && Enabled(s, Decide(w))
    ensures Counts(Decided(s, w))
  {
    hide Gather, Queued, Handed, Acting, SlotsHeld, Decided, Verdict;
    DecidedBags(s, w);
    DecidedLog(s, w);
    OneMoreTask(Handed(Decided(s, w)), s.workers[w].at.id);
    OneMoreTask(Acting(s), s.workers[w].at.id);
  }

  lemma DecidedRecords(s: Runner, w: nat)
    requires Enabled(s, Decide(w))
    ensures var id := s.workers[w].at.id;
      Decided(s, w).log ==
        if Verdict(s, w) == Leaving then
          s.log.(released := s.log.released + multiset{id}, owed := s.log.owed + multiset{id})
        else
          s.log.(started := s.log.started + multiset{id})
  {
  }

  lemma DecidedLedger(s: Runner, w: nat)
    requires Ledger(s) && Enabled(s, Decide(w))
    ensures Ledger(Decided(s, w))
  {
    hide Gather, Queued, Handed, Acting, SlotsHeld, Balanced, CommittedIds, Decided, Verdict;
    var s' := Decided(s, w);
    DecidedBags(s, w);
    DecidedLog(s, w);
    DecidedRecords(s, w);
    SameIds(s, s');
    DecidedBalance(s.states.Keys, s.reservations.Keys, CommittedIds(s), Queued(s), Handed(s), Acting(s), s.log,
                   Handed(s'), s.workers[w].at.id);
  }

  lemma SameIds(s: Runner, s': Runner)
    requires s.states == s'.states
    ensures CommittedIds(s) == CommittedIds(s')
  {
  }

  lemma DecidedBalance(ids: set<Id>, pending: set<Id>, committed: set<Id>, queued: multiset<Id>, handed: multiset<Id>,
                       acting: multiset<Id>, log: Log, rest: multiset<Id>, id: Id)
    requires Balanced(ids, pending, committed, queued, handed, acting, log) && rest + multiset{id} == handed
    ensures Balanced(ids, pending, committed, queued, rest, acting + multiset{id}, log.(started := log.started + multiset{id}))
    ensures Balanced(ids, pending, committed, queued, rest, acting,
                     log.(released := log.released + multiset{id}, owed := log.owed + multiset{id}))
  {
  }

  lemma DecidedShape(s: Runner, w: nat)
    requires Shape(s) && Enabled(s, Decide(w))
    ensures Shape(Decided(s, w))
  {
  }

  lemma EndedBags(s: Runner, w: nat)
    requires Enabled(s, End(w))
    ensures var s' := Ended(s, w);
      && Queued(s') == Queued(s) && Handed(s') == Handed(s) && SlotsHeld(s') == SlotsHeld(s)
      && Acting(s') + multiset{s.workers[w].at.id} == Acting(s)
  {
    TaskDone(s, w);
    SameBags(Moved(s, w, Idle), Ended(s, w));
    hide Queued, Handed, Acting, SlotsHeld, Gather;
  }

  lemma TaskDone(s: Runner, w: nat)
    requires w < |s.workers| && s.workers[w].at.Returned?
    ensures var s' := Moved(s, w, Idle);
      && Queued(s') == Queued(s) && Handed(s') == Handed(s) && SlotsHeld(s') == SlotsHeld(s)
      && Acting(s') + multiset{s.workers[w].at.id} == Acting(s)
  {
    SetWorker(s, w, Idle);
    hide Queued, Handed, Acting, SlotsHeld;
  }

  lemma EndedInv(s: Runner, w: nat)
    requires Inv(s) && Enabled(s, End(w))
    ensures Inv(After(s, End(w)))
  {
    hide Shape, Counts, Ledger, Futures, Enabled, Ended;
    EndedShape(s, w);
    EndedCounts(s, w);
    EndedLedger(s, w);
    EndedFutures(s, w);
  }

  lemma EndedCounts(s: Runner, w: nat)
    requires Counts(s) && Enabled(s, End(w))
    ensures Counts(Ended(s, w))
  {
    EndedBags(s, w);
    hide Gather, Queued, Handed, Acting, SlotsHeld;
    OneMoreTask(Acting(Ended(s, w)), s.workers[w].at.id);
  }

  lemma EndedFields(s: Runner, w: nat)
    requires Enabled(s, End(w))
    ensures var s' := Ended(s, w); var id := s.workers[w].at.id;
      && s'.states == s.states && s'.reservations == s.reservations
      && s'.log == s.log.(released := s.log.released + multiset{id}, finished := s.log.finished + multiset{id})
  {
  }

  lemma EndedLedger(s: Runner, w: nat)
    requires Ledger(s) && Enabled(s, End(w))
    ensures Ledger(Ended(s, w))
  {
    var s' := Ended(s, w);
    var id := s.workers[w].at.id;
    hide Gather, Queued, Handed, Acting, SlotsHeld, CommittedIds, Balanced, Ended, Enabled;
    EndedBags(s, w);
    EndedFields(s, w);
    SameIds(s, s');
    EndedBalance(s.states.Keys, s.reservations.Keys, CommittedIds(s), Queued(s), Handed(s), Acting(s), s.log, Acting(s'), id);
  }

  lemma EndedBalance(ids: set<Id>, pending: set<Id>, committed: set<Id>, queued: multiset<Id>, handed: multiset<Id>,
                     acting: multiset<Id>, log: Log, rest: multiset<Id>, id: Id)
    requires Balanced(ids, pending, committed, queued, handed, acting, log) && rest + multiset{id} == acting
    ensures Balanced(ids, pending, committed, queued, handed, rest,
                     log.(released := log.released + multiset{id}, finished := log.finished + multiset{id}))
  {
  }

  lemma EndedFutures(s: Runner, w: nat)
    requires Futures(s) && Enabled(s, End(w))
    ensures Futures(Ended(s, w))
  {
    SameFutures(s, Ended(s, w));
  }

  lemma EndedShape(s: Runner, w: nat)
    requires Shape(s) && Enabled(s, End(w))
    ensures Shape(Ended(s, w))
  {
  }

  lemma ReturnedBags(s: Runner, w: nat)
    requires Enabled(s, Return(w))
    ensures var s' := CallbackReturned(s, w);
      Queued(s') == Queued(s) && Handed(s') == Handed(s) && Acting(s') == Acting(s) && SlotsHeld(s') == SlotsHeld(s)
  {
    CallOver(s, w);
    SameBags(Moved(s, w, Returned(s.workers[w].at.id)), CallbackReturned(s, w));
    hide Queued, Handed, Acting, SlotsHeld, Gather, CallbackReturned, Moved;
  }

  lemma CallOver(s: Runner, w: nat)
    requires w < |s.workers| && s.workers[w].at.Active?
    ensures var s' := Moved(s, w, Returned(s.workers[w].at.id));
      Queued(s') == Queued(s) && Handed(s') == Handed(s) && Acting(s') == Acting(s) && SlotsHeld(s') == SlotsHeld(s)
  {
    SetWorker(s, w, Returned(s.workers[w].at.id));
    hide Queued, Handed, Acting, SlotsHeld;
  }

  lemma ReturnedInv(s: Runner, w: nat)
    requires Inv(s) && Enabled(s, Return(w))
    ensures Inv(After(s, Return(w)))
  {
    hide Shape, Counts, Ledger, Futures, Enabled, CallbackReturned;
    ReturnedShape(s, w);
    ReturnedCounts(s, w);
    ReturnedLedger(s, w);
    ActiveIsIssued(s, w);
    ReturnedFutures(s, w);
  }

  lemma ReturnedShape(s: Runner, w: nat)
    requires Shape(s) && Enabled(s, Return(w))
    ensures Shape(CallbackReturned(s, w))
  {
  }

  lemma ReturnedCounts(s: Runner, w: nat)
    requires Counts(s) && Enabled(s, Return(w))
    ensures Counts(CallbackReturned(s, w))
  {
    ReturnedBags(s, w);
    hide Gather, Queued, Handed, Acting, SlotsHeld;
  }

  lemma ReturnedFields(s: Runner, w: nat)
    requires Enabled(s, Return(w))
    ensures var s' := CallbackReturned(s, w);
      && s'.states == s.states && s'.reservations == s.reservations
      && s'.log == s.log.(returned := s'.log.returned, resolved := s'.log.resolved)
  {
    hide Resolution;
  }

  lemma ReturnedBalance(ids: set<Id>, pending: set<Id>, committed: set<Id>, queued: multiset<Id>, handed: multiset<Id>,
                        acting: multiset<Id>, log: Log, returned: multiset<Id>, resolved: multiset<Id>)
    requires Balanced(ids, pending, committed, queued, handed, acting, log)
    ensures Balanced(ids, pending, committed, queued, handed, acting, log.(returned := returned, resolved := resolved))
  {
  }

  lemma ReturnedLedger(s: Runner, w: nat)
    requires Ledger(s) && Enabled(s, Return(w))
    ensures Ledger(CallbackReturned(s, w))
  {
    var s' := CallbackReturned(s, w);
    hide Gather, Queued, Handed, Acting, SlotsHeld, CommittedIds, Balanced, CallbackReturned, Enabled;
    ReturnedBags(s, w);
    ReturnedFields(s, w);
    SameIds(s, s');
    ReturnedBalance(s.states.Keys, s.reservations.Keys, CommittedIds(s), Queued(s), Handed(s), Acting(s), s.log,
                    s'.log.returned, s'.log.resolved);
  }

  lemma {:induction false} ActiveInBag(workers: seq<Worker>, w: nat)
    requires w < |workers|
    ensures ActiveBag(workers[w]) <= Gather(workers, ActiveBag)
  {
    if w < |workers| - 1 {
      ActiveInBag(workers[..|workers| - 1], w);
    }
  }

  lemma ActiveIsIssued(s: Runner, w: nat)
    requires Ledger(s) && Enabled(s, Return(w))
    ensures s.workers[w].at.id in s.states
  {
    var id := s.workers[w].at.id;
    assert ActiveBag(s.workers[w]) == multiset{id};
    hide Gather, Queued, Handed, CommittedIds, Enabled;
    ActiveInBag(s.workers, w);
    assert Acting(s)[id] >= 1;
    IssuedIfActive(s.states.Keys, s.reservations.Keys, CommittedIds(s), Queued(s), Handed(s), Acting(s), s.log, id);
  }

  lemma IssuedIfActive(ids: set<Id>, pending: set<Id>, committed: set<Id>, queued: multiset<Id>, handed: multiset<Id>,
                       acting: multiset<Id>, log: Log, id: Id)
    requires Balanced(ids, pending, committed, queued, handed, acting, log) && id in acting
    ensures id in ids
  {
    assert id in multiset(ids);
  }

  lemma ReturnedFutures(s: Runner, w: nat)
    requires Futures(s) && Enabled(s, Return(w)) && s.workers[w].at.id in s.states
    ensures Futures(CallbackReturned(s, w))
  {
  }

  lemma NotifiedInv(s: Runner, id: Id)
    requires Inv(s) && id in s.log.owed
    ensures Inv(Notified(s, id))
  {
    hide Shape, Counts, Ledger, Futures;
    NotifiedCounts(s, id);
    NotifiedLedger(s, id);
    NotifiedShape(s, id);
    NotifiedFutures(s, id);
  }

  lemma NotifiedCounts(s: Runner, id: Id)
    requires Counts(s)
    ensures Counts(Notified(s, id))
  {
    hide Gather, Queued, Handed, Acting, SlotsHeld;
    SameBags(s, Notified(s, id));
  }

  lemma NotifiedLedger(s: Runner, id: Id)
    requires Ledger(s) && id in s.log.owed
    ensures Ledger(Notified(s, id))
  {
    hide Gather, Queued, Handed, Acting, SlotsHeld, CommittedIds, Balanced;
    SameBags(s, Notified(s, id));
    SameIds(s, Notified(s, id));
    NotifiedBalance(s.states.Keys, s.reservations.Keys, CommittedIds(s), Queued(s), Handed(s), Acting(s), s.log, id,
                    Notified(s, id).log.resolved);
  }

  lemma NotifiedBalance(ids: set<Id>, pending: set<Id>, committed: set<Id>, queued: multiset<Id>, handed: multiset<Id>,
                        acting: multiset<Id>, log: Log, id: Id, resolved: multiset<Id>)
    requires Balanced(ids, pending, committed, queued, handed, acting, log) && id in log.owed
    ensures Balanced(ids, pending, committed, queued, handed, acting,
                     log.(owed := log.owed - multiset{id}, notified := log.notified + multiset{id}, resolved := resolved))
  {
    assert log.owed - multiset{id} + multiset{id} == log.owed;
  }

  lemma NotifiedShape(s: Runner, id: Id)
    requires Shape(s)
    ensures Shape(Notified(s, id))
  {
  }

  lemma NotifiedFutures(s: Runner, id: Id)
    requires Futures(s)
    ensures Futures(Notified(s, id))
  {
  }

  // ---------------------------------------------------------------- every step

  lemma CommitInv(s: Runner, id: Id)
    requires Inv(s) && Enabled(s, Commit(id))
    ensures Inv(After(s, Commit(id)))
  {
    if CommitSucceeds(s, id) {
      CommittedInv(s, id);
    } else {
      PendingCommits(s, id);
      StillReserved(s, id);
      if id in s.submitting {
        AnsweredInv(s, id);
      }
    }
  }

  lemma StillReserved(s: Runner, id: Id)
    requires Inv(s) && id in s.states && !Owned(s, id)
    ensures s.states[id] != Reserved && (id in s.submitting ==> s.states[id] != Committed)
  {
  }

  /** The queue is never full, and never closed, for a reservation that is still pending: its commit always succeeds. */
  lemma PendingCommits(s: Runner, id: Id)
    requires Inv(s)
    ensures CommitSucceeds(s, id) <==> Owned(s, id)
  {
    if Owned(s, id) {
      QueuePart(s.runs, |s.runs| - 1);
      assert |multiset(CurrentRun(s).queue)| == |CurrentRun(s).queue|;
      assert s.reservations.Keys - {id} + {id} == s.reservations.Keys;
    }
  }

  lemma {:induction false} QueuePart(runs: seq<RunState>, i: nat)
    requires i < |runs|
    ensures |runs[i].queue| <= |Gather(runs, RunBag)|
  {
    if i < |runs| - 1 {
      QueuePart(runs[..|runs| - 1], i);
    }
  }

  lemma StepKeepsInv(s: Runner, step: Step)
    requires Inv(s) && Enabled(s, step)
    ensures Inv(After(s, step))
  {
    hide Shape, Counts, Ledger, Futures;
    match step
    case Start =>
      if s.closed || CurrentRun(s).mode != Running {
        ClosedWhenStopped(s);
        NextRunInv(s);
        CrewInv(NextRun(s));
      } else {
        CrewInv(s);
      }
    case Restart =>
      ClosedInv(s, false);
      NextRunInv(Closed(s, false));
      CrewInv(NextRun(Closed(s, false)));
    case Shutdown(wait) => ClosedInv(s, wait);
    case Reserve(id, future) => ReserveInv(s, id, future);
    case Commit(id) => CommitInv(s, id);
    case Rollback(id) => if Owned(s, id) { GivenUpInv(s, id, RolledBack); }
    case AcquireSlot(w) => SteppedInv(s, w, Idle, s.slots - 1);
    case Take(w) => TakenInv(s, w);
    case SeeEmpty(w) => KeptSlot(s, w, SawEmpty);
    case Recheck(w) => KeptSlot(s, w, After(s, step).workers[w].at);
    case Decide(w) => DecidedInv(s, w);
    case Return(w) => ReturnedInv(s, w);
    case End(w) => EndedInv(s, w);
    case Leave(w) => LeaveInv(s, w);
    case Notify(id) => NotifiedInv(s, id);
  }

  lemma ReserveInv(s: Runner, id: Id, future: bool)
    requires Inv(s) && Enabled(s, Reserve(id, future))
    ensures Inv(After(s, Reserve(id, future)))
  {
    if Admits(s) {
      CrewInv(s);
      CrewShape(s);
      hide Shape, Counts, Ledger, Futures, WithCrew;
      IssuedInv(WithCrew(s), id, future);
    }
  }

  // Idle, looking again, leaving: the worker keeps its slot.
  lemma KeptSlot(s: Runner, w: nat, at: Place)
    requires Inv(s) && w < |s.workers| && (s.workers[w].at.Idle? || s.workers[w].at.SawEmpty?)
    requires at.Idle? || at.SawEmpty? || at.Leaving?
    ensures Inv(Moved(s, w, at))
  {
    hide Shape, Counts, Ledger, Futures, Inv;
    FreeSlots(s);
    SteppedInv(s, w, at, s.slots);
    assert Moved(s, w, at).(slots := s.slots) == Moved(s, w, at);
  }

  lemma FreeSlots(s: Runner)
    requires Inv(s)
    ensures s.slots >= 0
  {
  }

  lemma LeaveInv(s: Runner, w: nat)
    requires Inv(s) && w < |s.workers| && s.workers[w].at.Leaving?
    ensures Inv(Moved(s, w, Exited).(slots := s.slots + 1))
  {
    FreeSlots(s);
    hide Shape, Counts, Ledger, Futures, Moved, Inv;
    SteppedInv(s, w, Exited, s.slots + 1);
  }

  lemma ClosedWhenStopped(s: Runner)
    requires Inv(s)
    ensures s.closed <==> CurrentRun(s).mode != Running
  {
  }

  lemma OpenedInv(maxWorkers: nat, capacity: nat)
    ensures Inv(Opened(maxWorkers, capacity))
  {
    var s := Opened(maxWorkers, capacity);
    assert Gather(s.runs, RunBag) == multiset{} && Gather(s.workers, HandBag) == multiset{};
    assert CommittedIds(s) == {};
  }

  ghost predicate Execution(maxWorkers: nat, capacity: nat, states: seq<Runner>, steps: seq<Step>) {
    && |states| == |steps| + 1 && states[0] == Opened(maxWorkers, capacity)
    && forall i | 0 <= i < |steps| :: Enabled(states[i], steps[i]) && states[i + 1] == After(states[i], steps[i])
  }

  lemma {:induction false} Reachable(maxWorkers: nat, capacity: nat, states: seq<Runner>, steps: seq<Step>, k: nat)
    requires Execution(maxWorkers, capacity, states, steps) && k < |states|
    ensures Inv(states[k])
  {
    hide Inv, Enabled, After, Opened;
    if k == 0 {
      OpenedInv(maxWorkers, capacity);
    } else {
      Reachable(maxWorkers, capacity, states, steps, k - 1);
      StepKeepsInv(states[k - 1], steps[k - 1]);
    }
  }
}
