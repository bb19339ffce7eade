/** The bounded task runner as an interleaved step machine over all its generations (services/bounded_task_runner.py). */
module TaskRunner {
  type Id = nat

  datatype Mode = Running | Draining | Cancelled
  datatype Outcome = Reserved | Committed | RolledBack | Dropped

  /** One generation: its queue, its mode, and whether its workers were created. */
  datatype RunState = RunState(queue: seq<Id>, mode: Mode, started: bool)

  /** Where a worker thread stands between two atomic steps. */
  datatype Place = Waiting | Idle | SawEmpty | InHand(id: Id) | Active(id: Id) | Returned(id: Id) | Leaving | Exited
  datatype Worker = Worker(run: nat, at: Place)

  /** What happened so far: slots given back, callbacks started, callbacks returned, active places given up after that,
      cancellations owed and delivered, futures resolved. */
  datatype Log = Log(released: multiset<Id>, started: multiset<Id>, returned: multiset<Id>, finished: multiset<Id>,
                     owed: multiset<Id>, notified: multiset<Id>, resolved: multiset<Id>)

  /** A task has the identity of the reservation that committed it. observed holds the reservations made for a future,
      submitting those of them whose commit is still to come. */
  datatype Runner = Runner(maxWorkers: nat, capacity: nat, runs: seq<RunState>, reservations: map<Id, nat>,
                           states: map<Id, Outcome>, accepted: int, active: int, closed: bool, slots: int,
                           workers: seq<Worker>, log: Log, observed: set<Id>, submitting: set<Id>)

  // ---------------------------------------------------------------- bags of tasks

  function Gather<T>(xs: seq<T>, bag: T -> multiset<Id>): multiset<Id> {
    if xs == [] then multiset{} else Gather(xs[..|xs| - 1], bag) + bag(xs[|xs| - 1])
  }

  lemma {:induction false} GatherUpdate<T>(xs: seq<T>, bag: T -> multiset<Id>, i: nat, x: T)
    requires i < |xs|
    ensures Gather(xs[i := x], bag) + bag(xs[i]) == Gather(xs, bag) + bag(x)
  {
    var ys := xs[i := x];
    var first, last := xs[..|xs| - 1], xs[|xs| - 1];
    assert Gather(xs, bag) == Gather(first, bag) + bag(last);
    if i == |xs| - 1 {
      assert ys[..|xs| - 1] == first && ys[|xs| - 1] == x;
      assert Gather(ys, bag) == Gather(first, bag) + bag(x);
    } else {
      assert ys[..|xs| - 1] == first[i := x] && ys[|xs| - 1] == last;
      GatherUpdate(first, bag, i, x);
      assert first[i] == xs[i];
      assert Gather(ys, bag) == Gather(first[i := x], bag) + bag(last);
      calc {
        Gather(ys, bag) + bag(xs[i]);
        (Gather(first[i := x], bag) + bag(xs[i])) + bag(last);
        (Gather(first, bag) + bag(x)) + bag(last);
        Gather(xs, bag) + bag(x);
      }
    }
  }

  lemma {:induction false} GatherAppend<T>(xs: seq<T>, bag: T -> multiset<Id>, ys: seq<T>)
    requires forall y | y in ys :: bag(y) == multiset{}
    ensures Gather(xs + ys, bag) == Gather(xs, bag)
  {
    if ys == [] {
      assert xs + ys == xs;
    } else {
      assert (xs + ys)[..|xs + ys| - 1] == xs + ys[..|ys| - 1];
      assert (xs + ys)[|xs + ys| - 1] == ys[|ys| - 1];
      GatherAppend(xs, bag, ys[..|ys| - 1]);
    }
  }

  function RunBag(r: RunState): multiset<Id> { multiset(r.queue) }
  function HandBag(w: Worker): multiset<Id> { if w.at.InHand? then multiset{w.at.id} else multiset{} }
  function ActiveBag(w: Worker): multiset<Id> { if w.at.Active? || w.at.Returned? then multiset{w.at.id} else multiset{} }
  function SlotBag(w: Worker): multiset<Id> {
    if w.at.Waiting? || w.at.Exited? then multiset{} else multiset{0}
  }

  function Queued(s: Runner): multiset<Id> { Gather(s.runs, RunBag) }
  function Handed(s: Runner): multiset<Id> { Gather(s.workers, HandBag) }
  function Acting(s: Runner): multiset<Id> { Gather(s.workers, ActiveBag) }
  function SlotsHeld(s: Runner): nat { |Gather(s.workers, SlotBag)| }

  // ---------------------------------------------------------------- steps

  datatype Step =
    | Start
    | Restart
    | Reserve(id: Id, future: bool)
    | Commit(id: Id)
    | Rollback(id: Id)
    | Shutdown(wait: bool)
    | AcquireSlot(w: nat)
    | Take(w: nat)
    | SeeEmpty(w: nat)
    | Recheck(w: nat)
    | Decide(w: nat)
    | Return(w: nat)
    | End(w: nat)
    | Leave(w: nat)
    | Notify(id: Id)

  predicate Proper(s: Runner) {
    s.runs != [] && forall i | 0 <= i < |s.workers| :: s.workers[i].run < |s.runs|
  }

  function Current(s: Runner): nat
    requires Proper(s)
  {
    |s.runs| - 1
  }

  function CurrentRun(s: Runner): RunState
    requires Proper(s)
  {
    s.runs[|s.runs| - 1]
  }

  function Crew(s: Runner): seq<Worker>
    requires Proper(s)
  {
    seq(s.maxWorkers, i => Worker(|s.runs| - 1, Waiting))
  }

  function WithCrew(s: Runner): Runner
    requires Proper(s)
  {
    if CurrentRun(s).started then s
    else s.(runs := s.runs[Current(s) := CurrentRun(s).(started := true)], workers := s.workers + Crew(s))
  }

  function NextRun(s: Runner): Runner {
    s.(runs := s.runs + [RunState([], Running, false)], closed := false)
  }

  predicate Owned(s: Runner, id: Id) {
    id in s.reservations && id in s.states && s.states[id] == Reserved
  }

  // The reservations that closing the current run cancels.
  function Orphans(s: Runner): set<Id>
    requires Proper(s)
  {
    set id | id in s.reservations && s.reservations[id] == Current(s)
  }

  function ClosedMode(mode: Mode, wait: bool): Mode {
    if !wait then Cancelled else if mode == Running then Draining else mode
  }

  function WithoutOrphans(s: Runner, wait: bool): Runner
    requires Proper(s)
  {
    var gone := Orphans(s);
    s.(closed := true, runs := s.runs[Current(s) := CurrentRun(s).(mode := ClosedMode(CurrentRun(s).mode, wait))],
       reservations := s.reservations - gone, states := s.states + map id | id in gone :: Dropped,
       accepted := s.accepted - |gone|, log := s.log.(released := s.log.released + multiset(gone)))
  }

  function Drained(s: Runner): Runner
    requires Proper(s)
  {
    var tasks := CurrentRun(s).queue;
    s.(runs := s.runs[Current(s) := CurrentRun(s).(queue := [])], accepted := s.accepted - |tasks|,
       log := s.log.(released := s.log.released + multiset(tasks), owed := s.log.owed + multiset(tasks)))
  }

  function Closed(s: Runner, wait: bool): Runner
    requires Proper(s)
  {
    var t := WithoutOrphans(s, wait);
    if CurrentRun(t).mode == Cancelled then Drained(t) else t
  }

  predicate Admits(s: Runner)
    requires Proper(s)
  {
    !s.closed && CurrentRun(s).mode == Running && s.accepted < s.capacity
  }

  function Issued(s: Runner, id: Id, future: bool): Runner
    requires Proper(s)
  {
    s.(reservations := s.reservations[id := Current(s)], states := s.states[id := Reserved], accepted := s.accepted + 1,
       observed := if future then s.observed + {id} else s.observed,
       submitting := if future then s.submitting + {id} else s.submitting)
  }

  predicate CommitSucceeds(s: Runner, id: Id)
    requires Proper(s)
  {
    && Owned(s, id) && !s.closed && s.reservations[id] == Current(s) && CurrentRun(s).mode == Running
    && |CurrentRun(s).queue| < s.capacity
  }

  function Enqueued(s: Runner, id: Id): Runner
    requires Proper(s)
  {
    s.(runs := s.runs[Current(s) := CurrentRun(s).(queue := CurrentRun(s).queue + [id])],
       reservations := s.reservations - {id}, states := s.states[id := Committed])
  }

  // Gives up a pending reservation and its slot.
  function GivenUp(s: Runner, id: Id, outcome: Outcome): Runner {
    s.(reservations := s.reservations - {id}, states := s.states[id := outcome], accepted := s.accepted - 1,
       log := s.log.(released := s.log.released + multiset{id}))
  }

  function AfterCommit(s: Runner, id: Id): Runner
    requires Proper(s)
  {
    if CommitSucceeds(s, id) then Enqueued(s, id) else if Owned(s, id) then GivenUp(s, id, Dropped) else s
  }

  // The future of a refused submission fails at once.
  function Answered(s: Runner, id: Id, committed: bool): Runner {
    if id !in s.submitting then s
    else
      s.(submitting := s.submitting - {id},
         log := if committed then s.log else s.log.(resolved := s.log.resolved + multiset{id}))
  }

  function Moved(s: Runner, w: nat, at: Place): Runner
    requires w < |s.workers|
  {
    s.(workers := s.workers[w := s.workers[w].(at := at)])
  }

  function Resolution(s: Runner, id: Id): multiset<Id> {
    if id in s.observed then multiset{id} else multiset{}
  }

  function Taken(s: Runner, w: nat): Runner
    requires Proper(s) && w < |s.workers| && s.runs[s.workers[w].run].queue != []
  {
    var r := s.workers[w].run;
    var t := s.(runs := s.runs[r := s.runs[r].(queue := s.runs[r].queue[1..])]);
    Moved(t, w, InHand(s.runs[r].queue[0]))
  }

  function Decided(s: Runner, w: nat): Runner
    requires Proper(s) && w < |s.workers| && s.workers[w].at.InHand?
  {
    var id := s.workers[w].at.id;
    if s.runs[s.workers[w].run].mode != Cancelled then
      Moved(s, w, Active(id)).(active := s.active + 1, log := s.log.(started := s.log.started + multiset{id}))
    else
      Moved(s, w, Leaving).(accepted := s.accepted - 1,
                            log := s.log.(released := s.log.released + multiset{id}, owed := s.log.owed + multiset{id}))
  }

  // The callback is over and its future has its answer; the worker still counts as active.
  function CallbackReturned(s: Runner, w: nat): Runner
    requires Proper(s) && w < |s.workers| && s.workers[w].at.Active?
  {
    var id := s.workers[w].at.id;
    Moved(s, w, Returned(id)).(log := s.log.(returned := s.log.returned + multiset{id},
                                             resolved := s.log.resolved + Resolution(s, id)))
  }

  function Ended(s: Runner, w: nat): Runner
    requires Proper(s) && w < |s.workers| && s.workers[w].at.Returned?
  {
    var id := s.workers[w].at.id;
    Moved(s, w, Idle).(active := s.active - 1, accepted := s.accepted - 1,
                       log := s.log.(released := s.log.released + multiset{id}, finished := s.log.finished + multiset{id}))
  }

  function Notified(s: Runner, id: Id): Runner {
    s.(log := s.log.(owed := s.log.owed - multiset{id}, notified := s.log.notified + multiset{id},
                     resolved := s.log.resolved + Resolution(s, id)))
  }

  predicate Enabled(s: Runner, step: Step) {
    Proper(s) &&
    match step
    case Start => true
    case Restart => true
    case Shutdown(_) => true
    case Reserve(id, _) => id !in s.states
    case Commit(id) => id in s.states && (id in s.observed ==> id in s.submitting)
    case Rollback(id) => id in s.states && id !in s.observed
    case AcquireSlot(w) => w < |s.workers| && s.workers[w].at.Waiting? && s.slots > 0
    case Take(w) => w < |s.workers| && s.workers[w].at.Idle? && s.runs[s.workers[w].run].queue != []
    case SeeEmpty(w) => w < |s.workers| && s.workers[w].at.Idle? && s.runs[s.workers[w].run].queue == []
    case Recheck(w) => w < |s.workers| && s.workers[w].at.SawEmpty?
    case Decide(w) => w < |s.workers| && s.workers[w].at.InHand?
    case Return(w) => w < |s.workers| && s.workers[w].at.Active?
    case End(w) => w < |s.workers| && s.workers[w].at.Returned?
    case Leave(w) => w < |s.workers| && s.workers[w].at.Leaving?
    case Notify(id) => id in s.log.owed
  }

  /** One atomic step: a method under the lock, or what a worker does between two looks at shared state. */
  function After(s: Runner, step: Step): Runner
    requires Enabled(s, step)
  {
    match step
    case Start => WithCrew(if s.closed || CurrentRun(s).mode != Running then NextRun(s) else s)
    case Restart => WithCrew(NextRun(Closed(s, false)))
    case Shutdown(wait) => Closed(s, wait)
    case Reserve(id, future) => if Admits(s) then Issued(WithCrew(s), id, future) else s
    case Commit(id) => Answered(AfterCommit(s, id), id, CommitSucceeds(s, id))
    case Rollback(id) => if Owned(s, id) then GivenUp(s, id, RolledBack) else s
    case AcquireSlot(w) => Moved(s, w, Idle).(slots := s.slots - 1)
    case Take(w) => Taken(s, w)
    case SeeEmpty(w) => Moved(s, w, SawEmpty)
    case Recheck(w) => Moved(s, w, if s.runs[s.workers[w].run].mode != Running then Leaving else Idle)
    case Decide(w) => Decided(s, w)
    case Return(w) => CallbackReturned(s, w)
    case End(w) => Ended(s, w)
    case Leave(w) => Moved(s, w, Exited).(slots := s.slots + 1)
    case Notify(id) => Notified(s, id)
  }

  function Opened(maxWorkers: nat, capacity: nat): Runner {
    Runner(maxWorkers, capacity, [RunState([], Running, false)], map[], map[], 0, 0, false, maxWorkers, [],
           Log(multiset{}, multiset{}, multiset{}, multiset{}, multiset{}, multiset{}, multiset{}), {}, {})
  }
}
