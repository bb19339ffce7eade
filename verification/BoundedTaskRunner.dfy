/** The task runner's methods, each proved to perform one step of the machine (services/bounded_task_runner.py). */
module BoundedTaskRunner {
  import opened TaskRunner
  import opened RunnerSafety

  class BoundedTaskRunner {
    const maxWorkers: nat
    const capacity: nat
    var runs: seq<RunState>
    var reservations: map<Id, nat>
    var states: map<Id, Outcome>
    var accepted: int
    var active: int
    var closed: bool
    var slots: int
    var workers: seq<Worker>
    ghost var log: Log
    ghost var observed: set<Id>
    ghost var submitting: set<Id>

    ghost function State(): Runner reads this {
      Runner(maxWorkers, capacity, runs, reservations, states, accepted, active, closed, slots, workers, log, observed, submitting)
    }

    constructor (maxWorkers: int, queueSize: int)
      ensures var w := if maxWorkers < 1 then 1 else maxWorkers;
        State() == Opened(w, w + if queueSize < 1 then 1 else queueSize)
      ensures Inv(State())
    {
      var w := if maxWorkers < 1 then 1 else maxWorkers;
      this.maxWorkers, capacity := w, w + if queueSize < 1 then 1 else queueSize;
      runs, reservations, states, accepted, active := [RunState([], Running, false)], map[], map[], 0, 0;
      closed, slots, workers := false, w, [];
      log := Log(multiset{}, multiset{}, multiset{}, multiset{}, multiset{}, multiset{}, multiset{});
      observed, submitting := {}, {};
      new;
      OpenedInv(w, capacity);
    }

    method StartLocked()
      requires Proper(State())
      modifies this`runs, this`workers
      ensures State() == WithCrew(old(State()))
    {
      var current := |runs| - 1;
      if runs[current].started {
        return;
      }
      runs := runs[current := runs[current].(started := true)];
      for index := 0 to maxWorkers
        invariant workers == old(workers) + seq(index, i => Worker(current, Waiting))
        invariant runs == old(runs)[current := old(runs)[current].(started := true)]
      {
        workers := workers + [Worker(current, Waiting)];
      }
      assert State().workers == old(workers) + Crew(old(State()));
    }

    method CancelReservation(id: Id)
      requires id in states
      modifies this`reservations, this`states, this`accepted, this`log
      ensures State() == if old(states[id]) == Reserved then GivenUp(old(State()), id, Dropped)
                         else old(State()).(reservations := old(reservations) - {id})
    {
      reservations := reservations - {id};
      if states[id] == Reserved {
        states := states[id := Dropped];
        accepted := accepted - 1;
        log := log.(released := log.released + multiset{id});
      }
    }

    /** Ends admission to the current run; a cancelled run also hands back the tasks still queued. */
    method CloseLocked(wait: bool) returns (cancelled: seq<Id>)
      requires Shape(State())
      modifies this`closed, this`runs, this`reservations, this`states, this`accepted, this`log
      ensures State() == Closed(old(State()), wait)
      ensures cancelled == if ClosedMode(old(CurrentRun(State())).mode, wait) == Cancelled then old(CurrentRun(State())).queue else []
    {
      hide WithoutOrphans, Drained, Shape;
      OrphansShape(State(), wait);
      ClosedRun(State(), wait);
      ShapeIsProper(State());
      ShapeIsProper(WithoutOrphans(State(), wait));
      CancelOrphans(wait);
      cancelled := [];
      if runs[|runs| - 1].mode == Cancelled {
        cancelled := DrainLocked();
      }
    }

    // Closes the current run and cancels the reservations made for it.
    method CancelOrphans(wait: bool)
      requires Shape(State())
      modifies this`closed, this`runs, this`reservations, this`states, this`accepted, this`log
      ensures State() == WithoutOrphans(old(State()), wait)
    {
      hide Shape, WithoutOrphans, Cancelling;
      AllCancelled(State(), wait);
      ShapeIsProper(State());
      closed := true;
      var current := |runs| - 1;
      runs := runs[current := runs[current].(mode := ClosedMode(runs[current].mode, wait))];
      CancelReservationsOf(current);
    }

    method CancelReservationsOf(run: nat)
      requires Pending(State())
      modifies this`reservations, this`states, this`accepted, this`log
      ensures State() == Cancelling(old(State()), MadeFor(old(reservations), run))
    {
      hide GivenUp, Cancelling, Pending;
      ghost var start := State();
      var todo := reservations.Keys;
      ghost var gone: set<Id> := {};
      NoneCancelled(start);
      while todo != {}
        invariant todo !! gone && todo <= reservations.Keys
        invariant gone <= MadeFor(start.reservations, run) <= gone + todo
        invariant State() == Cancelling(start, gone)
        decreases |todo|
      {
        var id :| id in todo;
        todo := todo - {id};
        OneMore(start, gone, id);
        if reservations[id] == run {
          CancelReservation(id);
          gone := gone + {id};
          OneMore(start, gone, id);
        }
      }
      assert gone == MadeFor(start.reservations, run);
    }

    // Takes every queued task of the current run out of its queue.
    method DrainLocked() returns (cancelled: seq<Id>)
      requires Proper(State())
      modifies this`runs, this`accepted, this`log
      ensures State() == Drained(old(State())) && cancelled == old(CurrentRun(State())).queue
    {
      hide TakenOff, Drained, FirstOff;
      cancelled := [];
      ghost var before := State();
      NoneTaken(before);
      while runs[|runs| - 1].queue != []
        invariant Proper(State()) && State() == TakenOff(before, cancelled)
        invariant cancelled + CurrentRun(State()).queue == CurrentRun(before).queue
        decreases |CurrentRun(State()).queue|
      {
        OneTaken(before, cancelled);
        var task := TakeFirst();
        cancelled := cancelled + [task];
      }
      assert cancelled == CurrentRun(before).queue;
      AllTaken(before);
    }

    method TakeFirst() returns (task: Id)
      requires Proper(State()) && CurrentRun(State()).queue != []
      modifies this`runs, this`accepted, this`log
      ensures State() == FirstOff(old(State())) && task == old(CurrentRun(State())).queue[0]
    {
      var current := |runs| - 1;
      task := runs[current].queue[0];
      runs := runs[current := runs[current].(queue := runs[current].queue[1..])];
      accepted := accepted - 1;
      log := log.(released := log.released + multiset{task}, owed := log.owed + multiset{task});
    }

    /** Opens admission again after a shutdown and makes sure workers exist. */
    method Start()
      requires Inv(State())
      modifies this
      ensures State() == After(old(State()), TaskRunner.Start) && Inv(State()) && !closed
    {
      hide Inv, WithCrew, Gather;
      InvIsShape(State());
      StepKeepsInv(State(), TaskRunner.Start);
      if closed || runs[|runs| - 1].mode != Running {
        runs := runs + [RunState([], Running, false)];
        closed := false;
      }
      StartLocked();
      InvIsShape(State());
    }

    /** Cancels the current run's pending work and opens a fresh run. */
    method Restart() returns (cancelled: seq<Id>)
      requires Inv(State())
      modifies this
      ensures State() == After(old(State()), TaskRunner.Restart) && Inv(State()) && cancelled == old(CurrentRun(State())).queue
    {
      hide Inv, WithCrew, Gather, Closed;
      InvIsShape(State());
      StepKeepsInv(State(), TaskRunner.Restart);
      ClosedInv(State(), false);
      cancelled := CloseLocked(false);
      runs := runs + [RunState([], Running, false)];
      closed := false;
      InvIsShape(Closed(old(State()), false));
      ShapeIsProper(Closed(old(State()), false));
      StartLocked();
    }

    method Shutdown(wait: bool) returns (cancelled: seq<Id>)
      requires Inv(State())
      modifies this
      ensures Proper(old(State())) && State() == After(old(State()), TaskRunner.Shutdown(wait))
      ensures Inv(State()) && closed && reservations == map[]
    {
      hide Inv, Closed;
      InvIsShape(State());
      StepKeepsInv(State(), TaskRunner.Shutdown(wait));
      ClosedInv(State(), wait);
      cancelled := CloseLocked(wait);
      InvIsShape(State());
    }

    /** Takes a slot for a task that is still being prepared; id is the new reservation's identity. */
    method Reserve(id: Id, ghost future: bool) returns (reserved: bool)
      requires Inv(State()) && id !in states
      modifies this
      ensures State() == After(old(State()), TaskRunner.Reserve(id, future)) && Inv(State())
      ensures reserved <==> old(Admits(State()))
      ensures reserved ==> id in reservations && accepted == old(accepted) + 1
    {
      hide Inv, WithCrew;
      InvIsShape(State());
      StepKeepsInv(State(), TaskRunner.Reserve(id, future));
      if closed || runs[|runs| - 1].mode != Running || accepted >= capacity {
        return false;
      }
      CrewShape(State());
      StartLocked();
      reservations, states := reservations[id := |runs| - 1], states[id := Reserved];
      accepted := accepted + 1;
      observed := if future then observed + {id} else observed;
      submitting := if future then submitting + {id} else submitting;
      reserved := true;
    }

    method CommitReserved(id: Id) returns (committed: bool)
      requires Proper(State())
      modifies this`runs, this`reservations, this`states, this`accepted, this`log
      ensures State() == AfterCommit(old(State()), id)
      ensures committed <==> old(CommitSucceeds(State(), id))
      ensures committed ==> |runs| == old(|runs|) > 0 && runs[|runs| - 1].queue == old(runs[|runs| - 1].queue) + [id]
    {
      var current := |runs| - 1;
      if id !in reservations || id !in states || states[id] != Reserved {
        return false;
      }
      if closed || reservations[id] != current || runs[current].mode != Running || |runs[current].queue| >= capacity {
        CancelReservation(id);
        return false;
      }
      runs := runs[current := runs[current].(queue := runs[current].queue + [id])];
      reservations, states := reservations - {id}, states[id := Committed];
      committed := true;
    }

    /** Queues the reserved task, exactly once; a reservation that is still pending always can be. */
    method Commit(id: Id) returns (committed: bool)
      requires Inv(State()) && Enabled(State(), TaskRunner.Commit(id))
      modifies this
      ensures State() == After(old(State()), TaskRunner.Commit(id)) && Inv(State())
      ensures committed <==> old(id in reservations)
      ensures committed ==> |runs| == old(|runs|) > 0 && runs[|runs| - 1].queue == old(runs[|runs| - 1].queue) + [id]
    {
      hide Inv, AfterCommit, CommitSucceeds;
      OwnedIsPending(State(), id);
      PendingCommits(State(), id);
      StepKeepsInv(State(), TaskRunner.Commit(id));
      committed := CommitReserved(id);
      if id in submitting {
        submitting := submitting - {id};
        log := if committed then log else log.(resolved := log.resolved + multiset{id});
      }
    }

    method Rollback(id: Id) returns (released: bool)
      requires Inv(State()) && id in states && id !in observed
      modifies this
      ensures State() == After(old(State()), TaskRunner.Rollback(id)) && Inv(State())
      ensures released <==> old(id in reservations)
      ensures released ==> accepted == old(accepted) - 1
    {
      hide Inv;
      InvIsShape(State());
      StepKeepsInv(State(), TaskRunner.Rollback(id));
      if id !in reservations || states[id] != Reserved {
        return false;
      }
      reservations, states := reservations - {id}, states[id := RolledBack];
      accepted := accepted - 1;
      log := log.(released := log.released + multiset{id});
      released := true;
    }

    // ------------------------------------------------------------ the worker loop, between two looks at shared state

    method TakeTask(w: nat) returns (task: Id)
      requires Enabled(State(), Take(w))
      modifies this
      ensures State() == After(old(State()), Take(w)) && workers[w].at == InHand(task)
      ensures var r := workers[w].run; r == old(workers[w].run) && [task] + runs[r].queue == old(runs[r].queue)
    {
      var r := workers[w].run;
      task := runs[r].queue[0];
      runs := runs[r := runs[r].(queue := runs[r].queue[1..])];
      workers := workers[w := workers[w].(at := InHand(task))];
    }

    // The queue was empty: the worker leaves if its run no longer runs.
    method AfterEmpty(w: nat) returns (leaves: bool)
      requires Enabled(State(), Recheck(w))
      modifies this
      ensures State() == After(old(State()), Recheck(w))
      ensures leaves <==> runs[workers[w].run].mode != Running
    {
      leaves := runs[workers[w].run].mode != Running;
      workers := workers[w := workers[w].(at := if leaves then Leaving else Idle)];
    }

    // With a task in hand: run it unless the run was cancelled meanwhile.
    method DecideTask(w: nat) returns (shouldRun: bool)
      requires Enabled(State(), Decide(w))
      modifies this
      ensures State() == After(old(State()), Decide(w))
      ensures shouldRun <==> runs[workers[w].run].mode != Cancelled
    {
      var task := workers[w].at.id;
      shouldRun := runs[workers[w].run].mode != Cancelled;
      if shouldRun {
        active := active + 1;
        log := log.(started := log.started + multiset{task});
      } else {
        accepted := accepted - 1;
        log := log.(released := log.released + multiset{task}, owed := log.owed + multiset{task});
      }
      workers := workers[w := workers[w].(at := if shouldRun then Active(task) else Leaving)];
    }

    // The callback is over; what it resolved, its future included, is visible before the worker gives up its place.
    method CallbackOver(w: nat)
      requires Enabled(State(), Return(w))
      modifies this
      ensures State() == After(old(State()), Return(w)) && active == old(active) && accepted == old(accepted)
    {
      hide Gather, Proper;
      ghost var task := workers[w].at.id;
      log := log.(returned := log.returned + multiset{task}, resolved := log.resolved + Resolution(State(), task));
      workers := workers[w := workers[w].(at := Returned(workers[w].at.id))];
    }

    method EndTask(w: nat)
      requires Enabled(State(), End(w))
      modifies this
      ensures State() == After(old(State()), End(w))
    {
      hide Gather, Proper;
      ghost var task := workers[w].at.id;
      active, accepted := active - 1, accepted - 1;
      log := log.(released := log.released + multiset{task}, finished := log.finished + multiset{task});
      workers := workers[w := workers[w].(at := Idle)];
    }
  }

  lemma InvIsShape(s: Runner)
    requires Inv(s)
    ensures Shape(s)
  {
  }

  // ---------------------------------------------------------------- the loops' progress

  // The runner after some of its pending reservations were cancelled.
  function Cancelling(s: Runner, gone: set<Id>): Runner {
    s.(reservations := s.reservations - gone, states := s.states + map id | id in gone :: Dropped,
       accepted := s.accepted - |gone|, log := s.log.(released := s.log.released + multiset(gone)))
  }

  function MadeFor(reservations: map<Id, nat>, run: nat): set<Id> {
    set id | id in reservations && reservations[id] == run
  }

  lemma NoneCancelled(s: Runner)
    ensures Cancelling(s, {}) == s
  {
    var none: set<Id> := {};
    assert s.states + (map id | id in none :: Dropped) == s.states;
    assert s.log.released + multiset({}) == s.log.released;
  }

  lemma AllCancelled(s: Runner, wait: bool)
    requires Shape(s)
    ensures var t := s.(closed := true, runs := s.runs[Current(s) := CurrentRun(s).(mode := ClosedMode(CurrentRun(s).mode, wait))]);
      Pending(t) && Cancelling(t, MadeFor(s.reservations, Current(s))) == WithoutOrphans(s, wait)
  {
    assert MadeFor(s.reservations, Current(s)) == Orphans(s);
  }

  ghost predicate Pending(s: Runner) {
    forall id | id in s.reservations :: id in s.states && s.states[id] == Reserved
  }

  lemma OneMore(s: Runner, gone: set<Id>, id: Id)
    requires Pending(s)
    ensures var t := Cancelling(s, gone);
      && t.reservations == s.reservations - gone
      && (id in s.reservations && id !in gone ==>
            id in t.states && t.states[id] == Reserved && Cancelling(s, gone + {id}) == GivenUp(t, id, Dropped))
  {
    if id in s.reservations && id !in gone {
      AddedToSet(gone, id);
      assert s.log.released + multiset(gone) + multiset{id} == s.log.released + multiset(gone + {id});
      assert s.reservations - gone - {id} == s.reservations - (gone + {id});
      assert s.states + (map i | i in gone + {id} :: Dropped) == (s.states + map i | i in gone :: Dropped)[id := Dropped];
    }
  }

  // The runner after the given tasks were taken from the front of its current queue.
  function TakenOff(s: Runner, tasks: seq<Id>): Runner
    requires Proper(s)
  {
    var queue := CurrentRun(s).queue;
    var rest := if |tasks| <= |queue| then queue[|tasks|..] else [];
    s.(runs := s.runs[Current(s) := CurrentRun(s).(queue := rest)], accepted := s.accepted - |tasks|,
       log := s.log.(released := s.log.released + multiset(tasks), owed := s.log.owed + multiset(tasks)))
  }

  lemma NoneTaken(s: Runner)
    requires Proper(s)
    ensures TakenOff(s, []) == s
  {
    var queue := CurrentRun(s).queue;
    assert queue[0..] == queue;
    assert s.runs[Current(s) := CurrentRun(s).(queue := queue)] == s.runs;
    assert s.log.released + multiset([]) == s.log.released && s.log.owed + multiset([]) == s.log.owed;
  }

  lemma AllTaken(s: Runner)
    requires Proper(s)
    ensures TakenOff(s, CurrentRun(s).queue) == Drained(s)
  {
    var queue := CurrentRun(s).queue;
    assert queue[|queue|..] == [];
  }

  // The runner after the first task of its current queue was taken out to be cancelled.
  function FirstOff(s: Runner): Runner
    requires Proper(s) && CurrentRun(s).queue != []
  {
    var task := CurrentRun(s).queue[0];
    s.(runs := s.runs[Current(s) := CurrentRun(s).(queue := CurrentRun(s).queue[1..])], accepted := s.accepted - 1,
       log := s.log.(released := s.log.released + multiset{task}, owed := s.log.owed + multiset{task}))
  }

  lemma RestAfter(s: Runner, tasks: seq<Id>)
    requires Proper(s) && |tasks| < |CurrentRun(s).queue|
    ensures var t := TakenOff(s, tasks);
      Proper(t) && CurrentRun(t).queue == CurrentRun(s).queue[|tasks|..]
  {
  }

  lemma OneInBag(bag: multiset<Id>, tasks: seq<Id>, task: Id)
    ensures bag + multiset(tasks) + multiset{task} == bag + multiset(tasks + [task])
  {
  }

  lemma OneTaken(s: Runner, tasks: seq<Id>)
    requires Proper(s) && |tasks| < |CurrentRun(s).queue| && tasks <= CurrentRun(s).queue
    ensures var t := TakenOff(s, tasks);
      && Proper(t) && CurrentRun(t).queue == CurrentRun(s).queue[|tasks|..]
      && FirstOff(t) == TakenOff(s, tasks + [CurrentRun(t).queue[0]])
      && Proper(FirstOff(t)) && CurrentRun(FirstOff(t)).queue == CurrentRun(t).queue[1..]
  {
    hide TakenOff, FirstOff;
    RestAfter(s, tasks);
    FirstOffQueue(TakenOff(s, tasks));
    FirstOffLog(s, tasks, CurrentRun(s).queue[|tasks|]);
  }

  lemma FirstOffQueue(t: Runner)
    requires Proper(t) && CurrentRun(t).queue != []
    ensures Proper(FirstOff(t)) && CurrentRun(FirstOff(t)).queue == CurrentRun(t).queue[1..]
  {
  }

  lemma FirstOffLog(s: Runner, tasks: seq<Id>, task: Id)
    requires Proper(s) && |tasks| < |CurrentRun(s).queue| && task == CurrentRun(s).queue[|tasks|]
    requires Proper(TakenOff(s, tasks)) && CurrentRun(TakenOff(s, tasks)).queue == CurrentRun(s).queue[|tasks|..]
    ensures FirstOff(TakenOff(s, tasks)) == TakenOff(s, tasks + [task])
  {
    OneInBag(s.log.released, tasks, task);
    OneInBag(s.log.owed, tasks, task);
    assert CurrentRun(s).queue[|tasks|..][1..] == CurrentRun(s).queue[|tasks + [task]|..];
  }

  lemma ClosedRun(s: Runner, wait: bool)
    requires Shape(s)
    ensures var t := WithoutOrphans(s, wait);
      Proper(t) && CurrentRun(t).mode == ClosedMode(CurrentRun(s).mode, wait) && CurrentRun(t).queue == CurrentRun(s).queue
  {
  }

  lemma OwnedIsPending(s: Runner, id: Id)
    requires Inv(s)
    ensures Owned(s, id) <==> id in s.reservations
    ensures Proper(s)
  {
  }
}
