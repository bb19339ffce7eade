/** What callers of the task runner may rely on, in every reachable state (services/bounded_task_runner.py). */
module RunnerTheorems {
  import opened TaskRunner
  import opened RunnerSafety

  lemma {:induction false} ActiveHoldSlots(workers: seq<Worker>)
    ensures |Gather(workers, ActiveBag)| <= |Gather(workers, SlotBag)|
  {
    if workers != [] {
      ActiveHoldSlots(workers[..|workers| - 1]);
    }
  }

  /** Accepted work is exactly what is reserved, queued, in hand or active, over all generations, and never exceeds the
      capacity; callbacks never outnumber the workers allowed, even while an old generation's are still running. */
  lemma AcceptedWork(maxWorkers: nat, capacity: nat, states: seq<Runner>, steps: seq<Step>, k: nat)
    requires Execution(maxWorkers, capacity, states, steps) && k < |states|
    ensures var s := states[k];
      && s.accepted == |s.reservations| + |Queued(s)| + |Handed(s)| + |Acting(s)| <= s.capacity
      && s.active == |Acting(s)| <= s.maxWorkers
      && Proper(s) && forall id | id in s.reservations :: s.reservations[id] == Current(s)
  {
    hide Execution, Ledger, Futures;
    Reachable(maxWorkers, capacity, states, steps, k);
    ActiveHoldSlots(states[k].workers);
  }

  /** A reservation that is still pending can always be committed: neither a full queue nor a closed run is ever met. */
  lemma NeverFull(maxWorkers: nat, capacity: nat, states: seq<Runner>, steps: seq<Step>, k: nat, id: Id)
    requires Execution(maxWorkers, capacity, states, steps) && k < |states| && id in states[k].reservations
    ensures Proper(states[k]) && CommitSucceeds(states[k], id)
  {
    Reachable(maxWorkers, capacity, states, steps, k);
    hide Execution, Counts, Ledger, Futures;
    PendingCommits(states[k], id);
  }

  // ---------------------------------------------------------------- callbacks that returned

  function ReturnedBag(w: Worker): multiset<Id> { if w.at.Returned? then multiset{w.at.id} else multiset{} }
  function CallBag(w: Worker): multiset<Id> { if w.at.Active? then multiset{w.at.id} else multiset{} }

  /** The tasks whose callback is running. */
  function Calling(s: Runner): multiset<Id> { Gather(s.workers, CallBag) }

  // A returned callback's worker is still to give up its place, or has.
  ghost predicate Returns(s: Runner) {
    s.log.returned == Gather(s.workers, ReturnedBag) + s.log.finished
  }

  lemma {:induction false} ActiveCallsOrReturned(workers: seq<Worker>)
    ensures Gather(workers, ActiveBag) == Gather(workers, CallBag) + Gather(workers, ReturnedBag)
  {
    if workers != [] {
      ActiveCallsOrReturned(workers[..|workers| - 1]);
    }
  }

  lemma ReturnedMove(s: Runner, w: nat, at: Place)
    requires w < |s.workers|
    ensures var x, y := s.workers[w], s.workers[w].(at := at);
      Shifted(Gather(s.workers, ReturnedBag), Gather(Moved(s, w, at).workers, ReturnedBag), ReturnedBag(x), ReturnedBag(y))
  {
    var x := s.workers[w].(at := at);
    GatherUpdate(s.workers, ReturnedBag, w, x);
    Shift(Gather(s.workers, ReturnedBag), Gather(Moved(s, w, at).workers, ReturnedBag), ReturnedBag(s.workers[w]), ReturnedBag(x));
  }

  lemma CrewReturns(s: Runner)
    requires Proper(s)
    ensures Gather(WithCrew(s).workers, ReturnedBag) == Gather(s.workers, ReturnedBag)
    ensures WithCrew(s).log == s.log
  {
    if !CurrentRun(s).started {
      GatherAppend(s.workers, ReturnedBag, Crew(s));
    }
  }

  // Callers only ever add workers that have run nothing.
  lemma CallerKeepsReturns(s: Runner, step: Step)
    requires Enabled(s, step) && Returns(s)
    requires step.Start? || step.Restart? || step.Shutdown? || step.Reserve? || step.Commit? || step.Rollback? || step.Notify?
    ensures Returns(After(s, step))
  {
    hide Gather, WithCrew;
    match step
    case Start => CrewReturns(if s.closed || CurrentRun(s).mode != Running then NextRun(s) else s);
    case Restart => CrewReturns(NextRun(Closed(s, false)));
    case Reserve(_, _) => CrewReturns(s);
    case _ =>
  }

  // A worker step that moves the worker between places without a returned callback.
  lemma PlainMoveReturns(s: Runner, w: nat, at: Place, s': Runner)
    requires Returns(s) && w < |s.workers| && !s.workers[w].at.Returned? && !at.Returned?
    requires s'.workers == Moved(s, w, at).workers && s'.log.returned == s.log.returned && s'.log.finished == s.log.finished
    ensures Returns(s')
  {
    ReturnedMove(s, w, at);
    hide Gather;
  }

  lemma ReturnReturns(s: Runner, w: nat)
    requires Returns(s) && Enabled(s, Return(w))
    ensures Returns(CallbackReturned(s, w))
  {
    ReturnedMove(s, w, Returned(s.workers[w].at.id));
    hide Gather, Resolution;
  }

  lemma EndReturns(s: Runner, w: nat)
    requires Returns(s) && Enabled(s, End(w))
    ensures Returns(Ended(s, w))
  {
    ReturnedMove(s, w, Idle);
    hide Gather;
  }

  lemma WorkerKeepsReturns(s: Runner, step: Step)
    requires Enabled(s, step) && Returns(s)
    requires step.AcquireSlot? || step.Take? || step.SeeEmpty? || step.Recheck? || step.Decide? || step.Return? || step.End? || step.Leave?
    ensures Returns(After(s, step))
  {
    hide Returns, Gather;
    match step
    case Return(w) => ReturnReturns(s, w);
    case End(w) => EndReturns(s, w);
    case AcquireSlot(w) => PlainMoveReturns(s, w, Idle, After(s, step));
    case Take(w) => PlainMoveReturns(s, w, After(s, step).workers[w].at, After(s, step));
    case SeeEmpty(w) => PlainMoveReturns(s, w, SawEmpty, After(s, step));
    case Recheck(w) => PlainMoveReturns(s, w, After(s, step).workers[w].at, After(s, step));
    case Decide(w) => PlainMoveReturns(s, w, After(s, step).workers[w].at, After(s, step));
    case Leave(w) => PlainMoveReturns(s, w, Exited, After(s, step));
  }

  lemma {:induction false} AlwaysReturns(maxWorkers: nat, capacity: nat, states: seq<Runner>, steps: seq<Step>, k: nat)
    requires Execution(maxWorkers, capacity, states, steps) && k < |states|
    ensures Returns(states[k])
  {
    if k > 0 {
      AlwaysReturns(maxWorkers, capacity, states, steps, k - 1);
      var s, step := states[k - 1], steps[k - 1];
      hide Returns, Enabled, After, Opened;
      if step.Start? || step.Restart? || step.Shutdown? || step.Reserve? || step.Commit? || step.Rollback? || step.Notify? {
        CallerKeepsReturns(s, step);
      } else {
        WorkerKeepsReturns(s, step);
      }
    }
  }

  // Of a started task, the callback is running or has returned.
  lemma StartedCallsOrReturned(s: Runner, id: Id)
    requires Ledger(s) && Returns(s)
    ensures s.log.started[id] == Calling(s)[id] + s.log.returned[id]
  {
    ActiveCallsOrReturned(s.workers);
    OnlyCommitted(s, id);
    hide Gather, Ledger;
  }

  // ---------------------------------------------------------------- disposal

  /** A committed task is started at most once or cancelled at most once, never both; a slot is released at most once,
      and only when the task is nowhere any more; a future is resolved at most once. */
  lemma TaskDisposal(maxWorkers: nat, capacity: nat, states: seq<Runner>, steps: seq<Step>, k: nat, id: Id)
    requires Execution(maxWorkers, capacity, states, steps) && k < |states|
    ensures var s := states[k];
      && s.log.started[id] + s.log.owed[id] + s.log.notified[id] <= 1
      && s.log.finished[id] <= s.log.started[id]
      && s.log.released[id] <= 1 && (s.log.released[id] == 1 ==> id !in s.reservations && id !in Queued(s) + Handed(s) + Acting(s))
      && s.log.resolved[id] <= 1
  {
    hide Execution, Shape, Counts, Queued, Handed, Acting;
    Reachable(maxWorkers, capacity, states, steps, k);
    OnlyCommitted(states[k], id);
    ReleasedOnce(states[k], id);
    AlwaysReturns(maxWorkers, capacity, states, steps, k);
    ResolvedOnce(states[k], id);
  }

  lemma ReleasedOnce(s: Runner, id: Id)
    requires Ledger(s)
    ensures s.log.released[id] <= 1
    ensures s.log.released[id] == 1 ==> id !in s.reservations && id !in Queued(s) + Handed(s) + Acting(s)
  {
    hide Queued, Handed, Acting, CommittedIds;
    assert multiset(s.states.Keys)[id] <= 1;
    assert multiset(s.states.Keys)[id] ==
           multiset(s.reservations.Keys)[id] + Queued(s)[id] + Handed(s)[id] + Acting(s)[id] + s.log.released[id];
    assert id in s.reservations ==> multiset(s.reservations.Keys)[id] == 1;
  }

  lemma ResolvedOnce(s: Runner, id: Id)
    requires Ledger(s) && Futures(s) && Returns(s)
    ensures s.log.resolved[id] <= 1
  {
    hide Queued, Handed, Acting, Ledger, Calling, Returns;
    OnlyCommitted(s, id);
    StartedCallsOrReturned(s, id);
  }

  /** In every reachable state a submitted future has its answer exactly when its task is not queued, not in hand, not
      being run and not owed a cancellation: the answer comes when the callback returns, before its worker is free again. */
  lemma FutureAnswered(maxWorkers: nat, capacity: nat, states: seq<Runner>, steps: seq<Step>, k: nat, id: Id)
    requires Execution(maxWorkers, capacity, states, steps) && k < |states|
    requires id in states[k].observed && id !in states[k].submitting
    ensures var s := states[k];
      s.log.resolved[id] ==
        if id in Queued(s) || id in Handed(s) || id in Calling(s) || id in s.log.owed then 0 else 1
  {
    hide Execution, Queued, Handed, Acting, Calling, Ledger, Shape, Counts, Returns;
    Reachable(maxWorkers, capacity, states, steps, k);
    AlwaysReturns(maxWorkers, capacity, states, steps, k);
    OnlyCommitted(states[k], id);
    StartedCallsOrReturned(states[k], id);
  }

  /** When nothing is reserved, queued, in hand or active, every slot ever given out was released exactly once. */
  lemma AllSlotsReturn(s: Runner)
    requires Inv(s) && s.reservations == map[] && s.accepted == 0
    ensures s.log.released == multiset(s.states.Keys)
  {
    hide Gather, Queued, Handed, Acting, SlotsHeld, Shape, Futures;
    assert multiset(s.reservations.Keys) == multiset{};
    NoneLeft(Queued(s));
    NoneLeft(Handed(s));
    NoneLeft(Acting(s));
  }

  lemma NoneLeft(bag: multiset<Id>)
    ensures |bag| == 0 ==> bag == multiset{}
  {
  }

  /** Once a run is cancelled it stays cancelled and none of its tasks is started any more. */
  lemma CancelledStartsNothing(s: Runner, step: Step, r: nat, id: Id)
    requires Inv(s) && Enabled(s, step) && r < |s.runs| && s.runs[r].mode == Cancelled
    ensures var s' := After(s, step);
      && r < |s'.runs| && s'.runs[r].mode == Cancelled
      && (s'.log.started[id] > s.log.started[id] ==> step.Decide? && s.workers[step.w].run != r)
  {
    hide Counts, Ledger, Futures, Gather, Closed, WithCrew;
    StaysCancelled(s, step, r);
    StartsOnlyBySomeWorker(s, step, id);
  }

  lemma CrewKeepsCancelled(s: Runner, r: nat)
    requires Proper(s) && r < |s.runs| && s.runs[r].mode == Cancelled
    ensures r < |WithCrew(s).runs| && WithCrew(s).runs[r].mode == Cancelled
  {
    hide Crew;
  }

  lemma ClosingKeepsCancelled(s: Runner, wait: bool, r: nat)
    requires Proper(s) && r < |s.runs| && s.runs[r].mode == Cancelled
    ensures r < |Closed(s, wait).runs| && Closed(s, wait).runs[r].mode == Cancelled
    ensures Proper(NextRun(Closed(s, wait)))
  {
    hide Orphans;
  }

  lemma StaysCancelled(s: Runner, step: Step, r: nat)
    requires Shape(s) && Enabled(s, step) && r < |s.runs| && s.runs[r].mode == Cancelled
    ensures r < |After(s, step).runs| && After(s, step).runs[r].mode == Cancelled
  {
    hide Gather, Shape, WithCrew, Closed;
    match step
    case Start => CrewKeepsCancelled(if s.closed || CurrentRun(s).mode != Running then NextRun(s) else s, r);
    case Restart =>
      ClosingKeepsCancelled(s, false, r);
      CrewKeepsCancelled(NextRun(Closed(s, false)), r);
    case Shutdown(wait) => ClosingKeepsCancelled(s, wait, r);
    case Reserve(_, _) => CrewKeepsCancelled(s, r);
    case _ =>
  }

  lemma StartsOnlyBySomeWorker(s: Runner, step: Step, id: Id)
    requires Enabled(s, step)
    ensures After(s, step).log.started[id] > s.log.started[id] ==>
      step.Decide? && s.runs[s.workers[step.w].run].mode != Cancelled
  {
    hide Gather;
  }

  // ---------------------------------------------------------------- draining

  // The states of one short run with a single worker and a single task.
  function Snapshot(run: RunState, reservations: map<Id, nat>, states: map<Id, Outcome>, accepted: int, slots: int,
                    workers: seq<Worker>): Runner
  {
    Opened(1, 2).(runs := [run], reservations := reservations, states := states, accepted := accepted,
                  closed := run.mode != Running, slots := slots, workers := workers)
  }

  function Stage(i: nat): Runner {
    var idle := RunState([], Running, true);
    var queued := RunState([7], Running, true);
    var draining := RunState([7], Draining, true);
    if i == 0 then Opened(1, 2)
    else if i == 1 then Snapshot(idle, map[], map[], 0, 1, [Worker(0, Waiting)])
    else if i == 2 then Snapshot(idle, map[], map[], 0, 0, [Worker(0, Idle)])
    else if i == 3 then Snapshot(idle, map[], map[], 0, 0, [Worker(0, SawEmpty)])
    else if i == 4 then Snapshot(idle, map[7 := 0], map[7 := Reserved], 1, 0, [Worker(0, SawEmpty)])
    else if i == 5 then Snapshot(queued, map[], map[7 := Committed], 1, 0, [Worker(0, SawEmpty)])
    else if i == 6 then Snapshot(draining, map[], map[7 := Committed], 1, 0, [Worker(0, SawEmpty)])
    else if i == 7 then Snapshot(draining, map[], map[7 := Committed], 1, 0, [Worker(0, Leaving)])
    else Snapshot(draining, map[], map[7 := Committed], 1, 1, [Worker(0, Exited)])
  }

  function Script(i: nat): Step {
    if i == 0 then Start
    else if i == 1 then AcquireSlot(0)
    else if i == 2 then SeeEmpty(0)
    else if i == 3 then Reserve(7, false)
    else if i == 4 then Commit(7)
    else if i == 5 then Shutdown(true)
    else if i == 6 then Recheck(0)
    else Leave(0)
  }

  lemma ScriptRuns(i: nat)
    requires i < 8
    ensures Enabled(Stage(i), Script(i)) && After(Stage(i), Script(i)) == Stage(i + 1)
  {
    hide Enabled, After, Stage, Script;
    if i == 0 {
      ScriptStarts();
    } else if i == 3 {
      ScriptReserves();
    } else if i == 4 {
      ScriptCommits();
    } else if i == 5 {
      ScriptCloses();
    } else if i == 1 {
      ScriptAcquires();
    } else if i == 2 {
      ScriptLooks();
    } else {
      ScriptLeaves(i);
    }
  }

  lemma ScriptStarts()
    ensures Enabled(Stage(0), Script(0)) && After(Stage(0), Script(0)) == Stage(1)
  {
    assert Crew(Stage(0)) == [Worker(0, Waiting)];
  }

  lemma ScriptAcquires()
    ensures Enabled(Stage(1), Script(1)) && After(Stage(1), Script(1)) == Stage(2)
  {
  }

  lemma ScriptLooks()
    ensures Enabled(Stage(2), Script(2)) && After(Stage(2), Script(2)) == Stage(3)
  {
  }

  lemma ScriptReserves()
    ensures Enabled(Stage(3), Script(3)) && After(Stage(3), Script(3)) == Stage(4)
  {
  }

  lemma ScriptCommits()
    ensures Enabled(Stage(4), Script(4)) && After(Stage(4), Script(4)) == Stage(5)
  {
    var s := Stage(4);
    assert s.reservations - {7} == map[] && s.states[7 := Committed] == map[7 := Committed];
    assert CurrentRun(s).queue + [7] == [7];
    assert s.runs[0 := RunState([7], Running, true)] == [RunState([7], Running, true)];
  }

  lemma ScriptLeaves(i: nat)
    requires i == 6 || i == 7
    ensures Enabled(Stage(i), Script(i)) && After(Stage(i), Script(i)) == Stage(i + 1)
  {
  }

  lemma ScriptCloses()
    ensures Enabled(Stage(5), Script(5)) && After(Stage(5), Script(5)) == Stage(6)
  {
    var s := Stage(5);
    assert Orphans(s) == {};
    assert s.log.released + multiset({}) == s.log.released;
    assert s.states + (map id | id in Orphans(s) :: Dropped) == s.states;
  }

  ghost predicate Strands(s: Runner, id: Id) {
    Proper(s) && id in CurrentRun(s).queue && CurrentRun(s).mode == Draining && forall w | w in s.workers :: w.at == Exited
  }

  /** Draining is no promise to run everything: a worker that saw the queue empty before a task was committed leaves
      when it finds the run draining, and the task stays in the queue with no worker left to take it. */
  lemma DrainingMayStrandATask()
    ensures exists states: seq<Runner>, steps: seq<Step> ::
      Execution(1, 2, states, steps) && Strands(states[|steps|], 7)
  {
    var states := seq(9, i requires 0 <= i < 9 => Stage(i));
    var steps := seq(8, i requires 0 <= i < 8 => Script(i));
    assert Strands(states[8], 7);
    hide Stage, Script, Strands;
    forall i | 0 <= i < 8 ensures Enabled(states[i], steps[i]) && states[i + 1] == After(states[i], steps[i]) {
      ScriptRuns(i);
    }
    assert states[0] == Opened(1, 2) by { FirstStage(); }
    assert Execution(1, 2, states, steps);
  }

  lemma FirstStage()
    ensures Stage(0) == Opened(1, 2)
  {
  }
}
