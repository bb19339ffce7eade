/** Who runs the accepted tasks: every run that was given one has its workers (services/bounded_task_runner.py:124-156,
    356-408). */
module RunnerCrew {
  import opened TaskRunner
  import opened RunnerSafety
  import opened RunnerTheorems
  import opened RunnerDraining
  import RunnerOrder

  /** How many workers were ever created for the run. */
  function CrewSize(workers: seq<Worker>, r: nat): nat {
    if workers == [] then 0
    else CrewSize(workers[..|workers| - 1], r) + if workers[|workers| - 1].run == r then 1 else 0
  }

  // A started run has as many workers as allowed, any other none; what is queued or reserved is in a started run.
  ghost predicate Crewed(s: Runner) {
    && Proper(s)
    && (forall r | 0 <= r < |s.runs| :: CrewSize(s.workers, r) == if s.runs[r].started then s.maxWorkers else 0)
    && (forall r | 0 <= r < |s.runs| && s.runs[r].queue != [] :: s.runs[r].started)
    && (forall id | id in s.reservations :: s.reservations[id] < |s.runs| && s.runs[s.reservations[id]].started)
  }

  lemma {:induction false} SameCrew(a: seq<Worker>, b: seq<Worker>, r: nat)
    requires |a| == |b| && forall w | 0 <= w < |a| :: a[w].run == b[w].run
    ensures CrewSize(a, r) == CrewSize(b, r)
  {
    if a != [] {
      SameCrew(a[..|a| - 1], b[..|b| - 1], r);
    }
  }

  lemma {:induction false} MoreCrew(a: seq<Worker>, b: seq<Worker>, r: nat)
    ensures CrewSize(a + b, r) == CrewSize(a, r) + CrewSize(b, r)
  {
    if b == [] {
      assert a + b == a;
    } else {
      assert (a + b)[..|a + b| - 1] == a + b[..|b| - 1];
      MoreCrew(a, b[..|b| - 1], r);
    }
  }

  lemma {:induction false} OneRun(workers: seq<Worker>, run: nat, r: nat)
    requires forall w | 0 <= w < |workers| :: workers[w].run == run
    ensures CrewSize(workers, r) == if r == run then |workers| else 0
  {
    if workers != [] {
      OneRun(workers[..|workers| - 1], run, r);
    }
  }

  lemma {:induction false} NoCrewYet(workers: seq<Worker>, r: nat)
    requires forall w | 0 <= w < |workers| :: workers[w].run < r
    ensures CrewSize(workers, r) == 0
  {
    if workers != [] {
      NoCrewYet(workers[..|workers| - 1], r);
    }
  }

  // ---------------------------------------------------------------- one step

  lemma CrewCrewed(s: Runner)
    requires Crewed(s)
    ensures Crewed(WithCrew(s)) && WithCrew(s).maxWorkers == s.maxWorkers
    ensures |WithCrew(s).runs| == |s.runs| && CurrentRun(WithCrew(s)).started && WithCrew(s).reservations == s.reservations
  {
    hide CrewSize;
    if !CurrentRun(s).started {
      forall r | 0 <= r < |s.runs|
        ensures CrewSize(WithCrew(s).workers, r) == CrewSize(s.workers, r) + if r == Current(s) then s.maxWorkers else 0
      {
        MoreCrew(s.workers, Crew(s), r);
        OneRun(Crew(s), Current(s), r);
      }
    }
  }

  lemma NextRunCrewed(s: Runner)
    requires Crewed(s) && s.reservations == map[]
    ensures Crewed(NextRun(s)) && NextRun(s).maxWorkers == s.maxWorkers
  {
    hide CrewSize;
    NoCrewYet(s.workers, |s.runs|);
  }

  lemma ClosedCrewed(s: Runner, wait: bool)
    requires Crewed(s)
    ensures Crewed(Closed(s, wait)) && Closed(s, wait).maxWorkers == s.maxWorkers
  {
    hide CrewSize;
  }

  lemma NothingReserved(s: Runner)
    requires Shape(s)
    ensures s.closed ==> s.reservations == map[]
    ensures Closed(s, false).reservations == map[]
  {
    assert s.reservations - Orphans(s) == map[];
  }

  lemma CallerKeepsCrew(s: Runner, step: Step)
    requires Shape(s) && Crewed(s) && Enabled(s, step) && (step.Start? || step.Restart? || step.Shutdown? || step.Reserve?)
    ensures Crewed(After(s, step)) && After(s, step).maxWorkers == s.maxWorkers
  {
    NothingReserved(s);
    OpenMeansRunning(s);
    hide Crewed, WithCrew, NextRun, Closed, Issued, Shape;
    match step
    case Start =>
      if s.closed || CurrentRun(s).mode != Running {
        NextRunCrewed(s);
        CrewCrewed(NextRun(s));
      } else {
        CrewCrewed(s);
      }
    case Restart =>
      ClosedCrewed(s, false);
      NextRunCrewed(Closed(s, false));
      CrewCrewed(NextRun(Closed(s, false)));
    case Shutdown(wait) => ClosedCrewed(s, wait);
    case Reserve(id, future) =>
      if Admits(s) {
        CrewCrewed(s);
        IssuedCrewed(WithCrew(s), id, future);
      }
  }

  lemma OpenMeansRunning(s: Runner)
    requires Shape(s)
    ensures s.closed <==> CurrentRun(s).mode != Running
  {
  }

  lemma IssuedCrewed(s: Runner, id: Id, future: bool)
    requires Crewed(s) && CurrentRun(s).started
    ensures Crewed(Issued(s, id, future)) && Issued(s, id, future).maxWorkers == s.maxWorkers
  {
    hide CrewSize;
  }

  lemma TaskKeepsCrew(s: Runner, step: Step)
    requires Shape(s) && Crewed(s) && Enabled(s, step) && (step.Commit? || step.Rollback? || step.Notify?)
    ensures Crewed(After(s, step)) && After(s, step).maxWorkers == s.maxWorkers
  {
    hide CrewSize;
  }

  lemma WorkerKeepsCrew(s: Runner, step: Step)
    requires Crewed(s) && Enabled(s, step) && ByWorker(step)
    ensures Crewed(After(s, step)) && After(s, step).maxWorkers == s.maxWorkers
  {
    var s' := After(s, step);
    WorkerStepMoves(s, step);
    WorkerLeavesRuns(s, step);
    hide After, Enabled, CrewSize;
    forall r | 0 <= r < |s.runs| ensures CrewSize(s'.workers, r) == CrewSize(s.workers, r) {
      SameCrew(s'.workers, s.workers, r);
    }
  }

  lemma WorkerLeavesRuns(s: Runner, step: Step)
    requires Enabled(s, step) && ByWorker(step)
    ensures var s' := After(s, step);
      && |s'.runs| == |s.runs| && s'.reservations == s.reservations && s'.maxWorkers == s.maxWorkers
      && forall r | 0 <= r < |s.runs| :: s'.runs[r].started == s.runs[r].started && (s'.runs[r].queue != [] ==> s.runs[r].queue != [])
  {
    hide Gather;
  }

  lemma StepKeepsCrew(s: Runner, step: Step)
    requires Shape(s) && Crewed(s) && Enabled(s, step)
    ensures Crewed(After(s, step)) && After(s, step).maxWorkers == s.maxWorkers
  {
    hide After, Enabled, Crewed, Shape;
    if ByWorker(step) {
      WorkerKeepsCrew(s, step);
    } else if step.Commit? || step.Rollback? || step.Notify? {
      TaskKeepsCrew(s, step);
    } else {
      CallerKeepsCrew(s, step);
    }
  }

  // ---------------------------------------------------------------- what the calls do to admission

  /** The run that admits tasks, or admitted them last. */
  function Newest(s: Runner): RunState
    requires s.runs != []
  {
    s.runs[|s.runs| - 1]
  }

  /** A start opens a fresh run iff admission was closed, a restart always does and cancels the old one. */
  lemma OpeningMeans(s: Runner)
    requires Shape(s)
    ensures var s' := After(s, Start);
      && !s'.closed && s'.runs != [] && Newest(s').mode == Running && Newest(s').started
      && |s'.runs| == |s.runs| + (if s.closed then 1 else 0) && Newest(s').queue == (if s.closed then [] else Newest(s).queue)
    ensures var s' := After(s, Restart);
      && !s'.closed && |s'.runs| == |s.runs| + 1 && Newest(s') == RunState([], Running, true) && s'.reservations == map[]
      && s'.runs[|s.runs| - 1].mode == Cancelled && s'.runs[|s.runs| - 1].queue == []
  {
    NothingReserved(s);
    hide Crew;
  }

  /** A shutdown closes admission and drops the reservations. It cancels the run and its queue unless it waits for the tasks; a
      second one that waits changes nothing. */
  lemma ShutdownMeans(s: Runner, wait: bool)
    requires Shape(s)
    ensures var s' := After(s, Shutdown(wait));
      && s'.closed && |s'.runs| == |s.runs| && s'.reservations == map[]
      && Newest(s').mode == (if !wait then Cancelled else if s.closed then Newest(s).mode else Draining)
      && (Newest(s').mode != Cancelled ==> Newest(s').queue == Newest(s).queue)
      && (Newest(s').mode == Cancelled ==> Newest(s').queue == [])
  {
    assert s.reservations - Orphans(s) == map[];
  }

  /** A reservation is made iff admission is open and there is capacity left, and then for the current run. */
  lemma ReserveMeans(s: Runner, id: Id, future: bool)
    requires Shape(s) && id !in s.states
    ensures var s' := After(s, Reserve(id, future));
      if !s.closed && s.accepted < s.capacity then
        s'.reservations == s.reservations[id := |s.runs| - 1] && s'.accepted == s.accepted + 1
      else s' == s
  {
    hide Crew;
  }

  // ---------------------------------------------------------------- executions

  /** In every reachable state: a run that has a task queued or a reservation pending was started, a started run got exactly as
      many workers as are allowed, and as long as it admits tasks none of them leaves. So accepted work never waits for workers
      that are not there, unless its run was shut down. */
  lemma {:induction false} AcceptedWorkIsStaffed(maxWorkers: nat, capacity: nat, states: seq<Runner>, steps: seq<Step>, k: nat, r: nat)
    requires Execution(maxWorkers, capacity, states, steps) && k < |states| && r < |states[k].runs|
    ensures CrewSize(states[k].workers, r) == if states[k].runs[r].started then maxWorkers else 0
    ensures states[k].runs[r].queue != [] || r in states[k].reservations.Values ==> states[k].runs[r].started
    ensures states[k].runs[r].mode == Running ==>
      forall w: nat | BelongsTo(states[k], w, r) :: !HasLeft(states[k].workers[w].at)
  {
    hide Execution, OnDuty, CrewSize;
    CrewedAndOnDuty(maxWorkers, capacity, states, steps, k);
    DutyOf(states[k], r);
  }

  lemma DutyOf(s: Runner, r: nat)
    requires OnDuty(s) && r < |s.runs|
    ensures s.runs[r].mode == Running ==> forall w: nat | BelongsTo(s, w, r) :: !HasLeft(s.workers[w].at)
  {
  }

  lemma {:induction false} CrewedAndOnDuty(maxWorkers: nat, capacity: nat, states: seq<Runner>, steps: seq<Step>, k: nat)
    requires Execution(maxWorkers, capacity, states, steps) && k < |states|
    ensures Crewed(states[k]) && OnDuty(states[k]) && states[k].maxWorkers == maxWorkers
  {
    hide After, Enabled, Inv, OnDuty, Crewed;
    if k == 0 {
      OpenedCrewed(maxWorkers, capacity);
    } else {
      CrewedAndOnDuty(maxWorkers, capacity, states, steps, k - 1);
      Reachable(maxWorkers, capacity, states, steps, k - 1);
      RunnerOrder.InvShape(states[k - 1]);
      StepKeepsCrew(states[k - 1], steps[k - 1]);
      StepKeepsDuty(states[k - 1], steps[k - 1]);
    }
  }

  lemma OpenedCrewed(maxWorkers: nat, capacity: nat)
    ensures Crewed(Opened(maxWorkers, capacity)) && OnDuty(Opened(maxWorkers, capacity))
  {
  }
}
