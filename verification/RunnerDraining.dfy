/** What a draining shutdown leaves behind (services/bounded_task_runner.py:289-354, 379-408). */
module RunnerDraining {
  import opened TaskRunner
  import opened RunnerSafety
  import opened RunnerTheorems

  predicate BelongsTo(s: Runner, w: nat, r: nat) {
    w < |s.workers| && s.workers[w].run == r
  }

  /** The worker will look at the queue again before it can leave. */
  predicate WillLook(at: Place) {
    at.Waiting? || at.Idle? || at.InHand? || at.Active? || at.Returned?
  }

  predicate HasLeft(at: Place) {
    at.Leaving? || at.Exited?
  }

  ghost predicate Staffed(s: Runner, r: nat) {
    exists w: nat :: BelongsTo(s, w, r) && WillLook(s.workers[w].at)
  }

  /** Every worker of the run has seen the queue empty and not looked at the run's mode since. */
  ghost predicate AllSawEmpty(s: Runner, r: nat) {
    forall w: nat | BelongsTo(s, w, r) :: s.workers[w].at == SawEmpty
  }

  ghost predicate NobodyLooks(s: Runner, r: nat) {
    forall w: nat | BelongsTo(s, w, r) :: s.workers[w].at == SawEmpty || HasLeft(s.workers[w].at)
  }

  ghost predicate AllLeft(s: Runner, r: nat) {
    forall w: nat | BelongsTo(s, w, r) :: HasLeft(s.workers[w].at)
  }

  // While a run admits tasks, none of its workers leaves.
  ghost predicate OnDuty(s: Runner) {
    Proper(s) && forall w | 0 <= w < |s.workers| && s.runs[s.workers[w].run].mode == Running :: !HasLeft(s.workers[w].at)
  }

  lemma CrewOnDuty(s: Runner)
    requires OnDuty(s)
    ensures OnDuty(WithCrew(s))
  {
  }

  lemma NextRunOnDuty(s: Runner)
    requires OnDuty(s)
    ensures OnDuty(NextRun(s))
  {
  }

  lemma ClosedOnDuty(s: Runner, wait: bool)
    requires OnDuty(s)
    ensures OnDuty(Closed(s, wait))
  {
    hide Orphans;
  }

  predicate ByWorker(step: Step) {
    step.AcquireSlot? || step.Take? || step.SeeEmpty? || step.Recheck? || step.Decide? || step.Return? || step.End? || step.Leave?
  }

  // A worker step moves one worker and may take the head of its run's queue; modes stay.
  lemma WorkerStep(s: Runner, step: Step)
    requires Enabled(s, step) && ByWorker(step)
    ensures var s' := After(s, step);
      && |s'.runs| == |s.runs| && (forall r | 0 <= r < |s.runs| :: s'.runs[r].mode == s.runs[r].mode)
      && step.w < |s.workers| && s'.workers == s.workers[step.w := s.workers[step.w].(at := s'.workers[step.w].at)]
      && (forall r | 0 <= r < |s.runs| && (!step.Take? || r != s.workers[step.w].run) :: s'.runs[r].queue == s.runs[r].queue)
      && (HasLeft(s'.workers[step.w].at) ==> s.runs[s.workers[step.w].run].mode != Running || HasLeft(s.workers[step.w].at))
  {
    WorkerStepMoves(s, step);
    WorkerStepTakes(s, step);
    hide After;
  }

  lemma WorkerStepMoves(s: Runner, step: Step)
    requires Enabled(s, step) && ByWorker(step)
    ensures var s' := After(s, step);
      && step.w < |s.workers| && s'.workers == s.workers[step.w := s.workers[step.w].(at := s'.workers[step.w].at)]
      && (HasLeft(s'.workers[step.w].at) ==> s.runs[s.workers[step.w].run].mode != Running || HasLeft(s.workers[step.w].at))
  {
    hide Gather;
  }

  lemma WorkerStepTakes(s: Runner, step: Step)
    requires Enabled(s, step) && ByWorker(step)
    ensures var s' := After(s, step);
      && |s'.runs| == |s.runs| && (forall r | 0 <= r < |s.runs| :: s'.runs[r].mode == s.runs[r].mode)
      && step.w < |s.workers|
      && (forall r | 0 <= r < |s.runs| && (!step.Take? || r != s.workers[step.w].run) :: s'.runs[r].queue == s.runs[r].queue)
  {
    hide Gather;
  }

  lemma WorkerStepOnDuty(s: Runner, step: Step)
    requires OnDuty(s) && Enabled(s, step) && ByWorker(step)
    ensures OnDuty(After(s, step))
  {
    WorkerStep(s, step);
    hide After, Enabled;
  }

  lemma StepKeepsDuty(s: Runner, step: Step)
    requires OnDuty(s) && Enabled(s, step)
    ensures OnDuty(After(s, step))
  {
    if ByWorker(step) {
      WorkerStepOnDuty(s, step);
    } else {
      CallerStepOnDuty(s, step);
    }
  }

  lemma CallerStepOnDuty(s: Runner, step: Step)
    requires OnDuty(s) && Enabled(s, step) && !ByWorker(step)
    ensures OnDuty(After(s, step))
  {
    match step
    case Start =>
      hide OnDuty, WithCrew, NextRun;
      assert Proper(s);
      if s.closed || CurrentRun(s).mode != Running {
        NextRunOnDuty(s);
        CrewOnDuty(NextRun(s));
      } else {
        CrewOnDuty(s);
      }
    case Restart =>
      hide OnDuty, WithCrew, NextRun, Closed;
      ClosedOnDuty(s, false);
      NextRunOnDuty(Closed(s, false));
      CrewOnDuty(NextRun(Closed(s, false)));
    case Shutdown(wait) => ClosedOnDuty(s, wait);
    case Reserve(_, _) =>
      hide WithCrew;
      if Admits(s) {
        CrewOnDuty(s);
      }
    case Commit(_) =>
    case Rollback(_) =>
    case Notify(_) =>
  }

  lemma {:induction false} AlwaysOnDuty(maxWorkers: nat, capacity: nat, states: seq<Runner>, steps: seq<Step>, k: nat)
    requires Execution(maxWorkers, capacity, states, steps) && k < |states|
    ensures OnDuty(states[k])
  {
    if k > 0 {
      AlwaysOnDuty(maxWorkers, capacity, states, steps, k - 1);
      hide OnDuty, Enabled, After;
      StepKeepsDuty(states[k - 1], steps[k - 1]);
    }
  }

  // ---------------------------------------------------------------- one step of a draining run

  // The run's own workers stand where they stood, it gets no new ones, and its queue is untouched unless it is cancelled.
  ghost predicate LeftAlone(s: Runner, s': Runner, r: nat)
    requires r < |s.runs|
  {
    && r < |s'.runs| && |s.workers| <= |s'.workers| && s'.workers[..|s.workers|] == s.workers
    && (forall w | |s.workers| <= w < |s'.workers| :: s'.workers[w].run != r)
    && (s'.runs[r].mode == Cancelled || s'.runs[r] == s.runs[r])
  }

  lemma NextRunLeavesAlone(s: Runner, r: nat)
    requires Proper(s) && r < |s.runs|
    ensures LeftAlone(s, WithCrew(NextRun(s)), r)
  {
  }

  lemma CrewLeavesAlone(s: Runner, r: nat)
    requires Proper(s) && r < |s.runs| - 1
    ensures LeftAlone(s, WithCrew(s), r)
  {
  }

  lemma ClosedLeavesAlone(s: Runner, wait: bool, r: nat)
    requires Proper(s) && r < |s.runs| && s.runs[r].mode == Draining
    ensures LeftAlone(s, Closed(s, wait), r) && Proper(Closed(s, wait))
  {
    hide Orphans;
  }

  lemma CallerLeavesAlone(s: Runner, step: Step, r: nat)
    requires Shape(s) && Enabled(s, step) && !ByWorker(step) && r < |s.runs| && s.runs[r].mode == Draining
    ensures LeftAlone(s, After(s, step), r)
  {
    match step
    case Start =>
      hide WithCrew;
      if s.closed || CurrentRun(s).mode != Running {
        NextRunLeavesAlone(s, r);
      } else {
        CrewLeavesAlone(s, r);
      }
    case Restart =>
      hide WithCrew, Closed, Shape;
      ClosedLeavesAlone(s, false, r);
      NextRunLeavesAlone(Closed(s, false), r);
      assert Closed(s, false).workers[..|s.workers|] == s.workers;
      LeftAloneTwice(s, Closed(s, false), WithCrew(NextRun(Closed(s, false))), r);
    case Shutdown(wait) => ClosedLeavesAlone(s, wait, r);
    case Reserve(_, _) =>
      if Admits(s) {
        CrewLeavesAlone(s, r);
      }
    case Commit(_) =>
    case Rollback(_) =>
    case Notify(_) =>
  }

  lemma LeftAloneTwice(s: Runner, t: Runner, u: Runner, r: nat)
    requires r < |s.runs| && LeftAlone(s, t, r) && LeftAlone(t, u, r) && (t.runs[r].mode == Cancelled ==> u.runs[r].mode == Cancelled)
    ensures LeftAlone(s, u, r)
  {
    assert u.workers[..|s.workers|] == u.workers[..|t.workers|][..|s.workers|];
    forall w | |s.workers| <= w < |u.workers| ensures u.workers[w].run != r {
      if w < |t.workers| {
        assert u.workers[..|t.workers|][w] == t.workers[w];
      }
    }
  }

  /** A run nobody will look at again stays that way, with the same queue; one that has a worker to look keeps one
      as long as there is something in its queue. */
  ghost predicate DrainsOn(s: Runner, s': Runner, r: nat)
    requires r < |s.runs| && r < |s'.runs|
  {
    && (s.runs[r].queue == [] || Staffed(s, r) ==> s'.runs[r].queue == [] || Staffed(s', r))
    && (NobodyLooks(s, r) ==> NobodyLooks(s', r) && s'.runs[r].queue == s.runs[r].queue)
  }

  lemma LeftAloneDrains(s: Runner, s': Runner, r: nat)
    requires r < |s.runs| && LeftAlone(s, s', r) && s'.runs[r].mode == Draining
    ensures DrainsOn(s, s', r)
  {
    forall w | 0 <= w < |s.workers| ensures s'.workers[w] == s.workers[w] {
      assert s'.workers[..|s.workers|][w] == s.workers[w];
    }
    if Staffed(s, r) {
      var w: nat :| BelongsTo(s, w, r) && WillLook(s.workers[w].at);
      assert BelongsTo(s', w, r) && WillLook(s'.workers[w].at);
    }
    forall w: nat | BelongsTo(s', w, r) && NobodyLooks(s, r) ensures s'.workers[w].at == SawEmpty || HasLeft(s'.workers[w].at) {
      assert BelongsTo(s, w, r);
    }
  }

  lemma WorkerDrains(s: Runner, step: Step, r: nat)
    requires Proper(s) && Enabled(s, step) && ByWorker(step) && r < |s.runs| && s.runs[r].mode == Draining
    ensures After(s, step).runs[r].mode == Draining && DrainsOn(s, After(s, step), r)
  {
    WorkerStep(s, step);
    if s.runs[r].queue == [] || Staffed(s, r) {
      WorkerLooksOn(s, step, r);
    }
    WorkerStaysAway(s, step, r);
    hide After, Enabled;
  }

  lemma WorkerLooksOn(s: Runner, step: Step, r: nat)
    requires Proper(s) && Enabled(s, step) && ByWorker(step) && r < |s.runs| && s.runs[r].mode == Draining
    requires s.runs[r].queue == [] || Staffed(s, r)
    ensures r < |After(s, step).runs| && (After(s, step).runs[r].queue == [] || Staffed(After(s, step), r))
  {
    var s' := After(s, step);
    WorkerStep(s, step);
    PlaceAfter(s, step, r);
    hide After, Enabled;
    if s.runs[r].queue != [] {
      var w: nat :| BelongsTo(s, w, r) && WillLook(s.workers[w].at);
      assert BelongsTo(s', w, r);
    }
  }

  lemma PlaceAfter(s: Runner, step: Step, r: nat)
    requires Proper(s) && Enabled(s, step) && ByWorker(step) && r < |s.runs| && s.runs[r].mode == Draining
    ensures step.w < |s.workers| && step.w < |After(s, step).workers| && r < |After(s, step).runs|
    ensures s.workers[step.w].run == r && WillLook(s.workers[step.w].at) ==>
      WillLook(After(s, step).workers[step.w].at) || s.runs[r].queue == []
    ensures s.runs[r].queue == [] ==> After(s, step).runs[r].queue == []
    ensures s.workers[step.w].run == r && !WillLook(s.workers[step.w].at) ==> !WillLook(After(s, step).workers[step.w].at) && !step.Take?
  {
    hide Gather;
  }

  lemma WorkerStaysAway(s: Runner, step: Step, r: nat)
    requires Proper(s) && Enabled(s, step) && ByWorker(step) && r < |s.runs| && s.runs[r].mode == Draining
    ensures NobodyLooks(s, r) ==> r < |After(s, step).runs| && NobodyLooks(After(s, step), r) && After(s, step).runs[r].queue == s.runs[r].queue
  {
    var s' := After(s, step);
    WorkerStep(s, step);
    PlaceAfter(s, step, r);
    hide After, Enabled;
    if NobodyLooks(s, r) {
      assert BelongsTo(s, step.w, r) ==> !WillLook(s.workers[step.w].at);
      forall w: nat | BelongsTo(s', w, r) ensures s'.workers[w].at == SawEmpty || HasLeft(s'.workers[w].at) {
        assert BelongsTo(s, w, r);
      }
    }
  }

  /** What a step may do to a draining run. */
  lemma DrainingStep(s: Runner, step: Step, r: nat)
    requires Shape(s) && Enabled(s, step) && r < |s.runs| && s.runs[r].mode == Draining
    ensures var s' := After(s, step);
      && r < |s'.runs| && (s'.runs[r].mode == Draining || s'.runs[r].mode == Cancelled)
      && (s'.runs[r].mode == Draining ==> DrainsOn(s, s', r))
  {
    if ByWorker(step) {
      WorkerDrains(s, step, r);
      WorkerStep(s, step);
    } else {
      CallerLeavesAlone(s, step, r);
      hide After, Enabled, Shape;
      if After(s, step).runs[r].mode == Draining {
        LeftAloneDrains(s, After(s, step), r);
      }
    }
  }

  // ---------------------------------------------------------------- from the shutdown on

  lemma ShutdownKeepsWorkers(s: Runner)
    requires Shape(s) && CurrentRun(s).mode == Running
    ensures var s' := After(s, Shutdown(true)); var r := Current(s);
      && s'.workers == s.workers && |s'.runs| == |s.runs| && s'.runs[r].mode == Draining && s'.runs[r].queue == s.runs[r].queue
  {
    hide Orphans;
  }

  ghost predicate WillStrand(s: Runner, r: nat)
    requires r < |s.runs|
  {
    s.runs[r].queue != [] && AllSawEmpty(s, r)
  }

  // Right after the shutdown either nobody will look at the queue again, or it is empty or somebody will.
  lemma ShutdownDecides(s: Runner)
    requires Shape(s) && OnDuty(s) && CurrentRun(s).mode == Running
    ensures var s' := After(s, Shutdown(true)); var r := Current(s);
      && r < |s'.runs| && s'.runs[r].mode == Draining && s'.runs[r].queue == s.runs[r].queue
      && (WillStrand(s, r) ==> NobodyLooks(s', r))
      && (!WillStrand(s, r) ==> s'.runs[r].queue == [] || Staffed(s', r))
  {
    ShutdownKeepsWorkers(s);
    var s' := After(s, Shutdown(true));
    var r := Current(s);
    hide After, Shape;
    if !WillStrand(s, r) && s.runs[r].queue != [] {
      var w: nat :| BelongsTo(s, w, r) && s.workers[w].at != SawEmpty;
      assert BelongsTo(s', w, r) && WillLook(s'.workers[w].at);
    }
    forall w: nat | BelongsTo(s', w, r) && AllSawEmpty(s, r) ensures s'.workers[w].at == SawEmpty {
      assert BelongsTo(s, w, r);
    }
  }

  lemma {:induction false} UntilCancelled(maxWorkers: nat, capacity: nat, states: seq<Runner>, steps: seq<Step>, k: nat, m: nat)
    requires Execution(maxWorkers, capacity, states, steps) && k < m < |states|
    requires steps[k] == Shutdown(true) && Proper(states[k]) && CurrentRun(states[k]).mode == Running
    ensures var r := Current(states[k]);
      && r < |states[m].runs| && (states[m].runs[r].mode == Draining || states[m].runs[r].mode == Cancelled)
      && (states[m].runs[r].mode == Draining ==>
            if WillStrand(states[k], r) then NobodyLooks(states[m], r) && states[m].runs[r].queue == states[k].runs[r].queue
            else states[m].runs[r].queue == [] || Staffed(states[m], r))
    decreases m
  {
    hide Enabled, After, WillStrand, NobodyLooks, Staffed, Shape, OnDuty, Counts, Ledger, Futures, Opened;
    var r := Current(states[k]);
    if m == k + 1 {
      Reachable(maxWorkers, capacity, states, steps, k);
      AlwaysOnDuty(maxWorkers, capacity, states, steps, k);
      ShutdownDecides(states[k]);
    } else {
      UntilCancelled(maxWorkers, capacity, states, steps, k, m - 1);
      Reachable(maxWorkers, capacity, states, steps, m - 1);
      var s, step := states[m - 1], steps[m - 1];
      if s.runs[r].mode == Draining {
        DrainingStep(s, step, r);
      } else {
        StaysCancelled(s, step, r);
      }
    }
  }

  /** A draining shutdown leaves tasks behind exactly when it finds tasks queued while each of the run's workers stands
      between seeing the queue empty and looking at the run's mode: in every later state of every execution in which the
      run was not cancelled and its workers have left, its queue is non-empty iff that was so at the shutdown. */
  lemma DrainingStrandsTasksIff(maxWorkers: nat, capacity: nat, states: seq<Runner>, steps: seq<Step>, k: nat, j: nat)
    requires Execution(maxWorkers, capacity, states, steps) && k < j < |states|
    requires steps[k] == Shutdown(true) && Proper(states[k]) && CurrentRun(states[k]).mode == Running
    requires var r := Current(states[k]);
      r < |states[j].runs| && states[j].runs[r].mode == Draining && AllLeft(states[j], r)
    ensures var r := Current(states[k]);
      states[j].runs[r].queue != [] <==> states[k].runs[r].queue != [] && AllSawEmpty(states[k], r)
  {
    hide Execution;
    UntilCancelled(maxWorkers, capacity, states, steps, k, j);
  }

  /** In that case not one of the tasks is ever taken, and otherwise some worker is still there to take the next one. */
  lemma DrainingTakesAllOrNone(maxWorkers: nat, capacity: nat, states: seq<Runner>, steps: seq<Step>, k: nat, j: nat)
    requires Execution(maxWorkers, capacity, states, steps) && k < j < |states|
    requires steps[k] == Shutdown(true) && Proper(states[k]) && CurrentRun(states[k]).mode == Running
    requires Current(states[k]) < |states[j].runs| && states[j].runs[Current(states[k])].mode == Draining
    ensures var r := Current(states[k]);
      if states[k].runs[r].queue != [] && AllSawEmpty(states[k], r) then
        states[j].runs[r].queue == states[k].runs[r].queue
      else
        states[j].runs[r].queue == [] || Staffed(states[j], r)
  {
    hide Execution;
    UntilCancelled(maxWorkers, capacity, states, steps, k, j);
  }
}
