/** In which order committed tasks are taken (services/bounded_task_runner.py:185-202, 379-408). */
module RunnerOrder {
  import opened Accounts
  import opened TaskRunner
  import opened RunnerSafety
  import RunnerTheorems

  // ---------------------------------------------------------------- what one step does to one generation

  function QueueOf(s: Runner, r: nat): seq<Id> {
    if r < |s.runs| then s.runs[r].queue else []
  }

  predicate IsCancelled(s: Runner, r: nat) {
    r < |s.runs| && s.runs[r].mode == Cancelled
  }

  /** The task whose reservation becomes committed in the step, while the generation is the current one. */
  function CommittedBy(s: Runner, step: Step, s': Runner, r: nat): seq<Id> {
    if step.Commit? && |s.runs| == r + 1 && Lookup(s.states, step.id) != Some(Committed) && Lookup(s'.states, step.id) == Some(Committed)
    then [step.id] else []
  }

  /** The task that a worker of the generation has in hand after the step, and had not before. */
  function TakenBy(s: Runner, step: Step, s': Runner, r: nat): seq<Id> {
    if step.Take? && step.w < |s.workers| && step.w < |s'.workers| && s'.workers[step.w].run == r && s'.workers[step.w].at.InHand?
    then [s'.workers[step.w].at.id] else []
  }

  // Whatever the step: what a generation had queued, and what it commits, is what it hands out and keeps, in this order.
  ghost predicate InOrder(s: Runner, step: Step, s': Runner, r: nat) {
    if IsCancelled(s', r) then QueueOf(s', r) == [] && CommittedBy(s, step, s', r) == [] && TakenBy(s, step, s', r) == []
    else QueueOf(s, r) + CommittedBy(s, step, s', r) == TakenBy(s, step, s', r) + QueueOf(s', r)
  }

  ghost predicate CancelledEmpty(s: Runner) {
    Proper(s) && forall r | 0 <= r < |s.runs| && s.runs[r].mode == Cancelled :: s.runs[r].queue == []
  }

  lemma CrewOrder(s: Runner)
    requires CancelledEmpty(s)
    ensures CancelledEmpty(WithCrew(s)) && WithCrew(s).states == s.states
    ensures forall r: nat :: QueueOf(WithCrew(s), r) == QueueOf(s, r) && (IsCancelled(WithCrew(s), r) <==> IsCancelled(s, r))
  {
    assert |WithCrew(s).runs| == |s.runs|;
  }

  lemma NextRunOrder(s: Runner)
    requires CancelledEmpty(s)
    ensures CancelledEmpty(NextRun(s))
    ensures forall r: nat :: QueueOf(NextRun(s), r) == QueueOf(s, r) && (IsCancelled(NextRun(s), r) <==> IsCancelled(s, r))
  {
  }

  lemma ClosedOrder(s: Runner, wait: bool)
    requires CancelledEmpty(s)
    ensures CancelledEmpty(Closed(s, wait))
    ensures forall r: nat :: if IsCancelled(Closed(s, wait), r) then QueueOf(Closed(s, wait), r) == []
                             else QueueOf(Closed(s, wait), r) == QueueOf(s, r)
  {
    hide Orphans;
  }

  lemma CallerStepOrder(s: Runner, step: Step, r: nat)
    requires CancelledEmpty(s) && Enabled(s, step) && (step.Start? || step.Restart? || step.Shutdown? || step.Reserve?)
    ensures InOrder(s, step, After(s, step), r) && CancelledEmpty(After(s, step))
  {
    hide CancelledEmpty, WithCrew, NextRun, Closed, Issued, QueueOf, IsCancelled;
    match step
    case Start =>
      if s.closed || CurrentRun(s).mode != Running {
        NextRunOrder(s);
        CrewOrder(NextRun(s));
      } else {
        CrewOrder(s);
      }
      NoChange(s, step, After(s, step), r);
    case Restart =>
      ClosedOrder(s, false);
      NextRunOrder(Closed(s, false));
      CrewOrder(NextRun(Closed(s, false)));
      NoChange(s, step, After(s, step), r);
    case Shutdown(wait) =>
      ClosedOrder(s, wait);
      NoChange(s, step, After(s, step), r);
    case Reserve(id, future) =>
      if Admits(s) {
        CrewOrder(s);
        IssuedOrder(WithCrew(s), id, future);
      }
      NoChange(s, step, After(s, step), r);
  }

  lemma IssuedOrder(s: Runner, id: Id, future: bool)
    requires CancelledEmpty(s)
    ensures CancelledEmpty(Issued(s, id, future))
    ensures forall r: nat ::
      QueueOf(Issued(s, id, future), r) == QueueOf(s, r) && (IsCancelled(Issued(s, id, future), r) <==> IsCancelled(s, r))
  {
  }

  lemma NoChange(s: Runner, step: Step, s': Runner, r: nat)
    requires !step.Take? && !step.Commit? && CancelledEmpty(s')
    requires !IsCancelled(s', r) ==> QueueOf(s', r) == QueueOf(s, r)
    ensures InOrder(s, step, s', r)
  {
    assert QueueOf(s, r) + [] == QueueOf(s, r);
  }

  lemma CommitStepOrder(s: Runner, step: Step, r: nat)
    requires CancelledEmpty(s) && Enabled(s, step) && step.Commit?
    ensures InOrder(s, step, After(s, step), r) && CancelledEmpty(After(s, step))
  {
    var id := step.id;
    AnsweredSame(AfterCommit(s, id), id, CommitSucceeds(s, id));
    var s' := After(s, step);
    if CommitSucceeds(s, id) {
      EnqueuedOrder(s, step, s', r);
    } else {
      assert s'.runs == s.runs && s'.workers == s.workers && Lookup(s'.states, id) in {Lookup(s.states, id), Some(Dropped)} by {
        hide CancelledEmpty, CommitSucceeds, Answered;
      }
      hide After, AfterCommit, Answered, CommitSucceeds;
      assert QueueOf(s, r) + [] == QueueOf(s, r);
    }
  }

  lemma AnsweredSame(s: Runner, id: Id, committed: bool)
    ensures var s' := Answered(s, id, committed); s'.runs == s.runs && s'.states == s.states && s'.workers == s.workers
  {
  }

  lemma EnqueuedOrder(s: Runner, step: Step, s': Runner, r: nat)
    requires CancelledEmpty(s) && Proper(s) && step.Commit? && CommitSucceeds(s, step.id)
    requires s'.runs == Enqueued(s, step.id).runs && s'.states == Enqueued(s, step.id).states && s'.workers == s.workers
    ensures InOrder(s, step, s', r) && CancelledEmpty(s')
  {
    assert QueueOf(s, r) + [] == QueueOf(s, r);
    assert [] + QueueOf(s', r) == QueueOf(s', r);
  }

  lemma TakeStepOrder(s: Runner, step: Step, r: nat)
    requires CancelledEmpty(s) && Enabled(s, step) && step.Take?
    ensures InOrder(s, step, After(s, step), r) && CancelledEmpty(After(s, step))
  {
    hide Gather;
    var s' := After(s, step);
    var q := s.runs[s.workers[step.w].run].queue;
    assert q == [q[0]] + q[1..];
    assert s.runs[s.workers[step.w].run].mode != Cancelled;
  }

  lemma OtherStepOrder(s: Runner, step: Step, r: nat)
    requires CancelledEmpty(s) && Enabled(s, step)
    requires !(step.Start? || step.Restart? || step.Shutdown? || step.Reserve? || step.Commit? || step.Take?)
    ensures InOrder(s, step, After(s, step), r) && CancelledEmpty(After(s, step))
  {
    assert After(s, step).runs == s.runs by { hide CancelledEmpty; }
    assert Proper(After(s, step)) by { hide CancelledEmpty; }
    hide After;
    NoChange(s, step, After(s, step), r);
  }

  lemma StepOrder(s: Runner, step: Step, r: nat)
    requires Shape(s) && CancelledEmpty(s) && Enabled(s, step)
    ensures InOrder(s, step, After(s, step), r) && CancelledEmpty(After(s, step))
  {
    hide After, Enabled, InOrder, CancelledEmpty, Shape;
    if step.Commit? {
      CommitStepOrder(s, step, r);
    } else if step.Take? {
      TakeStepOrder(s, step, r);
    } else if step.Start? || step.Restart? || step.Shutdown? || step.Reserve? {
      CallerStepOrder(s, step, r);
    } else {
      OtherStepOrder(s, step, r);
    }
  }

  // ---------------------------------------------------------------- executions

  /** The tasks committed to a generation in the first k steps, in the order of their commits. */
  ghost function CommittedTo(states: seq<Runner>, steps: seq<Step>, k: nat, r: nat): seq<Id>
    requires k < |states| == |steps| + 1
  {
    if k == 0 then [] else CommittedTo(states, steps, k - 1, r) + CommittedBy(states[k - 1], steps[k - 1], states[k], r)
  }

  /** The tasks its workers took in the first k steps, in the order in which they took them. */
  ghost function TakenFrom(states: seq<Runner>, steps: seq<Step>, k: nat, r: nat): seq<Id>
    requires k < |states| == |steps| + 1
  {
    if k == 0 then [] else TakenFrom(states, steps, k - 1, r) + TakenBy(states[k - 1], steps[k - 1], states[k], r)
  }

  /** First in, first out, in every reachable state: the tasks a generation's workers took so far are the first it was given,
      in the order of the commits, and its queue holds the rest in that order; only cancelling the run drops the rest. */
  lemma {:induction false} FirstInFirstOut(maxWorkers: nat, capacity: nat, states: seq<Runner>, steps: seq<Step>, k: nat, r: nat)
    requires Execution(maxWorkers, capacity, states, steps) && k < |states|
    ensures if IsCancelled(states[k], r) then
        QueueOf(states[k], r) == [] && TakenFrom(states, steps, k, r) <= CommittedTo(states, steps, k, r)
      else
        CommittedTo(states, steps, k, r) == TakenFrom(states, steps, k, r) + QueueOf(states[k], r)
    ensures CancelledEmpty(states[k])
  {
    hide InOrder, Enabled, After, Shape, Inv, CommittedBy, TakenBy;
    if k > 0 {
      FirstInFirstOut(maxWorkers, capacity, states, steps, k - 1, r);
      Reachable(maxWorkers, capacity, states, steps, k - 1);
      InvShape(states[k - 1]);
      StepOrder(states[k - 1], steps[k - 1], r);
      if IsCancelled(states[k - 1], r) {
        RunnerTheorems.StaysCancelled(states[k - 1], steps[k - 1], r);
      }
      hide CancelledEmpty;
      OneStepOn(states, steps, k, r);
    }
  }

  lemma InvShape(s: Runner)
    requires RunnerSafety.Inv(s)
    ensures Shape(s)
  {
  }

  lemma OneStepOn(states: seq<Runner>, steps: seq<Step>, k: nat, r: nat)
    requires 0 < k < |states| == |steps| + 1
    requires InOrder(states[k - 1], steps[k - 1], states[k], r)
    requires if IsCancelled(states[k - 1], r) then
        QueueOf(states[k - 1], r) == [] && TakenFrom(states, steps, k - 1, r) <= CommittedTo(states, steps, k - 1, r)
      else
        CommittedTo(states, steps, k - 1, r) == TakenFrom(states, steps, k - 1, r) + QueueOf(states[k - 1], r)
    requires IsCancelled(states[k - 1], r) ==> IsCancelled(states[k], r)
    ensures if IsCancelled(states[k], r) then
        QueueOf(states[k], r) == [] && TakenFrom(states, steps, k, r) <= CommittedTo(states, steps, k, r)
      else
        CommittedTo(states, steps, k, r) == TakenFrom(states, steps, k, r) + QueueOf(states[k], r)
  {
    hide CommittedBy, TakenBy, QueueOf, IsCancelled;
    var com, tak := CommittedTo(states, steps, k - 1, r), TakenFrom(states, steps, k - 1, r);
    var c, t := CommittedBy(states[k - 1], steps[k - 1], states[k], r), TakenBy(states[k - 1], steps[k - 1], states[k], r);
    if IsCancelled(states[k], r) {
      assert com + c == com && tak + t == tak;
    } else {
      calc {
        com + c;
        tak + QueueOf(states[k - 1], r) + c;
        tak + (QueueOf(states[k - 1], r) + c);
        tak + (t + QueueOf(states[k], r));
        tak + t + QueueOf(states[k], r);
      }
    }
  }

  /** So of two tasks committed to one generation the later one is never in hand before the earlier: the i-th task taken is
      the i-th committed. */
  lemma TakenInCommitOrder(maxWorkers: nat, capacity: nat, states: seq<Runner>, steps: seq<Step>, k: nat, r: nat, i: nat)
    requires Execution(maxWorkers, capacity, states, steps) && k < |states| && i < |TakenFrom(states, steps, k, r)|
    ensures i < |CommittedTo(states, steps, k, r)| && TakenFrom(states, steps, k, r)[i] == CommittedTo(states, steps, k, r)[i]
  {
    hide Execution, CommittedTo, TakenFrom;
    FirstInFirstOut(maxWorkers, capacity, states, steps, k, r);
  }
}
