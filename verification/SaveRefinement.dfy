/** The save loop takes only steps of the shared-store protocol, so what holds for its runs holds for the loop. */
module SaveRefinement {
  import opened Accounts
  import opened MergeTheorems
  import opened PoolProtocol
  import opened NoLostIncrements
  import opened AccountPool

  lemma {:induction false} RunsCompose(own: Token -> AccountId, w: World, a: seq<Step>, b: seq<Step>)
    requires Possible(own, w, a) && Possible(own, Execute(own, w, a), b)
    ensures Possible(own, w, a + b) && Execute(own, w, a + b) == Execute(own, Execute(own, w, a), b)
    decreases |a|
  {
    hide Enabled, Next;
    if a == [] {
      assert a + b == b;
    } else {
      assert (a + b)[0] == a[0] && (a + b)[1..] == a[1..] + b;
      RunsCompose(own, Next(own, w, a[0]), a[1..], b);
    }
  }

  lemma OneStep(own: Token -> AccountId, w: World, s: Step)
    requires Enabled(own, w, s)
    ensures Possible(own, w, [s]) && Execute(own, w, [s]) == Next(own, w, s)
  {
    hide Enabled, Next;
    assert [s][1..] == [];
    assert Possible(own, Next(own, w, s), []);
  }

  // A rival process that is idle can bring any good view into the store.
  lemma RivalRun(own: Token -> AccountId, w: World, q: Pid, rival: Option<View>) returns (run: seq<Step>)
    requires Inv(own, w) && q in w.procs && w.procs[q].save.None?
    requires rival.Some? ==> GoodView(own, rival.value)
    ensures Possible(own, w, run) && Inv(own, Execute(own, w, run))
    ensures var w' := Execute(own, w, run);
      && w'.store == AfterRival(w.store, rival)
      && w'.procs.Keys == w.procs.Keys && w'.procs[q].save.None?
      && (forall p | p in w.procs && p != q :: w'.procs[p] == w.procs[p])
    ensures forall s | s in run :: s.p == q
  {
    hide WellFormed, Owned, StillCurrent, TwinAddition, Retried, Possible, Execute;
    if rival.None? || rival.value == w.store.items {
      run := [];
      EmptyRun(own, w);
    } else {
      var s0, s1, s2, s3 := StartRefresh(q), FinishRefresh(q), Begin(q, rival.value, None), Commit(q);
      var w1 := Next(own, w, s0);
      var w2 := Next(own, w1, s1);
      assert StillCurrent(None, w2.procs[q].accounts) by { NothingExpected(w2.procs[q].accounts); }
      var w3 := Next(own, w2, s2);
      OneStep(own, w, s0);
      OneStep(own, w1, s1);
      OneStep(own, w2, s2);
      OneStep(own, w3, s3);
      RunsCompose(own, w, [s0], [s1]);
      RunsCompose(own, w, [s0] + [s1], [s2]);
      RunsCompose(own, w, [s0] + [s1] + [s2], [s3]);
      StepKeepsInv(own, w, s0);
      StepKeepsInv(own, w1, s1);
      StepKeepsInv(own, w2, s2);
      StepKeepsInv(own, w3, s3);
      run := [s0] + [s1] + [s2] + [s3];
    }
  }

  lemma EmptyRun(own: Token -> AccountId, w: World)
    ensures Possible(own, w, []) && Execute(own, w, []) == w
  {
  }

  lemma NothingExpected(v: View)
    ensures StillCurrent(None, v)
  {
  }

  // One attempt is one protocol step.
  lemma AttemptIsAStep(own: Token -> AccountId, w: World, p: Pid, last: bool) returns (s: Step)
    requires Inv(own, w) && p in w.procs && w.procs[p].save.Some? && NoTwins(w.store, w.procs[p])
    requires last <==> w.procs[p].save.value.attempt + 1 >= STORAGE_MUTATION_MAX_ATTEMPTS
    ensures s.p == p && Enabled(own, w, s) && Inv(own, Next(own, w, s))
    ensures var (store, proc, result) := Attempt(w.store, w.procs[p], last); var w' := Next(own, w, s);
      && w'.store == store && w'.procs == w.procs[p := proc]
      && (result == Some(SavedChanges) <==> s.Commit? || s.NothingToSave?)
      && (result.None? ==> s.Retry?)
      && (result.None? ==> proc.save == Some(w.procs[p].save.value.(attempt := w.procs[p].save.value.attempt + 1)))
  {
    hide GoodView, GoodSnapshot, StillCurrent, TwinAddition;
    var q := w.procs[p];
    s := if q.accounts == q.persisted then NothingToSave(p)
         else if q.revision == w.store.revision then Commit(p)
         else if last then Abort(p, true)
         else Retry(p);
    AttemptEnabled(own, w, s);
    hide Inv, Enabled;
    StepKeepsInv(own, w, s);
  }

  lemma AttemptEnabled(own: Token -> AccountId, w: World, s: Step)
    requires Inv(own, w) && s.p in w.procs && w.procs[s.p].save.Some? && NoTwins(w.store, w.procs[s.p])
    requires var q := w.procs[s.p]; var last := q.save.value.attempt + 1 >= STORAGE_MUTATION_MAX_ATTEMPTS;
      s == if q.accounts == q.persisted then NothingToSave(s.p)
           else if q.revision == w.store.revision then Commit(s.p)
           else if last then Abort(s.p, true)
           else Retry(s.p)
    ensures Enabled(own, w, s)
  {
    hide GoodView, GoodSnapshot, StillCurrent, TwinAddition;
  }

  /** The whole save loop, with its rivals, is a run of the protocol that ends in its own last step;
      the loop reports success exactly when that step is one that hands out the operation's increments. */
  lemma {:induction false} SaveLoopIsARun(own: Token -> AccountId, w: World, p: Pid, q: Pid, rivals: seq<Option<View>>)
    returns (run: seq<Step>)
    requires Inv(own, w) && p in w.procs && q in w.procs && p != q && w.procs[q].save.None?
    requires w.procs[p].save.Some? && rivals != []
    requires w.procs[p].save.value.attempt + |rivals| == STORAGE_MUTATION_MAX_ATTEMPTS
    requires Fair(own, w.store, w.procs[p], rivals)
    ensures Possible(own, w, run) && run != []
    ensures var (store, proc, result) := SaveFrom(w.store, w.procs[p], rivals);
      var w' := Execute(own, w, run); var end := run[|run| - 1];
      && w'.store == store && p in w'.procs && w'.procs[p] == proc
      && end.p == p && (result == SavedChanges <==> end.Commit? || end.NothingToSave?)
    ensures forall i | 0 <= i < |run| - 1 && run[i].p == p :: run[i].Retry?
    decreases |rivals|
  {
    hide Inv, Enabled, Next, GoodView, NoTwins, Possible, Execute, Attempt;
    var rivalRun := RivalRun(own, w, q, rivals[0]);
    var w1 := Execute(own, w, rivalRun);
    var s := AttemptIsAStep(own, w1, p, |rivals| == 1);
    var w2 := Next(own, w1, s);
    OneStep(own, w1, s);
    RunsCompose(own, w, rivalRun, [s]);
    run := rivalRun + [s];
    var (store, proc, result) := Attempt(w1.store, w1.procs[p], |rivals| == 1);
    if result.None? {
      AttemptLast(w1.store, w1.procs[p]);
      var rest := SaveLoopIsARun(own, w2, p, q, rivals[1..]);
      RunsCompose(own, w, run, rest);
      run := run + rest;
    }
  }

  lemma AttemptLast(s: Store, p: Proc)
    requires p.save.Some?
    ensures Attempt(s, p, true).2.Some?
  {
  }
}
