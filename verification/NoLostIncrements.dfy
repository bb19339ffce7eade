/** Counter increments and credential exchanges over whole runs of the shared store. */
module NoLostIncrements {
  import opened Accounts
  import opened AccountMerge
  import opened MergeTheorems
  import opened PoolProtocol

  // ---------------------------------------------------------------- runs

  ghost predicate Possible(own: Token -> AccountId, w: World, run: seq<Step>)
    decreases |run|
  {
    run != [] ==> Enabled(own, w, run[0]) && Possible(own, Next(own, w, run[0]), run[1..])
  }

  ghost function Execute(own: Token -> AccountId, w: World, run: seq<Step>): World
    requires Possible(own, w, run)
    decreases |run|
  {
    if run == [] then w else Execute(own, Next(own, w, run[0]), run[1..])
  }

  // ---------------------------------------------------------------- one account through a merge

  ghost function At(v: View, id: AccountId): Account
    requires HasEntry(v, id)
  {
    v[Entry(v, id).value]
  }

  ghost function Counted(v: View, id: AccountId, f: Field): int {
    if HasEntry(v, id) then Number(At(v, id), f) else 0
  }

  lemma SingleEntry(m: View, id: AccountId, t: Token, a: Account)
    requires OnlyAccount(m, id) == map[t := a]
    ensures HasEntry(m, id) && Entry(m, id) == Some(t) && m[t] == a
  {
    assert t in OnlyAccount(m, id);
    var e := Entry(m, id).value;
    assert e in OnlyAccount(m, id);
  }

  lemma TrackedMerge(b: View, l: View, r: View, id: AccountId)
    requires Mergeable(b, l, r)
    requires HasEntry(b, id) && HasEntry(l, id) && HasEntry(r, id)
    ensures var m := MergedView(b, l, r);
      && HasEntry(m, id)
      && if Entry(l, id) != Entry(b, id) && Entry(r, id) != Entry(b, id) then
           Entry(m, id) == Entry(r, id) && At(m, id) == At(r, id)
         else
           && Entry(m, id) == (if Entry(l, id) != Entry(b, id) then Entry(l, id) else Entry(r, id))
           && At(m, id) == MergedAccount(At(b, id), At(l, id), At(r, id))
  {
    var m := MergedView(b, l, r);
    MergeIsPerAccount(b, l, r, id);
    hide MergedView, Mergeable, WellFormed, MergedAccount, OnlyAccount, Entry;
    var bt, lt, rt := Entry(b, id).value, Entry(l, id).value, Entry(r, id).value;
    if lt != bt && rt != bt {
      SingleEntry(m, id, rt, r[rt]);
    } else {
      SingleEntry(m, id, if lt != bt then lt else rt, MergedAccount(b[bt], l[lt], r[rt]));
    }
  }

  // An account both sides added under one token ends as the remote account with the local fields laid over it.
  lemma AddedMerge(b: View, l: View, r: View, id: AccountId)
    requires Mergeable(b, l, r)
    requires !HasEntry(b, id) && HasEntry(l, id) && HasEntry(r, id) && Entry(l, id) == Entry(r, id)
    ensures var m := MergedView(b, l, r);
      HasEntry(m, id) && Entry(m, id) == Entry(l, id) && At(m, id) == At(r, id) + At(l, id)
  {
    hide MergedView, Mergeable, WellFormed, OnlyAccount, Entry, LogicalMerge, Normalised;
    MergeIsPerAccount(b, l, r, id);
    AddedLogically(b, l, r, id);
    SingleEntry(MergedView(b, l, r), id, Entry(r, id).value, At(r, id) + At(l, id));
  }

  lemma AddedLogically(b: View, l: View, r: View, id: AccountId)
    requires Mergeable(b, l, r)
    requires !HasEntry(b, id) && HasEntry(l, id) && HasEntry(r, id) && Entry(l, id) == Entry(r, id)
    ensures LogicalMerge(b, l, r, id) == map[Entry(r, id).value := At(r, id) + At(l, id)]
  {
    RemoteAlone(r, id);
    hide Mergeable, WellFormed, OnlyAccount, Entry;
    var t := Entry(r, id).value;
    assert map[t := r[t]][t := r[t] + l[t]] == map[t := r[t] + l[t]];
  }

  lemma RemoteAlone(r: View, id: AccountId)
    requires WellFormed(r) && HasEntry(r, id)
    ensures OnlyAccount(r, id) == map[Entry(r, id).value := r[Entry(r, id).value]]
  {
  }

  lemma MergeableViews(b: View, l: View, r: View)
    requires Mergeable(b, l, r)
    ensures WellFormed(b) && WellFormed(l) && WellFormed(r)
  {
  }

  lemma EntryNormalised(v: View, id: AccountId)
    requires WellFormed(v) && HasEntry(v, id)
    ensures Normalised(Entry(v, id).value, At(v, id)) && IdOf(At(v, id)) == id
    ensures forall f | f in {Success, Fail} :: Number(At(v, id), f) >= 0
  {
  }

  /** A merge onto newer remote counts carries the local increments over, wherever the remote moved the account. */
  lemma MergeCarriesIncrements(b: View, l: View, r: View, id: AccountId, f: Field)
    requires Mergeable(b, l, r)
    requires HasEntry(b, id) && HasEntry(l, id) && HasEntry(r, id)
    requires f == Success || f == Fail
    requires Counted(l, id, f) >= Counted(b, id, f)
    requires Counted(l, id, f) > Counted(b, id, f) ==> Entry(l, id) == Entry(b, id)
    ensures var m := MergedView(b, l, r);
      && HasEntry(m, id)
      && Counted(m, id, f) - Counted(r, id, f) == Counted(l, id, f) - Counted(b, id, f)
      && (Counted(l, id, f) > Counted(b, id, f) ==> Entry(m, id) == Entry(r, id))
  {
    hide MergedView, Mergeable, WellFormed, MergedAccount, Entry, HasEntry, At, Number, IdOf, Normalised;
    TrackedMerge(b, l, r, id);
    MergeableViews(b, l, r);
    EntryNormalised(b, id);
    EntryNormalised(l, id);
    EntryNormalised(r, id);
    var bt, lt, rt := Entry(b, id).value, Entry(l, id).value, Entry(r, id).value;
    if Entry(l, id) == Entry(b, id) || Entry(r, id) == Entry(b, id) {
      MergedAccountNormalised(bt, At(b, id), lt, At(l, id), rt, At(r, id));
    }
  }

  /** Two processes added one account under the same token: the one that saves last resets what the other has counted,
      so the merged counter is the sum of both exactly when the remote one had counted nothing. */
  lemma ConcurrentAdditionLosesCounts(b: View, l: View, r: View, id: AccountId, f: Field)
    requires Mergeable(b, l, r) && (f == Success || f == Fail)
    requires !HasEntry(b, id) && HasEntry(l, id) && HasEntry(r, id) && Entry(l, id) == Entry(r, id)
    ensures var m := MergedView(b, l, r);
      && Counted(m, id, f) == Counted(l, id, f)
      && (Counted(m, id, f) == Counted(r, id, f) + Counted(l, id, f) <==> Counted(r, id, f) == 0)
  {
    AddedMerge(b, l, r, id);
    EntryHasCounter(l, id, f);
    hide MergedView, Mergeable, Entry, HasEntry;
  }

  lemma EntryHasCounter(v: View, id: AccountId, f: Field)
    requires WellFormed(v) && HasEntry(v, id) && (f == Success || f == Fail)
    ensures f in At(v, id) && At(v, id)[f].Num? && Number(At(v, id), f) >= 0
  {
    assert Normalised(Entry(v, id).value, At(v, id));
  }

  /** When a merge keeps both sides' counts: whenever the account was known before, unless both sides rotated its token and
      the local one counted, or the counts fell below zero together; when it was not, only if the remote had counted nothing. */
  predicate BothCountsFit(known: bool, bothRotated: bool, before: int, here: int, there: int) {
    if !known then there == 0
    else if bothRotated then here == before
    else there + (here - before) >= 0
  }

  /** The merged counter is the remote one plus the local increment exactly under that condition, for all mergeable views
      that hold the account on both sides. */
  lemma MergeKeepsBothCountsIff(b: View, l: View, r: View, id: AccountId, f: Field)
    requires Mergeable(b, l, r) && (f == Success || f == Fail)
    requires HasEntry(l, id) && HasEntry(r, id) && (!HasEntry(b, id) ==> Entry(l, id) == Entry(r, id))
    ensures var m := MergedView(b, l, r);
      Counted(m, id, f) == Counted(r, id, f) + (Counted(l, id, f) - Counted(b, id, f)) <==>
      BothCountsFit(HasEntry(b, id), Entry(l, id) != Entry(b, id) && Entry(r, id) != Entry(b, id),
                    Counted(b, id, f), Counted(l, id, f), Counted(r, id, f))
  {
    hide MergedView, Mergeable, Entry, HasEntry, Counted;
    if HasEntry(b, id) {
      KnownMergeCounts(b, l, r, id, f);
      NoNegativeCounts(b, l, r, id, f);
    } else {
      ConcurrentAdditionLosesCounts(b, l, r, id, f);
      NothingCounted(b, id, f);
    }
  }

  lemma NothingCounted(v: View, id: AccountId, f: Field)
    requires !HasEntry(v, id)
    ensures Counted(v, id, f) == 0
  {
  }

  lemma NoNegativeCounts(b: View, l: View, r: View, id: AccountId, f: Field)
    requires Mergeable(b, l, r) && HasEntry(b, id) && HasEntry(l, id) && HasEntry(r, id) && (f == Success || f == Fail)
    ensures Counted(b, id, f) >= 0 && Counted(l, id, f) >= 0 && Counted(r, id, f) >= 0
  {
    MergeableViews(b, l, r);
    hide Mergeable, WellFormed, Entry, HasEntry, At, Number, IdOf, Normalised;
    EntryNormalised(b, id);
    EntryNormalised(l, id);
    EntryNormalised(r, id);
  }

  // The merged counter of an account the baseline knew.
  lemma KnownMergeCounts(b: View, l: View, r: View, id: AccountId, f: Field)
    requires Mergeable(b, l, r) && (f == Success || f == Fail)
    requires HasEntry(b, id) && HasEntry(l, id) && HasEntry(r, id)
    ensures Counted(MergedView(b, l, r), id, f) ==
      if Entry(l, id) != Entry(b, id) && Entry(r, id) != Entry(b, id) then Counted(r, id, f)
      else Floored(Counted(r, id, f) + (Counted(l, id, f) - Counted(b, id, f)))
  {
    hide MergedView, Mergeable, WellFormed, MergedAccount, Entry, HasEntry, At, Number, IdOf, Normalised;
    TrackedMerge(b, l, r, id);
    if Entry(l, id) == Entry(b, id) || Entry(r, id) == Entry(b, id) {
      MergeableViews(b, l, r);
      EntryNormalised(b, id);
      EntryNormalised(l, id);
      EntryNormalised(r, id);
      MergedAccountNormalised(Entry(b, id).value, At(b, id), Entry(l, id).value, At(l, id), Entry(r, id).value, At(r, id));
    }
  }

  // ---------------------------------------------------------------- increments

  /** What the operation being saved adds to one counter. */
  ghost function Gain(s: Save, id: AccountId, f: Field): int {
    Counted(s.desired, id, f) - Counted(s.origin, id, f)
  }

  /** A counting change: the account stays, its counters only grow, and counting never rotates the token. */
  ghost predicate CountsForward(b: View, l: View, id: AccountId) {
    && HasEntry(b, id) && HasEntry(l, id)
    && forall f | f in {Success, Fail} ::
      Counted(l, id, f) >= Counted(b, id, f) && (Counted(l, id, f) > Counted(b, id, f) ==> Entry(l, id) == Entry(b, id))
  }

  // Neither view knows the account.
  ghost predicate Unaware(b: View, l: View, id: AccountId) {
    !HasEntry(b, id) && !HasEntry(l, id)
  }

  ghost predicate Spares(b: View, l: View, id: AccountId) {
    Unaware(b, l, id) || CountsForward(b, l, id)
  }

  ghost predicate Carries(p: Proc, id: AccountId) {
    p.save.Some? ==>
      && Spares(p.persisted, p.accounts, id)
      && forall f | f in {Success, Fail} ::
        Counted(p.accounts, id, f) - Counted(p.persisted, id, f) == Gain(p.save.value, id, f)
  }

  /** The store holds the account; a process need not know it yet. */
  ghost predicate Tracked(w: World, id: AccountId) {
    HasEntry(w.store.items, id) && forall p | p in w.procs :: Carries(w.procs[p], id)
  }

  /** No operation of the run deletes the account or adds it anew, and each one that counts for it is a counting change. */
  ghost predicate NeverDeleted(own: Token -> AccountId, w: World, run: seq<Step>, id: AccountId)
    requires Possible(own, w, run)
    decreases |run|
  {
    run != [] ==>
      && (run[0].Begin? ==> Spares(w.procs[run[0].p].accounts, run[0].desired, id))
      && NeverDeleted(own, Next(own, w, run[0]), run[1..], id)
  }

  /** The step with which a save returns True hands out that operation's increments; no other step does. */
  ghost function Credit(own: Token -> AccountId, w: World, s: Step, id: AccountId, f: Field): int
    requires Enabled(own, w, s)
  {
    if s.Commit? || s.NothingToSave? then Gain(w.procs[s.p].save.value, id, f) else 0
  }

  ghost function Credited(own: Token -> AccountId, w: World, run: seq<Step>, id: AccountId, f: Field): int
    requires Possible(own, w, run)
    decreases |run|
  {
    if run == [] then 0
    else Credit(own, w, run[0], id, f) + Credited(own, Next(own, w, run[0]), run[1..], id, f)
  }

  // A merge by a process that does not know the account takes it over from the remote side as it is.
  lemma UnawareMerge(b: View, l: View, r: View, id: AccountId)
    requires Mergeable(b, l, r) && Unaware(b, l, id) && HasEntry(r, id)
    ensures var m := MergedView(b, l, r);
      HasEntry(m, id) && Entry(m, id) == Entry(r, id) && At(m, id) == At(r, id)
  {
    MergeIsPerAccount(b, l, r, id);
    RemoteAlone(r, id);
    hide MergedView, Mergeable, WellFormed, OnlyAccount;
    var t := Entry(r, id).value;
    SingleEntry(MergedView(b, l, r), id, t, r[t]);
  }

  lemma RetryCarries(own: Token -> AccountId, p: Proc, store: Store, id: AccountId)
    requires GoodProc(own, p, store) && GoodView(own, store.items) && p.save.Some? && HasEntry(store.items, id)
    requires StillCurrent(p.save.value.expected, store.items)
    requires !TwinAddition(p.persisted, p.accounts, store.items)
    requires Carries(p, id)
    ensures Carries(Retried(p, store), id)
  {
    hide WellFormed, Owned, MergedView, TwinAddition, StillCurrent, Mergeable, Entry, HasEntry;
    OwnedViewsMerge(own, p.persisted, p.accounts, store.items);
    if Unaware(p.persisted, p.accounts, id) {
      UnawareMerge(p.persisted, p.accounts, store.items, id);
    } else {
      hide Counted;
      MergeCarriesIncrements(p.persisted, p.accounts, store.items, id, Success);
      MergeCarriesIncrements(p.persisted, p.accounts, store.items, id, Fail);
    }
  }

  /** One step: the tracked account survives, and its stored counters grow by exactly the step's credit. */
  lemma StepCounts(own: Token -> AccountId, w: World, s: Step, id: AccountId, f: Field)
    requires Inv(own, w) && Tracked(w, id) && Enabled(own, w, s) && f in {Success, Fail}
    requires s.Begin? ==> Spares(w.procs[s.p].accounts, s.desired, id)
    ensures Tracked(Next(own, w, s), id)
    ensures Counted(Next(own, w, s).store.items, id, f) == Counted(w.store.items, id, f) + Credit(own, w, s, id, f)
  {
    hide WellFormed, Owned, TwinAddition, StillCurrent, Counted, MergedView, HasEntry, Entry;
    assert GoodProc(own, w.procs[s.p], w.store) && Carries(w.procs[s.p], id);
    if s.Retry? {
      var p := w.procs[s.p];
      if StillCurrent(p.save.value.expected, w.store.items) {
        RetryCarries(own, p, w.store, id);
      }
    }
  }

  /** No increment is lost: over any run, whatever the other processes do in between, a never-deleted account's
      stored counters equal their initial values plus the increments of exactly the saves that returned True. */
  lemma {:induction false} NoIncrementIsLost(own: Token -> AccountId, w: World, run: seq<Step>, id: AccountId, f: Field)
    requires Inv(own, w) && Tracked(w, id) && Possible(own, w, run) && f in {Success, Fail}
    requires NeverDeleted(own, w, run, id)
    ensures Inv(own, Execute(own, w, run)) && Tracked(Execute(own, w, run), id)
    ensures Counted(Execute(own, w, run).store.items, id, f) ==
            Counted(w.store.items, id, f) + Credited(own, w, run, id, f)
    decreases |run|
  {
    hide Inv, Tracked, Enabled, Counted, Credit, Next;
    if run != [] {
      StepKeepsInv(own, w, run[0]);
      StepCounts(own, w, run[0], id, f);
      NoIncrementIsLost(own, Next(own, w, run[0]), run[1..], id, f);
    }
  }
}
