/** Quota use over whole runs of the shared store (services/account_service.py:586-598, 626-637, 798-873, 4333-4341). */
module QuotaUse {
  import opened Accounts
  import opened AccountMerge
  import opened MergeTheorems
  import opened PoolProtocol
  import opened NoLostIncrements

  // ---------------------------------------------------------------- one account through a merge

  /** The account's quota in a view. */
  ghost function Left(v: View, id: AccountId): int {
    Counted(v, id, Quota)
  }

  /** When the account was last used, as a view has it. */
  ghost function StampOf(v: View, id: AccountId): Value {
    if HasEntry(v, id) && LastUsedAt in At(v, id) then At(v, id)[LastUsedAt] else Null
  }

  lemma NotBelowZero(v: View, id: AccountId)
    requires WellFormed(v)
    ensures Left(v, id) >= 0
  {
    if HasEntry(v, id) {
      assert Normalised(Entry(v, id).value, At(v, id));
    }
  }

  ghost predicate BothRotated(b: View, l: View, r: View, id: AccountId) {
    Entry(l, id) != Entry(b, id) && Entry(r, id) != Entry(b, id)
  }

  /** A merge onto newer remote state subtracts a local use from the remote quota, and keeps the local time of the use. */
  lemma MergeCarriesUse(b: View, l: View, r: View, id: AccountId)
    requires Mergeable(b, l, r) && HasEntry(b, id) && HasEntry(l, id) && HasEntry(r, id)
    ensures var m := MergedView(b, l, r);
      && HasEntry(m, id)
      && (Left(l, id) == Left(b, id) ==> Left(m, id) == Left(r, id))
      && (!BothRotated(b, l, r, id) && Left(l, id) < Left(b, id) && StampOf(l, id) != StampOf(b, id) ==>
            Left(m, id) == Floored(Left(r, id) + Left(l, id) - Left(b, id)))
      && StampOf(m, id) in {StampOf(l, id), StampOf(r, id)}
      && (!BothRotated(b, l, r, id) && StampOf(l, id) != StampOf(b, id) ==> StampOf(m, id) == StampOf(l, id))
      && (Entry(l, id) == Entry(b, id) ==> Entry(m, id) == Entry(r, id))
  {
    hide MergedView, Mergeable, WellFormed, MergedAccount, Entry, HasEntry, Normalised;
    TrackedMerge(b, l, r, id);
    if !BothRotated(b, l, r, id) {
      MergeableViews(b, l, r);
      EntryNormalised(b, id);
      EntryNormalised(l, id);
      EntryNormalised(r, id);
      MergedQuota(Entry(b, id).value, At(b, id), Entry(l, id).value, At(l, id), Entry(r, id).value, At(r, id));
      MergedPlainField(At(b, id), At(l, id), At(r, id), LastUsedAt);
    }
  }

  // ---------------------------------------------------------------- operations that use quota

  /** What the operation being saved takes from the quota. */
  ghost function Use(s: Save, id: AccountId): int {
    Left(s.origin, id) - Left(s.desired, id)
  }

  /** The operation leaves the quota alone, or uses some of it: then it notes the time and does not rotate the token. */
  ghost predicate UsesForward(b: View, l: View, id: AccountId) {
    && (HasEntry(b, id) <==> HasEntry(l, id))
    && Left(l, id) <= Left(b, id)
    && (Left(l, id) < Left(b, id) ==> Entry(l, id) == Entry(b, id) && StampOf(l, id) != StampOf(b, id))
  }

  // While a save is under way its memory is the persisted copy with the use taken off.
  ghost predicate CarriesUse(p: Proc, id: AccountId) {
    p.save.Some? ==>
      && (HasEntry(p.persisted, id) <==> HasEntry(p.accounts, id))
      && Use(p.save.value, id) >= 0
      && (Left(p.accounts, id) == Floored(Left(p.persisted, id) - Use(p.save.value, id)))
      && (Use(p.save.value, id) > 0 ==> HasEntry(p.persisted, id) && Entry(p.accounts, id) == Entry(p.persisted, id))
  }

  // The quota a view shows is not below the stored one.
  ghost predicate NotBehind(v: View, store: View, id: AccountId) {
    HasEntry(v, id) ==> Left(store, id) <= Left(v, id)
  }

  ghost predicate Using(p: Proc, id: AccountId) {
    p.save.Some? && Use(p.save.value, id) > 0
  }

  // The time a process noted for its use is nobody else's.
  ghost predicate OwnStamp(w: World, k: Pid, id: AccountId)
    requires k in w.procs
  {
    var stamp := StampOf(w.procs[k].accounts, id);
    && stamp != StampOf(w.store.items, id) && stamp != StampOf(w.procs[k].persisted, id)
    && (forall q | q in w.procs && q != k :: stamp != StampOf(w.procs[q].accounts, id) && stamp != StampOf(w.procs[q].persisted, id))
    && (forall q | q in w.loads :: stamp != StampOf(w.loads[q].snapshot.items, id))
  }

  ghost predicate OwnStamps(w: World, id: AccountId) {
    forall k | k in w.procs && Using(w.procs[k], id) :: OwnStamp(w, k, id)
  }

  ghost predicate QuotaTracked(w: World, id: AccountId) {
    && HasEntry(w.store.items, id)
    && (forall k | k in w.procs :: CarriesUse(w.procs[k], id) && NotBehind(w.procs[k].persisted, w.store.items, id))
    && (forall k | k in w.loads :: NotBehind(w.loads[k].snapshot.items, w.store.items, id))
    && OwnStamps(w, id)
  }

  /** No process, no pending snapshot and not the store shows this time of last use. */
  ghost predicate FreshStamp(w: World, id: AccountId, stamp: Value) {
    && stamp != StampOf(w.store.items, id)
    && (forall q | q in w.procs :: stamp != StampOf(w.procs[q].accounts, id) && stamp != StampOf(w.procs[q].persisted, id))
    && (forall q | q in w.loads :: stamp != StampOf(w.loads[q].snapshot.items, id))
  }

  /** An operation that only uses quota; if it notes a time of last use, it is a new one. */
  ghost predicate OnlyUses(w: World, s: Step, id: AccountId)
    requires s.p in w.procs
  {
    s.Begin? ==>
      && UsesForward(w.procs[s.p].accounts, s.desired, id)
      && (StampOf(s.desired, id) == StampOf(w.procs[s.p].accounts, id) || FreshStamp(w, id, StampOf(s.desired, id)))
  }

  // ---------------------------------------------------------------- one step

  lemma RetriedUse(b: View, l: View, r: View, use: int, id: AccountId)
    requires Mergeable(b, l, r) && HasEntry(r, id) && NotBehind(b, r, id) && (HasEntry(b, id) <==> HasEntry(l, id))
    requires use >= 0 && Left(l, id) == Floored(Left(b, id) - use)
    requires use > 0 ==> HasEntry(b, id) && Entry(l, id) == Entry(b, id) && StampOf(l, id) != StampOf(b, id)
    ensures var m := MergedView(b, l, r);
      && HasEntry(m, id) && Left(m, id) == Floored(Left(r, id) - use)
      && StampOf(m, id) in {StampOf(l, id), StampOf(r, id)}
      && (use > 0 ==> Entry(m, id) == Entry(r, id) && StampOf(m, id) == StampOf(l, id))
  {
    hide MergedView, Mergeable, WellFormed, Entry, HasEntry, Left, StampOf, Floored;
    MergeableViews(b, l, r);
    NotBelowZero(b, id);
    NotBelowZero(r, id);
    if HasEntry(b, id) {
      MergeCarriesUse(b, l, r, id);
      UseCarried(Left(b, id), Left(l, id), Left(r, id), use);
    } else {
      UnawareUse(b, l, r, id);
      NothingUsed(Left(r, id));
    }
  }

  lemma NothingUsed(left: int)
    requires left >= 0
    ensures left == Floored(left - 0)
  {
  }

  lemma RetryCarriesUse(own: Token -> AccountId, w: World, k: Pid, id: AccountId)
    requires Inv(own, w) && k in w.procs && Enabled(own, w, Retry(k)) && QuotaTracked(w, id)
    requires StillCurrent(w.procs[k].save.value.expected, w.store.items)
    ensures var p, p' := w.procs[k], Retried(w.procs[k], w.store);
      && CarriesUse(p', id)
      && StampOf(p'.accounts, id) in {StampOf(p.accounts, id), StampOf(w.store.items, id)}
      && (Using(p, id) ==> StampOf(p'.accounts, id) == StampOf(p.accounts, id))
  {
    hide GoodView, MergedView, TwinAddition, StillCurrent, Mergeable, Entry, HasEntry, Left, StampOf, Floored, GoodSnapshot;
    var p := w.procs[k];
    assert GoodProc(own, p, w.store) && CarriesUse(p, id) && NotBehind(p.persisted, w.store.items, id);
    assert Using(p, id) ==> OwnStamp(w, k, id);
    PersistedView(own, p, w.store);
    OwnedViewsMerge(own, p.persisted, p.accounts, w.store.items);
    RetriedUse(p.persisted, p.accounts, w.store.items, Use(p.save.value, id), id);
  }

  lemma PersistedView(own: Token -> AccountId, p: Proc, store: Store)
    requires GoodProc(own, p, store)
    ensures GoodView(own, p.persisted)
  {
  }

  lemma UnawareUse(b: View, l: View, r: View, id: AccountId)
    requires Mergeable(b, l, r) && !HasEntry(b, id) && !HasEntry(l, id) && HasEntry(r, id)
    ensures var m := MergedView(b, l, r);
      HasEntry(m, id) && Left(m, id) == Left(r, id) && StampOf(m, id) == StampOf(r, id) && Entry(m, id) == Entry(r, id)
  {
    hide MergedView, Mergeable, HasEntry, Entry;
    UnawareMerge(b, l, r, id);
  }

  // Taking a use off a quota that has fallen since gives what taking it off the fallen quota gives.
  lemma UseCarried(before: int, here: int, there: int, use: int)
    requires before >= 0 && use >= 0 && 0 <= there && here == Floored(before - use)
    ensures there <= before && here < before ==> Floored(there + here - before) == Floored(there - use)
    ensures there <= before && here == before ==> there == Floored(there - use)
    ensures here <= before && (here < before ==> use > 0)
    ensures Floored(there) == there
  {
  }

  /** One step of the protocol takes from the stored quota what the step's operation uses, never going below zero. */
  lemma StepUses(own: Token -> AccountId, w: World, s: Step, id: AccountId)
    requires Inv(own, w) && QuotaTracked(w, id) && Enabled(own, w, s) && OnlyUses(w, s, id)
    ensures QuotaTracked(Next(own, w, s), id)
    ensures Left(Next(own, w, s).store.items, id) == Floored(Left(w.store.items, id) - Taken(own, w, s, id))
    ensures Taken(own, w, s, id) >= 0
  {
    StepStore(own, w, s, id);
    StepCarriesUse(own, w, s, id);
    StepStamps(own, w, s, id);
    hide Inv, Enabled, CarriesUse, OwnStamps;
  }

  /** The step with which a save returns True hands out that operation's use; no other step does. */
  ghost function Taken(own: Token -> AccountId, w: World, s: Step, id: AccountId): int
    requires Enabled(own, w, s)
  {
    if s.Commit? || s.NothingToSave? then Use(w.procs[s.p].save.value, id) else 0
  }

  // Which step changes the store: a commit, of a save whose copy of the store is current.
  lemma StoreAfter(own: Token -> AccountId, w: World, s: Step)
    requires Inv(own, w) && Enabled(own, w, s)
    ensures var p := w.procs[s.p];
      if s.Commit? then Next(own, w, s).store.items == p.accounts && p.save.Some? && p.persisted == w.store.items
      else Next(own, w, s).store == w.store && (s.NothingToSave? ==> p.save.Some? && p.accounts == p.persisted)
  {
    assert GoodProc(own, w.procs[s.p], w.store);
    hide GoodView, TwinAddition, StillCurrent, MergedView;
  }

  // What a save that goes through leaves: the quota of the persisted copy without the use.
  lemma SavedUse(own: Token -> AccountId, p: Proc, store: Store, id: AccountId)
    requires GoodProc(own, p, store) && p.save.Some? && CarriesUse(p, id)
    ensures Use(p.save.value, id) >= 0 && (HasEntry(p.persisted, id) ==> HasEntry(p.accounts, id))
    ensures Left(p.accounts, id) == Floored(Left(p.persisted, id) - Use(p.save.value, id)) <= Left(p.persisted, id)
    ensures p.accounts == p.persisted ==> Left(p.persisted, id) == 0 || Use(p.save.value, id) == 0
  {
    NotBelowZero(p.persisted, id);
    hide WellFormed, Owned, StillCurrent, HasEntry, Entry, Left, Use;
  }

  lemma StepStore(own: Token -> AccountId, w: World, s: Step, id: AccountId)
    requires Inv(own, w) && QuotaTracked(w, id) && Enabled(own, w, s)
    ensures HasEntry(Next(own, w, s).store.items, id) && Taken(own, w, s, id) >= 0
    ensures Left(Next(own, w, s).store.items, id) == Floored(Left(w.store.items, id) - Taken(own, w, s, id))
    ensures Left(Next(own, w, s).store.items, id) <= Left(w.store.items, id)
  {
    hide Inv, QuotaTracked, GoodProc, CarriesUse, Next, WellFormed, Owned, HasEntry, Entry, Left, Use, OwnStamps, StillCurrent, TwinAddition;
    var p := w.procs[s.p];
    ProcOf(own, w, s.p, id);
    StoreAfter(own, w, s);
    NotBelowZero(w.store.items, id);
    if s.Commit? || s.NothingToSave? {
      SavedUse(own, p, w.store, id);
    }
    if s.NothingToSave? && !HasEntry(p.persisted, id) {
      NoUseWithout(p, id);
    }
  }

  lemma ProcOf(own: Token -> AccountId, w: World, k: Pid, id: AccountId)
    requires Inv(own, w) && QuotaTracked(w, id) && k in w.procs
    ensures GoodProc(own, w.procs[k], w.store) && CarriesUse(w.procs[k], id) && NotBehind(w.procs[k].persisted, w.store.items, id)
    ensures WellFormed(w.store.items) && HasEntry(w.store.items, id)
  {
    hide GoodProc, CarriesUse, WellFormed, Owned, HasEntry;
  }

  lemma NoUseWithout(p: Proc, id: AccountId)
    requires p.save.Some? && CarriesUse(p, id) && !HasEntry(p.persisted, id)
    ensures Use(p.save.value, id) == 0
  {
    hide HasEntry, Left, Entry;
  }

  lemma ActorCarriesUse(own: Token -> AccountId, w: World, s: Step, id: AccountId)
    requires Inv(own, w) && QuotaTracked(w, id) && Enabled(own, w, s) && OnlyUses(w, s, id)
    ensures var p' := Next(own, w, s).procs[s.p]; CarriesUse(p', id)
    ensures var p' := Next(own, w, s).procs[s.p]; NotBehind(p'.persisted, Next(own, w, s).store.items, id)
  {
    hide WellFormed, Owned, TwinAddition, StillCurrent, MergedView, HasEntry, Entry, Left, OwnStamps, StampOf, FreshStamp;
    var p := w.procs[s.p];
    assert GoodProc(own, p, w.store) && CarriesUse(p, id) && NotBehind(p.persisted, w.store.items, id);
    match s
    case Begin(_, desired, _) =>
      NotBelowZero(desired, id);
      NoEntryLeft(p.persisted, id);
    case Retry(_) =>
      if StillCurrent(p.save.value.expected, w.store.items) {
        RetryCarriesUse(own, w, s.p, id);
      }
    case FinishRefresh(_) =>
    case Commit(_) =>
    case NothingToSave(_) =>
    case Abort(_, _) =>
    case StartRefresh(_) =>
  }

  lemma StepCarriesUse(own: Token -> AccountId, w: World, s: Step, id: AccountId)
    requires Inv(own, w) && QuotaTracked(w, id) && Enabled(own, w, s) && OnlyUses(w, s, id)
    ensures var w' := Next(own, w, s);
      && (forall k | k in w'.procs :: CarriesUse(w'.procs[k], id) && NotBehind(w'.procs[k].persisted, w'.store.items, id))
      && (forall k | k in w'.loads :: NotBehind(w'.loads[k].snapshot.items, w'.store.items, id))
  {
    hide Inv, OnlyUses, CarriesUse, HasEntry, Left, OwnStamps, MergedView, StillCurrent, TwinAddition;
    StepStore(own, w, s, id);
    ActorCarriesUse(own, w, s, id);
    OthersStand(own, w, s);
    hide Next, Enabled;
    var w' := Next(own, w, s);
    forall k | k in w'.procs ensures CarriesUse(w'.procs[k], id) && NotBehind(w'.procs[k].persisted, w'.store.items, id) {
      if k != s.p {
        assert CarriesUse(w.procs[k], id) && NotBehind(w.procs[k].persisted, w.store.items, id);
      }
    }
    forall k | k in w'.loads ensures NotBehind(w'.loads[k].snapshot.items, w'.store.items, id) {
      assert k in w.loads && w'.loads[k] == w.loads[k] ==> NotBehind(w.loads[k].snapshot.items, w.store.items, id);
    }
  }

  // A step changes one process, and at most starts one snapshot read of the store.
  lemma OthersStand(own: Token -> AccountId, w: World, s: Step)
    requires Enabled(own, w, s)
    ensures var w' := Next(own, w, s);
      && w'.procs.Keys == w.procs.Keys && (forall k | k in w.procs && k != s.p :: w'.procs[k] == w.procs[k])
      && (forall k | k in w'.loads :: (k in w.loads && w'.loads[k] == w.loads[k]) || w'.loads[k].snapshot == w.store == w'.store)
  {
    hide MergedView, StillCurrent, TwinAddition, WellFormed, Owned;
  }

  lemma NoEntryLeft(v: View, id: AccountId)
    ensures !HasEntry(v, id) ==> Left(v, id) == 0
  {
  }

  // Every time of last use a step leaves behind was there before, or comes with the operation that begins.
  lemma StampsKnown(own: Token -> AccountId, w: World, s: Step, id: AccountId)
    requires Inv(own, w) && QuotaTracked(w, id) && Enabled(own, w, s)
    ensures var w', p := Next(own, w, s), w.procs[s.p]; var p' := w'.procs[s.p];
      && StampOf(w'.store.items, id) in {StampOf(w.store.items, id), StampOf(p.accounts, id)}
      && (StampOf(p'.persisted, id) in {StampOf(p.persisted, id), StampOf(p.accounts, id), StampOf(w.store.items, id)}
          || (s.FinishRefresh? && StampOf(p'.persisted, id) == StampOf(w.loads[s.p].snapshot.items, id)))
      && (StampOf(p'.accounts, id) in {StampOf(p.persisted, id), StampOf(p.accounts, id), StampOf(w.store.items, id)}
          || (s.FinishRefresh? && StampOf(p'.accounts, id) == StampOf(w.loads[s.p].snapshot.items, id))
          || (s.Begin? && p'.accounts == s.desired))
  {
    hide WellFormed, Owned, TwinAddition, StillCurrent, MergedView, StampOf, HasEntry, QuotaTracked;
    var p := w.procs[s.p];
    if s.Retry? && StillCurrent(p.save.value.expected, w.store.items) {
      RetryCarriesUse(own, w, s.p, id);
    }
  }

  // A time of last use that neither the store nor the acting process has, nor gets from outside, they do not have afterwards.
  lemma StampAvoided(own: Token -> AccountId, w: World, s: Step, id: AccountId, v: Value)
    requires Inv(own, w) && QuotaTracked(w, id) && Enabled(own, w, s)
    requires v != StampOf(w.store.items, id)
    requires v != StampOf(w.procs[s.p].accounts, id) && v != StampOf(w.procs[s.p].persisted, id)
    requires s.Begin? ==> v != StampOf(s.desired, id)
    requires s.FinishRefresh? && s.p in w.loads ==> v != StampOf(w.loads[s.p].snapshot.items, id)
    ensures var w' := Next(own, w, s);
      v != StampOf(w'.store.items, id) && v != StampOf(w'.procs[s.p].accounts, id) && v != StampOf(w'.procs[s.p].persisted, id)
  {
    StampsKnown(own, w, s, id);
    hide Inv, QuotaTracked, StampOf, MergedView, StillCurrent, TwinAddition, WellFormed, Owned;
  }

  lemma BeginsElsewhere(w: World, s: Step, id: AccountId, k: Pid)
    requires s.p in w.procs && OnlyUses(w, s, id) && s.Begin? && k in w.procs && k != s.p && OwnStamp(w, k, id)
    ensures StampOf(w.procs[k].accounts, id) != StampOf(s.desired, id)
  {
    hide UsesForward, StampOf;
    assert FreshStamp(w, id, StampOf(s.desired, id)) ==> StampOf(s.desired, id) != StampOf(w.procs[k].accounts, id);
  }

  lemma StaysOwn(w: World, w': World, k: Pid, p: Pid, id: AccountId)
    requires k in w.procs && p in w.procs && k != p && OwnStamp(w, k, id)
    requires w'.procs.Keys == w.procs.Keys && forall q | q in w.procs && q != p :: w'.procs[q] == w.procs[q]
    requires forall q | q in w'.loads :: (q in w.loads && w'.loads[q] == w.loads[q]) || w'.loads[q].snapshot == w.store
    requires var v := StampOf(w.procs[k].accounts, id);
      v != StampOf(w'.store.items, id) && v != StampOf(w'.procs[p].accounts, id) && v != StampOf(w'.procs[p].persisted, id)
    ensures OwnStamp(w', k, id)
  {
    hide StampOf;
  }

  lemma OtherStamp(own: Token -> AccountId, w: World, s: Step, id: AccountId, k: Pid)
    requires Inv(own, w) && QuotaTracked(w, id) && Enabled(own, w, s) && OnlyUses(w, s, id)
    requires k in w.procs && k != s.p && Using(w.procs[k], id)
    ensures k in Next(own, w, s).procs && OwnStamp(Next(own, w, s), k, id)
  {
    assert OwnStamp(w, k, id);
    OthersStand(own, w, s);
    if s.Begin? {
      BeginsElsewhere(w, s, id, k);
    }
    hide Inv, QuotaTracked, StampOf, Next, OnlyUses, Enabled;
    StampAvoided(own, w, s, id, StampOf(w.procs[k].accounts, id));
    hide OwnStamp;
    StaysOwn(w, Next(own, w, s), k, s.p, id);
  }

  lemma ActorStamp(own: Token -> AccountId, w: World, s: Step, id: AccountId)
    requires Inv(own, w) && QuotaTracked(w, id) && Enabled(own, w, s) && OnlyUses(w, s, id)
    requires Using(Next(own, w, s).procs[s.p], id)
    ensures OwnStamp(Next(own, w, s), s.p, id)
  {
    hide WellFormed, Owned, TwinAddition, MergedView, HasEntry, Entry, Left, StampOf;
    var p := w.procs[s.p];
    assert GoodProc(own, p, w.store);
    assert Using(p, id) ==> OwnStamp(w, s.p, id);
    if s.Retry? && StillCurrent(p.save.value.expected, w.store.items) {
      RetryCarriesUse(own, w, s.p, id);
    }
    hide StillCurrent;
  }

  lemma StepStamps(own: Token -> AccountId, w: World, s: Step, id: AccountId)
    requires Inv(own, w) && QuotaTracked(w, id) && Enabled(own, w, s) && OnlyUses(w, s, id)
    ensures OwnStamps(Next(own, w, s), id)
  {
    hide Inv, QuotaTracked, OnlyUses, Using, OwnStamp;
    OthersStand(own, w, s);
    hide Next, Enabled;
    var w' := Next(own, w, s);
    forall k | k in w'.procs && Using(w'.procs[k], id) ensures OwnStamp(w', k, id) {
      if k == s.p {
        ActorStamp(own, w, s, id);
      } else {
        OtherStamp(own, w, s, id, k);
      }
    }
  }

  // ---------------------------------------------------------------- runs

  /** No operation of the run deletes the account, adds it anew or takes over an upstream snapshot of its quota. */
  ghost predicate NeverRefreshed(own: Token -> AccountId, w: World, run: seq<Step>, id: AccountId)
    requires Possible(own, w, run)
    decreases |run|
  {
    run != [] ==> OnlyUses(w, run[0], id) && NeverRefreshed(own, Next(own, w, run[0]), run[1..], id)
  }

  ghost function TakenIn(own: Token -> AccountId, w: World, run: seq<Step>, id: AccountId): int
    requires Possible(own, w, run)
    decreases |run|
  {
    if run == [] then 0 else Taken(own, w, run[0], id) + TakenIn(own, Next(own, w, run[0]), run[1..], id)
  }

  /** No quota use is lost and none counts twice: over any run between two upstream snapshots, whatever conflicts and merges
      there were, the stored quota is the initial one minus the uses of exactly the saves that returned True, or zero. */
  lemma {:induction false} NoUseIsLost(own: Token -> AccountId, w: World, run: seq<Step>, id: AccountId)
    requires Inv(own, w) && QuotaTracked(w, id) && Possible(own, w, run) && NeverRefreshed(own, w, run, id)
    ensures QuotaTracked(Execute(own, w, run), id) && TakenIn(own, w, run, id) >= 0
    ensures Left(Execute(own, w, run).store.items, id) == Floored(Left(w.store.items, id) - TakenIn(own, w, run, id))
    decreases |run|
  {
    hide Inv, QuotaTracked, Enabled, Left, Taken, Next, OnlyUses;
    if run == [] {
      StoreNotBelowZero(own, w, id);
    } else {
      StepKeepsInv(own, w, run[0]);
      StepUses(own, w, run[0], id);
      NoUseIsLost(own, Next(own, w, run[0]), run[1..], id);
    }
  }

  lemma StoreNotBelowZero(own: Token -> AccountId, w: World, id: AccountId)
    requires Inv(own, w)
    ensures Left(w.store.items, id) >= 0
  {
    NotBelowZero(w.store.items, id);
  }

  /** A state in which no save is under way and every view agrees with the store may start such a run. */
  lemma QuietIsTracked(w: World, id: AccountId)
    requires HasEntry(w.store.items, id) && w.loads == map[]
    requires forall k | k in w.procs :: w.procs[k].save.None? && w.procs[k].persisted == w.store.items
    ensures QuotaTracked(w, id)
  {
  }
}
