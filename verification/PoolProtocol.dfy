/** Several processes share one compare-and-swap account store (services/account_service.py:478-551, 798-873). */
module PoolProtocol {
  import opened Accounts
  import opened AccountMerge
  import opened MergeTheorems

  const STORAGE_MUTATION_MAX_ATTEMPTS := 4

  // ---------------------------------------------------------------- the store

  datatype Store = Store(items: View, revision: nat)

  datatype Mutation = Mutation(upserts: set<Account>, deletes: set<Token>)

  function AccountMutation(baseline: View, desired: View): Mutation {
    Mutation(set t | t in desired && Lookup(baseline, t) != Some(desired[t]) :: desired[t],
             baseline.Keys - desired.Keys)
  }

  function Upserted(m: Mutation): set<Token> {
    set a | a in m.upserts :: TextOf(a, AccessToken)
  }

  /** The adapter files each upserted account under its own access_token. */
  ghost predicate Applied(before: View, m: Mutation, after: View) {
    && after.Keys == before.Keys - m.deletes + Upserted(m)
    && (forall t | t in after && t !in Upserted(m) :: after[t] == before[t])
    && (forall t | t in after && t in Upserted(m) :: after[t] in m.upserts && TextOf(after[t], AccessToken) == t)
  }

  lemma FiledUnderItself(desired: View, t: Token)
    requires WellFormed(desired) && t in desired
    ensures TextOf(desired[t], AccessToken) == t
  {
    assert Normalised(t, desired[t]);
  }

  // The upserted tokens are the ones whose account differs from the baseline's.
  lemma UpsertedTokens(baseline: View, desired: View, t: Token)
    requires WellFormed(desired)
    ensures t in Upserted(AccountMutation(baseline, desired)) <==> t in desired && Lookup(baseline, t) != Some(desired[t])
  {
    hide WellFormed;
    var m := AccountMutation(baseline, desired);
    if t in Upserted(m) {
      var a :| a in m.upserts && TextOf(a, AccessToken) == t;
      var u :| u in desired && Lookup(baseline, u) != Some(desired[u]) && desired[u] == a;
      FiledUnderItself(desired, u);
    }
    if t in desired && Lookup(baseline, t) != Some(desired[t]) {
      FiledUnderItself(desired, t);
      assert desired[t] in m.upserts;
    }
  }

  lemma MutationReachesToken(baseline: View, desired: View, after: View, t: Token)
    requires WellFormed(desired) && Applied(baseline, AccountMutation(baseline, desired), after)
    ensures Lookup(after, t) == Lookup(desired, t)
  {
    hide WellFormed, Upserted;
    UpsertedTokens(baseline, desired, t);
    if t in after && t in Upserted(AccountMutation(baseline, desired)) {
      var u :| u in desired && desired[u] == after[t];
      FiledUnderItself(desired, u);
    }
  }

  /** Applied to the baseline it was computed from, a mutation stores exactly the desired view. */
  lemma MutationReachesDesired(baseline: View, desired: View, after: View)
    requires WellFormed(baseline) && WellFormed(desired)
    requires Applied(baseline, AccountMutation(baseline, desired), after)
    ensures after == desired
  {
    hide WellFormed, Applied, AccountMutation;
    forall t ensures Lookup(after, t) == Lookup(desired, t) {
      MutationReachesToken(baseline, desired, after, t);
    }
    SameLookups(after, desired);
  }

  // ---------------------------------------------------------------- one process

  /** The credentials an OAuth exchange starts from. */
  datatype Generation = Generation(access: string, refresh: string, refreshedAt: string)

  function GenerationOf(t: Token, a: Account): Generation {
    Generation(if TextOf(a, AccessToken) != "" then TextOf(a, AccessToken) else t,
               TextOf(a, RefreshToken), TextOf(a, LastTokenRefreshAt))
  }

  predicate StillCurrent(expected: Option<Generation>, v: View) {
    expected.Some? ==>
      expected.value.access in v && GenerationOf(expected.value.access, v[expected.value.access]) == expected.value
  }

  /** A save in progress; origin and desired remember the operation it belongs to. */
  datatype Save = Save(attempt: nat, expected: Option<Generation>, origin: View, desired: View)

  datatype Proc = Proc(accounts: View, persisted: View, revision: nat, save: Option<Save>)

  function Adopt(s: Store): Proc {
    Proc(s.items, s.items, s.revision, None)
  }

  function Begun(p: Proc, desired: View, expected: Option<Generation>): Proc {
    p.(accounts := desired, save := Some(Save(0, expected, p.persisted, desired)))
  }

  /** After a conflict: give way to changed credentials, or merge with the snapshot just loaded. */
  ghost function Retried(p: Proc, s: Store): Proc
    requires p.save.Some?
  {
    if !StillCurrent(p.save.value.expected, s.items) then
      Adopt(s)
    else
      Proc(MergedView(p.persisted, p.accounts, s.items), s.items, s.revision,
           Some(p.save.value.(attempt := p.save.value.attempt + 1)))
  }

  function Saved(p: Proc, revision: nat): Proc {
    Proc(p.accounts, p.accounts, revision, None)
  }

  function Restored(p: Proc, s: Option<Store>): Proc {
    match s
    case Some(snapshot) => Adopt(snapshot)
    case None => Proc(p.persisted, p.persisted, p.revision, None)
  }

  // ---------------------------------------------------------------- all processes

  type Pid = nat

  /** A background snapshot read that has not been applied yet. */
  datatype Load = Load(snapshot: Store, expectedRevision: nat)

  datatype World = World(store: Store, procs: map<Pid, Proc>, loads: map<Pid, Load>)

  datatype Step =
    | Begin(p: Pid, desired: View, expected: Option<Generation>)
    | Commit(p: Pid)
    | NothingToSave(p: Pid)
    | Retry(p: Pid)
    | Abort(p: Pid, readable: bool)
    | StartRefresh(p: Pid)
    | FinishRefresh(p: Pid)

  ghost predicate Owned(own: Token -> AccountId, v: View) {
    forall t | t in v :: IdOf(v[t]) == own(t)
  }

  ghost predicate Enabled(own: Token -> AccountId, w: World, s: Step) {
    && s.p in w.procs
    && var p := w.procs[s.p];
      match s
      case Begin(_, desired, expected) =>
        p.save.None? && WellFormed(desired) && Owned(own, desired) && StillCurrent(expected, p.accounts)
      case Commit(_) =>
        p.save.Some? && p.accounts != p.persisted && p.revision == w.store.revision
      case NothingToSave(_) =>
        p.save.Some? && p.accounts == p.persisted
      case Retry(_) =>
        && p.save.Some? && p.accounts != p.persisted && p.revision != w.store.revision
        && p.save.value.attempt + 1 < STORAGE_MUTATION_MAX_ATTEMPTS
        && !TwinAddition(p.persisted, p.accounts, w.store.items)
      case Abort(_, _) => p.save.Some?
      case StartRefresh(_) => true
      case FinishRefresh(_) =>
        s.p in w.loads && p.save.None? && w.loads[s.p].expectedRevision == p.revision
  }

  ghost function Next(own: Token -> AccountId, w: World, s: Step): World
    requires Enabled(own, w, s)
  {
    var p := w.procs[s.p];
    match s
    case Begin(_, desired, expected) => w.(procs := w.procs[s.p := Begun(p, desired, expected)])
    case Commit(_) =>
      w.(store := Store(p.accounts, w.store.revision + 1), procs := w.procs[s.p := Saved(p, w.store.revision + 1)])
    case NothingToSave(_) => w.(procs := w.procs[s.p := Saved(p, p.revision)])
    case Retry(_) => w.(procs := w.procs[s.p := Retried(p, w.store)])
    case Abort(_, readable) => w.(procs := w.procs[s.p := Restored(p, if readable then Some(w.store) else None)])
    case StartRefresh(_) => w.(loads := w.loads[s.p := Load(w.store, p.revision)])
    case FinishRefresh(_) => w.(procs := w.procs[s.p := Adopt(w.loads[s.p].snapshot)], loads := w.loads - {s.p})
  }

  ghost predicate GoodView(own: Token -> AccountId, v: View) {
    WellFormed(v) && Owned(own, v)
  }

  // A snapshot at the current revision is the current store: revisions never repeat.
  ghost predicate GoodSnapshot(own: Token -> AccountId, s: Store, store: Store) {
    GoodView(own, s.items) && s.revision <= store.revision && (s.revision == store.revision ==> s.items == store.items)
  }

  ghost predicate GoodProc(own: Token -> AccountId, p: Proc, store: Store) {
    && GoodSnapshot(own, Store(p.persisted, p.revision), store)
    && GoodView(own, p.accounts)
    && (p.save.None? ==> p.accounts == p.persisted)
    && (p.save.Some? ==> StillCurrent(p.save.value.expected, p.persisted))
  }

  ghost predicate Inv(own: Token -> AccountId, w: World) {
    && GoodView(own, w.store.items)
    && (forall p | p in w.procs :: GoodProc(own, w.procs[p], w.store))
    && (forall p | p in w.loads :: GoodSnapshot(own, w.loads[p].snapshot, w.store))
  }

  lemma OwnedViewsMerge(own: Token -> AccountId, b: View, l: View, r: View)
    requires GoodView(own, b) && GoodView(own, l) && GoodView(own, r)
    ensures Mergeable(b, l, r)
  {
  }

  lemma MergedGoodView(own: Token -> AccountId, b: View, l: View, r: View)
    requires GoodView(own, b) && GoodView(own, l) && GoodView(own, r) && !TwinAddition(b, l, r)
    ensures GoodView(own, MergedView(b, l, r))
  {
    OwnedViewsMerge(own, b, l, r);
    MergeKeepsIdsDistinct(b, l, r);
    var m := MergedView(b, l, r);
    forall t | t in m ensures IdOf(m[t]) == own(t) {
      MergedLookup(b, l, r, t);
      LogicalMergeNormalised(b, l, r, OwnerOf(b, l, r, t), t);
    }
  }

  /** What every step keeps: saves happen only on top of the snapshot they were computed from. */
  lemma StepKeepsInv(own: Token -> AccountId, w: World, s: Step)
    requires Inv(own, w) && Enabled(own, w, s)
    ensures Inv(own, Next(own, w, s))
  {
    hide WellFormed, Owned, MergedView, TwinAddition, StillCurrent;
    assert GoodProc(own, w.procs[s.p], w.store);
    if s.Retry? {
      var p := w.procs[s.p];
      if StillCurrent(p.save.value.expected, w.store.items) {
        MergedGoodView(own, p.persisted, p.accounts, w.store.items);
      }
    }
  }
}
