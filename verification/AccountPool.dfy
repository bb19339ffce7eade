/** One process's account pool: the save loop of services/account_service.py:798-873 over a shared store. */
module AccountPool {
  import opened Accounts
  import opened AccountMerge
  import opened MergeTheorems
  import opened PoolProtocol
  import opened NoLostIncrements

  datatype SaveResult = SavedChanges | CredentialsChanged | ConflictRaised

  /** What another process commits in the meantime, if anything. */
  function AfterRival(s: Store, rival: Option<View>): Store {
    if rival.Some? && rival.value != s.items then Store(rival.value, s.revision + 1) else s
  }

  /** One attempt as a value: either it settles the save, or it leaves a merged view to try again. */
  ghost function Attempt(s: Store, p: Proc, last: bool): (Store, Proc, Option<SaveResult>)
    requires p.save.Some?
  {
    if p.accounts == p.persisted then
      (s, Saved(p, p.revision), Some(SavedChanges))
    else if p.revision == s.revision then
      (Store(p.accounts, s.revision + 1), Saved(p, s.revision + 1), Some(SavedChanges))
    else if last then
      (s, Adopt(s), Some(ConflictRaised))
    else if !StillCurrent(p.save.value.expected, s.items) then
      (s, Adopt(s), Some(CredentialsChanged))
    else
      (s, Retried(p, s), None)
  }

  /** The save as a value: rivals[k] is what other processes store right before the k-th attempt. */
  ghost function SaveFrom(s: Store, p: Proc, rivals: seq<Option<View>>): (Store, Proc, SaveResult)
    requires p.save.Some? && rivals != []
    decreases |rivals|
  {
    var (s', p', result) := Attempt(AfterRival(s, rivals[0]), p, |rivals| == 1);
    if result.Some? then (s', p', result.value) else SaveFrom(s', p', rivals[1..])
  }

  /** The locally added tokens that the store turns out to have. */
  function AlreadyThere(s: Store, p: Proc): set<Token> {
    set t | t in p.accounts && t !in p.persisted && t in s.items
  }

  ghost predicate Conflicts(s: Store, p: Proc, last: bool) {
    p.accounts != p.persisted && p.revision != s.revision && !last
  }

  /** What the save collects over its conflicts: the added tokens each of them revealed in the store. */
  ghost function Revealed(s: Store, p: Proc, rivals: seq<Option<View>>): set<Token>
    requires p.save.Some? && rivals != []
    decreases |rivals|
  {
    var now, last := AfterRival(s, rivals[0]), |rivals| == 1;
    var (s', p', result) := Attempt(now, p, last);
    (if Conflicts(now, p, last) then AlreadyThere(now, p) else {}) +
    (if result.Some? then {} else Revealed(s', p', rivals[1..]))
  }

  ghost predicate NoTwins(s: Store, p: Proc) {
    !TwinAddition(p.persisted, p.accounts, s.items)
  }

  /** The rivals store good views, and no account is added twice under different tokens. */
  ghost predicate Fair(own: Token -> AccountId, s: Store, p: Proc, rivals: seq<Option<View>>)
    requires p.save.Some?
    decreases |rivals|
  {
    rivals != [] ==>
      && (rivals[0].Some? ==> GoodView(own, rivals[0].value))
      && var now := AfterRival(s, rivals[0]);
        NoTwins(now, p) &&
        var (s', p', result) := Attempt(now, p, |rivals| == 1);
        result.None? ==> Fair(own, s', p', rivals[1..])
  }

  lemma NothingFiled(before: View, m: Mutation)
    ensures Applied(before, Mutation(m.upserts - m.upserts, m.deletes), before - m.deletes)
  {
  }

  lemma UpsertedHas(m: Mutation, a: Account)
    requires a in m.upserts && Upserted(m) !! m.deletes
    ensures TextOf(a, AccessToken) !in m.deletes
  {
    assert TextOf(a, AccessToken) in Upserted(m);
  }

  // Filing one more account under its token.
  lemma OneFiled(before: View, m: Mutation, items: View, a: Account)
    requires Applied(before, m, items) && TextOf(a, AccessToken) !in m.deletes
    ensures Applied(before, Mutation(m.upserts + {a}, m.deletes), items[TextOf(a, AccessToken) := a])
  {
    assert Upserted(Mutation(m.upserts + {a}, m.deletes)) == Upserted(m) + {TextOf(a, AccessToken)};
    hide Upserted, TextOf;
  }

  class AccountStore {
    var items: View
    var revision: nat

    ghost function Contents(): Store reads this { Store(items, revision) }

    method Mutate(m: Mutation, expectedRevision: nat) returns (accepted: bool)
      requires forall a, b | a in m.upserts && b in m.upserts && TextOf(a, AccessToken) == TextOf(b, AccessToken) :: a == b
      requires Upserted(m) !! m.deletes
      modifies this
      ensures accepted == (expectedRevision == old(revision))
      ensures if accepted then Applied(old(items), m, items) && revision == old(revision) + 1
              else Contents() == old(Contents())
    {
      hide Upserted, Applied;
      accepted := expectedRevision == revision;
      if accepted {
        ghost var before := items;
        items := items - m.deletes;
        var todo := m.upserts;
        NothingFiled(before, m);
        while todo != {}
          invariant todo <= m.upserts && revision == old(revision)
          invariant Applied(before, Mutation(m.upserts - todo, m.deletes), items)
          decreases |todo|
        {
          var a :| a in todo;
          assert m.upserts - (todo - {a}) == (m.upserts - todo) + {a};
          assert TextOf(a, AccessToken) !in m.deletes by { UpsertedHas(m, a); }
          OneFiled(before, Mutation(m.upserts - todo, m.deletes), items, a);
          items := items[TextOf(a, AccessToken) := a];
          todo := todo - {a};
        }
        assert m.upserts - {} == m.upserts;
        revision := revision + 1;
      }
    }

    // Another process's completed save.
    method Rival(v: Option<View>)
      modifies this
      ensures Contents() == AfterRival(old(Contents()), v)
    {
      if v.Some? && v.value != items {
        items, revision := v.value, revision + 1;
      }
    }
  }

  lemma MutationWellFormed(baseline: View, desired: View)
    requires WellFormed(baseline) && WellFormed(desired)
    ensures var m := AccountMutation(baseline, desired);
      && (forall a, b | a in m.upserts && b in m.upserts && TextOf(a, AccessToken) == TextOf(b, AccessToken) :: a == b)
      && Upserted(m) !! m.deletes
      && (m.upserts == {} && m.deletes == {} <==> baseline == desired)
  {
    var m := AccountMutation(baseline, desired);
    forall t | t in desired ensures TextOf(desired[t], AccessToken) == t {
      assert Normalised(t, desired[t]);
    }
    forall a | a in m.upserts ensures TextOf(a, AccessToken) in desired && desired[TextOf(a, AccessToken)] == a {
      var t :| t in desired && desired[t] == a;
    }
    forall t
      ensures t in desired && Lookup(baseline, t) != Some(desired[t]) ==> desired[t] in m.upserts
      ensures t in baseline && t !in desired ==> t in m.deletes
    {
    }
    if m.upserts == {} && m.deletes == {} {
      SameLookups(baseline, desired);
    }
  }

  class AccountPool {
    const storage: AccountStore
    var accounts: View
    var persisted: View
    var revision: nat

    constructor (storage: AccountStore)
      ensures this.storage == storage && accounts == persisted == storage.items && revision == storage.revision
    {
      this.storage := storage;
      accounts, persisted, revision := storage.items, storage.items, storage.revision;
    }

    ghost function State(save: Option<Save>): Proc reads this {
      Proc(accounts, persisted, revision, save)
    }

    // One compare-and-swap attempt; a conflict is merged, given way to, or finally raised.
    method TrySave(ghost own: Token -> AccountId, ghost save: Save, expected: Option<Generation>, last: bool)
      returns (result: Option<SaveResult>, ghost next: Option<Save>, existing: set<Token>)
      requires save.expected == expected
      requires GoodProc(own, State(Some(save)), storage.Contents()) && GoodView(own, storage.items)
      requires NoTwins(storage.Contents(), State(Some(save)))
      modifies this, storage
      ensures (storage.Contents(), State(next), result) == old(Attempt(storage.Contents(), State(Some(save)), last))
      ensures existing == old(if Conflicts(storage.Contents(), State(Some(save)), last)
                              then AlreadyThere(storage.Contents(), State(Some(save))) else {})
    {
      existing := {};
      hide WellFormed, Owned, MergedView, Mergeable, TwinAddition, StillCurrent, AccountMutation, Applied;
      var mutation := AccountMutation(persisted, accounts);
      MutationWellFormed(persisted, accounts);
      if mutation.upserts == {} && mutation.deletes == {} {
        persisted := accounts;
        return Some(SavedChanges), None, {};
      }
      var accepted := storage.Mutate(mutation, revision);
      if accepted {
        MutationReachesDesired(persisted, accounts, storage.items);
        persisted, revision := accounts, storage.revision;
        return Some(SavedChanges), None, {};
      }
      var remote := storage.items;
      if !last {
        existing := set t | t in accounts && t !in persisted && t in remote;
      }
      if last || !StillCurrent(expected, remote) {
        accounts, persisted, revision := remote, remote, storage.revision;
        return Some(if last then ConflictRaised else CredentialsChanged), None, existing;
      }
      OwnedViewsMerge(own, persisted, accounts, remote);
      var merged := MergeAccountsAfterConflict(persisted, accounts, remote);
      accounts, persisted, revision := merged, remote, storage.revision;
      return None, Some(save.(attempt := save.attempt + 1)), existing;
    }

    /** At most four attempts; rivals[k] is what the other processes store right before the k-th. existing collects the
        added tokens that the conflicts revealed in the store. */
    method SaveAccounts(ghost own: Token -> AccountId, ghost save: Save, expected: Option<Generation>, rivals: seq<Option<View>>)
      returns (result: SaveResult, existing: set<Token>)
      requires |rivals| == STORAGE_MUTATION_MAX_ATTEMPTS && save.expected == expected
      requires GoodProc(own, State(Some(save)), storage.Contents()) && GoodView(own, storage.items)
      requires Fair(own, storage.Contents(), State(Some(save)), rivals)
      modifies this, storage
      ensures (storage.Contents(), State(None), result) ==
              old(SaveFrom(storage.Contents(), State(Some(save)), rivals))
      ensures existing == old(Revealed(storage.Contents(), State(Some(save)), rivals))
    {
      hide GoodView, StillCurrent, TwinAddition, Retried, NoTwins, Attempt, AlreadyThere, Conflicts;
      existing := {};
      var attempt := 0;
      ghost var current := save;
      while attempt < STORAGE_MUTATION_MAX_ATTEMPTS
        invariant 0 <= attempt < STORAGE_MUTATION_MAX_ATTEMPTS
        invariant current.expected == expected
        invariant GoodProc(own, State(Some(current)), storage.Contents()) && GoodView(own, storage.items)
        invariant Fair(own, storage.Contents(), State(Some(current)), rivals[attempt..])
        invariant SaveFrom(storage.Contents(), State(Some(current)), rivals[attempt..]) ==
                  old(SaveFrom(storage.Contents(), State(Some(save)), rivals))
        invariant existing + Revealed(storage.Contents(), State(Some(current)), rivals[attempt..]) ==
                  old(Revealed(storage.Contents(), State(Some(save)), rivals))
      {
        ghost var p := State(Some(current));
        ghost var before := storage.Contents();
        assert rivals[attempt..][1..] == rivals[attempt + 1..];
        storage.Rival(rivals[attempt]);
        RivalKeepsProc(own, before, p, rivals[attempt]);
        ghost var now := storage.Contents();
        var settled;
        ghost var next;
        var seen;
        settled, next, seen := TrySave(own, current, expected, attempt + 1 >= STORAGE_MUTATION_MAX_ATTEMPTS);
        AttemptKeepsProc(own, now, p, attempt + 1 >= STORAGE_MUTATION_MAX_ATTEMPTS);
        existing := existing + seen;
        if settled.Some? {
          return settled.value, existing;
        }
        current := next.value;
        attempt := attempt + 1;
      }
    }
  }

  lemma RivalKeepsProc(own: Token -> AccountId, s: Store, p: Proc, rival: Option<View>)
    requires GoodProc(own, p, s) && GoodView(own, s.items) && (rival.Some? ==> GoodView(own, rival.value))
    ensures GoodProc(own, p, AfterRival(s, rival)) && GoodView(own, AfterRival(s, rival).items)
  {
    hide GoodView, StillCurrent;
  }

  lemma AttemptKeepsProc(own: Token -> AccountId, s: Store, p: Proc, last: bool)
    requires p.save.Some? && GoodProc(own, p, s) && GoodView(own, s.items) && NoTwins(s, p)
    ensures var (s', p', result) := Attempt(s, p, last);
      && GoodProc(own, p', s') && GoodView(own, s'.items)
      && (result.None? <==> p'.save.Some?)
      && (last ==> result.Some?)
      && (result.None? ==> s' == s && p'.save.value.expected == p.save.value.expected)
  {
    hide WellFormed, Owned, TwinAddition, MergedView, StillCurrent;
    if p.accounts != p.persisted && p.revision != s.revision && !last && StillCurrent(p.save.value.expected, s.items) {
      MergedGoodView(own, p.persisted, p.accounts, s.items);
    }
  }
}
