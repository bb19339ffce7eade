/** What a successful save tells its caller about the store (services/account_service.py:798-873, 3089-3098, 3140-3190). */
module SaveOutcomes {
  import opened Accounts
  import opened AccountMerge
  import opened MergeTheorems
  import opened NoLostIncrements
  import opened PoolProtocol
  import opened AccountPool
  import opened ImportAccounting
  import opened ImportFailures

  // ---------------------------------------------------------------- deletions

  /** The other processes do not add the account again once it has left the store. */
  ghost predicate NotAddedAgain(s: Store, p: Proc, rivals: seq<Option<View>>, id: AccountId)
    requires p.save.Some?
    decreases |rivals|
  {
    rivals != [] ==>
      var now := AfterRival(s, rivals[0]);
      && (HasEntry(now.items, id) ==> HasEntry(p.persisted, id))
      && var (s', p', result) := Attempt(now, p, |rivals| == 1);
        result.None? ==> NotAddedAgain(s', p', rivals[1..], id)
  }

  lemma DeletionRetry(own: Token -> AccountId, p: Proc, s: Store, id: AccountId)
    requires GoodProc(own, p, s) && GoodView(own, s.items) && p.save.Some?
    requires !HasEntry(p.accounts, id) && (HasEntry(s.items, id) ==> HasEntry(p.persisted, id))
    ensures !HasEntry(MergedView(p.persisted, p.accounts, s.items), id)
  {
    hide Owned, WellFormed, MergedView, HasEntry, Entry;
    OwnedViewsMerge(own, p.persisted, p.accounts, s.items);
    if HasEntry(p.persisted, id) {
      LocalDeletionWins(p.persisted, p.accounts, s.items, id);
    } else {
      NobodyHolds(p.persisted, p.accounts, s.items, id);
    }
  }

  /** A deletion that was saved is in the store: whatever the other processes did to the account in between, rotations and
      edits included, and however often the save had to merge, the account is in neither the store nor the memory. */
  lemma {:induction false} DeletionIsSaved(own: Token -> AccountId, s: Store, p: Proc, rivals: seq<Option<View>>, id: AccountId)
    requires GoodProc(own, p, s) && GoodView(own, s.items) && p.save.Some? && rivals != []
    requires Fair(own, s, p, rivals) && NotAddedAgain(s, p, rivals, id) && !HasEntry(p.accounts, id)
    ensures var (store, proc, result) := SaveFrom(s, p, rivals);
      result == SavedChanges ==> !HasEntry(store.items, id) && !HasEntry(proc.accounts, id)
    decreases |rivals|
  {
    hide GoodView, StillCurrent, TwinAddition, NoTwins, HasEntry, MergedView;
    var now, last := AfterRival(s, rivals[0]), |rivals| == 1;
    RivalKeepsProc(own, s, p, rivals[0]);
    AttemptKeepsProc(own, now, p, last);
    DeletionRetry(own, p, now, id);
    var (s', p', result) := Attempt(now, p, last);
    if result.None? {
      DeletionIsSaved(own, s', p', rivals[1..], id);
    }
  }

  // ---------------------------------------------------------------- exchanges

  lemma EntryIs(own: Token -> AccountId, v: View, t: Token)
    requires GoodView(own, v) && t in v
    ensures Entry(v, own(t)) == Some(t)
  {
    assert IdOf(v[t]) == own(t);
  }

  /** While the store still holds the generation an exchange started from, merging keeps the account under the new token, so
      every view its save installs before it ends otherwise holds that token. */
  lemma ExchangeSurvivesConflict(own: Token -> AccountId, p: Proc, s: Store, e: Generation, newToken: Token)
    requires GoodProc(own, p, s) && GoodView(own, s.items)
    requires p.save.Some? && p.save.value.expected == Some(e) && StillCurrent(Some(e), s.items)
    requires newToken in p.accounts && own(newToken) == own(e.access)
    ensures newToken in MergedView(p.persisted, p.accounts, s.items)
  {
    var id := own(e.access);
    assert e.access in p.persisted && e.access in s.items;
    hide GoodView, MergedView, Mergeable, Entry, HasEntry, GoodSnapshot, Normalised;
    EntryIs(own, p.persisted, e.access);
    EntryIs(own, s.items, e.access);
    EntryIs(own, p.accounts, newToken);
    assert GoodView(own, p.persisted) by { PersistedIsGood(own, p, s); }
    OwnedViewsMerge(own, p.persisted, p.accounts, s.items);
    TrackedMerge(p.persisted, p.accounts, s.items, id);
    assert Entry(MergedView(p.persisted, p.accounts, s.items), id) == Some(newToken);
  }

  lemma PersistedIsGood(own: Token -> AccountId, p: Proc, s: Store)
    requires GoodProc(own, p, s)
    ensures GoodView(own, p.persisted)
  {
  }

  // ---------------------------------------------------------------- additions

  /** The store's content at the attempt that settled the save. */
  ghost function SettledOn(s: Store, p: Proc, rivals: seq<Option<View>>): View
    requires p.save.Some? && rivals != []
    decreases |rivals|
  {
    var now := AfterRival(s, rivals[0]);
    var (s', p', result) := Attempt(now, p, |rivals| == 1);
    if result.Some? then now.items else SettledOn(s', p', rivals[1..])
  }

  /** The token is still an addition that no conflict revealed, or one did and the merges took the store's side. */
  ghost predicate Tells(own: Token -> AccountId, p: Proc, revealed: bool, t: Token) {
    if revealed then t in p.accounts ==> t in p.persisted
    else t in p.accounts && !HasEntry(p.persisted, own(t))
  }

  // An addition the store does not know survives the merge, and the store still does not know its account.
  lemma UnknownAddition(own: Token -> AccountId, b: View, l: View, r: View, t: Token)
    requires GoodView(own, b) && GoodView(own, l) && GoodView(own, r) && !TwinAddition(b, l, r)
    requires t in l && t !in r && !HasEntry(b, own(t))
    ensures t in MergedView(b, l, r) && !HasEntry(r, own(t))
  {
    OwnedViewsMerge(own, b, l, r);
    MergedLookup(b, l, r, t);
    RemoteLookup(b, l, r, t);
    hide MergedView, MergedAccount, Normalised, Mergeable;
    var id := own(t);
    assert t !in b by {
      if t in b {
        EntryThere(own, b, t);
      }
    }
    assert Entry(b, id).None? && Entry(l, id) == Some(t) && OwnerOf(b, l, r, t) == id;
    assert Entry(r, id) != Some(t);
  }

  // A token that is no addition any more is in the merge only if the store has it.
  lemma KnownToken(own: Token -> AccountId, b: View, l: View, r: View, t: Token)
    requires GoodView(own, b) && GoodView(own, l) && GoodView(own, r) && (t in l ==> t in b)
    ensures t in MergedView(b, l, r) ==> t in r
  {
    hide MergedView, MergedAccount, Mergeable, GoodView, OwnerOf, HasEntry;
    OwnedViewsMerge(own, b, l, r);
    MergedLookup(b, l, r, t);
    RemoteLookup(b, l, r, t);
    var id := OwnerOf(b, l, r, t);
    assert Entry(l, id) == Some(t) ==> t in l;
  }

  lemma AdditionRetry(own: Token -> AccountId, p: Proc, s: Store, revealed: bool, t: Token)
    requires GoodProc(own, p, s) && GoodView(own, s.items) && p.save.Some? && !TwinAddition(p.persisted, p.accounts, s.items)
    requires Tells(own, p, revealed, t)
    ensures var p' := p.(accounts := MergedView(p.persisted, p.accounts, s.items), persisted := s.items);
      Tells(own, p', revealed || t in AlreadyThere(s, p), t)
  {
    hide GoodView, MergedView, TwinAddition, StillCurrent;
    if revealed {
      KnownToken(own, p.persisted, p.accounts, s.items, t);
    } else {
      if t in p.persisted {
        EntryThere(own, p.persisted, t);
      }
      if t !in s.items {
        UnknownAddition(own, p.persisted, p.accounts, s.items, t);
      }
    }
  }

  lemma {:induction false} RevealedSoFar(own: Token -> AccountId, s: Store, p: Proc, rivals: seq<Option<View>>, revealed: bool, t: Token)
    requires GoodProc(own, p, s) && GoodView(own, s.items) && p.save.Some? && rivals != []
    requires Fair(own, s, p, rivals) && Tells(own, p, revealed, t)
    ensures var (store, proc, result) := SaveFrom(s, p, rivals);
      result == SavedChanges && t in store.items ==>
        (revealed || t in Revealed(s, p, rivals) <==> t in SettledOn(s, p, rivals))
    decreases |rivals|
  {
    hide GoodView, StillCurrent, TwinAddition, NoTwins, HasEntry, MergedView, AlreadyThere;
    var now, last := AfterRival(s, rivals[0]), |rivals| == 1;
    RivalKeepsProc(own, s, p, rivals[0]);
    AttemptKeepsProc(own, now, p, last);
    AdditionSettles(own, now, p, last, revealed, t);
    var (s', p', result) := Attempt(now, p, last);
    if result.None? {
      RevealedSoFar(own, s', p', rivals[1..], revealed || t in AlreadyThere(now, p), t);
    }
  }

  lemma AdditionSettles(own: Token -> AccountId, s: Store, p: Proc, last: bool, revealed: bool, t: Token)
    requires GoodProc(own, p, s) && GoodView(own, s.items) && p.save.Some? && NoTwins(s, p) && Tells(own, p, revealed, t)
    ensures var (s', p', result) := Attempt(s, p, last);
      && (result == Some(SavedChanges) && t in s'.items ==> (revealed <==> t in s.items) && !Conflicts(s, p, last))
      && (result.None? ==> Conflicts(s, p, last) && Tells(own, p', revealed || t in AlreadyThere(s, p), t))
  {
    hide WellFormed, Owned, TwinAddition, MergedView, StillCurrent;
    if Conflicts(s, p, last) {
      AdditionRetry(own, p, s, revealed, t);
    }
    if t in s.items {
      EntryThere(own, s.items, t);
    }
    if t in p.accounts {
      EntryThere(own, p.accounts, t);
    }
  }

  lemma EntryThere(own: Token -> AccountId, v: View, t: Token)
    requires GoodView(own, v) && t in v
    ensures HasEntry(v, own(t))
  {
    assert IdOf(v[t]) == own(t);
  }

  /** What the collected tokens mean for an added account's token that is in the store after the save: it was collected
      exactly if the store already had it right before the attempt that saved, so what is not collected was stored here. */
  lemma CollectedMeansAlreadyStored(own: Token -> AccountId, s: Store, p: Proc, rivals: seq<Option<View>>, t: Token)
    requires GoodProc(own, p, s) && GoodView(own, s.items) && p.save.Some? && rivals != [] && Fair(own, s, p, rivals)
    requires t in p.accounts && !HasEntry(p.persisted, own(t))
    ensures var (store, proc, result) := SaveFrom(s, p, rivals);
      result == SavedChanges && t in store.items ==>
        (t in Revealed(s, p, rivals) <==> t in SettledOn(s, p, rivals))
  {
    RevealedSoFar(own, s, p, rivals, false, t);
  }

  /** The process that imports has decided the rows over its own accounts, and holds those it decided to store. */
  predicate Imported(p: Proc, pool: Pool, items: seq<Option<Token>>) {
    p.persisted.Keys == pool.live && p.accounts.Keys == Decided(pool, Firsts(TokensOf(items))).live
  }

  // A row decided to be new brings a token and an account that the process did not have.
  lemma NewRowIsAddition(own: Token -> AccountId, p: Proc, s: Store, pool: Pool, tokens: seq<Token>, t: Token)
    requires GoodProc(own, p, s) && Distinct(tokens)
    requires p.persisted.Keys == pool.live && p.accounts.Keys == Decided(pool, tokens).live
    requires Lookup(Decided(pool, tokens).outcomes, t) == Some(Added)
    ensures t in p.accounts && !HasEntry(p.persisted, own(t))
  {
    hide GoodSnapshot, WellFormed, Normalised, Entry, StillCurrent;
    LiveAfter(pool, tokens);
    DecidedAll(pool, tokens);
    assert t in AddedIn(Decided(pool, tokens).outcomes);
    assert GoodView(own, p.persisted) by { PersistedIsGood(own, p, s); }
    if u :| u in p.persisted && IdOf(p.persisted[u]) == own(t) {
      EntryIs(own, p.accounts, u);
      EntryIs(own, p.accounts, t);
    }
  }

  // Until it is saved, an addition that no conflict revealed stays one.
  lemma {:induction false} UnrevealedIsStored(own: Token -> AccountId, s: Store, p: Proc, rivals: seq<Option<View>>, t: Token)
    requires GoodProc(own, p, s) && GoodView(own, s.items) && p.save.Some? && rivals != [] && Fair(own, s, p, rivals)
    requires t in p.accounts && !HasEntry(p.persisted, own(t))
    ensures var (store, proc, result) := SaveFrom(s, p, rivals);
      result == SavedChanges && t !in Revealed(s, p, rivals) ==> t in store.items && t !in SettledOn(s, p, rivals)
    decreases |rivals|
  {
    hide GoodView, StillCurrent, TwinAddition, NoTwins, HasEntry, MergedView, AlreadyThere;
    var now, last := AfterRival(s, rivals[0]), |rivals| == 1;
    RivalKeepsProc(own, s, p, rivals[0]);
    AttemptKeepsProc(own, now, p, last);
    AdditionCommits(own, now, p, last, t);
    var (s', p', result) := Attempt(now, p, last);
    if result.None? && t !in AlreadyThere(now, p) {
      UnrevealedIsStored(own, s', p', rivals[1..], t);
    }
  }

  lemma AdditionCommits(own: Token -> AccountId, s: Store, p: Proc, last: bool, t: Token)
    requires GoodProc(own, p, s) && GoodView(own, s.items) && p.save.Some? && NoTwins(s, p)
    requires t in p.accounts && !HasEntry(p.persisted, own(t))
    ensures var (s', p', result) := Attempt(s, p, last);
      && (result == Some(SavedChanges) ==> t in s'.items && t !in s.items && !Conflicts(s, p, last))
      && (result.None? ==> Conflicts(s, p, last))
      && (result.None? && t !in AlreadyThere(s, p) ==> t in p'.accounts && !HasEntry(p'.persisted, own(t)))
  {
    hide WellFormed, Owned, TwinAddition, MergedView, StillCurrent;
    AdditionNotPersisted(own, s, p, t);
    if Conflicts(s, p, last) && t !in s.items {
      AdditionUnknown(own, s, p, t);
    }
  }

  lemma AdditionNotPersisted(own: Token -> AccountId, s: Store, p: Proc, t: Token)
    requires GoodProc(own, p, s) && !HasEntry(p.persisted, own(t))
    ensures t !in p.persisted && (p.revision == s.revision ==> t !in s.items)
  {
    PersistedIsGood(own, p, s);
    hide GoodView, HasEntry, StillCurrent;
    if t in p.persisted {
      EntryThere(own, p.persisted, t);
    }
  }

  lemma AdditionUnknown(own: Token -> AccountId, s: Store, p: Proc, t: Token)
    requires GoodProc(own, p, s) && GoodView(own, s.items) && NoTwins(s, p)
    requires t in p.accounts && t !in s.items && !HasEntry(p.persisted, own(t))
    ensures t in MergedView(p.persisted, p.accounts, s.items) && !HasEntry(s.items, own(t))
  {
    hide GoodView, MergedView, TwinAddition, StillCurrent, HasEntry;
    UnknownAddition(own, p.persisted, p.accounts, s.items, t);
  }

  /** So every imported row that is reported as added, once the save went through, is an account that this save put into the
      store: the store has its token now and did not right before the attempt that saved. */
  lemma AddedRowWasStoredHere(own: Token -> AccountId, s: Store, p: Proc, rivals: seq<Option<View>>,
                              pool: Pool, items: seq<Option<Token>>, i: nat)
    requires GoodProc(own, p, s) && GoodView(own, s.items) && p.save.Some? && rivals != [] && Fair(own, s, p, rivals)
    requires Imported(p, pool, items) && SaveFrom(s, p, rivals).2 == SavedChanges
    requires i < |items| && ItemResults(pool, items, Revealed(s, p, rivals))[i] == Added
    ensures items[i].Some? && items[i].value in SaveFrom(s, p, rivals).0.items && items[i].value !in SettledOn(s, p, rivals)
  {
    StatusMeans(pool, items, Revealed(s, p, rivals), i);
    FirstsCover(TokensOf(items));
    hide ItemResults, Revealed, SettledOn, SaveFrom, Fair, GoodProc, GoodView, HasEntry, Decided, Firsts, TokensOf, Distinct;
    NewRowIsAddition(own, p, s, pool, Firsts(TokensOf(items)), items[i].value);
    UnrevealedIsStored(own, s, p, rivals, items[i].value);
  }
}
