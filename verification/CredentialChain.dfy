/** Committed OAuth exchanges of one account, across all processes (services/account_service.py:833-849, 1550-1632). */
module CredentialChain {
  import opened Accounts
  import opened AccountMerge
  import opened MergeTheorems
  import opened PoolProtocol
  import opened NoLostIncrements

  ghost function GenerationIn(v: View, id: AccountId): Generation
    requires HasEntry(v, id)
  {
    GenerationOf(Entry(v, id).value, At(v, id))
  }

  predicate SameCredentials(a: Account, b: Account) {
    forall f | f in {AccessToken, RefreshToken, LastTokenRefreshAt} :: Lookup(a, f) == Lookup(b, f)
  }

  /** The generation a view holds for the account, if it holds the account at all. */
  ghost function Stored(v: View, id: AccountId): Option<Generation> {
    if HasEntry(v, id) then Some(GenerationIn(v, id)) else None
  }

  /** The save carries the credentials it was started from, and they are this account's. */
  ghost predicate Names(own: Token -> AccountId, s: Save, id: AccountId) {
    s.expected.Some? && own(s.expected.value.access) == id
  }

  /** The operation neither adds nor removes the account nor touches its credentials. */
  ghost predicate Quiet(b: View, l: View, id: AccountId) {
    && (HasEntry(b, id) <==> HasEntry(l, id))
    && (HasEntry(b, id) && HasEntry(l, id) ==> SameCredentials(At(b, id), At(l, id)))
  }

  /** What a save in progress keeps, whatever the other processes do: one that names the account still stands on the
      generation it was started from and still wants to store its own; a quiet one is still quiet. */
  ghost predicate Holds(own: Token -> AccountId, p: Proc, id: AccountId) {
    p.save.Some? ==>
      var s := p.save.value;
      && (Names(own, s, id) ==> Stored(p.persisted, id) == s.expected && Stored(p.accounts, id) == Stored(s.desired, id))
      && (Quiet(s.origin, s.desired, id) ==> Quiet(p.persisted, p.accounts, id))
  }

  ghost predicate AllHold(own: Token -> AccountId, w: World, id: AccountId) {
    forall p | p in w.procs :: Holds(own, w.procs[p], id)
  }

  lemma SameCredentialsSameGeneration(v: View, w: View, id: AccountId)
    requires WellFormed(v) && WellFormed(w) && HasEntry(v, id) && HasEntry(w, id)
    requires SameCredentials(At(v, id), At(w, id))
    ensures Entry(v, id) == Entry(w, id) && GenerationIn(v, id) == GenerationIn(w, id)
  {
    EntryNormalised(v, id);
    EntryNormalised(w, id);
    var a, b := At(v, id), At(w, id);
    assert Lookup(a, AccessToken) == Lookup(b, AccessToken) && Lookup(a, RefreshToken) == Lookup(b, RefreshToken)
           && Lookup(a, LastTokenRefreshAt) == Lookup(b, LastTokenRefreshAt);
  }

  lemma GenerationNamesEntry(v: View, id: AccountId)
    requires WellFormed(v) && HasEntry(v, id)
    ensures GenerationIn(v, id).access == Entry(v, id).value
  {
    EntryNormalised(v, id);
  }

  // A view that is still at a generation holds its account, at that generation.
  lemma CurrentStored(own: Token -> AccountId, v: View, e: Generation)
    requires GoodView(own, v) && StillCurrent(Some(e), v)
    ensures Stored(v, own(e.access)) == Some(e)
  {
    var t := e.access;
    assert IdOf(v[t]) == own(t) && Entry(v, own(t)) == Some(t);
  }

  lemma MergedText(b: Account, l: Account, r: Account, f: Field)
    requires f in {AccessToken, RefreshToken, LastTokenRefreshAt}
    ensures Lookup(b, f) == Lookup(l, f) ==> Lookup(MergedAccount(b, l, r), f) == Lookup(r, f)
    ensures TextOf(b, f) == TextOf(r, f) ==> TextOf(MergedAccount(b, l, r), f) == TextOf(l, f)
  {
    MergedFieldLookup(b, l, r, f);
    assert Lookup(b, f) == Lookup(l, f) ==> TextOf(b, f) == TextOf(l, f);
  }

  lemma MergeLeavesRemoteCredentials(b: View, l: View, r: View, id: AccountId)
    requires Mergeable(b, l, r)
    requires HasEntry(b, id) && HasEntry(l, id) && HasEntry(r, id)
    requires SameCredentials(At(b, id), At(l, id))
    ensures HasEntry(MergedView(b, l, r), id)
    ensures SameCredentials(At(r, id), At(MergedView(b, l, r), id))
  {
    hide MergedView, TwinAddition, Entry, HasEntry, MergedAccount;
    MergeableViews(b, l, r);
    TrackedMerge(b, l, r, id);
    SameCredentialsSameGeneration(b, l, id);
    hide WellFormed, SameOwners, At;
    forall f | f in {AccessToken, RefreshToken, LastTokenRefreshAt} {
      MergedText(At(b, id), At(l, id), At(r, id), f);
    }
  }

  lemma MergeKeepsExchange(b: View, l: View, r: View, id: AccountId)
    requires Mergeable(b, l, r)
    requires HasEntry(b, id) && HasEntry(l, id) && HasEntry(r, id)
    requires GenerationIn(r, id) == GenerationIn(b, id)
    ensures HasEntry(MergedView(b, l, r), id)
    ensures WellFormed(MergedView(b, l, r)) ==> GenerationIn(MergedView(b, l, r), id) == GenerationIn(l, id)
  {
    hide MergedView, TwinAddition, Entry, HasEntry, MergedAccount, Normalised;
    MergeableViews(b, l, r);
    GenerationNamesEntry(b, id);
    GenerationNamesEntry(l, id);
    GenerationNamesEntry(r, id);
    TrackedMerge(b, l, r, id);
    var m := MergedView(b, l, r);
    if WellFormed(m) {
      GenerationNamesEntry(m, id);
      hide WellFormed, SameOwners, At;
      MergedText(At(b, id), At(l, id), At(r, id), RefreshToken);
      MergedText(At(b, id), At(l, id), At(r, id), LastTokenRefreshAt);
    }
  }

  // ---------------------------------------------------------------- one retry

  lemma NamedRetry(own: Token -> AccountId, p: Proc, store: Store, id: AccountId)
    requires GoodProc(own, p, store) && GoodView(own, store.items) && p.save.Some?
    requires Names(own, p.save.value, id) && StillCurrent(p.save.value.expected, store.items)
    requires !TwinAddition(p.persisted, p.accounts, store.items)
    requires Holds(own, p, id)
    ensures Stored(store.items, id) == p.save.value.expected
    ensures Stored(MergedView(p.persisted, p.accounts, store.items), id) == Stored(p.accounts, id)
  {
    hide Owned, MergedView, TwinAddition, Entry, HasEntry, Normalised, At, StillCurrent, GenerationIn, Quiet;
    OwnedViewsMerge(own, p.persisted, p.accounts, store.items);
    MergedGoodView(own, p.persisted, p.accounts, store.items);
    CurrentStored(own, store.items, p.save.value.expected.value);
    if HasEntry(p.accounts, id) {
      MergeKeepsExchange(p.persisted, p.accounts, store.items, id);
    } else {
      LocalDeletionWins(p.persisted, p.accounts, store.items, id);
    }
  }

  lemma QuietRetry(own: Token -> AccountId, b: View, l: View, r: View, id: AccountId)
    requires GoodView(own, b) && GoodView(own, l) && GoodView(own, r) && !TwinAddition(b, l, r) && Quiet(b, l, id)
    ensures Quiet(r, MergedView(b, l, r), id)
  {
    hide Owned, MergedView, TwinAddition, Entry, HasEntry, Normalised, At, SameCredentials;
    OwnedViewsMerge(own, b, l, r);
    MergeableViews(b, l, r);
    if !HasEntry(r, id) {
      if HasEntry(b, id) {
        RemoteDeletionWins(b, l, r, id);
      } else {
        NobodyHolds(b, l, r, id);
      }
    } else if HasEntry(b, id) {
      MergeLeavesRemoteCredentials(b, l, r, id);
    } else {
      UnawareMerge(b, l, r, id);
      SameAsItself(At(r, id));
    }
  }

  lemma SameAsItself(a: Account)
    ensures SameCredentials(a, a)
  {
  }

  lemma StepHolds(own: Token -> AccountId, w: World, s: Step, id: AccountId)
    requires Inv(own, w) && AllHold(own, w, id) && Enabled(own, w, s)
    ensures AllHold(own, Next(own, w, s), id)
  {
    hide WellFormed, Owned, TwinAddition, MergedView, HasEntry, Entry, SameCredentials, GenerationIn, Quiet, Stored, StillCurrent;
    var p := w.procs[s.p];
    assert GoodProc(own, p, w.store) && Holds(own, p, id);
    if s.Begin? && s.expected.Some? {
      CurrentStored(own, p.accounts, s.expected.value);
    }
    if s.Retry? && StillCurrent(p.save.value.expected, w.store.items) {
      if Names(own, p.save.value, id) {
        NamedRetry(own, p, w.store, id);
      }
      if Quiet(p.save.value.origin, p.save.value.desired, id) {
        QuietRetry(own, p.persisted, p.accounts, w.store.items, id);
      }
    }
  }

  // ---------------------------------------------------------------- runs

  /** One change of the stored credentials: an exchange goes from the generation it was sent with to the one it obtained;
      an edit is any other operation that changed, added or removed the account's credentials. */
  datatype Link =
    | Exchange(from: Option<Generation>, to: Option<Generation>)
    | Edit(from: Option<Generation>, to: Option<Generation>)

  /** The links one step contributes; an exchange is described by its operation alone, not by the store. */
  ghost function Links(own: Token -> AccountId, w: World, s: Step, id: AccountId): seq<Link>
    requires Enabled(own, w, s)
  {
    if !s.Commit? then []
    else
      var v := w.procs[s.p].save.value;
      if Names(own, v, id) then
        if v.expected == Stored(v.desired, id) then [] else [Exchange(v.expected, Stored(v.desired, id))]
      else if Quiet(v.origin, v.desired, id) then []
      else [Edit(Stored(w.store.items, id), Stored(w.procs[s.p].accounts, id))]
  }

  ghost function AllLinks(own: Token -> AccountId, w: World, run: seq<Step>, id: AccountId): seq<Link>
    requires Possible(own, w, run)
    decreases |run|
  {
    if run == [] then [] else Links(own, w, run[0], id) + AllLinks(own, Next(own, w, run[0]), run[1..], id)
  }

  ghost predicate Chain(start: Option<Generation>, links: seq<Link>, end: Option<Generation>)
    decreases |links|
  {
    if links == [] then start == end else links[0].from == start && Chain(links[0].to, links[1..], end)
  }

  /** A committed exchange replaces exactly the generation it was sent with, by exactly the one it obtained, however many
      conflicts it went through; a commit that is quiet about the account leaves its stored generation alone. */
  lemma StepReplacesItsOwnGeneration(own: Token -> AccountId, w: World, s: Step, id: AccountId)
    requires Inv(own, w) && AllHold(own, w, id) && Enabled(own, w, s)
    ensures var before, after := Stored(w.store.items, id), Stored(Next(own, w, s).store.items, id);
      if !s.Commit? then after == before
      else
        var v := w.procs[s.p].save.value;
        && (Names(own, v, id) ==> before == v.expected && after == Stored(v.desired, id))
        && (Quiet(v.origin, v.desired, id) ==> after == before)
  {
    hide Owned, TwinAddition, StillCurrent, MergedView, HasEntry, Entry, SameCredentials, GenerationIn, Normalised, At;
    var p := w.procs[s.p];
    assert GoodProc(own, p, w.store) && Holds(own, p, id);
    if s.Commit? && Quiet(p.persisted, p.accounts, id) && HasEntry(p.persisted, id) {
      SameCredentialsSameGeneration(p.persisted, p.accounts, id);
    }
  }

  lemma LinksChain(own: Token -> AccountId, w: World, s: Step, id: AccountId)
    requires Inv(own, w) && AllHold(own, w, id) && Enabled(own, w, s)
    ensures Chain(Stored(w.store.items, id), Links(own, w, s, id), Stored(Next(own, w, s).store.items, id))
  {
    hide Inv, AllHold, Enabled, Stored, Quiet, Names;
    StepReplacesItsOwnGeneration(own, w, s, id);
    var links := Links(own, w, s, id);
    if links != [] {
      assert links[1..] == [];
    }
  }

  lemma {:induction false} ChainsJoin(start: Option<Generation>, a: seq<Link>, mid: Option<Generation>, b: seq<Link>, end: Option<Generation>)
    requires Chain(start, a, mid) && Chain(mid, b, end)
    ensures Chain(start, a + b, end)
    decreases |a|
  {
    if a == [] {
      assert a + b == b;
    } else {
      ChainsJoin(a[0].to, a[1..], mid, b, end);
      assert (a + b)[1..] == a[1..] + b;
    }
  }

  /** Over any run of any number of processes, whatever else they store about the account, the changes of its stored
      credentials form one chain from the first stored generation to the last. An exchange is a link from the generation it
      was sent with: it is never applied on top of credentials it did not start from, be they another exchange's or an edit's. */
  lemma {:induction false} ExchangesFormAChain(own: Token -> AccountId, w: World, run: seq<Step>, id: AccountId)
    requires Inv(own, w) && AllHold(own, w, id) && Possible(own, w, run)
    ensures Chain(Stored(w.store.items, id), AllLinks(own, w, run, id), Stored(Execute(own, w, run).store.items, id))
    ensures Inv(own, Execute(own, w, run)) && AllHold(own, Execute(own, w, run), id)
    decreases |run|
  {
    hide Inv, AllHold, Enabled, Next, Stored, Links;
    if run != [] {
      var next := Next(own, w, run[0]);
      StepKeepsInv(own, w, run[0]);
      StepHolds(own, w, run[0], id);
      LinksChain(own, w, run[0], id);
      ExchangesFormAChain(own, next, run[1..], id);
      ChainsJoin(Stored(w.store.items, id), Links(own, w, run[0], id), Stored(next.store.items, id),
                 AllLinks(own, next, run[1..], id), Stored(Execute(own, next, run[1..]).store.items, id));
    }
  }

  /** Nothing is asked of a state in which no save is under way. */
  lemma IdleHolds(own: Token -> AccountId, w: World, id: AccountId)
    requires forall p | p in w.procs :: w.procs[p].save.None?
    ensures AllHold(own, w, id)
  {
  }

  lemma {:induction false} LinkStartsWhereTheLastEnded(start: Option<Generation>, links: seq<Link>, end: Option<Generation>, j: nat)
    requires Chain(start, links, end) && j < |links|
    ensures links[j].from == if j == 0 then start else links[j - 1].to
    decreases j
  {
    if j > 0 {
      LinkStartsWhereTheLastEnded(links[0].to, links[1..], end, j - 1);
    }
  }

  /** Neither the issuer nor an edit brings an earlier generation back. */
  ghost predicate FreshTargets(start: Option<Generation>, links: seq<Link>) {
    && (forall i | 0 <= i < |links| && links[i].to.Some? :: links[i].to != start)
    && (forall i, j | 0 <= i < j < |links| && links[i].to.Some? :: links[i].to != links[j].to)
  }

  /** As long as no generation comes back, none is exchanged or edited away twice. */
  lemma NoGenerationIsUsedTwice(start: Option<Generation>, links: seq<Link>, end: Option<Generation>, i: nat, j: nat)
    requires Chain(start, links, end) && FreshTargets(start, links) && i < j < |links| && links[i].from.Some?
    ensures links[i].from != links[j].from
  {
    hide Chain;
    LinkStartsWhereTheLastEnded(start, links, end, i);
    LinkStartsWhereTheLastEnded(start, links, end, j);
  }
}
