/** The three-way merge that resolves a store conflict (services/account_service.py:557-749). */
module AccountMerge {
  import opened Accounts

  // ---------------------------------------------------------------- one account

  function IntegerField(v: Value): Option<int> {
    match v
    case Num(n) => Some(n)
    case Flag(on) => Some(if on then 1 else 0)
    case _ => None
  }

  function IntegerAt(a: Account, f: Field): Option<int> {
    if f in a then IntegerField(a[f]) else None
  }

  function ValueOrNull(a: Account, f: Field): Value {
    if f in a then a[f] else Null
  }

  function AdditiveValue(f: Field, b: Account, l: Account, r: Account): Option<int> {
    match (IntegerAt(b, f), IntegerAt(l, f), IntegerAt(r, f))
    case (Some(x), Some(y), Some(z)) => Some(if z + (y - x) > 0 then z + (y - x) else 0)
    case _ => None
  }

  predicate LocalQuotaConsumption(b: Account, l: Account) {
    match (IntegerAt(b, Quota), IntegerAt(l, Quota))
    case (Some(x), Some(y)) => y < x && ValueOrNull(l, LastUsedAt) != ValueOrNull(b, LastUsedAt)
    case _ => false
  }

  predicate AddsUp(f: Field, b: Account, l: Account) {
    f == Success || f == Fail || (f == Quota && LocalQuotaConsumption(b, l))
  }

  /** The merged value of one field, read off the three accounts independently of any other field's merge. */
  function MergedField(b: Account, l: Account, r: Account, f: Field): Option<Value> {
    if Lookup(b, f) == Lookup(l, f) then
      Lookup(r, f)
    else if f !in l then
      None
    else if AddsUp(f, b, l) && AdditiveValue(f, b, l, r).Some? then
      Some(Num(AdditiveValue(f, b, l, r).value))
    else
      Some(l[f])
  }

  function MergedAccount(b: Account, l: Account, r: Account): Account {
    map f | f in b.Keys + l.Keys + r.Keys && MergedField(b, l, r, f).Some? :: MergedField(b, l, r, f).value
  }

  // The fields outside todo are merged, the others still hold the remote value.
  ghost predicate Merging(b: Account, l: Account, r: Account, todo: set<Field>, merged: Account) {
    forall f {:trigger Lookup(merged, f)} :: Lookup(merged, f) == if f in todo then Lookup(r, f) else MergedField(b, l, r, f)
  }

  /** The in-place field merge; the loop may visit the fields in any order. */
  method MergeAccountFields(b: Account, l: Account, r: Account) returns (merged: Account)
    ensures merged == MergedAccount(b, l, r)
  {
    hide MergedAccount, Merging, LocalQuotaConsumption, AdditiveValue;
    merged := r;
    var fields := b.Keys + l.Keys;
    NothingMerged(b, l, r);
    while fields != {}
      invariant fields <= b.Keys + l.Keys
      invariant Merging(b, l, r, fields, merged)
      decreases |fields|
    {
      var f :| f in fields;
      ghost var before := merged;
      StillRemote(b, l, r, fields, f, before);
      if (f in b) == (f in l) && (f !in l || b[f] == l[f]) {
        // unchanged locally
      } else if f in l {
        var additive := AdditiveValue(f, b, l, r);
        if (f == Success || f == Fail) && additive.Some? {
          merged := merged[f := Num(additive.value)];
        } else if f == Quota && LocalQuotaConsumption(b, l) && additive.Some? {
          merged := merged[f := Num(additive.value)];
        } else {
          merged := merged[f := l[f]];
        }
      } else {
        merged := merged - {f};
      }
      MergingStep(b, l, r, fields, f, before, merged);
      fields := fields - {f};
    }
    AllMerged(b, l, r, merged);
  }

  lemma NothingMerged(b: Account, l: Account, r: Account)
    ensures Merging(b, l, r, b.Keys + l.Keys, r)
  {
  }

  lemma StillRemote(b: Account, l: Account, r: Account, todo: set<Field>, f: Field, merged: Account)
    requires Merging(b, l, r, todo, merged) && f in todo
    ensures Lookup(merged, f) == Lookup(r, f)
  {
  }

  lemma MergingStep(b: Account, l: Account, r: Account, todo: set<Field>, f: Field, before: Account, after: Account)
    requires f in todo && Merging(b, l, r, todo, before)
    requires Lookup(after, f) == MergedField(b, l, r, f)
    requires forall g :: g != f ==> Lookup(after, g) == Lookup(before, g)
    ensures Merging(b, l, r, todo - {f}, after)
  {
  }

  lemma AllMerged(b: Account, l: Account, r: Account, merged: Account)
    requires Merging(b, l, r, {}, merged)
    ensures merged == MergedAccount(b, l, r)
  {
    forall f ensures Lookup(merged, f) == Lookup(MergedAccount(b, l, r), f) {
      MergedFieldLookup(b, l, r, f);
    }
    SameLookups(merged, MergedAccount(b, l, r));
  }

  lemma SameLookups<K, V>(m: map<K, V>, n: map<K, V>)
    requires forall k :: Lookup(m, k) == Lookup(n, k)
    ensures m == n
  {
    forall k ensures k in m <==> k in n {
      assert Lookup(m, k) == Lookup(n, k);
    }
    forall k | k in m ensures m[k] == n[k] {
      assert Lookup(m, k) == Lookup(n, k);
    }
  }

  lemma MergedFieldLookup(b: Account, l: Account, r: Account, f: Field)
    ensures Lookup(MergedAccount(b, l, r), f) == MergedField(b, l, r, f)
  {
  }

  lemma IdleLocalAccount(b: Account, r: Account)
    ensures MergedAccount(b, b, r) == r
  {
    SameLookups(MergedAccount(b, b, r), r);
  }

  lemma IdleRemoteAccount(t: Token, b: Account, u: Token, l: Account)
    requires Normalised(t, b) && Normalised(u, l)
    ensures MergedAccount(b, l, b) == l
  {
    forall f ensures MergedField(b, l, b, f) == Lookup(l, f) {
      assert f in {Success, Fail, Quota} ==> f in l && l[f].Num? && l[f].n >= 0;
      assert f in {Success, Fail, Quota} ==> f in b && b[f].Num? && b[f].n >= 0;
    }
    SameLookups(MergedAccount(b, l, b), l);
  }

  // ---------------------------------------------------------------- a whole view

  /** Another token of the same account that the baseline does not know. */
  predicate IsRotation(v: View, b: View, previous: Token, id: AccountId, t: Token) {
    t in v && t != previous && t !in b && IdOf(v[t]) == id
  }

  method RotatedAccountToken(v: View, b: View, previous: Token, account: Account) returns (found: Option<Token>)
    ensures found.Some? ==> IdOf(account) != "" && IsRotation(v, b, previous, IdOf(account), found.value)
    ensures found.None? && IdOf(account) != "" ==> forall t :: !IsRotation(v, b, previous, IdOf(account), t)
  {
    found := None;
    var id := IdOf(account);
    if id == "" {
      return;
    }
    var tokens := v.Keys;
    while tokens != {}
      invariant tokens <= v.Keys
      invariant forall t :: t in v.Keys - tokens ==> !IsRotation(v, b, previous, id, t)
      decreases |tokens|
    {
      var t :| t in tokens;
      tokens := tokens - {t};
      if t != previous && t !in b && IdOf(v[t]) == id {
        return Some(t);
      }
    }
  }

  ghost function OnlyAccount(v: View, id: AccountId): View {
    map t | t in v && IdOf(v[t]) == id :: v[t]
  }

  /** What the merge means for one logical account, whatever tokens the three sides hold it under. */
  ghost function LogicalMerge(b: View, l: View, r: View, id: AccountId): View {
    match (Entry(b, id), Entry(l, id), Entry(r, id))
    case (None, None, _) => OnlyAccount(r, id)
    case (None, Some(lt), _) => OnlyAccount(r, id)[lt := if lt in r then r[lt] + l[lt] else l[lt]]
    case (Some(_), None, _) => map[]
    case (Some(_), _, None) => map[]
    case (Some(bt), Some(lt), Some(rt)) =>
      if lt != bt && rt != bt then
        map[rt := r[rt]]
      else
        map[(if lt != bt then lt else rt) := MergedAccount(b[bt], l[lt], r[rt])]
  }

  function OwnerOf(b: View, l: View, r: View, t: Token): AccountId {
    if t in b then IdOf(b[t]) else if t in l then IdOf(l[t]) else if t in r then IdOf(r[t]) else ""
  }

  /** The merged view: every logical account merged on its own. */
  ghost function MergedView(b: View, l: View, r: View): View {
    map t | t in b.Keys + l.Keys + r.Keys && t in LogicalMerge(b, l, r, OwnerOf(b, l, r, t)) ::
      LogicalMerge(b, l, r, OwnerOf(b, l, r, t))[t]
  }

  ghost predicate Mergeable(b: View, l: View, r: View) {
    && WellFormed(b) && WellFormed(l) && WellFormed(r)
    && SameOwners(b, l) && SameOwners(b, r) && SameOwners(l, r)
  }

  // The remote view with the accounts in ids already resolved.
  ghost function Partial(b: View, l: View, r: View, ids: set<AccountId>): View {
    map t | t in b.Keys + l.Keys + r.Keys
            && if OwnerOf(b, l, r, t) in ids then t in LogicalMerge(b, l, r, OwnerOf(b, l, r, t)) else t in r ::
      if OwnerOf(b, l, r, t) in ids then LogicalMerge(b, l, r, OwnerOf(b, l, r, t))[t] else r[t]
  }

  lemma LogicalMergeKeys(b: View, l: View, r: View, id: AccountId, t: Token)
    requires Mergeable(b, l, r) && t in LogicalMerge(b, l, r, id)
    ensures t in b.Keys + l.Keys + r.Keys && OwnerOf(b, l, r, t) == id
  {
    hide MergedAccount, Normalised;
  }

  lemma PartialLookup(b: View, l: View, r: View, ids: set<AccountId>, t: Token)
    requires Mergeable(b, l, r)
    ensures var owner := OwnerOf(b, l, r, t);
      Lookup(Partial(b, l, r, ids), t) == if owner in ids then Lookup(LogicalMerge(b, l, r, owner), t) else Lookup(r, t)
  {
    var owner := OwnerOf(b, l, r, t);
    if t in LogicalMerge(b, l, r, owner) {
      LogicalMergeKeys(b, l, r, owner, t);
    }
  }

  // A search for a rotated token, joined with the unrotated one, finds the view's entry for the account.
  lemma RotationIsEntry(v: View, b: View, t: Token, found: Option<Token>)
    requires WellFormed(v) && WellFormed(b) && SameOwners(b, v) && t in b
    requires found.Some? ==> IsRotation(v, b, t, IdOf(b[t]), found.value)
    requires found.None? ==> forall u :: !IsRotation(v, b, t, IdOf(b[t]), u)
    ensures Entry(v, IdOf(b[t])) == if t in v then Some(t) else found
    ensures Entry(b, IdOf(b[t])) == Some(t)
    ensures t in v ==> found.None?
  {
    var e := Entry(v, IdOf(b[t]));
    if e.Some? && t !in v {
      assert IsRotation(v, b, t, IdOf(b[t]), e.value);
    }
  }

  lemma RemoteLookup(b: View, l: View, r: View, t: Token)
    requires Mergeable(b, l, r)
    ensures t in r ==> Entry(r, OwnerOf(b, l, r, t)) == Some(t) && OwnerOf(b, l, r, t) == IdOf(r[t])
    ensures t in l ==> Entry(l, OwnerOf(b, l, r, t)) == Some(t) && OwnerOf(b, l, r, t) == IdOf(l[t])
    ensures t in b ==> Entry(b, OwnerOf(b, l, r, t)) == Some(t)
  {
  }

  lemma EndsOwner(b: View, l: View, r: View, id: AccountId, t: Token)
    requires Mergeable(b, l, r) && t in Ends(b, l, r, id)
    ensures OwnerOf(b, l, r, t) == id
  {
  }

  // Resolving one more account touches only the tokens of its three entries.
  lemma ResolveAt(b: View, l: View, r: View, ids: set<AccountId>, id: AccountId, after: View, t: Token)
    requires Mergeable(b, l, r) && id !in ids
    requires t !in Ends(b, l, r, id) ==> Lookup(after, t) == Lookup(Partial(b, l, r, ids), t)
    requires t in Ends(b, l, r, id) ==> Lookup(after, t) == Lookup(LogicalMerge(b, l, r, id), t)
    ensures Lookup(after, t) == Lookup(Partial(b, l, r, ids + {id}), t)
  {
    PartialLookup(b, l, r, ids, t);
    PartialLookup(b, l, r, ids + {id}, t);
    if t in Ends(b, l, r, id) {
      EndsOwner(b, l, r, id, t);
    } else if OwnerOf(b, l, r, t) == id {
      RemoteLookup(b, l, r, t);
      if t in LogicalMerge(b, l, r, id) {
        LogicalMergeKeys(b, l, r, id, t);
      }
    }
  }

  lemma Resolve(b: View, l: View, r: View, ids: set<AccountId>, id: AccountId, before: View, after: View)
    requires Mergeable(b, l, r) && id !in ids && before == Partial(b, l, r, ids)
    requires forall t :: t !in Ends(b, l, r, id) ==> Lookup(after, t) == Lookup(before, t)
    requires forall t | t in Ends(b, l, r, id) :: Lookup(after, t) == Lookup(LogicalMerge(b, l, r, id), t)
    ensures after == Partial(b, l, r, ids + {id})
  {
    var goal := Partial(b, l, r, ids + {id});
    forall t ensures Lookup(after, t) == Lookup(goal, t) {
      ResolveAt(b, l, r, ids, id, after, t);
    }
    SameLookups(after, goal);
  }

  ghost function Ends(b: View, l: View, r: View, id: AccountId): set<Token> {
    (if Entry(b, id).Some? then {Entry(b, id).value} else {}) +
    (if Entry(l, id).Some? then {Entry(l, id).value} else {}) +
    (if Entry(r, id).Some? then {Entry(r, id).value} else {})
  }

  lemma NoneResolved(b: View, l: View, r: View)
    requires Mergeable(b, l, r)
    ensures Partial(b, l, r, {}) == r
  {
    forall t ensures Lookup(Partial(b, l, r, {}), t) == Lookup(r, t) {
      PartialLookup(b, l, r, {}, t);
    }
    SameLookups(Partial(b, l, r, {}), r);
  }

  // Accounts that neither the baseline nor the local view holds are the remote's own.
  lemma AllResolved(b: View, l: View, r: View, ids: set<AccountId>)
    requires Mergeable(b, l, r)
    requires forall t | t in b :: IdOf(b[t]) in ids
    requires forall t | t in l :: IdOf(l[t]) in ids
    ensures Partial(b, l, r, ids) == MergedView(b, l, r)
  {
    forall t ensures Lookup(Partial(b, l, r, ids), t) == Lookup(MergedView(b, l, r), t) {
      var owner := OwnerOf(b, l, r, t);
      PartialLookup(b, l, r, ids, t);
      if t in LogicalMerge(b, l, r, owner) {
        LogicalMergeKeys(b, l, r, owner, t);
      }
      RemoteLookup(b, l, r, t);
      if owner !in ids {
        assert Entry(b, owner).None?;
        assert Entry(l, owner).None?;
      }
    }
    SameLookups(Partial(b, l, r, ids), MergedView(b, l, r));
  }

  // Ids of the accounts that the baseline tokens in done held and the local view no longer holds there.
  ghost function GoneIds(b: View, l: View, done: set<Token>): set<AccountId> {
    set t | t in done && t in b && t !in l :: IdOf(b[t])
  }

  ghost function SeenIds(l: View, done: set<Token>): set<AccountId> {
    set t | t in done && t in l :: IdOf(l[t])
  }

  // One baseline token that the local side no longer holds, deleted or rotated away.
  method MergeLocalRemoval(b: View, l: View, r: View, t: Token, before: View)
    returns (merged: View, localRotation: Option<Token>, ghost remoteRotation: Option<Token>)
    requires Mergeable(b, l, r) && t in b && t !in l
    ensures localRotation.Some? ==> localRotation.value in l && localRotation.value !in b
    ensures Entry(l, IdOf(b[t])) == localRotation
    ensures Entry(r, IdOf(b[t])) == if t in r then Some(t) else remoteRotation
    ensures t in r ==> remoteRotation.None?
    ensures merged == RemovalEffect(b, l, r, t, localRotation, remoteRotation, before)
  {
    assert IdOf(b[t]) != "" by { assert Normalised(t, b[t]); }
    localRotation := RotatedAccountToken(l, b, t, b[t]);
    var rotation := RotatedAccountToken(r, b, t, b[t]);
    RotationIsEntry(l, b, t, localRotation);
    RotationIsEntry(r, b, t, rotation);
    remoteRotation := rotation;
    merged := before;
    if localRotation.None? {
      // A local deletion also deletes a concurrently rotated form of the account.
      merged := merged - {t};
      if rotation.Some? {
        merged := merged - {rotation.value};
      }
    } else if t in r {
      merged := merged - {t};
      var account := MergeAccountFields(b[t], l[localRotation.value], r[t]);
      merged := merged[localRotation.value := account];
    }
  }

  // The first pass, over the baseline.
  method MergeLocalRemovals(b: View, l: View, r: View)
    returns (merged: View, handled: set<Token>)
    requires Mergeable(b, l, r)
    ensures merged == Partial(b, l, r, GoneIds(b, l, b.Keys))
    ensures forall t :: t in handled <==> t in l && t !in b && IdOf(l[t]) in GoneIds(b, l, b.Keys)
  {
    hide Partial, WellFormed;
    merged, handled := r, {};
    ghost var gone: set<AccountId> := {};
    NoneResolved(b, l, r);
    var todo := b.Keys;
    while todo != {}
      invariant todo <= b.Keys
      invariant gone == GoneIds(b, l, b.Keys - todo)
      invariant merged == Partial(b, l, r, gone)
      invariant forall t :: t in handled <==> t in l && t !in b && IdOf(l[t]) in gone
      decreases |todo|
    {
      var t :| t in todo;
      GoneIdsStep(b, l, todo, t);
      todo := todo - {t};
      if t !in l {
        ghost var before := merged;
        var localRotation;
        ghost var remoteRotation;
        merged, localRotation, remoteRotation := MergeLocalRemoval(b, l, r, t, merged);
        RemovalResolves(b, l, r, gone, t, localRotation, remoteRotation, before);
        handled := handled + (if localRotation.Some? then {localRotation.value} else {});
        HandledGrows(b, l, gone, IdOf(b[t]), handled, localRotation);
        gone := gone + {IdOf(b[t])};
      }
    }
    assert b.Keys - todo == b.Keys;
  }

  lemma GoneIdsStep(b: View, l: View, todo: set<Token>, t: Token)
    requires WellFormed(b) && t in todo && todo <= b.Keys
    ensures t in l ==> GoneIds(b, l, b.Keys - (todo - {t})) == GoneIds(b, l, b.Keys - todo)
    ensures t !in l ==> GoneIds(b, l, b.Keys - (todo - {t})) == GoneIds(b, l, b.Keys - todo) + {IdOf(b[t])}
    ensures t !in l ==> IdOf(b[t]) !in GoneIds(b, l, b.Keys - todo)
  {
  }

  // What one removal does to the three tokens that may hold the account.
  ghost function RemovalEffect(b: View, l: View, r: View, t: Token, localRotation: Option<Token>,
                               remoteRotation: Option<Token>, before: View): View
    requires t in b && (localRotation.Some? ==> localRotation.value in l)
  {
    if localRotation.None? then
      before - {t} - (if remoteRotation.Some? then {remoteRotation.value} else {})
    else if t in r then
      (before - {t})[localRotation.value := MergedAccount(b[t], l[localRotation.value], r[t])]
    else
      before
  }

  lemma RemovalLookups(b: View, l: View, r: View, id: AccountId, t: Token,
                       localRotation: Option<Token>, remoteRotation: Option<Token>, before: View, u: Token)
    requires t in b && t !in l
    requires Entry(b, id) == Some(t) && Entry(l, id) == localRotation
    requires Entry(r, id) == if t in r then Some(t) else remoteRotation
    requires t in r ==> remoteRotation.None?
    requires localRotation.Some? && u == localRotation.value && t in r ==> u != t
    requires u in Ends(b, l, r, id) ==> Lookup(before, u) == Lookup(r, u)
    requires u in Ends(b, l, r, id) && u in r ==> Entry(r, id) == Some(u)
    ensures var after := RemovalEffect(b, l, r, t, localRotation, remoteRotation, before);
      Lookup(after, u) == if u in Ends(b, l, r, id) then Lookup(LogicalMerge(b, l, r, id), u) else Lookup(before, u)
  {
  }

  lemma RemovalResolves(b: View, l: View, r: View, ids: set<AccountId>, t: Token,
                        localRotation: Option<Token>, remoteRotation: Option<Token>, before: View)
    requires Mergeable(b, l, r) && t in b && t !in l && IdOf(b[t]) !in ids
    requires before == Partial(b, l, r, ids)
    requires localRotation.Some? ==> localRotation.value in l
    requires Entry(l, IdOf(b[t])) == localRotation
    requires Entry(r, IdOf(b[t])) == if t in r then Some(t) else remoteRotation
    requires t in r ==> remoteRotation.None?
    ensures RemovalEffect(b, l, r, t, localRotation, remoteRotation, before) == Partial(b, l, r, ids + {IdOf(b[t])})
  {
    hide RemovalEffect, LogicalMerge, Partial, MergedAccount, Ends;
    var id := IdOf(b[t]);
    var after := RemovalEffect(b, l, r, t, localRotation, remoteRotation, before);
    EndsBefore(b, l, r, ids, id);
    forall u
      ensures Lookup(after, u) == if u in Ends(b, l, r, id) then Lookup(LogicalMerge(b, l, r, id), u) else Lookup(before, u)
    {
      RemovalLookups(b, l, r, id, t, localRotation, remoteRotation, before, u);
    }
    Resolve(b, l, r, ids, id, before, after);
  }

  // What one surviving or new local account does to the three tokens that may hold it.
  ghost function EditEffect(b: View, l: View, r: View, t: Token, remoteRotation: Option<Token>, before: View): View
    requires t in l && (remoteRotation.Some? ==> remoteRotation.value in r)
  {
    if t !in b then before[t := if t in r then r[t] + l[t] else l[t]]
    else if l[t] == b[t] then before
    else if t in r then before[t := MergedAccount(b[t], l[t], r[t])]
    else if remoteRotation.Some? then
      before[remoteRotation.value := MergedAccount(b[t], l[t], r[remoteRotation.value])] - {t}
    else before - {t}
  }

  lemma EditLookups(b: View, l: View, r: View, id: AccountId, t: Token, remoteRotation: Option<Token>, before: View, u: Token)
    requires t in l && Entry(l, id) == Some(t)
    requires Entry(b, id) == if t in b then Some(t) else None
    requires t in r ==> Entry(r, id) == Some(t)
    requires remoteRotation.Some? ==> remoteRotation.value in r
    requires t in b && t !in r && l[t] != b[t] ==> Entry(r, id) == remoteRotation
    requires t in b && l[t] == b[t] ==> LogicalMerge(b, l, r, id) == OnlyAccount(r, id)
    requires u in Ends(b, l, r, id) ==> Lookup(before, u) == Lookup(r, u)
    requires u in Ends(b, l, r, id) && u in r ==> IdOf(r[u]) == id && Entry(r, id) == Some(u)
    ensures var after := EditEffect(b, l, r, t, remoteRotation, before);
      Lookup(after, u) == if u in Ends(b, l, r, id) then Lookup(LogicalMerge(b, l, r, id), u) else Lookup(before, u)
  {
  }

  lemma EditResolves(b: View, l: View, r: View, ids: set<AccountId>, t: Token, remoteRotation: Option<Token>, before: View)
    requires Mergeable(b, l, r) && t in l && IdOf(l[t]) !in ids
    requires t !in b ==> !HasEntry(b, IdOf(l[t]))
    requires before == Partial(b, l, r, ids)
    requires remoteRotation.Some? ==> remoteRotation.value in r
    requires t in b && t !in r && l[t] != b[t] ==> Entry(r, IdOf(l[t])) == remoteRotation
    ensures EditEffect(b, l, r, t, remoteRotation, before) == Partial(b, l, r, ids + {IdOf(l[t])})
  {
    hide EditEffect, LogicalMerge, Partial, MergedAccount, Ends;
    var id := IdOf(l[t]);
    var after := EditEffect(b, l, r, t, remoteRotation, before);
    EndsBefore(b, l, r, ids, id);
    RemoteOwner(b, l, r, id);
    if t in b && l[t] == b[t] {
      IdleLocal(b, l, r, t);
    }
    forall u
      ensures Lookup(after, u) == if u in Ends(b, l, r, id) then Lookup(LogicalMerge(b, l, r, id), u) else Lookup(before, u)
    {
      EditLookups(b, l, r, id, t, remoteRotation, before, u);
    }
    Resolve(b, l, r, ids, id, before, after);
  }

  // The token under which the remote side holds an account that was edited locally and rotated remotely.
  ghost function RemoteRotation(b: View, l: View, r: View, t: Token): Option<Token>
    requires t in l
  {
    if t in b && t !in r && l[t] != b[t] then Entry(r, IdOf(l[t])) else None
  }

  lemma EditedAccount(b: View, l: View, r: View, t: Token)
    requires Mergeable(b, l, r) && t in l && t in b
    ensures IdOf(b[t]) != "" && IdOf(l[t]) == IdOf(b[t])
  {
    assert Normalised(t, b[t]);
  }

  // One local account that was not rotated locally.
  method MergeLocalEdit(b: View, l: View, r: View, t: Token, before: View) returns (merged: View)
    requires Mergeable(b, l, r) && t in l
    ensures merged == EditEffect(b, l, r, t, RemoteRotation(b, l, r, t), before)
  {
    hide WellFormed, Normalised, MergedAccount, Entry, SameOwners;
    if t in b {
      EditedAccount(b, l, r, t);
    }
    merged := before;
    if t !in b {
      merged := merged[t := if t in r then r[t] + l[t] else l[t]];
    } else if l[t] == b[t] {
      // unchanged locally: the remote state stands
    } else if t in r {
      var account := MergeAccountFields(b[t], l[t], r[t]);
      merged := merged[t := account];
    } else {
      var rotation := RotatedAccountToken(r, b, t, b[t]);
      RotationIsEntry(r, b, t, rotation);
      if rotation.Some? {
        var account := MergeAccountFields(b[t], l[t], r[rotation.value]);
        merged := merged[rotation.value := account] - {t};
      } else {
        // A remote deletion beats a stale local update.
        merged := merged - {t};
      }
    }
  }

  /** The merge as the service performs it: two in-place passes, each in any order of its tokens. */
  method MergeAccountsAfterConflict(b: View, l: View, r: View) returns (merged: View)
    requires Mergeable(b, l, r)
    ensures merged == MergedView(b, l, r)
  {
    hide Partial, WellFormed, MergedView;
    var handled;
    ghost var gone := GoneIds(b, l, b.Keys);
    merged, handled := MergeLocalRemovals(b, l, r);
    ghost var ids := gone;
    var todo := l.Keys;
    while todo != {}
      invariant todo <= l.Keys
      invariant ids == gone + SeenIds(l, l.Keys - todo)
      invariant merged == Partial(b, l, r, ids)
      decreases |todo|
    {
      var t :| t in todo;
      SeenIdsStep(l, todo, t);
      if t !in handled {
        NotYetResolved(b, l, gone, l.Keys - todo, t);
        ghost var before := merged;
        merged := MergeLocalEdit(b, l, r, t, merged);
        EditResolves(b, l, r, ids, t, RemoteRotation(b, l, r, t), before);
      } else {
        assert ids + {IdOf(l[t])} == ids;
      }
      todo := todo - {t};
      ids := ids + {IdOf(l[t])};
    }
    EverySideSeen(b, l, ids);
    AllResolved(b, l, r, ids);
  }

  lemma SeenIdsStep(l: View, todo: set<Token>, t: Token)
    requires t in todo && todo <= l.Keys
    ensures SeenIds(l, l.Keys - (todo - {t})) == SeenIds(l, l.Keys - todo) + {IdOf(l[t])}
  {
  }

  lemma EverySideSeen(b: View, l: View, ids: set<AccountId>)
    requires SameOwners(b, l)
    requires ids == GoneIds(b, l, b.Keys) + SeenIds(l, l.Keys)
    ensures forall t | t in b :: IdOf(b[t]) in ids
    ensures forall t | t in l :: IdOf(l[t]) in ids
  {
  }

  // An account that is not resolved yet still has its remote entry, and nothing else, in the merged view.
  lemma EndsBefore(b: View, l: View, r: View, ids: set<AccountId>, id: AccountId)
    requires Mergeable(b, l, r) && id !in ids
    ensures forall t | t in Ends(b, l, r, id) :: Lookup(Partial(b, l, r, ids), t) == Lookup(r, t)
    ensures forall t | t in Ends(b, l, r, id) && t in r :: Entry(r, id) == Some(t)
  {
    forall t | t in Ends(b, l, r, id)
      ensures Lookup(Partial(b, l, r, ids), t) == Lookup(r, t)
      ensures t in r ==> Entry(r, id) == Some(t)
    {
      EndsOwner(b, l, r, id, t);
      PartialLookup(b, l, r, ids, t);
      if t in r {
        assert t in r;
      }
    }
  }

  lemma RemoteOwner(b: View, l: View, r: View, id: AccountId)
    requires Mergeable(b, l, r)
    ensures forall t | t in Ends(b, l, r, id) && t in r :: IdOf(r[t]) == id
  {
    forall t | t in Ends(b, l, r, id) && t in r ensures IdOf(r[t]) == id {
      EndsOwner(b, l, r, id, t);
      RemoteLookup(b, l, r, t);
    }
  }

  lemma HandledGrows(b: View, l: View, ids: set<AccountId>, id: AccountId, handled: set<Token>, rotation: Option<Token>)
    requires WellFormed(b) && WellFormed(l)
    requires rotation.Some? ==> rotation.value in l && rotation.value !in b && IdOf(l[rotation.value]) == id
    requires rotation.None? ==> Entry(l, id).None?
    requires forall t | t in l && t !in b && IdOf(l[t]) in ids :: t in handled
    requires forall t | t in handled ::
      rotation == Some(t) || (t in l && t !in b && IdOf(l[t]) in ids)
    requires rotation.Some? ==> rotation.value in handled
    ensures forall t :: t in handled <==> t in l && t !in b && IdOf(l[t]) in ids + {id}
  {
    forall t | t in l && t !in b && IdOf(l[t]) == id ensures t in handled {
      assert t in l;
    }
  }

  lemma NotYetResolved(b: View, l: View, gone: set<AccountId>, done: set<Token>, t: Token)
    requires WellFormed(b) && WellFormed(l) && SameOwners(b, l)
    requires gone == GoneIds(b, l, b.Keys)
    requires t in l && t !in done && !(t !in b && IdOf(l[t]) in gone)
    ensures IdOf(l[t]) !in gone + SeenIds(l, done)
    ensures t !in b ==> !HasEntry(b, IdOf(l[t]))
  {
  }

  lemma IdleLocal(b: View, l: View, r: View, t: Token)
    requires Mergeable(b, l, r) && t in b && t in l && l[t] == b[t]
    ensures LogicalMerge(b, l, r, IdOf(l[t])) == OnlyAccount(r, IdOf(l[t]))
  {
    var id := IdOf(l[t]);
    assert t in b;
    assert t in l;
    var e := Entry(r, id);
    if e.Some? {
      assert e.value in r;
      IdleLocalAccount(b[t], r[e.value]);
    }
  }
}
