/** What the conflict merge guarantees for every logical account. */
module MergeTheorems {
  import opened Accounts
  import opened AccountMerge

  lemma MergedLookup(b: View, l: View, r: View, t: Token)
    requires Mergeable(b, l, r)
    ensures Lookup(MergedView(b, l, r), t) == Lookup(LogicalMerge(b, l, r, OwnerOf(b, l, r, t)), t)
  {
    if t in LogicalMerge(b, l, r, OwnerOf(b, l, r, t)) {
      LogicalMergeKeys(b, l, r, OwnerOf(b, l, r, t), t);
    }
  }

  function Floored(n: int): int {
    if n > 0 then n else 0
  }

  // Field merging never changes which account an entry belongs to, nor breaks normalisation.
  lemma MergedAccountNormalised(t: Token, b: Account, u: Token, l: Account, w: Token, r: Account)
    requires Normalised(t, b) && Normalised(u, l) && Normalised(w, r)
    requires IdOf(b) == IdOf(l) == IdOf(r)
    requires u == t || w == t
    ensures Normalised(if u != t then u else w, MergedAccount(b, l, r))
    ensures IdOf(MergedAccount(b, l, r)) == IdOf(r)
    ensures forall f | f in {Success, Fail} ::
      Number(MergedAccount(b, l, r), f) == Floored(Number(r, f) + (Number(l, f) - Number(b, f)))
  {
    var m := MergedAccount(b, l, r);
    forall f ensures Lookup(m, f) == MergedField(b, l, r, f) {
      MergedFieldLookup(b, l, r, f);
    }
    assert Lookup(m, ManagementId) == Lookup(r, ManagementId);
    assert Lookup(m, AccessToken) == if u != t then Lookup(l, AccessToken) else Lookup(r, AccessToken);
    forall f | f in {Success, Fail, Quota}
      ensures f in m && m[f].Num? && m[f].n >= 0
      ensures f != Quota ==> Number(m, f) == Floored(Number(r, f) + (Number(l, f) - Number(b, f)))
    {
      assert f in b && b[f].Num? && f in l && l[f].Num? && f in r && r[f].Num?;
      assert Lookup(m, f) == MergedField(b, l, r, f);
    }
  }

  /** Both accounts were last used at the same instant; never used and not recorded read alike. */
  predicate SameLastUse(a: Account, b: Account) {
    (if LastUsedAt in a then a[LastUsedAt] else Null) == (if LastUsedAt in b then b[LastUsedAt] else Null)
  }

  /** What a merge does to the quota: a local use, which lowers the quota and moves the time of the last use, is subtracted from
      the remote quota, never below zero; any other local change is an upstream snapshot and replaces the remote quota; without
      a local change the remote quota stands. */
  lemma MergedQuota(t: Token, b: Account, u: Token, l: Account, w: Token, r: Account)
    requires Normalised(t, b) && Normalised(u, l) && Normalised(w, r)
    ensures var before, here, there := Number(b, Quota), Number(l, Quota), Number(r, Quota);
      var merged := Number(MergedAccount(b, l, r), Quota);
      && Quota in MergedAccount(b, l, r)
      && (here < before && !SameLastUse(b, l) ==> merged == Floored(there + here - before))
      && (here != before && (SameLastUse(b, l) || here > before) ==> merged == here)
      && (here == before ==> merged == there)
  {
    MergedFieldLookup(b, l, r, Quota);
    hide MergedAccount;
  }

  /** Any field but a counter and the quota: edited locally it ends as the local value, otherwise as the remote one. */
  lemma MergedPlainField(b: Account, l: Account, r: Account, f: Field)
    requires f !in {Success, Fail, Quota}
    ensures Lookup(MergedAccount(b, l, r), f) == if Lookup(l, f) == Lookup(b, f) then Lookup(r, f) else Lookup(l, f)
  {
    MergedFieldLookup(b, l, r, f);
    hide MergedAccount;
  }

  /** A field removed locally is gone, whatever the remote side did to it. */
  lemma MergedRemovedField(b: Account, l: Account, r: Account, f: Field)
    requires f in b && f !in l
    ensures f !in MergedAccount(b, l, r)
  {
    MergedFieldLookup(b, l, r, f);
    hide MergedAccount;
  }

  lemma OverlayNormalised(t: Token, l: Account, r: Account)
    requires Normalised(t, l) && Normalised(t, r)
    ensures Normalised(t, r + l) && IdOf(r + l) == IdOf(l)
  {
  }

  lemma LogicalMergeNormalised(b: View, l: View, r: View, id: AccountId, t: Token)
    requires Mergeable(b, l, r) && t in LogicalMerge(b, l, r, id)
    ensures Normalised(t, LogicalMerge(b, l, r, id)[t]) && IdOf(LogicalMerge(b, l, r, id)[t]) == id
  {
    match (Entry(b, id), Entry(l, id), Entry(r, id))
    case (None, Some(lt), _) =>
      if lt in r {
        OverlayNormalised(lt, l[lt], r[lt]);
      }
    case (Some(bt), Some(lt), Some(rt)) =>
      if lt == bt || rt == bt {
        MergedAccountNormalised(bt, b[bt], lt, l[lt], rt, r[rt]);
      }
    case _ =>
  }

  /** The merge works account by account: the merged entries of an account depend on that account alone. */
  lemma MergeIsPerAccount(b: View, l: View, r: View, id: AccountId)
    requires Mergeable(b, l, r)
    ensures OnlyAccount(MergedView(b, l, r), id) == LogicalMerge(b, l, r, id)
    ensures forall t | t in MergedView(b, l, r) :: Normalised(t, MergedView(b, l, r)[t])
  {
    var m := MergedView(b, l, r);
    forall t ensures t in m ==> Normalised(t, m[t]) && IdOf(m[t]) == OwnerOf(b, l, r, t) {
      MergedLookup(b, l, r, t);
      if t in m {
        LogicalMergeNormalised(b, l, r, OwnerOf(b, l, r, t), t);
      }
    }
    forall t ensures Lookup(OnlyAccount(m, id), t) == Lookup(LogicalMerge(b, l, r, id), t) {
      MergedLookup(b, l, r, t);
      if t in LogicalMerge(b, l, r, id) {
        LogicalMergeKeys(b, l, r, id, t);
      }
    }
    SameLookups(OnlyAccount(m, id), LogicalMerge(b, l, r, id));
  }

  // ---------------------------------------------------------------- one side idle

  lemma MergeWithIdleLocal(b: View, r: View)
    requires Mergeable(b, b, r)
    ensures MergedView(b, b, r) == r
  {
    forall t ensures Lookup(MergedView(b, b, r), t) == Lookup(r, t) {
      MergedLookup(b, b, r, t);
      RemoteLookup(b, b, r, t);
      var id := OwnerOf(b, b, r, t);
      var e := Entry(b, id);
      if e.Some? {
        IdleLocal(b, b, r, e.value);
      }
    }
    SameLookups(MergedView(b, b, r), r);
  }

  lemma MergeWithIdleRemote(b: View, l: View)
    requires Mergeable(b, l, b)
    ensures MergedView(b, l, b) == l
  {
    hide MergedView, Mergeable;
    forall t ensures Lookup(MergedView(b, l, b), t) == Lookup(l, t) {
      IdleRemoteAt(b, l, t);
    }
    SameLookups(MergedView(b, l, b), l);
  }

  lemma IdleRemoteAt(b: View, l: View, t: Token)
    requires Mergeable(b, l, b)
    ensures Lookup(MergedView(b, l, b), t) == Lookup(l, t)
  {
    hide MergedView, MergedAccount;
    MergedLookup(b, l, b, t);
    RemoteLookup(b, l, b, t);
    var id := OwnerOf(b, l, b, t);
    var bt, lt := Entry(b, id), Entry(l, id);
    if bt.Some? && lt.Some? {
      IdleRemoteAccount(bt.value, b[bt.value], lt.value, l[lt.value]);
    }
  }

  // ---------------------------------------------------------------- distinct management ids

  /** Both sides added one account, under different tokens. */
  ghost predicate TwinAddition(b: View, l: View, r: View) {
    exists id :: Entry(b, id).None? && Entry(l, id).Some? && Entry(r, id).Some? && Entry(l, id) != Entry(r, id)
  }

  /** The merged view is a proper view again exactly when no account was added twice under different tokens. */
  lemma MergeKeepsIdsDistinct(b: View, l: View, r: View)
    requires Mergeable(b, l, r)
    ensures WellFormed(MergedView(b, l, r)) <==> !TwinAddition(b, l, r)
  {
    var m := MergedView(b, l, r);
    if TwinAddition(b, l, r) {
      var id :| Entry(b, id).None? && Entry(l, id).Some? && Entry(r, id).Some? && Entry(l, id) != Entry(r, id);
      MergeIsPerAccount(b, l, r, id);
      assert Entry(l, id).value in OnlyAccount(m, id) && Entry(r, id).value in OnlyAccount(m, id);
    } else {
      forall t | t in m ensures Normalised(t, m[t]) && Entry(m, IdOf(m[t])) == Some(t) {
        var id := IdOf(m[t]);
        MergeIsPerAccount(b, l, r, id);
        assert t in OnlyAccount(m, id);
        var u := Entry(m, id).value;
        assert HasEntry(m, id);
        assert u in OnlyAccount(m, id);
        LogicalMergeIsSingle(b, l, r, id, t, u);
      }
    }
  }

  lemma LogicalMergeIsSingle(b: View, l: View, r: View, id: AccountId, t: Token, u: Token)
    requires Mergeable(b, l, r) && !TwinAddition(b, l, r)
    requires t in LogicalMerge(b, l, r, id) && u in LogicalMerge(b, l, r, id)
    ensures t == u
  {
  }

  // ---------------------------------------------------------------- the cases of a conflict

  lemma LocalDeletionWins(b: View, l: View, r: View, id: AccountId)
    requires Mergeable(b, l, r) && Entry(b, id).Some? && Entry(l, id).None?
    ensures !HasEntry(MergedView(b, l, r), id)
  {
    MergeIsPerAccount(b, l, r, id);
    var m := MergedView(b, l, r);
    forall t | t in m ensures IdOf(m[t]) != id {
      assert t !in OnlyAccount(m, id);
    }
  }

  lemma RemoteDeletionWins(b: View, l: View, r: View, id: AccountId)
    requires Mergeable(b, l, r) && Entry(b, id).Some? && Entry(r, id).None?
    ensures !HasEntry(MergedView(b, l, r), id)
  {
    MergeIsPerAccount(b, l, r, id);
    var m := MergedView(b, l, r);
    forall t | t in m ensures IdOf(m[t]) != id {
      assert t !in OnlyAccount(m, id);
    }
  }

  /** At most one side rotated: one entry, under the new token if there is one, with both sides' edits. */
  lemma OneSidedRotation(b: View, l: View, r: View, id: AccountId, bt: Token, lt: Token, rt: Token)
    requires Mergeable(b, l, r) && Entry(b, id) == Some(bt) && Entry(l, id) == Some(lt) && Entry(r, id) == Some(rt)
    requires lt == bt || rt == bt
    ensures var t := if lt != bt then lt else rt;
      && OnlyAccount(MergedView(b, l, r), id) == map[t := MergedAccount(b[bt], l[lt], r[rt])]
      && TextOf(MergedView(b, l, r)[t], AccessToken) == t
      && forall f :: Lookup(MergedView(b, l, r)[t], f) == MergedField(b[bt], l[lt], r[rt], f)
  {
    var t := if lt != bt then lt else rt;
    var m := MergedView(b, l, r);
    MergeIsPerAccount(b, l, r, id);
    assert OnlyAccount(m, id) == map[t := MergedAccount(b[bt], l[lt], r[rt])];
    hide *;
    OneEntry(m, id, t, MergedAccount(b[bt], l[lt], r[rt]));
    forall f ensures Lookup(m[t], f) == MergedField(b[bt], l[lt], r[rt], f) {
      MergedFieldLookup(b[bt], l[lt], r[rt], f);
    }
  }

  lemma OneEntry(m: View, id: AccountId, t: Token, a: Account)
    requires OnlyAccount(m, id) == map[t := a]
    requires forall u | u in m :: Normalised(u, m[u])
    ensures t in m && m[t] == a && TextOf(m[t], AccessToken) == t
  {
    assert t in OnlyAccount(m, id);
  }

  lemma DoubleRotationKeepsRemote(b: View, l: View, r: View, id: AccountId, bt: Token, lt: Token, rt: Token)
    requires Mergeable(b, l, r) && Entry(b, id) == Some(bt) && Entry(l, id) == Some(lt) && Entry(r, id) == Some(rt)
    requires lt != bt && rt != bt
    ensures OnlyAccount(MergedView(b, l, r), id) == map[rt := r[rt]]
  {
    MergeIsPerAccount(b, l, r, id);
  }

  // What no side holds, the merge does not hold.
  lemma NobodyHolds(b: View, l: View, r: View, id: AccountId)
    requires Mergeable(b, l, r) && !HasEntry(b, id) && !HasEntry(l, id) && !HasEntry(r, id)
    ensures !HasEntry(MergedView(b, l, r), id)
  {
    MergeIsPerAccount(b, l, r, id);
    var m := MergedView(b, l, r);
    hide MergedView, Mergeable;
    assert OnlyAccount(r, id) == map[];
    forall t | t in m ensures IdOf(m[t]) != id {
      assert t !in OnlyAccount(m, id);
    }
  }
}
