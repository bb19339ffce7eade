/** What a loaded view does to one account's slots and aliases (services/account_service.py:478-498, 1508-1531). */
module ViewEffects {
  import opened Accounts
  import opened TokenAliases
  import opened ImageLeases

  /** The loaded view holds an account under t that was live under u. */
  predicate Rotates(own: Token -> AccountId, g: Graph, loaded: map<Token, AccountId>, u: Token, t: Token) {
    u in g.accounts && u !in loaded && t in loaded && own(u) == own(t)
  }

  ghost predicate IsRotation(own: Token -> AccountId, g: Graph, loaded: map<Token, AccountId>, r: (Token, set<Token>)) {
    exists u :: Rotates(own, g, loaded, u, r.0) && r.1 == AliasSources(g, u)
  }

  /** Two states that agree on what is recorded under a token. */
  predicate SameAt(s: Runtime, s': Runtime, k: Token) {
    Lookup(s'.inflight, k) == Lookup(s.inflight, k) && Lookup(s'.graph.aliases, k) == Lookup(s.graph.aliases, k)
  }

  /** An account that the view does not rotate keeps its slots and aliases; a rotated one has its slots moved, once. */
  ghost predicate ViewEffect(own: Token -> AccountId, s: Runtime, loaded: map<Token, AccountId>, s': Runtime) {
    && (forall k | (forall u, t | Rotates(own, s.graph, loaded, u, t) :: own(t) != own(k)) :: SameAt(s, s', k))
    && (forall u, t, k | Rotates(own, s.graph, loaded, u, t) && own(k) == own(t) ::
          Lookup(s'.inflight, k) == SlotAfterMove(own, s, t, AliasSources(s.graph, u), k))
  }

  predicate OtherOwners(own: Token -> AccountId, moves: seq<(Token, set<Token>)>, id: AccountId) {
    forall r | r in moves :: own(r.0) != id
  }

  /** No account is moved twice. */
  predicate MovedOnce(own: Token -> AccountId, moves: seq<(Token, set<Token>)>) {
    forall i | 0 <= i < |moves| :: OtherOwners(own, moves[..i], own(moves[i].0))
  }

  lemma OneMoreMove(own: Token -> AccountId, moves: seq<(Token, set<Token>)>, r: (Token, set<Token>))
    requires MovedOnce(own, moves) && OtherOwners(own, moves, own(r.0))
    ensures MovedOnce(own, moves + [r])
  {
    hide OtherOwners;
    var more := moves + [r];
    forall i | 0 <= i < |more| ensures OtherOwners(own, more[..i], own(more[i].0)) {
      assert more[..i] == moves[..i];
      assert moves[..|moves|] == moves;
    }
  }

  // The state after the first moves of a view.
  ghost predicate MovesDone(own: Token -> AccountId, s: Runtime, moves: seq<(Token, set<Token>)>, s': Runtime) {
    && (forall k | OtherOwners(own, moves, own(k)) :: SameAt(s, s', k))
    && (forall r, k | r in moves && own(k) == own(r.0) :: Lookup(s'.inflight, k) == SlotAfterMove(own, s, r.0, r.1, k))
  }

  lemma SameHolder(own: Token -> AccountId, s: Runtime, s': Runtime, target: Token, sources: set<Token>, k: Token)
    requires OneHolderOf(own, s', target) && own(k) == own(target)
    requires forall x | own(x) == own(target) :: Lookup(s'.inflight, x) == Lookup(s.inflight, x)
    ensures SlotAfterMove(own, s', target, sources, k) == SlotAfterMove(own, s, target, sources, k)
  {
    var h, h' := HolderAmong(own, s, target), HolderAmong(own, s', target);
    if h.Some? {
      assert Lookup(s'.inflight, h.value) == Lookup(s.inflight, h.value);
    }
    if h'.Some? {
      assert Lookup(s'.inflight, h'.value) == Lookup(s.inflight, h'.value);
    }
  }

  lemma MovedAlias(s: Runtime, s': Runtime, target: Token, sources: set<Token>, k: Token)
    requires Moved(s, s', target, sources) && k !in sources
    ensures Lookup(s'.graph.aliases, k) == Lookup(s.graph.aliases, k)
  {
    MovedFrame(s, s', target, sources);
    hide Moved;
  }

  lemma MoveOnce(own: Token -> AccountId, s: Runtime, moves: seq<(Token, set<Token>)>, before: Runtime, r: (Token, set<Token>), after: Runtime)
    requires MovesDone(own, s, moves, before) && OtherOwners(own, moves, own(r.0))
    requires SlotsRecorded(before) && OneHolderOf(own, before, r.0) && Moved(before, after, r.0, r.1)
    requires forall x | x in r.1 :: own(x) == own(r.0)
    ensures MovesDone(own, s, moves + [r], after)
  {
    hide Moved, SlotsRecorded, OneHolderOf, HolderAmong, SlotAfterMove;
    forall k ensures Lookup(after.inflight, k) == SlotAfterMove(own, before, r.0, r.1, k) {
      MovedSlot(own, before, after, r.0, r.1, k);
    }
    forall k | own(k) != own(r.0) ensures SameAt(before, after, k) {
      MovedAlias(before, after, r.0, r.1, k);
      OtherSlot(own, before, r.0, r.1, k);
    }
    assert forall q | q in moves + [r] :: q in moves || q == r;
    assert r in moves + [r];
    forall k | OtherOwners(own, moves + [r], own(k)) ensures SameAt(s, after, k) {
      assert OtherOwners(own, moves, own(k)) by {
        assert forall q | q in moves :: q in moves + [r];
      }
      assert SameAt(s, before, k) && SameAt(before, after, k);
    }
    forall q, k | q in moves + [r] && own(k) == own(q.0)
      ensures Lookup(after.inflight, k) == SlotAfterMove(own, s, q.0, q.1, k)
    {
      if q in moves {
        assert own(q.0) != own(r.0);
        assert SameAt(before, after, k);
      } else {
        forall x | own(x) == own(r.0) ensures Lookup(before.inflight, x) == Lookup(s.inflight, x) {
          assert SameAt(s, before, x);
        }
        SameHolder(own, s, before, r.0, r.1, k);
      }
    }
  }

  lemma OtherSlot(own: Token -> AccountId, s: Runtime, target: Token, sources: set<Token>, k: Token)
    requires own(k) != own(target)
    ensures SlotAfterMove(own, s, target, sources, k) == Lookup(s.inflight, k)
  {
  }

  lemma SoleHolder(own: Token -> AccountId, s: Runtime, transit: set<Token>, limit: nat, t: Token)
    requires Inv(own, s, transit, limit) && t in s.graph.accounts
    ensures SlotsRecorded(s) && OneHolderOf(own, s, t)
  {
    assert Placed(own, s, transit, limit, t);
    hide GraphInv;
  }

  lemma SameOwnerHolder(own: Token -> AccountId, s: Runtime, u: Token, s': Runtime, t: Token)
    requires OneHolderOf(own, s, u) && own(u) == own(t) && s'.inflight == s.inflight
    ensures OneHolderOf(own, s', t)
  {
  }

  // The moves of a view are its effect, if they are all its rotations.
  lemma AllMovesDone(own: Token -> AccountId, s: Runtime, transit: set<Token>, limit: nat, loaded: map<Token, AccountId>,
                     moves: seq<(Token, set<Token>)>, s': Runtime)
    requires Inv(own, s, transit, limit)
    requires MovesDone(own, Viewed(s, loaded), moves, s')
    requires forall r | r in moves :: IsRotation(own, s.graph, loaded, r)
    requires forall u, t | Rotates(own, s.graph, loaded, u, t) :: (t, AliasSources(s.graph, u)) in moves
    ensures ViewEffect(own, s, loaded, s')
  {
    hide AliasSources, HolderAmong, Inv, OneHolderOf;
    var v := Viewed(s, loaded);
    forall k | forall u, t | Rotates(own, s.graph, loaded, u, t) :: own(t) != own(k) ensures SameAt(s, s', k) {
      assert OtherOwners(own, moves, own(k));
      assert SameAt(v, s', k);
    }
    forall u, t, k | Rotates(own, s.graph, loaded, u, t) && own(k) == own(t)
      ensures Lookup(s'.inflight, k) == SlotAfterMove(own, s, t, AliasSources(s.graph, u), k)
    {
      var r := (t, AliasSources(s.graph, u));
      assert r in moves;
      SoleHolder(own, s, transit, limit, u);
      assert OneHolderOf(own, v, t) by { SameOwnerHolder(own, s, u, v, t); }
      SameHolder(own, s, v, t, r.1, k);
    }
  }

  lemma InvParts(own: Token -> AccountId, s: Runtime, transit: set<Token>, limit: nat)
    requires Inv(own, s, transit, limit)
    ensures GraphInv(own, s.graph, transit) && GoodAccounts(own, s.graph.accounts) && SlotsRecorded(s)
    ensures SameOwnerAliases(own, s.graph.aliases)
  {
  }

  // ---------------------------------------------------------------- accounts the views leave alone

  /** Nothing recorded under any of the account's tokens has changed. */
  ghost predicate Steady(own: Token -> AccountId, s: Runtime, s': Runtime, id: AccountId) {
    forall k | own(k) == id :: SameAt(s, s', k)
  }

  /** The view holds the account under the token it has, or lacks it as before. */
  ghost predicate HeldAlike(own: Token -> AccountId, accounts: map<Token, AccountId>, view: map<Token, AccountId>, id: AccountId) {
    forall t | own(t) == id :: t in view <==> t in accounts
  }

  lemma HeldAlikeIsSteady(own: Token -> AccountId, s: Runtime, loaded: map<Token, AccountId>, s': Runtime, id: AccountId)
    requires ViewEffect(own, s, loaded, s') && HeldAlike(own, s.graph.accounts, loaded, id)
    ensures Steady(own, s, s', id)
  {
    hide AliasSources, HolderAmong;
    forall k | own(k) == id ensures SameAt(s, s', k) {
      assert forall u, t | Rotates(own, s.graph, loaded, u, t) :: own(t) != own(k);
    }
  }

  lemma SteadyTwice(own: Token -> AccountId, s: Runtime, s1: Runtime, s2: Runtime, id: AccountId)
    requires Steady(own, s, s1, id) && Steady(own, s1, s2, id)
    ensures Steady(own, s, s2, id)
  {
    forall k | own(k) == id ensures SameAt(s, s2, k) {
      assert SameAt(s, s1, k) && SameAt(s1, s2, k);
    }
  }

  // ---------------------------------------------------------------- slots against leases

  predicate Lacks(own: Token -> AccountId, view: map<Token, AccountId>, id: AccountId) {
    forall t | t in view :: own(t) != id
  }

  ghost predicate CountedAt(own: Token -> AccountId, s: Runtime, t: Token) {
    InflightOf(s, t) == OwnedLeases(own, s.leases, own(t))
  }

  /** Every live account has as many slots as outstanding leases. */
  ghost predicate Counted(own: Token -> AccountId, s: Runtime) {
    forall t | t in s.graph.accounts :: CountedAt(own, s, t)
  }

  /** All slots of the account sit under this token. */
  ghost predicate AllUnder(own: Token -> AccountId, s: Runtime, h: Token) {
    forall k | own(k) == own(h) :: InflightOf(s, k) == if k == h then OwnedLeases(own, s.leases, own(h)) else 0
  }

  lemma LiveHoldsAll(own: Token -> AccountId, s: Runtime, limit: nat, t: Token)
    requires Placed(own, s, {}, limit, t)
    ensures AllUnder(own, s, t)
  {
    hide OwnedLeases;
    if t !in s.inflight {
      assert forall k | k in s.inflight :: own(k) != own(t);
    }
  }

  // Slots can be missing only for the account whose tokens wait for a move.
  lemma CountedElsewhere(own: Token -> AccountId, s: Runtime, left: set<Token>, limit: nat, id: AccountId)
    requires Inv(own, s, left, limit) && forall x | x in left :: own(x) == id
    ensures Counted(own, s) <==> forall t | t in s.graph.accounts && own(t) == id :: CountedAt(own, s, t)
  {
    hide GraphInv, OwnedLeases;
    forall t | t in s.graph.accounts && own(t) != id ensures CountedAt(own, s, t) {
      assert Placed(own, s, left, limit, t);
      SettledIsCounted(own, s, left, limit, t);
    }
  }

  lemma SettledIsCounted(own: Token -> AccountId, s: Runtime, left: set<Token>, limit: nat, t: Token)
    requires Placed(own, s, left, limit, t) && forall x | x in left :: own(x) != own(t)
    ensures CountedAt(own, s, t)
  {
    hide OwnedLeases;
    if t !in s.inflight {
      assert forall k | k in s.inflight :: own(k) != own(t);
    }
  }

  lemma CountedUnder(own: Token -> AccountId, s: Runtime, h: Token, t: Token)
    requires AllUnder(own, s, h) && own(t) == own(h)
    ensures CountedAt(own, s, t) <==> t == h || OwnedLeases(own, s.leases, own(h)) == 0
  {
  }

  lemma SteadyKeepsSlots(own: Token -> AccountId, s: Runtime, s': Runtime, h: Token)
    requires AllUnder(own, s, h) && Steady(own, s, s', own(h)) && s'.leases == s.leases
    ensures AllUnder(own, s', h)
  {
    hide OwnedLeases;
    forall k | own(k) == own(h) ensures InflightOf(s', k) == InflightOf(s, k) {
      assert SameAt(s, s', k);
    }
  }

  lemma MoveTakesAll(own: Token -> AccountId, s: Runtime, s': Runtime, h: Token, t: Token, sources: set<Token>)
    requires AllUnder(own, s, h) && SlotsRecorded(s) && own(t) == own(h) && s'.leases == s.leases
    requires forall k | own(k) == own(t) :: Lookup(s'.inflight, k) == SlotAfterMove(own, s, t, sources, k)
    ensures AllUnder(own, s', if h in sources then t else h)
  {
    hide OwnedLeases;
    var holder := HolderAmong(own, s, t);
    assert holder.Some? ==> holder.value == h by {
      if holder.Some? {
        assert InflightOf(s, holder.value) > 0;
      }
    }
    assert holder.None? ==> h !in s.inflight;
    forall k | own(k) == own(t)
      ensures InflightOf(s', k) == if k == (if h in sources then t else h) then OwnedLeases(own, s.leases, own(h)) else 0
    {
      assert Lookup(s'.inflight, k) == SlotAfterMove(own, s, t, sources, k);
    }
  }

  // ---------------------------------------------------------------- saves that raise

  function Rotated(own: Token -> AccountId, accounts: map<Token, AccountId>, oldToken: Token, newToken: Token): map<Token, AccountId> {
    accounts - {oldToken} + map[newToken := own(oldToken)]
  }

  /** What the reload after a raised save must look like for the slots of the rotated account to be found again: there
      are none, the account is gone or back under its old token, or it has a third token and the aliases already led
      from the old token to the new one. */
  ghost predicate RotationRecovers(own: Token -> AccountId, s: Runtime, oldToken: Token, newToken: Token, reload: map<Token, AccountId>) {
    || newToken == oldToken
    || OwnedLeases(own, s.leases, own(oldToken)) == 0
    || Lacks(own, reload, own(oldToken)) || oldToken in reload
    || (newToken !in reload
        && oldToken in AliasSources(Graph(Rotated(own, s.graph.accounts, oldToken, newToken), s.graph.aliases, {}), newToken))
  }

  lemma SourceAgrees(own: Token -> AccountId, g: Graph, g': Graph, n: Token, x: Token)
    requires SameOwnerAliases(own, g.aliases) && own(x) == own(n)
    requires HeldAlike(own, g.accounts, g'.accounts, own(n))
    requires forall k | own(k) == own(n) :: Lookup(g'.aliases, k) == Lookup(g.aliases, k)
    ensures x in AliasSources(g, n) <==> x in AliasSources(g', n)
  {
    ResolveAgrees(own, g.accounts.Keys, g.aliases, g'.accounts.Keys, g'.aliases, x, {});
    assert Lookup(g'.aliases, x) == Lookup(g.aliases, x);
  }

  // The reload of a third token moves what the aliases lead to the new token, and nothing else.
  lemma ThirdToken(own: Token -> AccountId, s: Runtime, s': Runtime, o: Token, n: Token, t: Token, reload: map<Token, AccountId>)
    requires AllUnder(own, s, o) && SlotsRecorded(s) && ViewEffect(own, s, reload, s') && s'.leases == s.leases
    requires Rotates(own, s.graph, reload, n, t) && own(o) == own(n)
    ensures CountedAt(own, s', t) <==>
            t == o || o in AliasSources(s.graph, n) || OwnedLeases(own, s.leases, own(o)) == 0
  {
    hide AliasSources, OwnedLeases, SlotsRecorded, HolderAmong, SlotAfterMove, AllUnder, CountedAt;
    var sources := AliasSources(s.graph, n);
    MoveTakesAll(own, s, s', o, t, sources);
    CountedUnder(own, s', if o in sources then t else o, t);
  }

  lemma RaisedRotationAt(own: Token -> AccountId, s: Runtime, s': Runtime, o: Token, n: Token, t: Token, reload: map<Token, AccountId>)
    requires AllUnder(own, s, o) && SlotsRecorded(s) && ViewEffect(own, s, reload, s') && s'.leases == s.leases
    requires GoodAccounts(own, reload) && n in s.graph.accounts && t in reload && own(t) == own(o) == own(n) && n != o
    requires GoodAccounts(own, s.graph.accounts)
    ensures CountedAt(own, s', t) <==>
            OwnedLeases(own, s.leases, own(o)) == 0 || o in reload || (n !in reload && o in AliasSources(s.graph, n))
  {
    hide AliasSources, OwnedLeases, SlotsRecorded, HolderAmong, ViewEffect, AllUnder, CountedAt;
    if n in reload {
      assert t == n;
      assert HeldAlike(own, s.graph.accounts, reload, own(o));
      HeldAlikeIsSteady(own, s, reload, s', own(o));
      SteadyKeepsSlots(own, s, s', o);
      CountedUnder(own, s', o, n);
    } else {
      ThirdToken(own, s, s', o, n, t, reload);
    }
  }

  /** From the rotation to the reload: before, the state in which the rotation began; s, the one that the reload finds;
      after, the one that it leaves, whose only unsettled tokens are the account's. */
  lemma RaisedRotation(own: Token -> AccountId, before: Runtime, s: Runtime, after: Runtime, left: set<Token>, limit: nat,
                       o: Token, n: Token, reload: map<Token, AccountId>)
    requires Inv(own, before, {}, limit) && o in before.graph.accounts && own(n) == own(o) && n != o
    requires Steady(own, before, s, own(o)) && s.leases == before.leases && n in s.graph.accounts
    requires SlotsRecorded(s) && GoodAccounts(own, s.graph.accounts)
    requires GoodAccounts(own, reload) && ViewEffect(own, s, reload, after)
    requires after.leases == s.leases && after.graph.accounts == reload
    requires Inv(own, after, left, limit) && forall x | x in left :: own(x) == own(o)
    ensures Counted(own, after) <==> RotationRecovers(own, before, o, n, reload)
  {
    hide AliasSources, OwnedLeases, SlotsRecorded, ViewEffect, AllUnder, CountedAt, Inv;
    CountedElsewhere(own, after, left, limit, own(o));
    HolderOf(own, before, limit, o);
    SteadyKeepsSlots(own, before, s, o);
    RotatedSources(own, before, s, limit, o, n);
    forall t | t in reload && own(t) == own(o)
      ensures CountedAt(own, after, t) <==>
              OwnedLeases(own, s.leases, own(o)) == 0 || o in reload || (n !in reload && o in AliasSources(s.graph, n))
    {
      RaisedRotationAt(own, s, after, o, n, t, reload);
    }
  }

  lemma HolderOf(own: Token -> AccountId, s: Runtime, limit: nat, o: Token)
    requires Inv(own, s, {}, limit) && o in s.graph.accounts
    ensures AllUnder(own, s, o) && SlotsRecorded(s)
  {
    assert Placed(own, s, {}, limit, o);
    hide GraphInv, Placed, AllUnder;
    LiveHoldsAll(own, s, limit, o);
  }

  lemma RotatedSources(own: Token -> AccountId, before: Runtime, s: Runtime, limit: nat, o: Token, n: Token)
    requires Inv(own, before, {}, limit) && o in before.graph.accounts && own(n) == own(o) && n != o
    requires Steady(own, before, s, own(o)) && n in s.graph.accounts && GoodAccounts(own, s.graph.accounts)
    ensures o in AliasSources(Graph(Rotated(own, before.graph.accounts, o, n), before.graph.aliases, {}), n)
            <==> o in AliasSources(s.graph, n)
  {
    hide AliasSources, Inv, HeldAlike;
    var g := Graph(Rotated(own, before.graph.accounts, o, n), before.graph.aliases, {});
    InvParts(own, before, {}, limit);
    hide GraphInv, SlotsRecorded;
    HeldUnderOne(own, before.graph.accounts, o, n, s.graph.accounts);
    forall k | own(k) == own(n) ensures Lookup(s.graph.aliases, k) == Lookup(g.aliases, k) {
      assert SameAt(before, s, k);
    }
    SourceAgrees(own, g, s.graph, n, o);
  }

  lemma HeldUnderOne(own: Token -> AccountId, accounts: map<Token, AccountId>, o: Token, n: Token, view: map<Token, AccountId>)
    requires GoodAccounts(own, accounts) && GoodAccounts(own, view) && o in accounts && own(n) == own(o) && n in view
    ensures HeldAlike(own, Rotated(own, accounts, o, n), view, own(n))
  {
  }

  /** What the reload after a raised deletion must look like for the account's slots to be counted: there are none, the
      account is gone after all, or it is back under the token it was to be deleted with. */
  ghost predicate DeletionRecovers(own: Token -> AccountId, s: Runtime, token: Token, reload: map<Token, AccountId>) {
    OwnedLeases(own, s.leases, own(token)) == 0 || Lacks(own, reload, own(token)) || token in reload
  }

  lemma RaisedDeletion(own: Token -> AccountId, before: Runtime, s: Runtime, after: Runtime, left: set<Token>, limit: nat,
                       token: Token, reload: map<Token, AccountId>)
    requires Inv(own, before, {}, limit) && token in before.graph.accounts
    requires Steady(own, before, s, own(token)) && s.leases == before.leases && Lacks(own, s.graph.accounts, own(token))
    requires GoodAccounts(own, reload) && ViewEffect(own, s, reload, after)
    requires after.leases == s.leases && after.graph.accounts == reload
    requires Inv(own, after, left, limit) && forall x | x in left :: own(x) == own(token)
    ensures Counted(own, after) <==> DeletionRecovers(own, before, token, reload)
  {
    hide AliasSources, OwnedLeases, SlotsRecorded, AllUnder, CountedAt, Inv, SlotAfterMove;
    CountedElsewhere(own, after, left, limit, own(token));
    HolderOf(own, before, limit, token);
    forall k | own(k) == own(token) ensures SameAt(s, after, k) {
      assert forall u, t | Rotates(own, s.graph, reload, u, t) :: own(t) != own(k);
    }
    SteadyTwice(own, before, s, after, own(token));
    SteadyKeepsSlots(own, before, after, token);
    forall t | t in reload && own(t) == own(token)
      ensures CountedAt(own, after, t) <==> t == token || OwnedLeases(own, after.leases, own(token)) == 0
    {
      CountedUnder(own, after, token, t);
    }
  }
}
