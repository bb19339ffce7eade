/** The in-place runtime state of one process: live tokens, aliases, generation slots (services/account_service.py). */
module AccountRuntime {
  import opened Accounts
  import opened TokenAliases
  import opened ImageLeases
  import opened ViewEffects

  /** How a save ended for its caller: it went through, a newer generation refused it, or it raised and the store was
      read again. */
  datatype Outcome = Saved | Refused | Raised(reload: map<Token, AccountId>)

  /** Each view may follow the one before: it is a proper view and brings no deleted account back. */
  ghost predicate ViewsFollow(own: Token -> AccountId, accounts: map<Token, AccountId>, lineage: set<Token>,
                              views: seq<map<Token, AccountId>>)
    decreases |views|
  {
    views != [] ==>
      && GoodAccounts(own, views[0]) && NoRevival(own, Graph(accounts, map[], lineage), views[0])
      && ViewsFollow(own, views[0], lineage + views[0].Keys, views[1..])
  }

  /** The last of the views. */
  function Shown(accounts: map<Token, AccountId>, views: seq<map<Token, AccountId>>): map<Token, AccountId> {
    if views == [] then accounts else views[|views| - 1]
  }

  /** Every token that was live up to the last of the views. */
  ghost function Seen(lineage: set<Token>, views: seq<map<Token, AccountId>>): set<Token>
    decreases |views|
  {
    if views == [] then lineage else Seen(lineage + views[0].Keys, views[1..])
  }

  /** The view brings no deleted account back, except this one. */
  ghost predicate ReturnsOnly(own: Token -> AccountId, accounts: map<Token, AccountId>, lineage: set<Token>,
                              view: map<Token, AccountId>, id: AccountId)
  {
    && GoodAccounts(own, view)
    && forall t, x | t in view && x in lineage && own(x) == own(t) != id :: !Lacks(own, accounts, own(t))
  }

  lemma RevivalIgnoresAliases(own: Token -> AccountId, g: Graph, loaded: map<Token, AccountId>)
    requires NoRevival(own, Graph(g.accounts, map[], g.lineage), loaded)
    ensures NoRevival(own, g, loaded)
  {
  }

  lemma OrderedCons(first: real, rest: seq<real>)
    requires Ordered(rest) && forall y | y in rest :: first <= y
    ensures Ordered([first] + rest)
  {
    var all := [first] + rest;
    forall i, j | 0 <= i < j < |all| ensures all[i] <= all[j] {
      assert all[j] == rest[j - 1] && rest[j - 1] in rest;
    }
  }

  lemma NothingTaken(inflight: map<Token, nat>, started: map<Token, seq<real>>)
    ensures InflightSum(inflight, {}) == 0 && StartsBag(started, {}) == multiset{}
  {
  }

  lemma TakeOne(inflight: map<Token, nat>, started: map<Token, seq<real>>, todo: set<Token>, t: Token, slots: nat, starts: seq<real>)
    requires t in todo
    ensures slots + InflightSum(inflight, todo) ==
            (slots + if t in inflight then inflight[t] else 0) + InflightSum(inflight, todo - {t})
    ensures multiset(starts) + StartsBag(started, todo) ==
            multiset(starts + if t in started then started[t] else []) + StartsBag(started, todo - {t})
  {
    InflightSumSplit(inflight, todo, t);
    StartsBagSplit(started, todo, t);
  }

  function Insert(x: real, starts: seq<real>): (r: seq<real>)
    requires Ordered(starts)
    ensures Ordered(r) && multiset(r) == multiset(starts) + multiset{x}
    ensures forall y | y in r :: y == x || y in starts
  {
    if starts == [] || x <= starts[0] then
      assert forall y | y in starts :: starts[0] <= y;
      OrderedCons(x, starts);
      [x] + starts
    else
      assert starts == [starts[0]] + starts[1..];
      OrderedCons(starts[0], Insert(x, starts[1..]));
      [starts[0]] + Insert(x, starts[1..])
  }

  function Sorted(starts: seq<real>): (r: seq<real>)
    ensures Ordered(r) && multiset(r) == multiset(starts)
  {
    if starts == [] then []
    else
      assert starts == [starts[0]] + starts[1..];
      Insert(starts[0], Sorted(starts[1..]))
  }

  lemma StartsMoved(started: map<Token, seq<real>>, others: set<Token>, target: Token, merged: seq<real>, started': map<Token, seq<real>>)
    requires target !in others
    requires multiset(merged) ==
      StartsBag(started, others) + if target in started then multiset(started[target]) else multiset{}
    requires started' ==
      if merged != [] then (started - others)[target := Sorted(merged)] else started - others - {target}
    ensures MovedStarts(started, started', target, others)
  {
    hide StartsBag, Ordered, Sorted;
    assert |multiset(merged)| == |merged|;
  }

  lemma InflightMoved(inflight: map<Token, nat>, others: set<Token>, target: Token, gathered: nat)
    requires target !in others
    ensures MovedInflight(inflight, target, others, gathered) ==
      var rest := inflight - others;
      if gathered > 0 then rest[target := (if target in rest then rest[target] else 0) + gathered] else rest
  {
  }

  lemma RedirectedAliases(g: Graph, target: Token, sources: set<Token>)
    ensures Redirected(g, target, sources) == Graph(g.accounts, MovedAliases(g.aliases, target, sources), g.lineage)
  {
  }

  class AccountRuntime {
    ghost const own: Token -> AccountId
    const limit: nat
    var accounts: map<Token, AccountId>
    var aliases: Aliases
    var inflight: map<Token, nat>
    var started: map<Token, seq<real>>
    ghost var lineage: set<Token>
    ghost var leases: seq<Token>
    ghost var clock: real

    ghost function State(): Runtime reads this {
      Runtime(Graph(accounts, aliases, lineage), inflight, started, clock, leases)
    }

    constructor (ghost own: Token -> AccountId, limit: nat, accounts: map<Token, AccountId>)
      requires GoodAccounts(own, accounts)
      ensures this.own == own && this.limit == limit && this.accounts == accounts && leases == []
      ensures Inv(own, State(), {}, limit)
    {
      this.own, this.limit, this.accounts := own, limit, accounts;
      aliases, inflight, started := map[], map[], map[];
      lineage, leases, clock := accounts.Keys, [], 0.0;
    }

    method ResolveToken(accessToken: Token) returns (token: Token)
      ensures token == ResolveIn(State().graph, accessToken)
    {
      token := ResolveAccessToken(accounts.Keys, aliases, accessToken);
    }

    method PruneTokenAliases()
      modifies this`aliases
      ensures State() == CompactedState(old(State()))
    {
      aliases := TokenAliases.PruneTokenAliases(accounts.Keys, aliases);
    }

    // Takes the slots and start times of the given tokens out of the tables.
    method TakeSlots(tokens: set<Token>) returns (slots: nat, starts: seq<real>)
      modifies this`inflight, this`started
      ensures inflight == old(inflight) - tokens && started == old(started) - tokens
      ensures slots == InflightSum(old(inflight), tokens)
      ensures multiset(starts) == StartsBag(old(started), tokens)
    {
      hide InflightSum, StartsBag;
      slots, starts := 0, [];
      ghost var inflight0, started0 := inflight, started;
      var todo := tokens;
      while todo != {}
        invariant todo <= tokens
        invariant inflight == inflight0 - (tokens - todo) && started == started0 - (tokens - todo)
        invariant slots + InflightSum(inflight0, todo) == InflightSum(inflight0, tokens)
        invariant multiset(starts) + StartsBag(started0, todo) == StartsBag(started0, tokens)
        decreases |todo|
      {
        var source :| source in todo;
        TakeOne(inflight0, started0, todo, source, slots, starts);
        slots := slots + if source in inflight then inflight[source] else 0;
        starts := starts + if source in started then started[source] else [];
        inflight, started := inflight - {source}, started - {source};
        todo := todo - {source};
      }
      NothingTaken(inflight0, started0);
    }

    /** Redirects every source's alias, slots and start times to the new token. */
    method MoveRuntimeToken(newToken: Token, sources: set<Token>)
      modifies this`aliases, this`inflight, this`started
      ensures Moved(old(State()), State(), newToken, sources)
    {
      hide InflightSum, StartsBag, Ordered, MovedStarts, Sorted, Insert, Redirected, MovedInflight;
      ghost var inflight0, started0, others := inflight, started, sources - {newToken};
      aliases := MovedAliases(aliases, newToken, sources);
      var oldInflight, merged := TakeSlots(sources - {newToken});
      if oldInflight > 0 {
        inflight := inflight[newToken := (if newToken in inflight then inflight[newToken] else 0) + oldInflight];
      }
      InflightMoved(inflight0, others, newToken, oldInflight);
      merged := merged + if newToken in started then started[newToken] else [];
      started := if merged != [] then started[newToken := Sorted(merged)] else started - {newToken};
      StartsMoved(started0, others, newToken, merged, started);
      assert State().graph == Redirected(old(State()).graph, newToken, sources) by {
        RedirectedAliases(old(State()).graph, newToken, sources);
      }
    }

    // The current tokens that the loaded view no longer has although it has their account.
    method PassiveTokenRotations(loaded: map<Token, AccountId>) returns (rotations: seq<(Token, set<Token>)>)
      requires GoodAccounts(own, loaded) && GoodAccounts(own, accounts)
      ensures forall r | r in rotations :: IsRotation(own, State().graph, loaded, r)
      ensures forall u, t | Rotates(own, State().graph, loaded, u, t) :: (t, AliasSources(State().graph, u)) in rotations
      ensures MovedOnce(own, rotations)
    {
      hide AliasSources, MovedOnce;
      ghost var g := State().graph;
      rotations := [];
      assert MovedOnce(own, rotations) by { NothingMoved(own); }
      var todo := accounts.Keys;
      while todo != {}
        invariant todo <= accounts.Keys && MovedOnce(own, rotations)
        invariant forall r | r in rotations :: IsRotation(own, g, loaded, r)
        invariant forall r, u | r in rotations && u in todo :: own(r.0) != own(u)
        invariant forall u, t | u in accounts.Keys - todo && Rotates(own, g, loaded, u, t) :: (t, AliasSources(g, u)) in rotations
        decreases |todo|
      {
        var oldToken :| oldToken in todo;
        todo := todo - {oldToken};
        if oldToken !in loaded {
          if newToken :| newToken in loaded && loaded[newToken] == accounts[oldToken] {
            var sources := AliasSources(Graph(accounts, aliases, {}), oldToken);
            SourcesIgnoreLineage(g, Graph(accounts, aliases, {}), oldToken);
            assert Rotates(own, g, loaded, oldToken, newToken);
            OneMoreMove(own, rotations, (newToken, sources));
            rotations := rotations + [(newToken, sources)];
          }
        }
      }
    }

    // Moves the slots of every rotated account to its new token.
    method MoveRotations(rotations: seq<(Token, set<Token>)>, ghost transit: set<Token>) returns (ghost left: set<Token>)
      requires Inv(own, State(), transit, limit)
      requires forall r | r in rotations :: r.0 in accounts && OwnedBy(own, r.1, own(r.0))
      requires MovedOnce(own, rotations)
      modifies this`aliases, this`inflight, this`started
      ensures Inv(own, State(), left, limit) && left <= transit && forall r | r in rotations :: left !! r.1
      ensures MovesDone(own, old(State()), rotations, State())
    {
      hide Inv, Moved, MovesDone, SlotsRecorded, OneHolderOf, OtherOwners;
      left := transit;
      ghost var first := State();
      NoMoves(own, first);
      for i := 0 to |rotations|
        invariant Inv(own, State(), left, limit) && left <= transit && forall r | r in rotations[..i] :: left !! r.1
        invariant MovesDone(own, first, rotations[..i], State())
      {
        ghost var before := State();
        var r := rotations[i];
        assert r in rotations;
        SoleHolder(own, before, left, limit, r.0);
        MoveRuntimeToken(r.0, r.1);
        MoveInv(own, before, State(), left, limit, r.0, r.1);
        MoveOnce(own, first, rotations[..i], before, r, State());
        assert rotations[..i + 1] == rotations[..i] + [r];
        left := left - r.1;
      }
      assert rotations[..|rotations|] == rotations;
    }

    /** Installs a loaded view; accounts that another process rotated keep their aliases and slots. An account that the
        view brings back finds its slots where they were, and its old tokens wait for a move. */
    method ApplyAccountView(loaded: map<Token, AccountId>, ghost transit: set<Token>) returns (ghost left: set<Token>)
      requires Inv(own, State(), transit, limit)
      requires GoodAccounts(own, loaded) && Welcome(own, State(), limit, loaded)
      modifies this
      ensures accounts == loaded && leases == old(leases) && lineage == old(lineage) + loaded.Keys
      ensures Inv(own, State(), left, limit) && left <= transit + Displaced(own, old(State().graph), loaded)
      ensures forall x | x in left :: x in transit || Revives(own, old(State().graph), x)
      ensures ViewEffect(own, old(State()), loaded, State())
    {
      hide Inv, Displaced, Welcome, IsRotation, AliasSources, GoodAccounts, MovesDone, ViewEffect, Revives, MovedOnce, OwnedBy,
        Rotates;
      ghost var first := State();
      ghost var g := first.graph;
      assert GraphInv(own, g, transit) && GoodAccounts(own, g.accounts) by { InvParts(own, first, transit, limit); }
      var rotations := PassiveTokenRotations(loaded);
      assert State() == first;
      WelcomeViewInv(own, first, transit, limit, loaded);
      accounts := loaded;
      lineage := lineage + loaded.Keys;
      forall r | r in rotations ensures r.0 in accounts && OwnedBy(own, r.1, own(r.0)) {
        RotationOwned(own, g, transit, loaded, r);
      }
      left := MoveRotations(rotations, transit + Displaced(own, g, loaded));
      AllMovesDone(own, first, transit, limit, loaded, rotations, State());
      forall x | x in Displaced(own, g, loaded) && x !in transit && !Revives(own, g, x) ensures x !in left {
        PassiveSourcesMoved(own, g, transit, loaded, x, rotations);
      }
    }

    method AcquireSlot(t: Token, now: real)
      requires Inv(own, State(), {}, limit) && t in accounts
      requires InflightOf(State(), t) < limit && clock <= now
      modifies this`inflight, this`started, this`leases, this`clock
      ensures State() == Acquired(old(State()), t, now)
      ensures Inv(own, State(), {}, limit)
    {
      hide Inv;
      AcquireInv(own, State(), limit, t, now);
      started := started[t := (if t in started then started[t] else []) + [now]];
      inflight := inflight[t := (if t in inflight then inflight[t] else 0) + 1];
      leases, clock := leases + [t], now;
    }

    /** Gives back the i-th lease through any token its account ever had. */
    method ReleaseSlot(accessToken: Token, ghost i: nat)
      requires Inv(own, State(), {}, limit)
      requires i < |leases| && accessToken in lineage && own(accessToken) == own(leases[i])
      modifies this`inflight, this`started, this`leases
      ensures State() == Released(old(State()), accessToken, i)
      ensures Inv(own, State(), {}, limit)
    {
      ReleaseInv(own, State(), limit, accessToken, i);
      var token := ResolveToken(accessToken);
      var current := if token in inflight then inflight[token] else 0;
      if current <= 1 {
        inflight, started := inflight - {token}, started - {token};
      } else {
        inflight := inflight[token := current - 1];
        if token in started {
          started := if |started[token]| > 1 then started[token := started[token][1..]] else started - {token};
        }
      }
      leases := WithoutLease(leases, i);
    }

    method RemoveRuntimeState(tokens: set<Token>)
      modifies this`inflight, this`started, this`aliases
      ensures State() == Removed(old(State()), tokens)
    {
      inflight, started := inflight - tokens, started - tokens;
      aliases := map a | a in aliases && a !in tokens && aliases[a] !in tokens :: aliases[a];
    }

    // The views a save installs while it resolves its conflicts.
    method ApplyConflictViews(views: seq<map<Token, AccountId>>, ghost transit: set<Token>) returns (ghost left: set<Token>)
      requires Inv(own, State(), transit, limit) && ViewsFollow(own, accounts, lineage, views)
      modifies this
      ensures left <= transit && Inv(own, State(), left, limit)
      ensures leases == old(leases) && accounts == Shown(old(accounts), views) && lineage == Seen(old(lineage), views)
      ensures forall id | AllAlike(own, old(accounts), views, id) :: Steady(own, old(State()), State(), id)
    {
      hide Inv, NoRevival, GoodAccounts, Steady, HeldAlike, ViewEffect, Displaced, Revives;
      left := transit;
      var i := 0;
      assert views[0..] == views;
      ghost var first := State();
      forall id ensures Steady(own, first, first, id) { SteadyItself(own, first, id); }
      while i < |views|
        invariant 0 <= i <= |views|
        invariant left <= transit && Inv(own, State(), left, limit)
        invariant ViewsFollow(own, accounts, lineage, views[i..])
        invariant leases == old(leases) && Seen(lineage, views[i..]) == Seen(old(lineage), views)
        invariant accounts == if i == 0 then old(accounts) else views[i - 1]
        invariant forall id | AllAlike(own, old(accounts), views, id) :: Steady(own, first, State(), id)
      {
        assert views[i..][0] == views[i] && views[i..][1..] == views[i + 1..];
        ghost var before, settling := State(), left;
        RevivalIgnoresAliases(own, before.graph, views[i]);
        NoRevivalIsWelcome(own, before, limit, views[i]);
        left := ApplyAccountView(views[i], left);
        NothingRevived(own, before.graph, views[i], settling, left);
        forall id | AllAlike(own, old(accounts), views, id) ensures Steady(own, first, State(), id) {
          AlikeInTurn(own, old(accounts), views, i, id);
          HeldAlikeIsSteady(own, before, views[i], State(), id);
          SteadyTwice(own, first, before, State(), id);
        }
        i := i + 1;
      }
    }

    // Everything up to the end of the save: the rotated view is installed, then the views of the save's conflicts.
    method RotateAndSave(oldToken: Token, newToken: Token, views: seq<map<Token, AccountId>>)
      returns (sources: set<Token>, ghost left: set<Token>)
      requires Inv(own, State(), {}, limit)
      requires oldToken in accounts && (newToken != oldToken ==> newToken !in accounts) && own(newToken) == own(oldToken)
      requires ViewsFollow(own, Rotated(own, accounts, oldToken, newToken), lineage + {newToken}, views)
      modifies this
      ensures sources == AliasSources(old(State()).graph, oldToken) && oldToken in sources && forall x | x in sources :: own(x) == own(oldToken)
      ensures left <= sources && (newToken == oldToken ==> left == {}) && Inv(own, State(), left, limit)
      ensures leases == old(leases) && lineage == Seen(old(lineage) + {newToken}, views)
      ensures accounts == Shown(Rotated(own, old(accounts), oldToken, newToken), views)
      ensures (forall v | v in views :: newToken in v) ==> newToken in accounts && Steady(own, old(State()), State(), own(oldToken))
    {
      hide Inv, Displaced, NoRevival, AliasSources, GoodAccounts, ResolveIn, Steady, HeldAlike, ViewsFollow;
      ghost var first := State();
      ghost var g := first.graph;
      assert GraphInv(own, g, {}) && GoodAccounts(own, g.accounts) by { InvParts(own, first, {}, limit); }
      assert accounts[oldToken] == own(oldToken) by { AccountOwner(own, g.accounts, oldToken); }
      sources := AliasSources(Graph(accounts, aliases, {}), oldToken);
      SourcesIgnoreLineage(g, Graph(accounts, aliases, {}), oldToken);
      SourcesOwned(own, g, oldToken);
      OwnSource(g, oldToken);
      ghost var rotated := Rotated(own, accounts, oldToken, newToken);
      RotationIsAView(own, g, oldToken, newToken);
      ViewInv(own, first, {}, limit, rotated);
      RotationDisplaces(own, g, oldToken, newToken);
      accounts := accounts - {oldToken} + map[newToken := accounts[oldToken]];
      lineage := lineage + {newToken};
      assert State() == Viewed(first, rotated) by {
        assert lineage == old(lineage) + rotated.Keys;
      }
      assert {} + Displaced(own, g, rotated) == Displaced(own, g, rotated);
      if newToken == oldToken {
        NothingDisplaced(own, g, oldToken);
      }
      ghost var second := State();
      left := ApplyConflictViews(views, Displaced(own, g, rotated));
      if forall v | v in views :: newToken in v {
        HeldUnderNewToken(own, rotated, old(lineage) + {newToken}, views, newToken);
        ViewedIsSteady(own, first, rotated, own(oldToken));
        SteadyTwice(own, first, second, State(), own(oldToken));
      }
    }

    // After the save: what the old tokens had goes to whatever token the account has now, or with the account.
    method SettleRotation(oldToken: Token, newToken: Token, id: AccountId, sources: set<Token>, saved: bool, ghost transit: set<Token>)
      returns (applied: bool)
      requires Inv(own, State(), transit, limit) && transit <= sources && (newToken == oldToken ==> transit == {})
      requires oldToken in sources && id == own(newToken) == own(oldToken) && forall x | x in sources :: own(x) == own(oldToken)
      modifies this`aliases, this`inflight, this`started
      ensures Inv(own, State(), {}, limit) && leases == old(leases)
      ensures applied <==> saved && newToken in accounts
      ensures saved ==> Straight(State().graph)
      ensures Lacks(own, accounts, own(oldToken)) ==> oldToken !in inflight && oldToken !in started && oldToken !in aliases
    {
      hide Inv, Moved, Straight, Lacks, Redirected;
      ghost var left := transit;
      AccountsOwned(own, State(), transit, limit);
      if saved {
        CompactStateInv(own, State(), left, limit);
        CompactedIsStraight(State());
        PruneTokenAliases();
      }
      ghost var before := State();
      if finalToken :| finalToken in accounts && accounts[finalToken] == id {
        FinalToken(own, State(), left, limit, finalToken, id);
        NotLacking(own, accounts, finalToken);
        if !saved || finalToken != newToken || newToken != oldToken {
          MoveRuntimeToken(finalToken, sources);
          MoveInv(own, before, State(), left, limit, finalToken, sources);
          MovedFrame(before, State(), finalToken, sources);
          SameAccounts(before.graph, finalToken, sources);
          if saved {
            StaysStraight(before, finalToken, sources);
          }
          assert left - sources == {};
        }
        applied := saved && finalToken == newToken;
      } else {
        OwnerGone(own, before, left, limit, sources, id);
        OwnerGone(own, before, left, limit, left, id);
        RemoveInv(own, before, left, limit, sources);
        RemoveRuntimeState(sources);
        if saved {
          StaysStraight(before, oldToken, sources);
        }
        GoneNeedNoMove(own, State(), left, limit);
        applied := false;
      }
    }

    /** Commits an OAuth exchange for a live token: the views are those its save installs while it resolves conflicts.
        If the save returns, all leases of the account survive. If it raises, the store is read again and nothing is moved:
        exactly then the account's slots can be lost, and every other account's are still right. */
    method ApplyRefreshedTokens(oldToken: Token, newToken: Token, views: seq<map<Token, AccountId>>, outcome: Outcome)
      returns (applied: bool, ghost left: set<Token>)
      requires Inv(own, State(), {}, limit)
      requires oldToken in accounts && (newToken != oldToken ==> newToken !in accounts) && own(newToken) == own(oldToken)
      requires ViewsFollow(own, Rotated(own, accounts, oldToken, newToken), lineage + {newToken}, views)
      requires outcome.Raised? ==> forall v | v in views :: newToken in v
      requires outcome.Raised? ==>
        ViewsFollow(own, Shown(Rotated(own, accounts, oldToken, newToken), views), Seen(lineage + {newToken}, views), [outcome.reload])
      modifies this
      ensures leases == old(leases)
      ensures accounts == if outcome.Raised? then outcome.reload else Shown(Rotated(own, old(accounts), oldToken, newToken), views)
      ensures applied <==> outcome.Saved? && newToken in accounts
      ensures outcome.Saved? ==> Straight(State().graph)
      ensures !outcome.Raised? && Lacks(own, accounts, own(oldToken)) ==>
        oldToken !in inflight && oldToken !in started && oldToken !in aliases
      ensures Inv(own, State(), left, limit) && (!outcome.Raised? ==> left == {})
      ensures forall x | x in left :: own(x) == own(oldToken)
      ensures Counted(own, State()) <==>
        (outcome.Raised? ==> RotationRecovers(own, old(State()), oldToken, newToken, outcome.reload))
    {
      hide Inv, Moved, Displaced, NoRevival, AliasSources, GoodAccounts, ResolveIn, Steady, Counted, ViewEffect, Revives,
        RotationRecovers, SlotsRecorded, Rotated, Straight;
      ghost var first := State();
      var id := accounts[oldToken];
      assert id == own(oldToken) by { InvOwner(own, first, {}, limit, oldToken); }
      var sources;
      sources, left := RotateAndSave(oldToken, newToken, views);
      applied := false;
      ghost var before := State();
      if outcome.Raised? {
        var reload := outcome.reload;
        assert [reload][0] == reload;
        RevivalIgnoresAliases(own, before.graph, reload);
        NoRevivalIsWelcome(own, before, limit, reload);
        ghost var settling := left;
        left := ApplyAccountView(reload, left);
        NothingRevived(own, before.graph, reload, settling, left);
        if newToken == oldToken {
          assert left == {};
          SettledCounted(own, State(), limit);
          assert RotationRecovers(own, first, oldToken, newToken, reload) by { UnrotatedRecovers(own, first, oldToken, reload); }
        } else {
          InvParts(own, before, settling, limit);
          RaisedRotation(own, first, before, State(), left, limit, oldToken, newToken, reload);
        }
      } else {
        applied := SettleRotation(oldToken, newToken, id, sources, outcome.Saved?, left);
        left := {};
        SettledCounted(own, State(), limit);
      }
    }

    /** A local deletion: its slots and aliases go, whatever views its save installs meanwhile. If the save raises they
        stay, and the reload may bring the account back: they are counted again exactly if it has its old token. */
    method DeleteAccount(token: Token, views: seq<map<Token, AccountId>>, outcome: Outcome) returns (ghost left: set<Token>)
      requires Inv(own, State(), {}, limit) && token in accounts && !outcome.Refused?
      requires ViewsFollow(own, accounts - {token}, lineage, views)
      requires outcome.Raised? ==>
        ReturnsOnly(own, Shown(accounts - {token}, views), Seen(lineage, views), outcome.reload, own(token))
      modifies this
      ensures leases == old(leases)
      ensures accounts == if outcome.Raised? then outcome.reload else Shown(old(accounts) - {token}, views)
      ensures Inv(own, State(), left, limit) && forall x | x in left :: own(x) == own(token)
      ensures outcome.Saved? ==>
        left == {} && Lacks(own, accounts, own(token)) && token !in inflight && token !in started && Straight(State().graph)
      ensures Counted(own, State()) <==> (outcome.Raised? ==> DeletionRecovers(own, old(State()), token, outcome.reload))
    {
      hide Inv, Displaced, NoRevival, Steady, Counted, ViewEffect, Revives, DeletionRecovers, GoodAccounts, ReturnsOnly, Welcome,
        ViewsFollow, HeldAlike, Straight;
      ghost var first := State();
      ghost var g := first.graph;
      DeletionIsAView(own, first, limit, token);
      ViewInv(own, first, {}, limit, accounts - {token});
      accounts := accounts - {token};
      assert State() == Viewed(first, accounts) by {
        assert lineage + accounts.Keys == lineage by { InvParts(own, first, {}, limit); }
      }
      DeletedStaysDeleted(own, accounts, lineage, views, token);
      ghost var second := State();
      left := ApplyConflictViews(views, {});
      assert left == {};
      ViewedIsSteady(own, first, second.graph.accounts, own(token));
      SteadyTwice(own, first, second, State(), own(token));
      ghost var before := State();
      if outcome.Raised? {
        var reload := outcome.reload;
        DeletedIsWelcome(own, first, before, limit, token, reload);
        left := ApplyAccountView(reload, {});
        OnlyThisReturns(own, before, reload, left, own(token));
        RaisedDeletion(own, first, before, State(), left, limit, token, reload);
      } else {
        CompactStateInv(own, State(), {}, limit);
        CompactedIsStraight(State());
        PruneTokenAliases();
        RemoveInv(own, State(), {}, limit, {token});
        StaysStraight(State(), token, {token});
        RemoveRuntimeState({token});
        SettledCounted(own, State(), limit);
      }
    }
  }

  /** Every alias is a single hop to a live account. */
  predicate Straight(g: Graph) {
    forall a | a in g.aliases :: g.aliases[a] in g.accounts
  }

  lemma CompactedIsStraight(s: Runtime)
    ensures Straight(CompactedState(s).graph)
  {
    forall a | a in CompactedState(s).graph.aliases ensures CompactedState(s).graph.aliases[a] in s.graph.accounts {
      PruningPreservesMeaning(s.graph.accounts.Keys, s.graph.aliases, a);
    }
  }

  lemma AccountsOwned(own: Token -> AccountId, s: Runtime, transit: set<Token>, limit: nat)
    requires Inv(own, s, transit, limit)
    ensures forall t | t in s.graph.accounts :: s.graph.accounts[t] == own(t)
  {
    hide ResolveIn, Placed;
  }

  lemma NotLacking(own: Token -> AccountId, accounts: map<Token, AccountId>, t: Token)
    requires t in accounts
    ensures !Lacks(own, accounts, own(t))
  {
  }

  lemma StaysStraight(s: Runtime, target: Token, tokens: set<Token>)
    requires Straight(s.graph)
    ensures target in s.graph.accounts ==> Straight(Redirected(s.graph, target, tokens))
    ensures Straight(Removed(s, tokens).graph)
  {
  }

  ghost predicate AllAlike(own: Token -> AccountId, accounts: map<Token, AccountId>, views: seq<map<Token, AccountId>>, id: AccountId) {
    forall v | v in views :: HeldAlike(own, accounts, v, id)
  }

  lemma AlikeInTurn(own: Token -> AccountId, accounts: map<Token, AccountId>, views: seq<map<Token, AccountId>>, i: nat, id: AccountId)
    requires AllAlike(own, accounts, views, id) && i < |views|
    ensures HeldAlike(own, if i == 0 then accounts else views[i - 1], views[i], id)
  {
    assert HeldAlike(own, accounts, views[i], id);
    if i > 0 {
      assert HeldAlike(own, accounts, views[i - 1], id);
    }
  }

  lemma {:induction false} HeldUnderNewToken(own: Token -> AccountId, accounts: map<Token, AccountId>, lineage: set<Token>,
                                             views: seq<map<Token, AccountId>>, n: Token)
    requires ViewsFollow(own, accounts, lineage, views) && GoodAccounts(own, accounts) && n in accounts
    requires forall v | v in views :: n in v
    ensures n in Shown(accounts, views) && AllAlike(own, accounts, views, own(n))
    decreases |views|
  {
    if views != [] {
      assert n in views[0];
      HeldUnderNewToken(own, views[0], lineage + views[0].Keys, views[1..], n);
      assert views == [views[0]] + views[1..];
    }
  }

  lemma SteadyItself(own: Token -> AccountId, s: Runtime, id: AccountId)
    ensures Steady(own, s, s, id)
  {
  }

  lemma ViewedIsSteady(own: Token -> AccountId, s: Runtime, loaded: map<Token, AccountId>, id: AccountId)
    ensures Steady(own, s, Viewed(s, loaded), id)
  {
  }

  lemma NothingRevived(own: Token -> AccountId, g: Graph, loaded: map<Token, AccountId>, transit: set<Token>, left: set<Token>)
    requires NoRevival(own, g, loaded) && left <= transit + Displaced(own, g, loaded)
    requires forall x | x in left :: x in transit || Revives(own, g, x)
    ensures left <= transit
  {
    hide Displaced, NoRevival, Revives;
    forall x | x in left ensures x in transit {
      if x !in transit {
        NotRevived(own, g, loaded, x);
      }
    }
  }

  lemma SettledCounted(own: Token -> AccountId, s: Runtime, limit: nat)
    requires Inv(own, s, {}, limit)
    ensures Counted(own, s)
  {
    hide GraphInv, OwnedLeases, CountedAt;
    forall t | t in s.graph.accounts ensures CountedAt(own, s, t) {
      assert Placed(own, s, {}, limit, t);
      SettledIsCounted(own, s, {}, limit, t);
    }
  }

  lemma UnrotatedRecovers(own: Token -> AccountId, s: Runtime, token: Token, reload: map<Token, AccountId>)
    ensures RotationRecovers(own, s, token, token, reload)
  {
  }

  lemma InvOwner(own: Token -> AccountId, s: Runtime, transit: set<Token>, limit: nat, t: Token)
    requires Inv(own, s, transit, limit) && t in s.graph.accounts
    ensures s.graph.accounts[t] == own(t)
  {
  }

  lemma OnlyThisReturns(own: Token -> AccountId, s: Runtime, reload: map<Token, AccountId>, left: set<Token>, id: AccountId)
    requires ReturnsOnly(own, s.graph.accounts, s.graph.lineage, reload, id)
    requires left <= {} + Displaced(own, s.graph, reload) && forall x | x in left :: Revives(own, s.graph, x)
    ensures forall x | x in left :: own(x) == id
  {
  }

  lemma DeletedIsWelcome(own: Token -> AccountId, first: Runtime, s: Runtime, limit: nat, token: Token, reload: map<Token, AccountId>)
    requires Inv(own, first, {}, limit) && token in first.graph.accounts
    requires Steady(own, first, s, own(token)) && s.leases == first.leases && token in s.graph.lineage
    requires ReturnsOnly(own, s.graph.accounts, s.graph.lineage, reload, own(token))
    ensures GoodAccounts(own, reload) && Welcome(own, s, limit, reload)
  {
    assert Placed(own, first, {}, limit, token);
    hide Inv, Placed, Steady;
    forall t | t in reload && Revives(own, s.graph, t) ensures Placed(own, s, s.graph.lineage, limit, t) {
      assert own(t) == own(token);
      SlotsStayPlaced(own, first, s, limit, token, t);
    }
  }

  lemma SlotsStayPlaced(own: Token -> AccountId, first: Runtime, s: Runtime, limit: nat, token: Token, t: Token)
    requires Placed(own, first, {}, limit, token) && own(t) == own(token)
    requires Steady(own, first, s, own(token)) && s.leases == first.leases && token in s.graph.lineage
    ensures Placed(own, s, s.graph.lineage, limit, t)
  {
    hide OwnedLeases;
    forall k | own(k) == own(token) ensures Lookup(s.inflight, k) == Lookup(first.inflight, k) {
      assert SameAt(first, s, k);
    }
    forall k | own(k) == own(token) ensures k in s.inflight <==> k in first.inflight {
      assert Lookup(s.inflight, k) == Lookup(first.inflight, k);
    }
  }

  lemma NothingMoved(own: Token -> AccountId)
    ensures MovedOnce(own, [])
  {
  }

  lemma NoMoves(own: Token -> AccountId, s: Runtime)
    ensures MovesDone(own, s, [], s)
  {
  }

  lemma NotRevived(own: Token -> AccountId, g: Graph, loaded: map<Token, AccountId>, x: Token)
    requires NoRevival(own, g, loaded) && x in Displaced(own, g, loaded)
    ensures !Revives(own, g, x)
  {
  }

  lemma DeletionIsAView(own: Token -> AccountId, s: Runtime, limit: nat, token: Token)
    requires Inv(own, s, {}, limit) && token in s.graph.accounts
    ensures var rest := s.graph.accounts - {token};
      && GoodAccounts(own, rest) && NoRevival(own, s.graph, rest)
      && {} + Displaced(own, s.graph, rest) == {}
      && token in s.graph.lineage && Lacks(own, rest, own(token))
  {
    hide ResolveIn, Placed;
  }

  // The views that follow bring no account back that was gone before them.
  lemma {:induction false} DeletedStaysDeleted(own: Token -> AccountId, accounts: map<Token, AccountId>, lineage: set<Token>,
                                               views: seq<map<Token, AccountId>>, x: Token)
    requires ViewsFollow(own, accounts, lineage, views) && x in lineage && Lacks(own, accounts, own(x))
    ensures Lacks(own, Shown(accounts, views), own(x)) && AllAlike(own, accounts, views, own(x)) && x in Seen(lineage, views)
    decreases |views|
  {
    if views != [] {
      DeletedStaysDeleted(own, views[0], lineage + views[0].Keys, views[1..], x);
      assert views == [views[0]] + views[1..];
    }
  }

  /** One account, live under a, with one slot handed out. */
  ghost function OneSlot(id: AccountId, a: Token, now: real): Runtime {
    Runtime(Graph(map[a := id], map[], {a}), map[a := 1], map[a := [now]], now, [a])
  }

  /** The input on which a raised save loses a slot: a was rotated to b or deleted, and the reload brings the account under
      any token but a, be it b itself or a third one. */
  lemma RaisedSaveOrphansSlot(own: Token -> AccountId, id: AccountId, a: Token, b: Token, t: Token, now: real)
    requires own(a) == own(b) == own(t) == id && a != b && a != t
    ensures Inv(own, OneSlot(id, a, now), {}, 1)
    ensures !RotationRecovers(own, OneSlot(id, a, now), a, b, map[t := id])
    ensures !DeletionRecovers(own, OneSlot(id, a, now), a, map[t := id])
  {
    var s := OneSlot(id, a, now);
    OneLease(own, a, id);
    hide OwnedLeases, AliasSources;
    assert GraphInv(own, s.graph, {});
    assert Placed(own, s, {}, 1, a);
    assert t in map[t := id];
    NotASource(Graph(Rotated(own, s.graph.accounts, a, b), s.graph.aliases, {}), a, b);
  }

  lemma NotASource(g: Graph, x: Token, n: Token)
    requires x != n && x !in g.aliases
    ensures x !in AliasSources(g, n)
  {
  }

  /** Right after a compaction no live token is aliased; then only the account's absence, its old token or the lack of
      slots helps. */
  lemma CompactedRecovers(own: Token -> AccountId, s: Runtime, o: Token, n: Token, reload: map<Token, AccountId>)
    requires s.graph.aliases == Pruned(s.graph.accounts.Keys, s.graph.aliases) && o in s.graph.accounts && n != o
    ensures RotationRecovers(own, s, o, n, reload) <==>
            OwnedLeases(own, s.leases, own(o)) == 0 || Lacks(own, reload, own(o)) || o in reload
  {
    hide OwnedLeases, AliasSources, Lacks;
    assert o !in s.graph.aliases;
    NotASource(Graph(Rotated(own, s.graph.accounts, o, n), s.graph.aliases, {}), o, n);
  }

  predicate OwnedBy(own: Token -> AccountId, tokens: set<Token>, id: AccountId) {
    forall x | x in tokens :: own(x) == id
  }

  lemma PassiveSourcesMoved(own: Token -> AccountId, g: Graph, transit: set<Token>, loaded: map<Token, AccountId>, x: Token,
                            rotations: seq<(Token, set<Token>)>)
    requires GraphInv(own, g, transit) && GoodAccounts(own, loaded)
    requires x in Displaced(own, g, loaded) && x !in transit && !Revives(own, g, x)
    requires forall u, t | Rotates(own, g, loaded, u, t) :: (t, AliasSources(g, u)) in rotations
    ensures exists r :: r in rotations && x in r.1
  {
    hide GraphInv, Displaced, AliasSources, Revives;
    PassiveSourcesCover(own, g, transit, loaded, x);
    var u, t :| u in g.accounts && u !in loaded && t in loaded && own(u) == own(t) && x in AliasSources(g, u);
    assert Rotates(own, g, loaded, u, t);
    assert (t, AliasSources(g, u)) in rotations;
  }

  lemma RotationOwned(own: Token -> AccountId, g: Graph, transit: set<Token>, loaded: map<Token, AccountId>, r: (Token, set<Token>))
    requires GraphInv(own, g, transit) && IsRotation(own, g, loaded, r)
    ensures r.0 in loaded && OwnedBy(own, r.1, own(r.0))
  {
    var u :| Rotates(own, g, loaded, u, r.0) && r.1 == AliasSources(g, u);
    SourcesOwned(own, g, u);
  }

  lemma AccountOwner(own: Token -> AccountId, accounts: map<Token, AccountId>, t: Token)
    requires GoodAccounts(own, accounts) && t in accounts
    ensures accounts[t] == own(t)
  {
  }

  lemma RotationIsAView(own: Token -> AccountId, g: Graph, oldToken: Token, newToken: Token)
    requires GraphInv(own, g, {}) && oldToken in g.accounts && own(newToken) == own(oldToken)
    requires newToken != oldToken ==> newToken !in g.accounts
    ensures var rotated := Rotated(own, g.accounts, oldToken, newToken);
      GoodAccounts(own, rotated) && NoRevival(own, g, rotated)
  {
    hide ResolveIn;
  }

  // Rotating a token displaces only tokens that lead to it.
  lemma RotationDisplaces(own: Token -> AccountId, g: Graph, oldToken: Token, newToken: Token)
    requires GraphInv(own, g, {}) && oldToken in g.accounts && own(newToken) == own(oldToken)
    ensures Displaced(own, g, Rotated(own, g.accounts, oldToken, newToken)) <= AliasSources(g, oldToken)
  {
    SourcesCover(own, g, {}, oldToken);
    hide ResolveIn, AliasSources;
  }

  lemma NothingDisplaced(own: Token -> AccountId, g: Graph, oldToken: Token)
    requires GraphInv(own, g, {}) && oldToken in g.accounts
    ensures Displaced(own, g, Rotated(own, g.accounts, oldToken, oldToken)) == {}
  {
    hide ResolveIn;
  }

  lemma FinalToken(own: Token -> AccountId, s: Runtime, transit: set<Token>, limit: nat, t: Token, id: AccountId)
    requires Inv(own, s, transit, limit) && t in s.graph.accounts && s.graph.accounts[t] == id
    ensures own(t) == id
    ensures forall u | u in s.graph.accounts && own(u) == id :: u == t
  {
    hide ResolveIn, Placed;
  }

  lemma OwnerGone(own: Token -> AccountId, s: Runtime, transit: set<Token>, limit: nat, tokens: set<Token>, id: AccountId)
    requires Inv(own, s, transit, limit) && forall t | t in s.graph.accounts :: s.graph.accounts[t] != id
    requires forall x | x in tokens :: own(x) == id
    ensures OwnersGone(own, s.graph, tokens)
    ensures forall t | t in s.graph.accounts :: own(t) != id
  {
    hide ResolveIn, Placed;
  }

  lemma OwnSource(g: Graph, t: Token)
    requires t in g.accounts
    ensures t in AliasSources(g, t)
  {
  }

  lemma SourcesIgnoreLineage(g: Graph, h: Graph, t: Token)
    requires g.accounts == h.accounts && g.aliases == h.aliases
    ensures AliasSources(g, t) == AliasSources(h, t)
  {
  }
}
