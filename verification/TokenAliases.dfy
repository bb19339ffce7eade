/** Aliases from former access tokens to current ones (services/account_service.py:751-762, 1265-1271, 1443-1450). */
module TokenAliases {
  import opened Accounts

  type Aliases = map<Token, Token>

  /** Follow aliases until a live token, a token without alias, or a token already visited. */
  function ResolveFrom(live: set<Token>, aliases: Aliases, token: Token, seen: set<Token>): Token
    decreases aliases.Keys - seen
  {
    if token !in live && token in aliases && token !in seen then
      ResolveFrom(live, aliases, aliases[token], seen + {token})
    else
      token
  }

  function Resolve(live: set<Token>, aliases: Aliases, token: Token): Token {
    ResolveFrom(live, aliases, token, {})
  }

  method ResolveAccessToken(live: set<Token>, aliases: Aliases, accessToken: Token) returns (token: Token)
    ensures token == Resolve(live, aliases, accessToken)
  {
    token := accessToken;
    var seen: set<Token> := {};
    while token !in live && token in aliases && token !in seen
      invariant ResolveFrom(live, aliases, token, seen) == Resolve(live, aliases, accessToken)
      decreases aliases.Keys - seen
    {
      seen := seen + {token};
      token := aliases[token];
    }
  }

  // ---------------------------------------------------------------- compaction

  function Pruned(live: set<Token>, aliases: Aliases): Aliases {
    map s | s in aliases && Resolve(live, aliases, s) in live && Resolve(live, aliases, s) != s ::
      Resolve(live, aliases, s)
  }

  method PruneTokenAliases(live: set<Token>, aliases: Aliases) returns (compacted: Aliases)
    ensures compacted == Pruned(live, aliases)
  {
    compacted := map[];
    var todo := aliases.Keys;
    while todo != {}
      invariant todo <= aliases.Keys
      invariant compacted == map s | s in Pruned(live, aliases) && s !in todo :: Pruned(live, aliases)[s]
      decreases |todo|
    {
      var source :| source in todo;
      todo := todo - {source};
      var token := ResolveAccessToken(live, aliases, source);
      if token in live && token != source {
        compacted := compacted[source := token];
      }
    }
  }

  /** Compaction keeps the meaning of the alias table, for any graph, cycles included: whatever resolved to a live
      account still does, the rest resolves to itself, and every alias kept is one hop to a live account. */
  lemma PruningPreservesMeaning(live: set<Token>, aliases: Aliases, x: Token)
    ensures var before := Resolve(live, aliases, x);
      Resolve(live, Pruned(live, aliases), x) == if before in live then before else x
    ensures forall s | s in Pruned(live, aliases) :: Pruned(live, aliases)[s] in live
  {
    var p := Pruned(live, aliases);
    if x in p && x !in live {
      assert {} + {x} == {x};
      assert ResolveFrom(live, p, p[x], {x}) == p[x];
    }
  }

  // ---------------------------------------------------------------- resolution under change

  predicate SameOwnerAliases(own: Token -> AccountId, aliases: Aliases) {
    forall s | s in aliases :: own(aliases[s]) == own(s)
  }

  lemma {:induction false} ResolveKeepsOwner(own: Token -> AccountId, live: set<Token>, aliases: Aliases, x: Token, seen: set<Token>)
    requires SameOwnerAliases(own, aliases)
    ensures own(ResolveFrom(live, aliases, x, seen)) == own(x)
    decreases aliases.Keys - seen
  {
    if x !in live && x in aliases && x !in seen {
      ResolveKeepsOwner(own, live, aliases, aliases[x], seen + {x});
    }
  }

  // Resolution of an account's tokens looks only at that account's tokens.
  lemma {:induction false} ResolveAgrees(own: Token -> AccountId, live: set<Token>, aliases: Aliases, live': set<Token>, aliases': Aliases,
                      x: Token, seen: set<Token>)
    requires SameOwnerAliases(own, aliases)
    requires forall y | own(y) == own(x) :: (y in live <==> y in live')
    requires forall y | own(y) == own(x) :: Lookup(aliases, y) == Lookup(aliases', y)
    ensures ResolveFrom(live, aliases, x, seen) == ResolveFrom(live', aliases', x, seen)
    decreases aliases.Keys - seen
  {
    assert Lookup(aliases, x) == Lookup(aliases', x);
    if x !in live && x in aliases && x !in seen {
      ResolveAgrees(own, live, aliases, live', aliases', aliases[x], seen + {x});
    }
  }

  // Redirecting dead tokens straight to a live one keeps every resolution that already ended there.
  lemma {:induction false} RedirectKeeps(live: set<Token>, aliases: Aliases, aliases': Aliases, target: Token, x: Token, seen: set<Token>)
    requires target in live && ResolveFrom(live, aliases, x, seen) == target
    requires forall y :: Lookup(aliases', y) == Lookup(aliases, y) || Lookup(aliases', y) == Some(target)
    ensures ResolveFrom(live, aliases', x, seen) == target
    decreases aliases.Keys - seen
  {
    assert Lookup(aliases', x) == Lookup(aliases, x) || Lookup(aliases', x) == Some(target);
    if x !in live {
      assert x in aliases && x !in seen;
      if aliases'[x] != target {
        RedirectKeeps(live, aliases, aliases', target, aliases[x], seen + {x});
      } else {
        assert ResolveFrom(live, aliases', target, seen + {x}) == target;
      }
    }
  }

  // ---------------------------------------------------------------- the alias graph of one process

  /** accounts names the account behind each live token; lineage remembers every token that ever was live. */
  datatype Graph = Graph(accounts: map<Token, AccountId>, aliases: Aliases, lineage: set<Token>)

  function ResolveIn(g: Graph, x: Token): Token {
    Resolve(g.accounts.Keys, g.aliases, x)
  }

  predicate GoodAccounts(own: Token -> AccountId, accounts: map<Token, AccountId>) {
    && (forall t | t in accounts :: own(t) == accounts[t])
    && (forall t, u | t in accounts && u in accounts && own(t) == own(u) :: t == u)
  }

  // Aliases stay within an account, and a token that ever was live leads to its account's live token
  // unless it is still waiting for a move.
  ghost predicate GraphInv(own: Token -> AccountId, g: Graph, transit: set<Token>) {
    && SameOwnerAliases(own, g.aliases)
    && GoodAccounts(own, g.accounts)
    && g.accounts.Keys <= g.lineage
    && (forall x, t | x in g.lineage && t in g.accounts && own(x) == own(t) && x !in transit :: ResolveIn(g, x) == t)
  }

  function MovedAliases(aliases: Aliases, target: Token, sources: set<Token>): Aliases {
    aliases + map s | s in sources && s != target :: target
  }

  function Redirected(g: Graph, target: Token, sources: set<Token>): Graph {
    g.(aliases := MovedAliases(g.aliases, target, sources))
  }

  lemma RedirectInv(own: Token -> AccountId, g: Graph, transit: set<Token>, target: Token, sources: set<Token>)
    requires GraphInv(own, g, transit) && target in g.accounts
    requires forall s | s in sources :: own(s) == own(target)
    ensures GraphInv(own, Redirected(g, target, sources), transit - sources)
  {
    hide ResolveIn;
    var g' := Redirected(g, target, sources);
    forall x, t | x in g.lineage && t in g.accounts && own(x) == own(t) && x !in transit - sources
      ensures ResolveIn(g', x) == t
    {
      RedirectedAt(own, g, transit, target, sources, x, t);
    }
  }

  lemma RedirectedAt(own: Token -> AccountId, g: Graph, transit: set<Token>, target: Token, sources: set<Token>, x: Token, t: Token)
    requires GraphInv(own, g, transit) && target in g.accounts
    requires forall s | s in sources :: own(s) == own(target)
    requires x in g.lineage && t in g.accounts && own(x) == own(t) && x !in transit - sources
    ensures ResolveIn(Redirected(g, target, sources), x) == t
  {
    var g' := Redirected(g, target, sources);
    var live := g.accounts.Keys;
    if own(t) != own(target) {
      assert ResolveIn(g, x) == t;
      hide GraphInv;
      assert SameOwnerAliases(own, g.aliases) by { GraphOwners(own, g, transit); }
      ResolveAgrees(own, live, g.aliases, live, g'.aliases, x, {});
    } else if x in sources && x != target {
      assert x !in live && {} + {x} == {x};
      assert ResolveFrom(live, g'.aliases, target, {x}) == target;
    } else if x !in transit {
      assert ResolveIn(g, x) == target;
      hide GraphInv;
      RedirectKeeps(live, g.aliases, g'.aliases, target, x, {});
    }
  }

  lemma GraphOwners(own: Token -> AccountId, g: Graph, transit: set<Token>)
    requires GraphInv(own, g, transit)
    ensures SameOwnerAliases(own, g.aliases)
  {
  }

  function Compacted(g: Graph): Graph {
    g.(aliases := Pruned(g.accounts.Keys, g.aliases))
  }

  lemma CompactInv(own: Token -> AccountId, g: Graph, transit: set<Token>)
    requires GraphInv(own, g, transit)
    ensures GraphInv(own, Compacted(g), transit)
  {
    var live := g.accounts.Keys;
    forall s | s in Pruned(live, g.aliases) ensures own(Pruned(live, g.aliases)[s]) == own(s) {
      ResolveKeepsOwner(own, live, g.aliases, s, {});
    }
    forall x, t | x in g.lineage && t in g.accounts && own(x) == own(t) && x !in transit
      ensures ResolveIn(Compacted(g), x) == t
    {
      PruningPreservesMeaning(live, g.aliases, x);
    }
  }

  /** The tokens of the alias table, and the token itself, that currently lead to it. */
  function AliasSources(g: Graph, token: Token): set<Token> {
    set s | s in g.aliases.Keys + {token} && ResolveIn(g, s) == token
  }

  /** An account that enters the view was never there before, or is still there: deleted ones do not return. */
  predicate NoRevival(own: Token -> AccountId, g: Graph, loaded: map<Token, AccountId>) {
    forall t, x | t in loaded && x in g.lineage && own(x) == own(t) ::
      exists u :: u in g.accounts && own(u) == own(t)
  }

  function Replaced(g: Graph, loaded: map<Token, AccountId>): Graph {
    Graph(loaded, g.aliases, g.lineage + loaded.Keys)
  }

  // The tokens of an account that a new view leaves without a way to its token: the view holds it under one that was not live.
  ghost function Displaced(own: Token -> AccountId, g: Graph, loaded: map<Token, AccountId>): set<Token> {
    set x | x in g.lineage && x !in loaded && exists t :: t in loaded && own(t) == own(x) && t !in g.accounts
  }

  lemma UndisplacedResolves(own: Token -> AccountId, g: Graph, transit: set<Token>, loaded: map<Token, AccountId>, x: Token, t: Token)
    requires GraphInv(own, g, transit) && GoodAccounts(own, loaded)
    requires x in g.lineage && t in loaded && own(x) == own(t) && x != t
    requires x !in transit && x !in Displaced(own, g, loaded)
    ensures ResolveIn(Replaced(g, loaded), x) == t
  {
    assert x !in loaded;
    assert t in g.accounts;
    assert ResolveIn(g, x) == t;
    hide GraphInv, Displaced;
    ResolveAgrees(own, g.accounts.Keys, g.aliases, loaded.Keys, g.aliases, x, {});
  }

  lemma ReplaceInv(own: Token -> AccountId, g: Graph, transit: set<Token>, loaded: map<Token, AccountId>)
    requires GraphInv(own, g, transit) && GoodAccounts(own, loaded)
    ensures GraphInv(own, Replaced(g, loaded), transit + Displaced(own, g, loaded))
  {
    hide Displaced;
    var g' := Replaced(g, loaded);
    forall x, t | x in g'.lineage && t in loaded && own(x) == own(t) && x !in transit + Displaced(own, g, loaded)
      ensures ResolveIn(g', x) == t
    {
      if x != t {
        UndisplacedResolves(own, g, transit, loaded, x, t);
      }
    }
  }

  lemma SourcesOwned(own: Token -> AccountId, g: Graph, token: Token)
    requires SameOwnerAliases(own, g.aliases)
    ensures forall s | s in AliasSources(g, token) :: own(s) == own(token)
  {
    forall s | s in AliasSources(g, token) ensures own(s) == own(token) {
      ResolveKeepsOwner(own, g.accounts.Keys, g.aliases, s, {});
    }
  }

  // Every settled token of the account behind a live token is among that token's sources.
  lemma SourcesCover(own: Token -> AccountId, g: Graph, transit: set<Token>, token: Token)
    requires GraphInv(own, g, transit) && token in g.accounts
    ensures forall x | x in g.lineage && own(x) == own(token) && x !in transit :: x in AliasSources(g, token)
  {
    forall x | x in g.lineage && own(x) == own(token) && x !in transit ensures x in AliasSources(g, token) {
      assert ResolveIn(g, x) == token;
    }
  }
}
