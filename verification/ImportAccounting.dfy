/** One status per imported row, and counts that add up (services/account_service.py:2898-2923, 2992-3116). */
module ImportAccounting {
  import opened Accounts
  import opened TokenAliases
  import opened ImportFailures

  type Fingerprint = string

  /** What importing depends on: the pool before it, the fingerprint of a token, and the former fingerprints that the row
      or the account of a token brings along. A row with a token always makes an account. */
  datatype Pool = Pool(live: set<Token>, aliases: Aliases, prints: set<Fingerprint>,
                       fingerprint: Token -> Fingerprint, history: Token -> set<Fingerprint>)

  /** The fingerprints recorded for an account once its row is stored. */
  function Lineage(pool: Pool, t: Token): set<Fingerprint> {
    {pool.fingerprint(t)} + pool.history(t)
  }

  /** Decisions made so far, and the live tokens and known fingerprints after them. */
  datatype Decisions = Decisions(outcomes: map<Token, Status>, live: set<Token>, prints: set<Fingerprint>)

  /** A rotated token of a live account, a live token, and a known fingerprint are updates; everything else is new. */
  function Outcome(pool: Pool, live: set<Token>, prints: set<Fingerprint>, t: Token): Status {
    var resolved := Resolve(live, pool.aliases, t);
    if resolved != t && resolved in live then Skipped
    else if t in live then Skipped
    else if pool.fingerprint(t) in prints then Skipped
    else Added
  }

  function Decided(pool: Pool, tokens: seq<Token>): Decisions {
    if tokens == [] then Decisions(map[], pool.live, pool.prints)
    else
      var d, t := Decided(pool, tokens[..|tokens| - 1]), tokens[|tokens| - 1];
      var outcome := Outcome(pool, d.live, d.prints, t);
      var stored := outcome == Added || t in d.live;
      Decisions(d.outcomes[t := outcome], if stored then d.live + {t} else d.live,
                if stored then d.prints + Lineage(pool, t) else d.prints)
  }

  predicate Distinct(tokens: seq<Token>) {
    forall i, j | 0 <= i < j < |tokens| :: tokens[i] != tokens[j]
  }

  function Elements(tokens: seq<Token>): set<Token> {
    set t | t in tokens
  }

  // ---------------------------------------------------------------- the decisions

  lemma {:induction false} DecidedAll(pool: Pool, tokens: seq<Token>)
    ensures Decided(pool, tokens).outcomes.Keys == Elements(tokens)
    ensures var outcomes := Decided(pool, tokens).outcomes; forall t | t in outcomes :: outcomes[t] != Invalid
    ensures pool.live <= Decided(pool, tokens).live && pool.prints <= Decided(pool, tokens).prints
    ensures Decided(pool, tokens).live <= pool.live + Elements(tokens)
  {
    if tokens != [] {
      var first := tokens[..|tokens| - 1];
      DecidedAll(pool, first);
      assert forall t :: t in tokens <==> t in first || t == tokens[|tokens| - 1];
    }
  }

  // Fewer steps lead from a token to a live one when more tokens are live.
  lemma {:induction false} ResolvesSooner(live: set<Token>, more: set<Token>, aliases: Aliases, x: Token, seen: set<Token>)
    requires live <= more && ResolveFrom(live, aliases, x, seen) in live
    ensures ResolveFrom(more, aliases, x, seen) in more
    decreases aliases.Keys - seen
  {
    if x !in more && x in aliases && x !in seen {
      ResolvesSooner(live, more, aliases, aliases[x], seen + {x});
    }
  }

  /** Importing a token again after it was rotated never recreates its former account, in whatever company it comes;
      nor does a token that is live or whose fingerprint is known count as new. */
  lemma {:induction false} KnownTokensAreSkipped(pool: Pool, tokens: seq<Token>, t: Token)
    requires Distinct(tokens) && t in tokens
    requires Resolve(pool.live, pool.aliases, t) in pool.live || pool.fingerprint(t) in pool.prints
    ensures Lookup(Decided(pool, tokens).outcomes, t) == Some(Skipped)
    decreases |tokens|
  {
    hide Resolve, Outcome;
    var first, last := tokens[..|tokens| - 1], tokens[|tokens| - 1];
    if t == last {
      DecidedAll(pool, first);
      KnownOutcome(pool, Decided(pool, first).live, Decided(pool, first).prints, t);
    } else {
      assert t in first;
      KnownTokensAreSkipped(pool, first, t);
    }
  }

  lemma KnownOutcome(pool: Pool, live: set<Token>, prints: set<Fingerprint>, t: Token)
    requires pool.live <= live && pool.prints <= prints
    requires Resolve(pool.live, pool.aliases, t) in pool.live || pool.fingerprint(t) in pool.prints
    ensures Outcome(pool, live, prints, t) == Skipped
  {
    if Resolve(pool.live, pool.aliases, t) in pool.live {
      ResolvesSooner(pool.live, live, pool.aliases, t, {});
    }
  }

  /** The row is stored: as a new account, or over the live one. */
  predicate Stored(pool: Pool, tokens: seq<Token>, i: nat)
    requires i < |tokens|
  {
    tokens[i] in pool.live || Lookup(Decided(pool, tokens).outcomes, tokens[i]) == Some(Added)
  }

  // Later rows do not change how a row was decided.
  lemma StoredBefore(pool: Pool, tokens: seq<Token>, i: nat)
    requires Distinct(tokens) && i < |tokens| - 1
    ensures Stored(pool, tokens, i) <==> Stored(pool, tokens[..|tokens| - 1], i)
  {
    assert tokens[|tokens| - 1] != tokens[i];
  }

  lemma {:induction false} LiveGrows(pool: Pool, tokens: seq<Token>, t: Token)
    requires t !in tokens
    ensures t in Decided(pool, tokens).live <==> t in pool.live
  {
    hide Outcome, Lineage;
    if tokens != [] {
      LiveGrows(pool, tokens[..|tokens| - 1], t);
    }
  }

  /** The live tokens after some rows are those of the pool and of the new rows. */
  lemma {:induction false} LiveAfter(pool: Pool, tokens: seq<Token>)
    requires Distinct(tokens)
    ensures var added := AddedIn(Decided(pool, tokens).outcomes);
      Decided(pool, tokens).live == pool.live + added && pool.live !! added
    decreases |tokens|
  {
    hide Resolve, Lineage;
    if tokens != [] {
      var n := |tokens| - 1;
      DistinctPrefix(tokens);
      LiveAfter(pool, tokens[..n]);
      LiveGrows(pool, tokens[..n], tokens[n]);
      NotYetDecided(pool, tokens, n);
      var d := Decided(pool, tokens[..n]);
      OutcomeAdded(d.outcomes, tokens[n], Outcome(pool, d.live, d.prints, tokens[n]));
    }
  }

  lemma LastStored(pool: Pool, tokens: seq<Token>)
    requires Distinct(tokens) && tokens != []
    ensures var n := |tokens| - 1; var d := Decided(pool, tokens[..n]);
      Stored(pool, tokens, n) <==> Outcome(pool, d.live, d.prints, tokens[n]) == Added || tokens[n] in d.live
  {
    hide Outcome;
    LiveGrows(pool, tokens[..|tokens| - 1], tokens[|tokens| - 1]);
  }

  /** The fingerprints known after some rows are those of the pool and the lineages of the rows that were stored. */
  lemma {:induction false} KnownPrints(pool: Pool, tokens: seq<Token>, mark: Fingerprint)
    requires Distinct(tokens)
    ensures mark in Decided(pool, tokens).prints <==>
            mark in pool.prints || exists i :: 0 <= i < |tokens| && Stored(pool, tokens, i) && mark in Lineage(pool, tokens[i])
    decreases |tokens|
  {
    hide Outcome, Lineage, Stored, Distinct;
    if tokens != [] {
      var n := |tokens| - 1;
      var first := tokens[..n];
      assert Distinct(first) by { DistinctPrefix(tokens); }
      KnownPrints(pool, first, mark);
      LastStored(pool, tokens);
      forall i | 0 <= i < n ensures Stored(pool, tokens, i) <==> Stored(pool, first, i) {
        StoredBefore(pool, tokens, i);
      }
      if i :| 0 <= i < n && Stored(pool, first, i) && mark in Lineage(pool, first[i]) {
        assert Stored(pool, tokens, i) && mark in Lineage(pool, tokens[i]);
      }
      if i :| 0 <= i < n && Stored(pool, tokens, i) && mark in Lineage(pool, tokens[i]) {
        assert Stored(pool, first, i) && mark in Lineage(pool, first[i]);
      }
    }
  }

  lemma DistinctPrefix(tokens: seq<Token>)
    requires Distinct(tokens) && tokens != []
    ensures Distinct(tokens[..|tokens| - 1])
  {
  }

  /** The last row is new exactly if its token leads to no live account, its fingerprint was not known, and no row stored
      before it has the fingerprint in its lineage. The row's own history plays no part: of two rows of one account, one
      under a former token, both are new if the former token comes first. */
  lemma NewRowIff(pool: Pool, tokens: seq<Token>)
    requires Distinct(tokens) && tokens != []
    ensures var n := |tokens| - 1; var t := tokens[n]; var live := pool.live + AddedIn(Decided(pool, tokens[..n]).outcomes);
      Lookup(Decided(pool, tokens).outcomes, t) == Some(Added) <==>
      && t !in pool.live && (Resolve(live, pool.aliases, t) == t || Resolve(live, pool.aliases, t) !in live)
      && pool.fingerprint(t) !in pool.prints
      && forall i | 0 <= i < n && Stored(pool, tokens[..n], i) :: pool.fingerprint(t) !in Lineage(pool, tokens[i])
  {
    hide Resolve, Lineage, Stored;
    var n := |tokens| - 1;
    DistinctPrefix(tokens);
    LiveGrows(pool, tokens[..n], tokens[n]);
    LiveAfter(pool, tokens[..n]);
    KnownPrints(pool, tokens[..n], pool.fingerprint(tokens[n]));
    if i :| 0 <= i < n && Stored(pool, tokens[..n], i) && pool.fingerprint(tokens[n]) in Lineage(pool, tokens[..n][i]) {
      assert tokens[..n][i] == tokens[i];
    }
  }

  /** Once a row is stored, a later row whose token is the stored one under any fingerprint of its lineage, former ones
      included, is never new. */
  lemma {:induction false} OneNewPerFingerprint(pool: Pool, tokens: seq<Token>, i: nat, j: nat)
    requires Distinct(tokens) && i < j < |tokens|
    requires pool.fingerprint(tokens[j]) in Lineage(pool, tokens[i]) && Stored(pool, tokens, i)
    ensures Lookup(Decided(pool, tokens).outcomes, tokens[j]) == Some(Skipped)
    decreases |tokens|
  {
    hide Resolve, Lineage, Stored, Outcome;
    var n := |tokens| - 1;
    DistinctPrefix(tokens);
    StoredBefore(pool, tokens, i);
    if j == n {
      var d := Decided(pool, tokens[..n]);
      KnownPrints(pool, tokens[..n], pool.fingerprint(tokens[j]));
      assert Stored(pool, tokens[..n], i) && pool.fingerprint(tokens[j]) in Lineage(pool, tokens[..n][i]);
      KnownPrintSkips(pool, d.live, d.prints, tokens[j]);
    } else {
      OneNewPerFingerprint(pool, tokens[..n], i, j);
    }
  }

  /** The order matters: an unknown account whose row knows its former token is imported once if that row comes first, and
      twice if the former token's row does. */
  lemma FormerTokenFirst(pool: Pool, former: Token, current: Token)
    requires former != current && former !in pool.live && current !in pool.live && pool.aliases == map[]
    requires pool.fingerprint(former) !in pool.prints && pool.fingerprint(current) !in pool.prints
    requires pool.fingerprint(former) in pool.history(current) && pool.fingerprint(current) !in Lineage(pool, former)
    ensures Decided(pool, [current, former]).outcomes == map[current := Added, former := Skipped]
    ensures Decided(pool, [former, current]).outcomes == map[former := Added, current := Added]
  {
    FirstRow(pool, current);
    FirstRow(pool, former);
    assert [current, former][..1] == [current] && [former, current][..1] == [former];
  }

  lemma FirstRow(pool: Pool, t: Token)
    requires t !in pool.live && pool.aliases == map[] && pool.fingerprint(t) !in pool.prints
    ensures Decided(pool, [t]) == Decisions(map[t := Added], pool.live + {t}, pool.prints + Lineage(pool, t))
  {
    assert [t][..0] == [];
  }

  lemma KnownPrintSkips(pool: Pool, live: set<Token>, prints: set<Fingerprint>, t: Token)
    requires pool.fingerprint(t) in prints
    ensures Outcome(pool, live, prints, t) == Skipped
  {
    hide Resolve;
  }

  // ---------------------------------------------------------------- counting

  function AddedIn(outcomes: map<Token, Status>): set<Token> {
    set t | t in outcomes && outcomes[t] == Added
  }

  lemma OutcomeAdded(outcomes: map<Token, Status>, t: Token, status: Status)
    requires t !in outcomes
    ensures AddedIn(outcomes[t := status]) == AddedIn(outcomes) + if status == Added then {t} else {}
    ensures t !in AddedIn(outcomes)
  {
  }

  // An addition that the store already had turns into an update.
  function Adjusted(outcomes: map<Token, Status>, conflicts: set<Token>): map<Token, Status> {
    map t | t in outcomes :: if t in conflicts && outcomes[t] == Added then Skipped else outcomes[t]
  }

  predicate FirstAt(tokens: seq<Token>, i: nat)
    requires i < |tokens|
  {
    tokens[i] !in tokens[..i]
  }

  // The statuses of the rows that carry a token: a repeated token is skipped.
  function RowResults(tokens: seq<Token>, outcomes: map<Token, Status>): (results: seq<Status>)
    requires Elements(tokens) <= outcomes.Keys
    ensures |results| == |tokens|
  {
    seq(|tokens|, i requires 0 <= i < |tokens| => if FirstAt(tokens, i) then outcomes[tokens[i]] else Skipped)
  }

  lemma CountSnoc(statuses: seq<Status>, last: Status, status: Status)
    ensures CountOf(statuses + [last], status) == CountOf(statuses, status) + if last == status then 1 else 0
  {
    assert (statuses + [last])[..|statuses|] == statuses;
  }

  lemma RowsLast(tokens: seq<Token>, outcomes: map<Token, Status>)
    requires Elements(tokens) <= outcomes.Keys && tokens != []
    ensures var n := |tokens| - 1;
      && Elements(tokens) == Elements(tokens[..n]) + {tokens[n]}
      && RowResults(tokens, outcomes) ==
         RowResults(tokens[..n], outcomes) + [if tokens[n] in Elements(tokens[..n]) then Skipped else outcomes[tokens[n]]]
  {
    var n := |tokens| - 1;
    var first := tokens[..n];
    assert Elements(tokens) == Elements(first) + {tokens[n]};
    forall i | 0 <= i < n ensures RowResults(tokens, outcomes)[i] == RowResults(first, outcomes)[i] {
      assert tokens[..i] == first[..i];
    }
  }

  lemma OneToken(added: set<Token>, seen: set<Token>, t: Token)
    ensures |added * (seen + {t})| == |added * seen| + if t in added && t !in seen then 1 else 0
  {
    if t in added && t !in seen {
      assert added * (seen + {t}) == added * seen + {t};
    } else {
      assert added * (seen + {t}) == added * seen;
    }
  }

  lemma {:induction false} RowsCount(tokens: seq<Token>, outcomes: map<Token, Status>)
    requires Elements(tokens) <= outcomes.Keys && forall t | t in Elements(tokens) :: outcomes[t] != Invalid
    ensures CountOf(RowResults(tokens, outcomes), Added) == |AddedIn(outcomes) * Elements(tokens)|
    ensures CountOf(RowResults(tokens, outcomes), Added) + CountOf(RowResults(tokens, outcomes), Skipped) == |tokens|
    decreases |tokens|
  {
    if tokens == [] {
      assert AddedIn(outcomes) * Elements(tokens) == {};
    } else {
      hide Elements, RowResults, CountOf;
      var n := |tokens| - 1;
      RowsLast(tokens, outcomes);
      RowsCount(tokens[..n], outcomes);
      var last := if tokens[n] in Elements(tokens[..n]) then Skipped else outcomes[tokens[n]];
      CountSnoc(RowResults(tokens[..n], outcomes), last, Added);
      CountSnoc(RowResults(tokens[..n], outcomes), last, Skipped);
      OneToken(AddedIn(outcomes), Elements(tokens[..n]), tokens[n]);
    }
  }

  // Puts the rows' statuses back among the rows that carried no token.
  function Aligned(items: seq<Option<Token>>, results: seq<Status>): (aligned: seq<Status>)
    requires |results| == |TokensOf(items)|
    ensures |aligned| == |items|
    decreases |items|
  {
    if items == [] then []
    else if items[|items| - 1].None? then Aligned(items[..|items| - 1], results) + [Invalid]
    else Aligned(items[..|items| - 1], results[..|results| - 1]) + [results[|results| - 1]]
  }

  function TokensOf(items: seq<Option<Token>>): seq<Token> {
    if items == [] then []
    else TokensOf(items[..|items| - 1]) + if items[|items| - 1].Some? then [items[|items| - 1].value] else []
  }

  lemma {:induction false} AlignedCount(items: seq<Option<Token>>, results: seq<Status>, status: Status)
    requires |results| == |TokensOf(items)|
    ensures CountOf(Aligned(items, results), status) ==
            CountOf(results, status) + if status == Invalid then |items| - |TokensOf(items)| else 0
    decreases |items|
  {
    if items != [] {
      hide CountOf;
      var n := |items| - 1;
      if items[n].None? {
        AlignedCount(items[..n], results, status);
        CountSnoc(Aligned(items[..n], results), Invalid, status);
      } else {
        var m := |results| - 1;
        AlignedCount(items[..n], results[..m], status);
        CountSnoc(Aligned(items[..n], results[..m]), results[m], status);
        CountSnoc(results[..m], results[m], status);
        assert results[..m] + [results[m]] == results;
      }
    }
  }

  /** The statuses an import reports, row by row. */
  function ItemResults(pool: Pool, items: seq<Option<Token>>, conflicts: set<Token>): seq<Status> {
    var tokens := TokensOf(items);
    var outcomes := Adjusted(Decided(pool, Firsts(tokens)).outcomes, conflicts);
    FirstsCover(tokens);
    DecidedAll(pool, Firsts(tokens));
    Aligned(items, RowResults(tokens, outcomes))
  }

  function Firsts(tokens: seq<Token>): seq<Token> {
    if tokens == [] then []
    else
      var first, last := Firsts(tokens[..|tokens| - 1]), tokens[|tokens| - 1];
      if last in first then first else first + [last]
  }

  lemma {:induction false} FirstsCover(tokens: seq<Token>)
    ensures Distinct(Firsts(tokens)) && Elements(Firsts(tokens)) == Elements(tokens) && |Firsts(tokens)| <= |tokens|
  {
    if tokens != [] {
      var n := |tokens| - 1;
      FirstsCover(tokens[..n]);
      assert Elements(tokens) == Elements(tokens[..n]) + {tokens[n]};
      assert forall t :: t in Firsts(tokens[..n]) <==> t in Elements(Firsts(tokens[..n]));
    }
  }

  // ---------------------------------------------------------------- the import

  lemma DecidedMore(pool: Pool, tokens: seq<Token>, i: nat)
    requires i < |tokens|
    ensures var d, t := Decided(pool, tokens[..i]), tokens[i];
      var outcome := Outcome(pool, d.live, d.prints, t);
      var stored := outcome == Added || t in d.live;
      Decided(pool, tokens[..i + 1]) ==
        Decisions(d.outcomes[t := outcome], if stored then d.live + {t} else d.live,
                  if stored then d.prints + Lineage(pool, t) else d.prints)
  {
    assert tokens[..i + 1][..i] == tokens[..i];
  }

  lemma NotYetDecided(pool: Pool, tokens: seq<Token>, i: nat)
    requires Distinct(tokens) && i < |tokens|
    ensures tokens[i] !in Decided(pool, tokens[..i]).outcomes
  {
    DecidedAll(pool, tokens[..i]);
  }

  function DecidedOne(pool: Pool, d: Decisions, t: Token): Decisions {
    var outcome := Outcome(pool, d.live, d.prints, t);
    var stored := outcome == Added || t in d.live;
    Decisions(d.outcomes[t := outcome], if stored then d.live + {t} else d.live,
              if stored then d.prints + Lineage(pool, t) else d.prints)
  }

  method DecideOne(pool: Pool, d: Decisions, t: Token) returns (next: Decisions)
    ensures next == DecidedOne(pool, d, t)
  {
    hide Resolve;
    LiveIsItself(d.live, pool.aliases, t);
    var resolved := ResolveAccessToken(d.live, pool.aliases, t);
    if resolved != t && resolved in d.live {
      next := d.(outcomes := d.outcomes[t := Skipped]);
    } else if t in d.live || pool.fingerprint(t) !in d.prints {
      next := Decisions(d.outcomes[t := if t in d.live then Skipped else Added], d.live + {t}, d.prints + Lineage(pool, t));
    } else {
      next := d.(outcomes := d.outcomes[t := Skipped]);
    }
  }

  method DecideAll(pool: Pool, tokens: seq<Token>) returns (outcomes: map<Token, Status>, added: nat, skipped: nat)
    requires Distinct(tokens)
    ensures outcomes == Decided(pool, tokens).outcomes
    ensures added == |AddedIn(outcomes)| && added + skipped == |tokens|
  {
    added, skipped := 0, 0;
    var d := Decisions(map[], pool.live, pool.prints);
    assert AddedIn(d.outcomes) == {} && Decided(pool, tokens[..0]) == d;
    hide Decided, AddedIn, Distinct, Outcome;
    for i := 0 to |tokens|
      invariant d == Decided(pool, tokens[..i])
      invariant added == |AddedIn(d.outcomes)| && added + skipped == i
    {
      var t := tokens[i];
      DecidedMore(pool, tokens, i);
      NotYetDecided(pool, tokens, i);
      OutcomeAdded(d.outcomes, t, Outcome(pool, d.live, d.prints, t));
      d := DecideOne(pool, d, t);
      if d.outcomes[t] == Added {
        added := added + 1;
      } else {
        skipped := skipped + 1;
      }
    }
    assert tokens[..|tokens|] == tokens;
    outcomes := d.outcomes;
  }

  lemma LiveIsItself(live: set<Token>, aliases: Aliases, t: Token)
    ensures t in live ==> Resolve(live, aliases, t) == t
  {
  }

  // Additions that the store turned out to have become updates, one at a time.
  method AdjustForConflicts(outcomes: map<Token, Status>, added: nat, skipped: nat, conflicts: set<Token>)
    returns (adjusted: map<Token, Status>, nowAdded: nat, nowSkipped: nat)
    requires added == |AddedIn(outcomes)|
    ensures adjusted == Adjusted(outcomes, conflicts)
    ensures nowAdded == |AddedIn(adjusted)| && nowAdded + nowSkipped == added + skipped
  {
    adjusted, nowAdded, nowSkipped := outcomes, added, skipped;
    NoConflicts(outcomes);
    hide Adjusted, AddedIn;
    var todo := conflicts;
    ghost var done: set<Token> := {};
    while todo != {}
      invariant todo + done == conflicts && adjusted == Adjusted(outcomes, done)
      invariant nowAdded == |AddedIn(adjusted)| && nowAdded + nowSkipped == added + skipped
      decreases |todo|
    {
      var t :| t in todo;
      OneConflict(outcomes, done, t);
      todo, done := todo - {t}, done + {t};
      if t in adjusted && adjusted[t] == Added {
        adjusted := adjusted[t := Skipped];
        nowAdded := AsCount(nowAdded - 1);
        nowSkipped := nowSkipped + 1;
      }
    }
    assert done == conflicts;
  }

  lemma NoConflicts(outcomes: map<Token, Status>)
    ensures Adjusted(outcomes, {}) == outcomes
  {
  }

  lemma OneConflict(outcomes: map<Token, Status>, done: set<Token>, t: Token)
    ensures var before := Adjusted(outcomes, done);
      var after := Adjusted(outcomes, done + {t});
      if t in before && before[t] == Added then
        after == before[t := Skipped] && |AddedIn(after)| == |AddedIn(before)| - 1 && |AddedIn(before)| >= 1
      else after == before
  {
    var before := Adjusted(outcomes, done);
    var after := Adjusted(outcomes, done + {t});
    if t in before && before[t] == Added {
      assert AddedIn(after) == AddedIn(before) - {t};
      assert after == before[t := Skipped];
    } else {
      assert after == before;
    }
  }

  /** The whole import: one status per row; added, skipped and invalid add up to the rows; and the additions are exactly
      the first rows of the new tokens that the store did not turn out to have. */
  method AddAccountItems(pool: Pool, items: seq<Option<Token>>, conflicts: set<Token>)
    returns (added: nat, skipped: nat, results: seq<Status>)
    ensures results == ItemResults(pool, items, conflicts)
    ensures added == CountOf(results, Added) && skipped == CountOf(results, Skipped)
    ensures added + skipped + CountOf(results, Invalid) == |items| == |results|
  {
    hide Decided, Adjusted, CountOf, Aligned, RowResults, Firsts, AddedIn, Elements, Distinct;
    var tokens := InputTokens(items);
    var distinct := DistinctTokens(tokens);
    FirstsCover(tokens);
    DecidedAll(pool, distinct);
    var outcomes;
    outcomes, added, skipped := DecideAll(pool, distinct);
    outcomes, added, skipped := AdjustForConflicts(outcomes, added, skipped + |tokens| - |distinct|, conflicts);
    AdjustedKeys(Decided(pool, distinct).outcomes, conflicts);
    results := Aligned(items, RowResults(tokens, outcomes));
    RowsCount(tokens, outcomes);
    assert AddedIn(outcomes) * Elements(tokens) == AddedIn(outcomes) by { AddedKnown(outcomes); }
    AlignedCount(items, RowResults(tokens, outcomes), Added);
    AlignedCount(items, RowResults(tokens, outcomes), Skipped);
    AlignedCount(items, RowResults(tokens, outcomes), Invalid);
    RowsNeverInvalid(tokens, outcomes);
    TokensWithin(items);
  }

  lemma AdjustedKeys(outcomes: map<Token, Status>, conflicts: set<Token>)
    requires forall t | t in outcomes :: outcomes[t] != Invalid
    ensures Adjusted(outcomes, conflicts).Keys == outcomes.Keys
    ensures forall t | t in Adjusted(outcomes, conflicts) :: Adjusted(outcomes, conflicts)[t] != Invalid
  {
  }

  lemma AddedKnown(outcomes: map<Token, Status>)
    ensures AddedIn(outcomes) <= outcomes.Keys
  {
  }

  lemma {:induction false} RowsNeverInvalid(tokens: seq<Token>, outcomes: map<Token, Status>)
    requires Elements(tokens) <= outcomes.Keys && forall t | t in Elements(tokens) :: outcomes[t] != Invalid
    ensures CountOf(RowResults(tokens, outcomes), Invalid) == 0
    decreases |tokens|
  {
    if tokens != [] {
      hide Elements, RowResults, CountOf;
      var n := |tokens| - 1;
      RowsLast(tokens, outcomes);
      RowsNeverInvalid(tokens[..n], outcomes);
      CountSnoc(RowResults(tokens[..n], outcomes), if tokens[n] in Elements(tokens[..n]) then Skipped else outcomes[tokens[n]], Invalid);
    }
  }

  lemma {:induction false} TokensWithin(items: seq<Option<Token>>)
    ensures |TokensOf(items)| <= |items|
  {
    if items != [] {
      TokensWithin(items[..|items| - 1]);
    }
  }

  method InputTokens(items: seq<Option<Token>>) returns (tokens: seq<Token>)
    ensures tokens == TokensOf(items)
  {
    tokens := [];
    for i := 0 to |items|
      invariant tokens == TokensOf(items[..i])
    {
      assert items[..i + 1][..i] == items[..i];
      match items[i]
      case None =>
      case Some(t) => tokens := tokens + [t];
    }
    assert items[..|items|] == items;
  }

  method DistinctTokens(tokens: seq<Token>) returns (distinct: seq<Token>)
    ensures distinct == Firsts(tokens)
  {
    distinct := [];
    for i := 0 to |tokens|
      invariant distinct == Firsts(tokens[..i])
    {
      assert tokens[..i + 1][..i] == tokens[..i];
      if tokens[i] !in distinct {
        distinct := distinct + [tokens[i]];
      }
    }
    assert tokens[..|tokens|] == tokens;
  }

  // ---------------------------------------------------------------- what the statuses mean

  lemma {:induction false} ResultAt(items: seq<Option<Token>>, results: seq<Status>, i: nat)
    requires |results| == |TokensOf(items)| && i < |items|
    ensures items[i].None? ==> Aligned(items, results)[i] == Invalid
    ensures |TokensOf(items[..i])| + (if items[i].Some? then 1 else 0) <= |results|
    ensures items[i].Some? ==>
      Aligned(items, results)[i] == results[|TokensOf(items[..i])|] && TokensOf(items)[|TokensOf(items[..i])|] == items[i].value
    decreases |items|
  {
    var n := |items| - 1;
    if i < n {
      ResultAt(items[..n], if items[n].None? then results else results[..|results| - 1], i);
      assert items[..n][..i] == items[..i];
    }
  }

  lemma {:induction false} TokensBefore(items: seq<Option<Token>>, i: nat)
    requires i <= |items|
    ensures TokensOf(items[..i]) <= TokensOf(items)
    ensures forall t :: t in TokensOf(items[..i]) <==> Some(t) in items[..i]
    decreases |items|
  {
    if items == [] {
    } else if i == |items| {
      TokensBefore(items[..i - 1], i - 1);
      assert items[..i] == items && items[..i - 1][..i - 1] == items[..i - 1];
      assert forall x :: x in items <==> x in items[..i - 1] || x == items[i - 1];
    } else {
      TokensBefore(items[..|items| - 1], i);
      assert items[..|items| - 1][..i] == items[..i];
    }
  }

  /** Row by row: a row is invalid exactly when it has no token, and added exactly when it is the first one with a token
      that was decided to be new and that the store did not have; so no token is added twice. */
  lemma StatusMeans(pool: Pool, items: seq<Option<Token>>, conflicts: set<Token>, i: nat)
    requires i < |items|
    ensures var results := ItemResults(pool, items, conflicts);
      && (results[i] == Invalid <==> items[i].None?)
      && (results[i] == Added <==>
            items[i].Some? && items[i] !in items[..i] && items[i].value !in conflicts &&
            Lookup(Decided(pool, Firsts(TokensOf(items))).outcomes, items[i].value) == Some(Added))
  {
    var tokens := TokensOf(items);
    FirstsCover(tokens);
    DecidedAll(pool, Firsts(tokens));
    var decided := Decided(pool, Firsts(tokens)).outcomes;
    var outcomes := Adjusted(decided, conflicts);
    var rows := RowResults(tokens, outcomes);
    ResultAt(items, rows, i);
    TokensBefore(items, i);
    hide Decided, Aligned, TokensOf, Firsts, Distinct;
    if items[i].Some? {
      var k := |TokensOf(items[..i])|;
      assert tokens[..k] == TokensOf(items[..i]);
      assert items[i].value in Elements(tokens);
    }
  }

  lemma {:induction false} FirstsPrefix(tokens: seq<Token>, n: nat)
    requires n <= |tokens|
    ensures Firsts(tokens[..n]) <= Firsts(tokens)
    decreases |tokens|
  {
    if n < |tokens| {
      FirstsPrefix(tokens[..|tokens| - 1], n);
      assert tokens[..|tokens| - 1][..n] == tokens[..n];
    } else {
      assert tokens[..n] == tokens;
    }
  }

  lemma {:induction false} DecidedStays(pool: Pool, tokens: seq<Token>, n: nat, t: Token)
    requires Distinct(tokens) && n <= |tokens| && t in tokens[..n]
    ensures Lookup(Decided(pool, tokens).outcomes, t) == Lookup(Decided(pool, tokens[..n]).outcomes, t)
    decreases |tokens|
  {
    hide Outcome, Lineage;
    if n < |tokens| {
      var last := |tokens| - 1;
      DistinctPrefix(tokens);
      DecidedStays(pool, tokens[..last], n, t);
      assert tokens[..last][..n] == tokens[..n];
      assert tokens[last] != t;
    } else {
      assert tokens[..n] == tokens;
    }
  }

  /** Rows are decided in their order: what becomes of a row does not depend on the rows after it. */
  lemma LaterRowsChangeNothing(pool: Pool, items: seq<Option<Token>>, conflicts: set<Token>, n: nat)
    requires n <= |items|
    ensures |ItemResults(pool, items, conflicts)| == |items|
    ensures ItemResults(pool, items, conflicts)[..n] == ItemResults(pool, items[..n], conflicts)
  {
    hide ItemResults, Decided, Firsts, TokensOf;
    RowCounts(pool, items, conflicts);
    RowCounts(pool, items[..n], conflicts);
    forall i | 0 <= i < n ensures ItemResults(pool, items, conflicts)[i] == ItemResults(pool, items[..n], conflicts)[i] {
      StatusMeans(pool, items, conflicts, i);
      StatusMeans(pool, items[..n], conflicts, i);
      assert items[..n][..i] == items[..i];
      if items[i].Some? {
        RowDecidedStays(pool, items, n, items[i].value);
      }
    }
  }

  lemma RowCounts(pool: Pool, items: seq<Option<Token>>, conflicts: set<Token>)
    ensures |ItemResults(pool, items, conflicts)| == |items|
  {
  }

  lemma RowDecidedStays(pool: Pool, items: seq<Option<Token>>, n: nat, t: Token)
    requires n <= |items| && Some(t) in items[..n]
    ensures Lookup(Decided(pool, Firsts(TokensOf(items))).outcomes, t) ==
            Lookup(Decided(pool, Firsts(TokensOf(items[..n]))).outcomes, t)
  {
    hide Decided;
    var all, some := TokensOf(items), TokensOf(items[..n]);
    TokensBefore(items, n);
    assert all[..|some|] == some;
    FirstsPrefix(all, |some|);
    FirstsCover(all);
    FirstsCover(some);
    assert t in Elements(Firsts(some));
    assert Firsts(all)[..|Firsts(some)|] == Firsts(some);
    DecidedStays(pool, Firsts(all), |Firsts(some)|, t);
  }
}
