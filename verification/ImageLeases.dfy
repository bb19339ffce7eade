/** Generation slots that survive token rotation (services/account_service.py:1443-1531, 1995-2014, 2049-2166). */
module ImageLeases {
  import opened Accounts
  import opened TokenAliases

  /** leases lists, for every slot handed out and not yet given back, the token it was handed out under. */
  datatype Runtime = Runtime(graph: Graph, inflight: map<Token, nat>, started: map<Token, seq<real>>, clock: real, leases: seq<Token>)

  function InflightOf(s: Runtime, t: Token): nat {
    if t in s.inflight then s.inflight[t] else 0
  }

  function StartsOf(s: Runtime, t: Token): seq<real> {
    if t in s.started then s.started[t] else []
  }

  predicate Ordered(starts: seq<real>) {
    forall i, j | 0 <= i < j < |starts| :: starts[i] <= starts[j]
  }

  // ---------------------------------------------------------------- counting leases

  ghost function OwnedLeases(own: Token -> AccountId, leases: seq<Token>, id: AccountId): nat
    decreases |leases|
  {
    if leases == [] then 0
    else OwnedLeases(own, leases[..|leases| - 1], id) + if own(leases[|leases| - 1]) == id then 1 else 0
  }

  lemma {:induction false} LeasesConcat(own: Token -> AccountId, a: seq<Token>, b: seq<Token>, id: AccountId)
    ensures OwnedLeases(own, a + b, id) == OwnedLeases(own, a, id) + OwnedLeases(own, b, id)
    decreases |b|
  {
    if b == [] {
      assert a + b == a;
    } else {
      assert (a + b)[..|a + b| - 1] == a + b[..|b| - 1];
      LeasesConcat(own, a, b[..|b| - 1], id);
    }
  }

  lemma OneLease(own: Token -> AccountId, x: Token, id: AccountId)
    ensures OwnedLeases(own, [x], id) == if own(x) == id then 1 else 0
  {
    assert [x][..0] == [];
    assert OwnedLeases(own, [x][..0], id) == 0;
  }

  function WithoutLease(leases: seq<Token>, i: nat): seq<Token>
    requires i < |leases|
  {
    leases[..i] + leases[i + 1..]
  }

  lemma LeaseRemoved(own: Token -> AccountId, leases: seq<Token>, i: nat, id: AccountId)
    requires i < |leases|
    ensures OwnedLeases(own, WithoutLease(leases, i), id) + (if own(leases[i]) == id then 1 else 0) == OwnedLeases(own, leases, id)
  {
    assert leases == leases[..i] + [leases[i]] + leases[i + 1..];
    LeasesConcat(own, leases[..i] + [leases[i]], leases[i + 1..], id);
    LeasesConcat(own, leases[..i], [leases[i]], id);
    LeasesConcat(own, leases[..i], leases[i + 1..], id);
    OneLease(own, leases[i], id);
  }

  lemma {:induction false} NoLeases(own: Token -> AccountId, leases: seq<Token>, id: AccountId)
    requires forall i | 0 <= i < |leases| :: own(leases[i]) != id
    ensures OwnedLeases(own, leases, id) == 0
    decreases |leases|
  {
    if leases != [] {
      NoLeases(own, leases[..|leases| - 1], id);
    }
  }

  /** Outstanding leases whose token resolves to t. */
  ghost function ResolvingLeases(g: Graph, leases: seq<Token>, t: Token): nat
    decreases |leases|
  {
    if leases == [] then 0
    else ResolvingLeases(g, leases[..|leases| - 1], t) + if ResolveIn(g, leases[|leases| - 1]) == t then 1 else 0
  }

  lemma {:induction false} ResolvingIsOwning(own: Token -> AccountId, g: Graph, leases: seq<Token>, t: Token)
    requires GraphInv(own, g, {}) && t in g.accounts
    requires forall i | 0 <= i < |leases| :: leases[i] in g.lineage
    ensures ResolvingLeases(g, leases, t) == OwnedLeases(own, leases, own(t))
    decreases |leases|
  {
    if leases != [] {
      ResolvingIsOwning(own, g, leases[..|leases| - 1], t);
      ResolveKeepsOwner(own, g.accounts.Keys, g.aliases, leases[|leases| - 1], {});
    }
  }

  // ---------------------------------------------------------------- the invariant

  ghost predicate SlotsRecorded(s: Runtime) {
    && s.started.Keys == s.inflight.Keys && s.inflight.Keys <= s.graph.lineage
    && (forall k | k in s.inflight :: |s.started[k]| == s.inflight[k] > 0 && Ordered(s.started[k]))
    && (forall k, i | k in s.started && 0 <= i < |s.started[k]| :: s.started[k][i] <= s.clock)
    && (forall i | 0 <= i < |s.leases| :: s.leases[i] in s.graph.lineage)
  }

  // The slots of a live account sit under one token: the live one, or one that is waiting for a move.
  ghost predicate Placed(own: Token -> AccountId, s: Runtime, transit: set<Token>, limit: nat, t: Token) {
    && (forall k, j | k in s.inflight && j in s.inflight && own(k) == own(t) && own(j) == own(t) :: k == j)
    && (forall k | k in s.inflight && own(k) == own(t) ::
          (k == t || k in transit) && s.inflight[k] == OwnedLeases(own, s.leases, own(t)) <= limit)
    && ((forall k | k in s.inflight :: own(k) != own(t)) ==> OwnedLeases(own, s.leases, own(t)) == 0)
  }

  ghost predicate SlotsPlaced(own: Token -> AccountId, s: Runtime, transit: set<Token>, limit: nat) {
    forall t | t in s.graph.accounts :: Placed(own, s, transit, limit, t)
  }

  ghost predicate Inv(own: Token -> AccountId, s: Runtime, transit: set<Token>, limit: nat) {
    GraphInv(own, s.graph, transit) && SlotsRecorded(s) && SlotsPlaced(own, s, transit, limit)
  }

  /** Every live account's slot count is the number of outstanding leases that resolve to it, with as many start
      times, in order, and never above the configured concurrency. */
  lemma LeaseAccounting(own: Token -> AccountId, s: Runtime, limit: nat, t: Token)
    requires Inv(own, s, {}, limit) && t in s.graph.accounts
    ensures InflightOf(s, t) == ResolvingLeases(s.graph, s.leases, t) <= limit
    ensures |StartsOf(s, t)| == InflightOf(s, t) && Ordered(StartsOf(s, t))
  {
    ResolvingIsOwning(own, s.graph, s.leases, t);
    if t !in s.inflight {
      assert forall k | k in s.inflight :: own(k) != own(t);
    }
  }

  // ---------------------------------------------------------------- acquire and release

  function Acquired(s: Runtime, t: Token, now: real): Runtime {
    Runtime(s.graph, s.inflight[t := InflightOf(s, t) + 1], s.started[t := StartsOf(s, t) + [now]], now, s.leases + [t])
  }

  lemma AcquirePlaced(own: Token -> AccountId, s: Runtime, limit: nat, t: Token, now: real, u: Token)
    requires GoodAccounts(own, s.graph.accounts) && t in s.graph.accounts && u in s.graph.accounts
    requires Placed(own, s, {}, limit, u) && InflightOf(s, t) < limit
    ensures Placed(own, Acquired(s, t, now), {}, limit, u)
  {
    LeasesConcat(own, s.leases, [t], own(u));
    OneLease(own, t, own(u));
    hide OwnedLeases;
    if own(t) == own(u) {
      assert t == u;
      assert t !in s.inflight ==> forall k | k in s.inflight :: own(k) != own(t);
    } else {
      assert forall k | own(k) == own(u) :: Lookup(Acquired(s, t, now).inflight, k) == Lookup(s.inflight, k);
    }
  }

  lemma AcquireInv(own: Token -> AccountId, s: Runtime, limit: nat, t: Token, now: real)
    requires Inv(own, s, {}, limit) && t in s.graph.accounts && InflightOf(s, t) < limit && s.clock <= now
    ensures Inv(own, Acquired(s, t, now), {}, limit)
  {
    hide Placed;
    forall u | u in s.graph.accounts ensures Placed(own, Acquired(s, t, now), {}, limit, u) {
      AcquirePlaced(own, s, limit, t, now, u);
    }
    assert SlotsRecorded(Acquired(s, t, now));
  }

  // Giving back one slot of the token that x resolves to, for the i-th lease.
  function Released(s: Runtime, x: Token, i: nat): Runtime
    requires i < |s.leases|
  {
    var t := ResolveIn(s.graph, x);
    if InflightOf(s, t) <= 1 then
      Runtime(s.graph, s.inflight - {t}, s.started - {t}, s.clock, WithoutLease(s.leases, i))
    else
      var starts := StartsOf(s, t);
      Runtime(s.graph, s.inflight[t := s.inflight[t] - 1],
              if |starts| > 1 then s.started[t := starts[1..]] else s.started - {t}, s.clock, WithoutLease(s.leases, i))
  }

  lemma ReleasePlaced(own: Token -> AccountId, s: Runtime, limit: nat, x: Token, i: nat, u: Token)
    requires GoodAccounts(own, s.graph.accounts) && i < |s.leases| && u in s.graph.accounts
    requires own(x) == own(u) ==> ResolveIn(s.graph, x) == u
    requires own(ResolveIn(s.graph, x)) == own(x) == own(s.leases[i])
    requires Placed(own, s, {}, limit, u)
    ensures Placed(own, Released(s, x, i), {}, limit, u)
  {
    LeaseRemoved(own, s.leases, i, own(u));
  }

  lemma ReleaseInv(own: Token -> AccountId, s: Runtime, limit: nat, x: Token, i: nat)
    requires Inv(own, s, {}, limit) && i < |s.leases| && x in s.graph.lineage && own(x) == own(s.leases[i])
    ensures Inv(own, Released(s, x, i), {}, limit)
  {
    hide Placed;
    ResolveKeepsOwner(own, s.graph.accounts.Keys, s.graph.aliases, x, {});
    forall u | u in s.graph.accounts ensures Placed(own, Released(s, x, i), {}, limit, u) {
      ReleasePlaced(own, s, limit, x, i, u);
    }
    assert SlotsRecorded(Released(s, x, i));
  }

  // ---------------------------------------------------------------- moving slots to a rotated token

  ghost function InflightSum(inflight: map<Token, nat>, tokens: set<Token>): nat
    decreases |tokens|
  {
    if tokens == {} then 0
    else
      var t :| t in tokens;
      (if t in inflight then inflight[t] else 0) + InflightSum(inflight, tokens - {t})
  }

  ghost function StartsBag(started: map<Token, seq<real>>, tokens: set<Token>): multiset<real>
    decreases |tokens|
  {
    if tokens == {} then multiset{}
    else
      var t :| t in tokens;
      (if t in started then multiset(started[t]) else multiset{}) + StartsBag(started, tokens - {t})
  }

  lemma {:induction false} InflightSumSplit(inflight: map<Token, nat>, tokens: set<Token>, t: Token)
    requires t in tokens
    ensures InflightSum(inflight, tokens) == (if t in inflight then inflight[t] else 0) + InflightSum(inflight, tokens - {t})
    decreases |tokens|
  {
    var u :| u in tokens && InflightSum(inflight, tokens) ==
      (if u in inflight then inflight[u] else 0) + InflightSum(inflight, tokens - {u});
    if u != t {
      InflightSumSplit(inflight, tokens - {u}, t);
      InflightSumSplit(inflight, tokens - {t}, u);
      assert tokens - {u} - {t} == tokens - {t} - {u};
    }
  }

  lemma {:induction false} StartsBagSplit(started: map<Token, seq<real>>, tokens: set<Token>, t: Token)
    requires t in tokens
    ensures StartsBag(started, tokens) == (if t in started then multiset(started[t]) else multiset{}) + StartsBag(started, tokens - {t})
    decreases |tokens|
  {
    var u :| u in tokens && StartsBag(started, tokens) ==
      (if u in started then multiset(started[u]) else multiset{}) + StartsBag(started, tokens - {u});
    if u != t {
      StartsBagSplit(started, tokens - {u}, t);
      StartsBagSplit(started, tokens - {t}, u);
      assert tokens - {u} - {t} == tokens - {t} - {u};
    }
  }

  lemma {:induction false} NothingToMove(s: Runtime, tokens: set<Token>)
    requires SlotsRecorded(s) && forall k | k in tokens :: k !in s.inflight
    ensures InflightSum(s.inflight, tokens) == 0 && StartsBag(s.started, tokens) == multiset{}
    decreases |tokens|
  {
    if tokens != {} {
      var t :| t in tokens;
      InflightSumSplit(s.inflight, tokens, t);
      StartsBagSplit(s.started, tokens, t);
      NothingToMove(s, tokens - {t});
    }
  }

  // With a single holder among the tokens, the sums are that holder's.
  lemma OneHolder(s: Runtime, tokens: set<Token>, k: Token)
    requires SlotsRecorded(s) && k in tokens && k in s.inflight
    requires forall j | j in tokens && j in s.inflight :: j == k
    ensures InflightSum(s.inflight, tokens) == s.inflight[k] && StartsBag(s.started, tokens) == multiset(s.started[k])
  {
    InflightSumSplit(s.inflight, tokens, k);
    StartsBagSplit(s.started, tokens, k);
    NothingToMove(s, tokens - {k});
  }

  ghost predicate MovedStarts(started: map<Token, seq<real>>, started': map<Token, seq<real>>, target: Token, others: set<Token>) {
    var bag := StartsBag(started, others) + (if target in started then multiset(started[target]) else multiset{});
    && (forall k | k != target :: Lookup(started', k) == if k in others then None else Lookup(started, k))
    && (if bag == multiset{} then target !in started'
        else target in started' && Ordered(started'[target]) && multiset(started'[target]) == bag)
  }

  function MovedInflight(inflight: map<Token, nat>, target: Token, others: set<Token>, gathered: nat): map<Token, nat> {
    if gathered > 0 then
      (inflight - others)[target := (if target in inflight then inflight[target] else 0) + gathered]
    else
      inflight - others
  }

  /** The runtime state after every source's slots, start times and alias went over to the target token. */
  ghost predicate Moved(s: Runtime, s': Runtime, target: Token, sources: set<Token>) {
    var others := sources - {target};
    && s'.graph == Redirected(s.graph, target, sources) && s'.clock == s.clock && s'.leases == s.leases
    && s'.inflight == MovedInflight(s.inflight, target, others, InflightSum(s.inflight, others))
    && MovedStarts(s.started, s'.started, target, others)
  }

  lemma SameBag(a: seq<real>, b: seq<real>, bound: real)
    requires multiset(a) == multiset(b) && forall i | 0 <= i < |b| :: b[i] <= bound
    ensures |a| == |b| && forall i | 0 <= i < |a| :: a[i] <= bound
  {
    assert |multiset(a)| == |a| && |multiset(b)| == |b|;
    forall i | 0 <= i < |a| ensures a[i] <= bound {
      assert a[i] in multiset(b);
      assert a[i] in b;
    }
  }

  // The one token that holds the slots of an account, if it has any.
  ghost function HolderAmong(own: Token -> AccountId, s: Runtime, target: Token): Option<Token> {
    if k :| k in s.inflight && own(k) == own(target) then Some(k) else None
  }

  lemma GatheredSums(own: Token -> AccountId, s: Runtime, target: Token, sources: set<Token>)
    requires SlotsRecorded(s)
    requires forall x | x in sources :: own(x) == own(target)
    requires forall k, j | k in s.inflight && j in s.inflight && own(k) == own(target) && own(j) == own(target) :: k == j
    ensures var others, h := sources - {target}, HolderAmong(own, s, target);
      if h.Some? && h.value in others then
        && InflightSum(s.inflight, others) == s.inflight[h.value]
        && StartsBag(s.started, others) == multiset(s.started[h.value])
        && target !in s.inflight
      else
        InflightSum(s.inflight, others) == 0 && StartsBag(s.started, others) == multiset{}
  {
    var others, h := sources - {target}, HolderAmong(own, s, target);
    if h.Some? && h.value in others {
      OneHolder(s, others, h.value);
    } else {
      NothingToMove(s, others);
    }
  }

  ghost predicate OneHolderOf(own: Token -> AccountId, s: Runtime, target: Token) {
    forall k, j | k in s.inflight && j in s.inflight && own(k) == own(target) && own(j) == own(target) :: k == j
  }

  // Where a token's slots are after a move, in terms of the one token that held the moved account's slots.
  ghost function SlotAfterMove(own: Token -> AccountId, s: Runtime, target: Token, sources: set<Token>, k: Token): Option<nat> {
    var h := HolderAmong(own, s, target);
    if own(k) != own(target) then Lookup(s.inflight, k)
    else if h.Some? && k == (if h.value in sources then target else h.value) then Some(s.inflight[h.value])
    else None
  }

  lemma MovedSlot(own: Token -> AccountId, s: Runtime, s': Runtime, target: Token, sources: set<Token>, k: Token)
    requires SlotsRecorded(s) && Moved(s, s', target, sources) && OneHolderOf(own, s, target)
    requires forall x | x in sources :: own(x) == own(target)
    ensures Lookup(s'.inflight, k) == SlotAfterMove(own, s, target, sources, k)
  {
    GatheredSums(own, s, target, sources);
    hide MovedStarts, InflightSum, StartsBag, Redirected, SlotsRecorded;
  }

  lemma MovedKeys(own: Token -> AccountId, s: Runtime, s': Runtime, target: Token, sources: set<Token>, k: Token)
    requires SlotsRecorded(s) && Moved(s, s', target, sources) && OneHolderOf(own, s, target)
    requires forall x | x in sources :: own(x) == own(target)
    ensures k in s'.started <==> k in s'.inflight
  {
    var others, h := sources - {target}, HolderAmong(own, s, target);
    GatheredSums(own, s, target, sources);
    assert k != target ==> Lookup(s'.started, k) == if k in others then None else Lookup(s.started, k);
    if target in s.started {
      assert |multiset(s.started[target])| == |s.started[target]| > 0;
    }
    if h.Some? && h.value in others {
      assert |multiset(s.started[h.value])| == |s.started[h.value]| > 0;
    }
    hide HolderAmong, InflightSum, StartsBag, Redirected, Ordered;
  }

  lemma MovedTimes(own: Token -> AccountId, s: Runtime, s': Runtime, target: Token, sources: set<Token>, k: Token)
    requires SlotsRecorded(s) && Moved(s, s', target, sources) && OneHolderOf(own, s, target)
    requires forall x | x in sources :: own(x) == own(target)
    requires k in s'.started && k in s'.inflight
    ensures |s'.started[k]| == s'.inflight[k] > 0 && Ordered(s'.started[k])
    ensures forall i | 0 <= i < |s'.started[k]| :: s'.started[k][i] <= s.clock
  {
    hide InflightSum, StartsBag, Redirected, Ordered;
    var others, h := sources - {target}, HolderAmong(own, s, target);
    GatheredSums(own, s, target, sources);
    if k != target {
      assert Lookup(s'.started, k) == if k in others then None else Lookup(s.started, k);
    } else if h.Some? && h.value in others {
      SameBag(s'.started[target], s.started[h.value], s.clock);
    } else {
      SameBag(s'.started[target], s.started[target], s.clock);
    }
  }

  lemma MoveRecorded(own: Token -> AccountId, s: Runtime, s': Runtime, target: Token, sources: set<Token>)
    requires SlotsRecorded(s) && Moved(s, s', target, sources) && OneHolderOf(own, s, target)
    requires target in s.graph.lineage
    requires forall x | x in sources :: own(x) == own(target)
    ensures SlotsRecorded(s')
  {
    forall k | k in s'.inflight ensures k in s.graph.lineage {
      MovedSlot(own, s, s', target, sources, k);
    }
    hide Moved, OneHolderOf;
    forall k ensures k in s'.started <==> k in s'.inflight {
      MovedKeys(own, s, s', target, sources, k);
    }
    forall k | k in s'.inflight
      ensures |s'.started[k]| == s'.inflight[k] > 0 && Ordered(s'.started[k])
      ensures forall i | 0 <= i < |s'.started[k]| :: s'.started[k][i] <= s.clock
    {
      MovedTimes(own, s, s', target, sources, k);
    }
    assert s'.graph.lineage == s.graph.lineage && s'.clock == s.clock && s'.leases == s.leases by {
      MovedFrame(s, s', target, sources);
    }
  }

  lemma MovedFrame(s: Runtime, s': Runtime, target: Token, sources: set<Token>)
    requires Moved(s, s', target, sources)
    ensures s'.graph == Redirected(s.graph, target, sources) && s'.clock == s.clock && s'.leases == s.leases
  {
  }

  lemma MovePlaced(own: Token -> AccountId, s: Runtime, s': Runtime, transit: set<Token>, limit: nat,
                   target: Token, sources: set<Token>, t: Token)
    requires SlotsRecorded(s) && Moved(s, s', target, sources)
    requires GoodAccounts(own, s.graph.accounts) && target in s.graph.accounts && t in s.graph.accounts
    requires forall x | x in sources :: own(x) == own(target)
    requires Placed(own, s, transit, limit, target) && Placed(own, s, transit, limit, t)
    ensures Placed(own, s', transit - sources, limit, t)
  {
    MovedFrame(s, s', target, sources);
    forall k ensures Lookup(s'.inflight, k) == SlotAfterMove(own, s, target, sources, k) {
      MovedSlot(own, s, s', target, sources, k);
    }
    hide Moved, SlotsRecorded;
    if t == target {
      GatheredPlaced(own, s, s', transit, limit, target, sources);
    } else {
      forall k | own(k) == own(t) ensures Lookup(s'.inflight, k) == Lookup(s.inflight, k) {
        assert Lookup(s'.inflight, k) == SlotAfterMove(own, s, target, sources, k);
      }
      SameSlotsPlaced(own, s, s', transit, sources, limit, t);
    }
  }

  lemma GatheredPlaced(own: Token -> AccountId, s: Runtime, s': Runtime, transit: set<Token>, limit: nat,
                       target: Token, sources: set<Token>)
    requires s'.leases == s.leases && Placed(own, s, transit, limit, target)
    requires forall k :: Lookup(s'.inflight, k) == SlotAfterMove(own, s, target, sources, k)
    ensures Placed(own, s', transit - sources, limit, target)
  {
    var h := HolderAmong(own, s, target);
    forall k | k in s'.inflight && own(k) == own(target)
      ensures h.Some? && k == (if h.value in sources then target else h.value) && s'.inflight[k] == s.inflight[h.value]
    {
      assert Lookup(s'.inflight, k) == SlotAfterMove(own, s, target, sources, k);
    }
    if h.Some? {
      var k := if h.value in sources then target else h.value;
      assert Lookup(s'.inflight, k) == SlotAfterMove(own, s, target, sources, k);
    }
  }

  lemma SameSlotsPlaced(own: Token -> AccountId, s: Runtime, s': Runtime, transit: set<Token>, sources: set<Token>, limit: nat, t: Token)
    requires s'.leases == s.leases && Placed(own, s, transit, limit, t)
    requires forall k | own(k) == own(t) :: Lookup(s'.inflight, k) == Lookup(s.inflight, k)
    requires forall x | x in sources :: own(x) != own(t)
    ensures Placed(own, s', transit - sources, limit, t)
  {
    forall k | own(k) == own(t) ensures (k in s'.inflight <==> k in s.inflight) && InflightOf(s', k) == InflightOf(s, k) {
      assert Lookup(s'.inflight, k) == Lookup(s.inflight, k);
    }
  }

  /** Moving an account's slots to its live token settles the tokens they came from. */
  lemma MoveInv(own: Token -> AccountId, s: Runtime, s': Runtime, transit: set<Token>, limit: nat, target: Token, sources: set<Token>)
    requires Inv(own, s, transit, limit) && Moved(s, s', target, sources) && target in s.graph.accounts
    requires forall x | x in sources :: own(x) == own(target)
    ensures Inv(own, s', transit - sources, limit)
  {
    RedirectInv(own, s.graph, transit, target, sources);
    MovedFrame(s, s', target, sources);
    assert Placed(own, s, transit, limit, target);
    MoveRecorded(own, s, s', target, sources);
    hide Moved, Placed, SlotsRecorded, Redirected;
    forall t | t in s.graph.accounts ensures Placed(own, s', transit - sources, limit, t) {
      assert Placed(own, s, transit, limit, t);
      MovePlaced(own, s, s', transit, limit, target, sources, t);
    }
    assert s'.graph.accounts == s.graph.accounts by { SameAccounts(s.graph, target, sources); }
  }

  lemma SameAccounts(g: Graph, target: Token, sources: set<Token>)
    ensures Redirected(g, target, sources).accounts == g.accounts && Redirected(g, target, sources).lineage == g.lineage
  {
  }

  // ---------------------------------------------------------------- new views, compaction, deletion

  function Viewed(s: Runtime, loaded: map<Token, AccountId>): Runtime {
    s.(graph := Replaced(s.graph, loaded))
  }

  // A surviving account's slots are under its old token, which is its new one or is displaced by it.
  lemma SurvivorPlaced(own: Token -> AccountId, s: Runtime, transit: set<Token>, more: set<Token>, limit: nat,
                       loaded: map<Token, AccountId>, t: Token, u: Token)
    requires Placed(own, s, transit, limit, u) && own(u) == own(t)
    requires u == t || u in more
    ensures Placed(own, Viewed(s, loaded), transit + more, limit, t)
  {
  }

  lemma NewcomerPlaced(own: Token -> AccountId, s: Runtime, transit: set<Token>, limit: nat, loaded: map<Token, AccountId>, t: Token)
    requires SlotsRecorded(s) && forall x | x in s.graph.lineage :: own(x) != own(t)
    ensures Placed(own, Viewed(s, loaded), transit, limit, t)
  {
    NoLeases(own, s.leases, own(t));
  }

  lemma SurvivorDisplaced(own: Token -> AccountId, g: Graph, loaded: map<Token, AccountId>, t: Token, u: Token)
    requires GoodAccounts(own, loaded) && GoodAccounts(own, g.accounts) && g.accounts.Keys <= g.lineage
    requires t in loaded && u in g.accounts && own(u) == own(t) && u != t
    ensures u in Displaced(own, g, loaded)
  {
  }

  /** The account comes back although no token of it is live: its old tokens lead nowhere yet. */
  ghost predicate Revives(own: Token -> AccountId, g: Graph, t: Token) {
    (forall u | u in g.accounts :: own(u) != own(t)) && exists x :: x in g.lineage && own(x) == own(t)
  }

  /** Whatever account a view brings back, its slots are still where they were: nothing has dropped or mixed them. */
  ghost predicate Welcome(own: Token -> AccountId, s: Runtime, limit: nat, loaded: map<Token, AccountId>) {
    forall t | t in loaded && Revives(own, s.graph, t) :: Placed(own, s, s.graph.lineage, limit, t)
  }

  lemma NoRevivalIsWelcome(own: Token -> AccountId, s: Runtime, limit: nat, loaded: map<Token, AccountId>)
    requires NoRevival(own, s.graph, loaded)
    ensures Welcome(own, s, limit, loaded)
  {
  }

  lemma RevivedPlaced(own: Token -> AccountId, s: Runtime, transit: set<Token>, limit: nat, loaded: map<Token, AccountId>, t: Token)
    requires Placed(own, s, s.graph.lineage, limit, t) && SlotsRecorded(s) && GoodAccounts(own, loaded) && t in loaded
    requires forall u | u in s.graph.accounts :: own(u) != own(t)
    ensures Placed(own, Viewed(s, loaded), transit + Displaced(own, s.graph, loaded), limit, t)
  {
    forall k | k in s.inflight && own(k) == own(t) && k != t ensures k in Displaced(own, s.graph, loaded) {
      assert t in loaded && own(t) == own(k) && t !in s.graph.accounts;
    }
    hide SlotsRecorded, Displaced;
  }

  lemma ViewPlaced(own: Token -> AccountId, s: Runtime, transit: set<Token>, limit: nat, loaded: map<Token, AccountId>, t: Token)
    requires Inv(own, s, transit, limit) && GoodAccounts(own, loaded) && Welcome(own, s, limit, loaded) && t in loaded
    ensures Placed(own, Viewed(s, loaded), transit + Displaced(own, s.graph, loaded), limit, t)
  {
    hide Placed, SlotsRecorded, Displaced, GoodAccounts, ResolveIn;
    if u :| u in s.graph.accounts && own(u) == own(t) {
      if u != t {
        SurvivorDisplaced(own, s.graph, loaded, t, u);
      }
      SurvivorPlaced(own, s, transit, Displaced(own, s.graph, loaded), limit, loaded, t, u);
    } else if Revives(own, s.graph, t) {
      RevivedPlaced(own, s, transit, limit, loaded, t);
    } else {
      NewcomerPlaced(own, s, transit + Displaced(own, s.graph, loaded), limit, loaded, t);
    }
  }

  lemma WelcomeViewInv(own: Token -> AccountId, s: Runtime, transit: set<Token>, limit: nat, loaded: map<Token, AccountId>)
    requires Inv(own, s, transit, limit) && GoodAccounts(own, loaded) && Welcome(own, s, limit, loaded)
    ensures Inv(own, Viewed(s, loaded), transit + Displaced(own, s.graph, loaded), limit)
  {
    hide Welcome, Displaced, Placed, GraphInv;
    ReplaceInv(own, s.graph, transit, loaded);
    forall t | t in loaded ensures Placed(own, Viewed(s, loaded), transit + Displaced(own, s.graph, loaded), limit, t) {
      ViewPlaced(own, s, transit, limit, loaded, t);
    }
  }

  lemma ViewInv(own: Token -> AccountId, s: Runtime, transit: set<Token>, limit: nat, loaded: map<Token, AccountId>)
    requires Inv(own, s, transit, limit) && GoodAccounts(own, loaded) && NoRevival(own, s.graph, loaded)
    ensures Inv(own, Viewed(s, loaded), transit + Displaced(own, s.graph, loaded), limit)
  {
    hide Inv, Displaced, Welcome;
    NoRevivalIsWelcome(own, s, limit, loaded);
    WelcomeViewInv(own, s, transit, limit, loaded);
  }

  function CompactedState(s: Runtime): Runtime {
    s.(graph := Compacted(s.graph))
  }

  lemma CompactStateInv(own: Token -> AccountId, s: Runtime, transit: set<Token>, limit: nat)
    requires Inv(own, s, transit, limit)
    ensures Inv(own, CompactedState(s), transit, limit)
  {
    CompactInv(own, s.graph, transit);
    hide GraphInv, Placed;
    SamePlaces(own, s, CompactedState(s), transit, limit);
  }

  lemma SamePlaces(own: Token -> AccountId, s: Runtime, s': Runtime, transit: set<Token>, limit: nat)
    requires SlotsPlaced(own, s, transit, limit)
    requires s'.graph.accounts == s.graph.accounts && s'.inflight == s.inflight && s'.leases == s.leases
    ensures SlotsPlaced(own, s', transit, limit)
  {
    forall t | t in s'.graph.accounts ensures Placed(own, s', transit, limit, t) {
      assert Placed(own, s, transit, limit, t);
    }
  }

  predicate OwnersGone(own: Token -> AccountId, g: Graph, tokens: set<Token>) {
    forall x, t | x in tokens && t in g.accounts :: own(x) != own(t)
  }

  function Removed(s: Runtime, tokens: set<Token>): Runtime {
    Runtime(s.graph.(aliases := map a | a in s.graph.aliases && a !in tokens && s.graph.aliases[a] !in tokens :: s.graph.aliases[a]),
            s.inflight - tokens, s.started - tokens, s.clock, s.leases)
  }

  lemma RemoveKeepsResolution(own: Token -> AccountId, s: Runtime, tokens: set<Token>, x: Token)
    requires SameOwnerAliases(own, s.graph.aliases)
    requires forall y | y in tokens :: own(y) != own(x)
    ensures ResolveIn(Removed(s, tokens).graph, x) == ResolveIn(s.graph, x)
  {
    var live := s.graph.accounts.Keys;
    ResolveAgrees(own, live, s.graph.aliases, live, Removed(s, tokens).graph.aliases, x, {});
  }

  lemma RemoveGraphInv(own: Token -> AccountId, s: Runtime, transit: set<Token>, tokens: set<Token>)
    requires GraphInv(own, s.graph, transit) && OwnersGone(own, s.graph, tokens)
    ensures GraphInv(own, Removed(s, tokens).graph, transit)
  {
    hide ResolveIn;
    forall x, t | x in s.graph.lineage && t in s.graph.accounts && own(x) == own(t) && x !in transit
      ensures ResolveIn(Removed(s, tokens).graph, x) == t
    {
      RemoveKeepsResolution(own, s, tokens, x);
    }
  }

  /** Dropping the runtime state of deleted accounts leaves every live account's slots and aliases alone. */
  lemma RemoveInv(own: Token -> AccountId, s: Runtime, transit: set<Token>, limit: nat, tokens: set<Token>)
    requires Inv(own, s, transit, limit) && OwnersGone(own, s.graph, tokens)
    ensures Inv(own, Removed(s, tokens), transit, limit)
  {
    hide GraphInv;
    RemoveGraphInv(own, s, transit, tokens);
    forall t | t in s.graph.accounts ensures Placed(own, Removed(s, tokens), transit, limit, t) {
      assert Placed(own, s, transit, limit, t);
    }
  }

  // Tokens waiting for a move that belong to no live account need no move.
  lemma GoneNeedNoMove(own: Token -> AccountId, s: Runtime, transit: set<Token>, limit: nat)
    requires Inv(own, s, transit, limit) && OwnersGone(own, s.graph, transit)
    ensures Inv(own, s, {}, limit)
  {
    hide ResolveIn;
    forall t | t in s.graph.accounts ensures Placed(own, s, {}, limit, t) {
      assert Placed(own, s, transit, limit, t);
    }
  }

  // The view the passive rotations are computed for leaves nothing in transit that was not before.
  lemma PassiveSourcesCover(own: Token -> AccountId, g: Graph, transit: set<Token>, loaded: map<Token, AccountId>, x: Token)
    requires GraphInv(own, g, transit) && GoodAccounts(own, loaded)
    requires x in Displaced(own, g, loaded) && x !in transit && !Revives(own, g, x)
    ensures exists u, t :: u in g.accounts && u !in loaded && t in loaded && own(u) == own(t) && x in AliasSources(g, u)
  {
    var t :| t in loaded && own(t) == own(x) && t !in g.accounts;
    var u :| u in g.accounts && own(u) == own(x);
    SourcesCover(own, g, transit, u);
  }
}
