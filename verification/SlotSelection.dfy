/** Choosing an account for an image request while tokens rotate (services/account_service.py:2049-2106, 2151-2273). */
module SlotSelection {
  import opened Accounts
  import opened TokenAliases
  import opened ImageLeases
  import opened AccountRuntime

  const MAX_ATTEMPTS := 20

  /** What the remote check of a leased account said. */
  datatype Verdict = Failed(kind: Option<string>) | Checked(token: Token, available: bool, limited: bool)

  /** What upstream answers to the check of a leased account. */
  datatype Answer = Fails(kind: Option<string>) | Says(available: bool, limited: bool)

  /** One look for a free slot: whether the deadline has passed, which accounts match the request and may be used, and whether
      all that match are limited. */
  datatype Pass = Pass(late: bool, suitable: set<Token>, allLimited: bool)

  /** What comes from outside during one attempt: the looks for a slot, the clock before and after the check, the answer. */
  datatype Attempt = Attempt(passes: seq<Pass>, lateBefore: bool, answer: Answer, lateAfter: bool)

  datatype Acquisition = Got(token: Token) | NoneReady(allLimited: bool) | TooLate

  datatype Selection = Selected(token: Token) | DeadlineExceeded | QuotaExhausted | Preflight(kind: string) | Unavailable

  ghost predicate DistinctOwners(own: Token -> AccountId, tokens: seq<Token>) {
    forall i, j | 0 <= i < j < |tokens| :: own(tokens[i]) != own(tokens[j])
  }

  // A live token outside the resolved exclusions belongs to none of the excluded accounts.
  lemma FreshAccount(own: Token -> AccountId, g: Graph, excluded: set<Token>, t: Token, x: Token)
    requires GraphInv(own, g, {}) && t in g.accounts && x in excluded && x in g.lineage
    requires forall y | y in excluded :: ResolveIn(g, y) != t
    ensures own(x) != own(t)
  {
  }

  /** How one attempt ended; a token is named if an account was leased for it. */
  datatype Round =
    | LateFirst
    | NoMore(allLimited: bool)
    | Late(token: Token)
    | Missed(token: Token, verdict: Verdict)
    | Leased(token: Token, verdict: Verdict)

  function VerdictFor(answer: Answer, token: Token): Verdict {
    match answer
    case Fails(kind) => Failed(kind)
    case Says(available, limited) => Checked(token, available, limited)
  }

  /** Once an account is leased, the attempt ends as the clock and the answer say. */
  ghost predicate Follows(a: Attempt, round: Round) {
    !round.LateFirst? && !round.NoMore? ==>
      && (round.Late? <==> a.lateBefore || a.lateAfter)
      && (round.Leased? <==> !a.lateBefore && !a.lateAfter && a.answer.Says? && a.answer.available)
      && (round.Leased? || round.Missed? ==> exists token :: round.verdict == VerdictFor(a.answer, token))
  }

  /** The live accounts that match the request and none of the excluded tokens stands for. */
  ghost function ReadyIn(s: Runtime, excluded: set<Token>, suitable: set<Token>): set<Token> {
    set t | t in s.graph.accounts && t in suitable && forall x | x in excluded :: ResolveIn(s.graph, x) != t
  }

  /** An account that is ready has a slot to spare. */
  ghost predicate FreeIn(s: Runtime, limit: nat, excluded: set<Token>, suitable: set<Token>) {
    exists t :: t in ReadyIn(s, excluded, suitable) && InflightOf(s, t) < limit
  }

  /** At one of the attempt's looks every account that matched the request was excluded or had been tried. */
  ghost predicate NoOneLeft(own: Token -> AccountId, s: Runtime, a: Attempt, allLimited: bool, excluded: set<Token>, tried: seq<Token>) {
    exists at: nat :: at < |a.passes| && !a.passes[at].late && a.passes[at].allLimited == allLimited
                      && Exhausts(own, s, a.passes[at].suitable, excluded, tried)
  }

  ghost predicate Exhausts(own: Token -> AccountId, s: Runtime, suitable: set<Token>, excluded: set<Token>, tried: seq<Token>) {
    forall t | t in s.graph.accounts && t in suitable ::
      (exists x :: x in excluded && ResolveIn(s.graph, x) == t) || (exists u :: u in tried && own(u) == own(t))
  }

  // Every token on the list of attempts belongs to an account that was tried.
  ghost predicate TriedAccounts(own: Token -> AccountId, attempted: set<Token>, tried: seq<Token>) {
    forall x | x in attempted :: exists u :: u in tried && own(u) == own(x)
  }

  lemma TriedOneMore(own: Token -> AccountId, attempted: set<Token>, tried: seq<Token>, more: set<Token>, t: Token)
    requires TriedAccounts(own, attempted, tried) && forall x | x in more :: own(x) == own(t)
    ensures TriedAccounts(own, attempted + more, tried + [t])
  {
    forall x | x in attempted + more ensures exists u :: u in tried + [t] && own(u) == own(x) {
      if x in attempted {
        var u :| u in tried && own(u) == own(x);
        assert u in tried + [t];
      } else {
        assert t in tried + [t];
      }
    }
  }

  lemma TriedAgain(own: Token -> AccountId, attempted: set<Token>, tried: seq<Token>, x: Token, t: Token)
    requires TriedAccounts(own, attempted, tried) && t in tried && own(x) == own(t)
    ensures TriedAccounts(own, attempted + {x}, tried)
  {
  }

  lemma NothingReady(own: Token -> AccountId, s: Runtime, limit: nat, suitable: set<Token>, excluded: set<Token>, attempted: set<Token>,
                     tried: seq<Token>)
    requires Inv(own, s, {}, limit) && ReadyIn(s, excluded + attempted, suitable) == {} && TriedAccounts(own, attempted, tried)
    ensures Exhausts(own, s, suitable, excluded, tried)
  {
    forall t | t in s.graph.accounts && t in suitable
      ensures (exists x :: x in excluded && ResolveIn(s.graph, x) == t) || (exists u :: u in tried && own(u) == own(t))
    {
      assert t !in ReadyIn(s, excluded + attempted, suitable);
      var x :| x in excluded + attempted && ResolveIn(s.graph, x) == t;
      ResolvedElsewhere(own, s, limit, x);
    }
  }

  ghost function TriedIn(rounds: seq<Round>): seq<Token> {
    if rounds == [] then []
    else
      var last := rounds[|rounds| - 1];
      TriedIn(rounds[..|rounds| - 1]) + if last.LateFirst? || last.NoMore? then [] else [last.token]
  }

  ghost function VerdictsIn(rounds: seq<Round>): seq<Verdict> {
    if rounds == [] then []
    else
      var last := rounds[|rounds| - 1];
      VerdictsIn(rounds[..|rounds| - 1]) + if last.Missed? then [last.verdict] else []
  }

  /** The call found no further account, or has tried as many as it may. */
  ghost predicate RanOut(rounds: seq<Round>) {
    rounds != [] && (rounds[|rounds| - 1].NoMore? || (|rounds| == MAX_ATTEMPTS && rounds[|rounds| - 1].Missed?))
  }

  /** Every account there is was known to be limited before one was tried. */
  ghost predicate LimitedFromTheStart(rounds: seq<Round>) {
    rounds == [NoMore(true)]
  }

  /** The verdicts that leave no doubt that the quota is the reason. */
  predicate OnlyQuota(verdicts: seq<Verdict>) {
    verdicts != [] && forall v | v in verdicts :: v.Checked? && !v.available && v.limited
  }

  function FailureKinds(verdicts: seq<Verdict>): set<string> {
    set v | v in verdicts && v.Failed? && v.kind.Some? :: v.kind.value
  }

  class ImageSelector {
    const runtime: AccountRuntime
    var time: real
    ghost var held: seq<Token>
    ghost var foreign: multiset<Token>

    /** held are this caller's leases, foreign everyone else's. */
    ghost predicate Valid() reads this, runtime {
      && Inv(runtime.own, runtime.State(), {}, runtime.limit)
      && runtime.clock <= time
      && multiset(runtime.leases) == multiset(held) + foreign
    }

    constructor (runtime: AccountRuntime, time: real)
      requires Inv(runtime.own, runtime.State(), {}, runtime.limit) && runtime.clock <= time
      ensures Valid() && this.runtime == runtime && held == [] && foreign == multiset(runtime.leases)
    {
      this.runtime, this.time := runtime, time;
      held, foreign := [], multiset(runtime.leases);
      new;
      assert multiset(runtime.leases) == multiset([]) + multiset(runtime.leases);
    }

    function Inflight(t: Token): nat reads runtime {
      if t in runtime.inflight then runtime.inflight[t] else 0
    }

    /** Other callers lease and release, tokens rotate, views are reloaded; nobody else gives back this caller's leases. */
    method OthersRun()
      requires Valid()
      modifies this`time, this`foreign, runtime
      ensures Valid() && old(runtime.lineage) <= runtime.lineage
    {
      hide Inv;
      var pause: real := *;
      if pause > 0.0 {
        time := time + pause;
      }
      var prune: bool := *;
      if prune {
        CompactStateInv(runtime.own, runtime.State(), {}, runtime.limit);
        runtime.PruneTokenAliases();
      }
      var lease: bool := *;
      if lease {
        OtherLeases();
      }
    }

    method OtherLeases()
      requires Valid()
      modifies this`foreign, runtime
      ensures Valid() && runtime.lineage == old(runtime.lineage)
    {
      hide Inv;
      var t: Token := *;
      if t in runtime.accounts && Inflight(t) < runtime.limit {
        runtime.AcquireSlot(t, time);
        foreign := foreign + multiset{t};
      }
    }

    // The tokens that the excluded ones stand for at the moment.
    method ResolveAll(tokens: set<Token>) returns (resolved: set<Token>)
      ensures resolved == set x | x in tokens :: ResolveIn(runtime.State().graph, x)
    {
      hide ResolveIn;
      resolved := {};
      var todo := tokens;
      while todo != {}
        invariant todo <= tokens
        invariant resolved == set x | x in tokens - todo :: ResolveIn(runtime.State().graph, x)
        decreases |todo|
      {
        var x :| x in todo;
        todo := todo - {x};
        var token := runtime.ResolveToken(x);
        resolved := resolved + {token};
      }
    }

    // One look under the lock: no account is ready, one with a free slot is taken, or all that are ready are busy.
    method Look(excluded: set<Token>, pass: Pass) returns (got: Option<Acquisition>)
      requires Valid() && !pass.late
      modifies this`held, runtime
      ensures Valid() && old(runtime.lineage) <= runtime.lineage
      ensures got == Some(NoneReady(pass.allLimited)) <==> old(ReadyIn(runtime.State(), excluded, pass.suitable)) == {}
      ensures got.Some? && got.value.Got? <==> old(FreeIn(runtime.State(), runtime.limit, excluded, pass.suitable))
      ensures got.Some? ==> got.value.Got? || got.value == NoneReady(pass.allLimited)
      ensures if got.Some? && got.value.Got? then held == old(held) + [got.value.token]
              else held == old(held) && runtime.State() == old(runtime.State())
      ensures got.Some? && got.value.Got? ==> Fresh(got.value.token, excluded, old(runtime.lineage)) && got.value.token in pass.suitable
    {
      hide Inv, ResolveIn;
      var resolved := ResolveAll(excluded);
      var ready := runtime.accounts.Keys * pass.suitable - resolved;
      assert ready == ReadyIn(runtime.State(), excluded, pass.suitable);
      if ready == {} {
        return Some(NoneReady(pass.allLimited));
      }
      var tokens := set t | t in ready && Inflight(t) < runtime.limit;
      if tokens == {} {
        assert forall t | t in ready :: t !in tokens;
        return None;
      }
      var token :| token in tokens;
      ExcludedElsewhere(runtime.own, runtime.State(), runtime.limit, excluded, token);
      LiveInLineage(runtime.own, runtime.State(), runtime.limit, token);
      runtime.AcquireSlot(token, time);
      held := held + [token];
      got := Some(Got(token));
    }

    /** A token this process knows, of an account that none of the excluded ones stood for. */
    ghost predicate Fresh(t: Token, excluded: set<Token>, lineage: set<Token>)
      reads runtime
    {
      t in runtime.lineage && forall x | x in excluded && x in lineage :: runtime.own(x) != runtime.own(t)
    }

    /** Waits until an account outside the excluded ones has a free slot, and takes it. The first look decides at once if it
        can: it takes a free slot, or gives up if no account is ready. */
    method AcquireNext(excluded: set<Token>, passes: seq<Pass>) returns (got: Acquisition, ghost at: nat)
      requires Valid()
      modifies this`time, this`foreign, this`held, runtime
      ensures Valid() && old(runtime.lineage) <= runtime.lineage
      ensures held == if got.Got? then old(held) + [got.token] else old(held)
      ensures got.Got? ==> Fresh(got.token, excluded, old(runtime.lineage))
      ensures if got.TooLate? then at == |passes| || (at < |passes| && passes[at].late) else at < |passes| && !passes[at].late
      ensures got.Got? ==> got.token in passes[at].suitable
      ensures got.NoneReady? ==> got.allLimited == passes[at].allLimited && ReadyIn(runtime.State(), excluded, passes[at].suitable) == {}
      ensures passes != [] && !passes[0].late ==>
        && (old(ReadyIn(runtime.State(), excluded, passes[0].suitable)) == {} ==> got.NoneReady? && at == 0)
        && (old(FreeIn(runtime.State(), runtime.limit, excluded, passes[0].suitable)) ==> got.Got? && at == 0)
      ensures passes != [] && passes[0].late ==> got.TooLate? && at == 0
    {
      hide Inv, ResolveIn, ReadyIn, FreeIn;
      for waits := 0 to |passes|
        invariant Valid() && old(runtime.lineage) <= runtime.lineage && held == old(held)
        invariant waits == 0 ==> runtime.State() == old(runtime.State())
        invariant waits > 0 ==>
          && !passes[0].late && old(ReadyIn(runtime.State(), excluded, passes[0].suitable)) != {}
          && !old(FreeIn(runtime.State(), runtime.limit, excluded, passes[0].suitable))
      {
        at := waits;
        if passes[waits].late {
          return TooLate, at;
        }
        var found := Look(excluded, passes[waits]);
        if found.Some? {
          return found.value, at;
        }
        OthersRun();
      }
      got, at := TooLate, |passes|;
    }

    /** Gives this caller's last lease back, under whatever token its account has by now. */
    method Release(accessToken: Token)
      requires Valid() && held != [] && accessToken == held[|held| - 1] && accessToken in runtime.lineage
      modifies this`held, runtime
      ensures Valid() && held == old(held)[..|old(held)| - 1] && runtime.lineage == old(runtime.lineage)
    {
      hide Inv;
      ghost var last := |held| - 1;
      LastHeld(held, foreign, runtime.leases);
      ghost var i :| 0 <= i < |runtime.leases| && runtime.leases[i] == accessToken;
      LeaseReturned(held, foreign, runtime.leases, i);
      runtime.ReleaseSlot(accessToken, i);
      held := held[..last];
    }

    /** Asks upstream about the leased account; meanwhile others run, and the account's token may rotate. */
    method FetchRemoteInfo(accessToken: Token, answer: Answer) returns (verdict: Verdict)
      requires Valid() && accessToken in runtime.lineage
      modifies this`time, this`foreign, runtime
      ensures Valid() && old(runtime.lineage) <= runtime.lineage
      ensures exists token :: verdict == VerdictFor(answer, token)
      ensures verdict.Checked? ==> verdict.token in runtime.lineage && runtime.own(verdict.token) == runtime.own(accessToken)
    {
      hide Inv, ResolveIn;
      OthersRun();
      if answer.Fails? {
        assert Failed(answer.kind) == VerdictFor(answer, accessToken);
        return Failed(answer.kind);
      }
      var token := runtime.ResolveToken(accessToken);
      var known := token in runtime.accounts;
      if known {
        ResolvedElsewhere(runtime.own, runtime.State(), runtime.limit, accessToken);
        LiveInLineage(runtime.own, runtime.State(), runtime.limit, token);
      } else {
        token := accessToken;
      }
      verdict := Checked(token, answer.available, answer.limited);
      assert verdict == VerdictFor(answer, token);
    }

    // One attempt: lease an account, check it remotely, give it back unless it is usable.
    method TryAccount(excluded: set<Token>, a: Attempt) returns (round: Round, ghost at: nat)
      requires Valid()
      modifies this`time, this`foreign, this`held, runtime
      ensures Valid() && old(runtime.lineage) <= runtime.lineage && Follows(a, round)
      ensures held == if round.Leased? then old(held) + [round.token] else old(held)
      ensures !round.NoMore? && !round.LateFirst? ==> Fresh(round.token, excluded, old(runtime.lineage))
      ensures round.Leased? ==> round.verdict.Checked?
      ensures (round.Leased? || round.Missed?) && round.verdict.Checked? ==> runtime.own(round.verdict.token) == runtime.own(round.token)
      ensures round.Missed? ==> round.verdict.Failed? || !round.verdict.available
      ensures if round.LateFirst? then at == |a.passes| || (at < |a.passes| && a.passes[at].late)
              else at < |a.passes| && !a.passes[at].late
      ensures round.NoMore? ==>
        round.allLimited == a.passes[at].allLimited && ReadyIn(runtime.State(), excluded, a.passes[at].suitable) == {}
      ensures a.passes != [] && !a.passes[0].late ==>
        && (old(ReadyIn(runtime.State(), excluded, a.passes[0].suitable)) == {} ==> round.NoMore?)
        && (old(FreeIn(runtime.State(), runtime.limit, excluded, a.passes[0].suitable)) ==> !round.NoMore? && !round.LateFirst?)
    {
      hide Inv, ResolveIn, ReadyIn, FreeIn;
      var got;
      got, at := AcquireNext(excluded, a.passes);
      if got.TooLate? {
        return LateFirst, at;
      }
      if got.NoneReady? {
        return NoMore(got.allLimited), at;
      }
      var accessToken := got.token;
      if a.lateBefore {
        Release(accessToken);
        return Late(accessToken), at;
      }
      var verdict := FetchRemoteInfo(accessToken, a.answer);
      if !a.lateAfter && verdict.Checked? && verdict.available {
        return Leased(accessToken, verdict), at;
      }
      Release(accessToken);
      round := if a.lateAfter then Late(accessToken) else Missed(accessToken, verdict);
    }

    // Attempt after attempt, until one does not miss or there were twenty.
    method TryAccounts(excluded: set<Token>, script: seq<Attempt>)
      returns (last: Round, attempted: set<Token>, kinds: set<string>, sawQuota: bool, sawFailure: bool, ghost rounds: seq<Round>)
      requires Valid() && |script| == MAX_ATTEMPTS
      modifies this`time, this`foreign, this`held, runtime
      ensures Valid() && rounds != [] && last == Last(rounds) && Sequel(script, rounds)
      ensures DistinctOwners(runtime.own, TriedIn(rounds)) && Avoids(runtime.own, TriedIn(rounds), excluded, old(runtime.lineage))
      ensures held == if last.Leased? then old(held) + [last.token] else old(held)
      ensures last.Leased? ==> last.verdict.Checked? && runtime.own(last.verdict.token) == runtime.own(last.token)
      ensures kinds == FailureKinds(VerdictsIn(rounds))
      ensures sawQuota && !sawFailure <==> OnlyQuota(VerdictsIn(rounds))
      ensures last.NoMore? ==> (attempted == {} <==> |rounds| == 1)
      ensures last.NoMore? ==>
        NoOneLeft(runtime.own, runtime.State(), script[|rounds| - 1], last.allLimited, excluded, TriedIn(rounds))
    {
      hide Inv, ResolveIn, ReadyIn, FreeIn, Follows, Trying, Sequel, TriedIn, VerdictsIn, DistinctOwners, Avoids, FailureKinds, OnlyQuota,
        NoOneLeft, Fresh, Learned, TokenFits;
      last, attempted, kinds, sawQuota, sawFailure, rounds := LateFirst, {}, {}, false, false, [];
      ghost var lineage0 := runtime.lineage;
      NothingTried(runtime.own, excluded, lineage0);
      NotTriedYet(runtime.own, script, excluded, lineage0);
      for attempt := 0 to MAX_ATTEMPTS
        invariant Valid() && held == old(held) && lineage0 <= runtime.lineage
        invariant |rounds| == attempt && (attempt > 0 ==> last == Last(rounds) && last.Missed?)
        invariant Trying(runtime.own, script, rounds, attempted, excluded, lineage0, runtime.lineage)
        invariant Learned(kinds, sawQuota, sawFailure, VerdictsIn(rounds))
      {
        ghost var known := runtime.lineage;
        ghost var at;
        last, at := TryAccount(excluded + attempted, script[attempt]);
        RoundMore(rounds, last);
        FreshFits(last, excluded + attempted, known);
        TryingOn(runtime.own, script, rounds, attempted, excluded, lineage0, known, runtime.lineage, last);
        if !last.Missed? {
          WhatLearned(kinds, sawQuota, sawFailure, VerdictsIn(rounds));
          if last.NoMore? {
            NoneWasLeft(runtime.own, runtime.State(), runtime.limit, script, rounds, attempted, excluded, lineage0, known, at);
          }
          rounds := rounds + [last];
          return;
        }
        LearnMore(kinds, sawQuota, sawFailure, VerdictsIn(rounds), last.verdict);
        attempted, rounds := attempted + {last.token}, rounds + [last];
        if last.verdict.Failed? {
          sawFailure := true;
          kinds := if last.verdict.kind.Some? then kinds + {last.verdict.kind.value} else kinds;
        } else {
          TryingAlso(runtime.own, script, rounds, attempted, excluded, lineage0, runtime.lineage, last);
          attempted := attempted + {last.verdict.token};
          sawQuota := sawQuota || last.verdict.limited;
          sawFailure := sawFailure || !last.verdict.limited;
        }
      }
      AllTried(runtime.own, script, rounds, attempted, excluded, lineage0, runtime.lineage);
      WhatLearned(kinds, sawQuota, sawFailure, VerdictsIn(rounds));
    }

    lemma FreshFits(round: Round, excluded: set<Token>, known: set<Token>)
      requires known <= runtime.lineage
      requires !round.NoMore? && !round.LateFirst? ==> Fresh(round.token, excluded, known)
      ensures !round.NoMore? && !round.LateFirst? ==> TokenFits(runtime.own, round.token, excluded, known, runtime.lineage)
    {
    }

    /** Leases an account for an image request. On success the caller holds exactly one slot more than before, of the
        account whose token is returned; on failure none. The accounts tried are pairwise distinct, none is excluded,
        and there are at most twenty. The rounds say why the call ended as it did, and each outcome has exactly its reason. */
    method GetAvailableAccessToken(excluded: set<Token>, lateAtStart: bool, script: seq<Attempt>)
      returns (result: Selection, ghost rounds: seq<Round>)
      requires Valid() && |script| == MAX_ATTEMPTS
      modifies this, runtime
      ensures Valid() && (rounds != [] ==> Sequel(script, rounds)) && DistinctOwners(runtime.own, TriedIn(rounds))
      ensures Avoids(runtime.own, TriedIn(rounds), excluded, old(runtime.lineage))
      ensures if result.Selected? then
          rounds != [] && Last(rounds).Leased? && held == old(held) + [Last(rounds).token] &&
          runtime.own(result.token) == runtime.own(Last(rounds).token) && Last(rounds).verdict.Checked? &&
          result.token == Last(rounds).verdict.token
        else
          held == old(held)
      ensures rounds == [] <==> lateAtStart
      ensures result.Selected? <==> rounds != [] && Last(rounds).Leased?
      ensures result.DeadlineExceeded? <==> rounds == [] || Last(rounds).LateFirst? || Last(rounds).Late?
      ensures result.QuotaExhausted? <==> RanOut(rounds) && (LimitedFromTheStart(rounds) || OnlyQuota(VerdictsIn(rounds)))
      ensures forall kind :: result == Preflight(kind) <==>
        RanOut(rounds) && !OnlyQuota(VerdictsIn(rounds)) && FailureKinds(VerdictsIn(rounds)) == {kind}
      ensures result.Unavailable? ==> RanOut(rounds)
      ensures rounds != [] && Last(rounds).NoMore? ==>
        NoOneLeft(runtime.own, runtime.State(), script[|rounds| - 1], Last(rounds).allLimited, excluded, TriedIn(rounds))
    {
      hide NoOneLeft, Inv, ResolveIn, DistinctOwners, FailureKinds, OnlyQuota, TriedIn, VerdictsIn, Avoids, AllMissed;
      rounds := [];
      NothingTried(runtime.own, excluded, runtime.lineage);
      OthersRun();
      if lateAtStart {
        return DeadlineExceeded, rounds;
      }
      ghost var lineage0 := runtime.lineage;
      var last, attempted, kinds, sawQuota, sawFailure;
      last, attempted, kinds, sawQuota, sawFailure, rounds := TryAccounts(excluded, script);
      AvoidsEarlier(runtime.own, TriedIn(rounds), excluded, old(runtime.lineage), lineage0);
      result := Conclude(last, attempted, kinds, sawQuota, sawFailure, rounds);
    }

    // What the last attempt, and the failures seen, come to.
    method Conclude(last: Round, attempted: set<Token>, kinds: set<string>, sawQuota: bool, sawFailure: bool,
                    ghost rounds: seq<Round>)
      returns (result: Selection)
      requires rounds != [] && last == Last(rounds) && (last.Leased? ==> last.verdict.Checked?)
      requires last.Missed? ==> |rounds| == MAX_ATTEMPTS
      requires last.NoMore? ==> (attempted == {} <==> |rounds| == 1)
      requires kinds == FailureKinds(VerdictsIn(rounds)) && (sawQuota && !sawFailure <==> OnlyQuota(VerdictsIn(rounds)))
      ensures result.Selected? <==> last.Leased?
      ensures result.Selected? ==> result.token == last.verdict.token
      ensures result.DeadlineExceeded? <==> last.LateFirst? || last.Late?
      ensures result.QuotaExhausted? <==> RanOut(rounds) && (LimitedFromTheStart(rounds) || OnlyQuota(VerdictsIn(rounds)))
      ensures forall kind :: result == Preflight(kind) <==>
        RanOut(rounds) && !OnlyQuota(VerdictsIn(rounds)) && FailureKinds(VerdictsIn(rounds)) == {kind}
      ensures result.Unavailable? ==> RanOut(rounds)
    {
      hide FailureKinds, OnlyQuota, VerdictsIn;
      if last.LateFirst? || last.Late? {
        return DeadlineExceeded;
      }
      if last.Leased? {
        return Selected(last.verdict.token);
      }
      if last.NoMore? && last.allLimited && attempted == {} {
        NothingLearned(rounds);
        return QuotaExhausted;
      }
      if sawQuota && !sawFailure {
        return QuotaExhausted;
      }
      if |kinds| == 1 {
        var kind :| kind in kinds;
        OnlyKind(kinds, kind);
        return Preflight(kind);
      }
      result := Unavailable;
    }
  }

  function Last<T>(s: seq<T>): T
    requires s != []
  {
    s[|s| - 1]
  }

  ghost predicate AllMissed(script: seq<Attempt>, rounds: seq<Round>) {
    |rounds| <= |script| && forall i | 0 <= i < |rounds| :: Follows(script[i], rounds[i]) && rounds[i].Missed?
  }

  /** The rounds of one call: each follows its attempt, all but the last missed, and missing ends with the twentieth. */
  ghost predicate Sequel(script: seq<Attempt>, rounds: seq<Round>)
    requires rounds != []
  {
    && |rounds| <= |script| && AllMissed(script, rounds[..|rounds| - 1]) && Follows(script[|rounds| - 1], Last(rounds))
    && (Last(rounds).Missed? ==> |rounds| == |script|)
  }

  /** None of the tokens belongs to an account that one of the excluded tokens stood for. */
  ghost predicate Avoids(own: Token -> AccountId, tokens: seq<Token>, excluded: set<Token>, lineage: set<Token>) {
    forall t, x | t in tokens && x in excluded && x in lineage :: own(x) != own(t)
  }

  // The attempts so far: all missed, on accounts of their own.
  ghost predicate Trying(own: Token -> AccountId, script: seq<Attempt>, rounds: seq<Round>, attempted: set<Token>, excluded: set<Token>,
                         lineage0: set<Token>, lineage: set<Token>)
  {
    && AllMissed(script, rounds) && lineage0 <= lineage
    && (attempted == {} <==> rounds == []) && TokensTried(own, TriedIn(rounds), attempted, lineage)
    && DistinctOwners(own, TriedIn(rounds)) && Avoids(own, TriedIn(rounds), excluded, lineage0)
  }

  ghost predicate TokensTried(own: Token -> AccountId, tried: seq<Token>, attempted: set<Token>, lineage: set<Token>) {
    (forall t | t in tried :: t in attempted && t in lineage) && TriedAccounts(own, attempted, tried)
  }

  lemma TokensTriedMore(own: Token -> AccountId, tried: seq<Token>, attempted: set<Token>, known: set<Token>, lineage: set<Token>, t: Token)
    requires TokensTried(own, tried, attempted, known) && known <= lineage && t in lineage
    ensures TokensTried(own, tried + [t], attempted + {t}, lineage)
  {
    hide TriedAccounts;
    TriedOneMore(own, attempted, tried, {t}, t);
    assert forall u :: u in tried + [t] <==> u in tried || u == t;
  }

  lemma TokensTriedAgain(own: Token -> AccountId, tried: seq<Token>, attempted: set<Token>, lineage: set<Token>, t: Token, x: Token)
    requires TokensTried(own, tried, attempted, lineage) && t in tried && own(x) == own(t)
    ensures TokensTried(own, tried, attempted + {x}, lineage)
  {
    hide TriedAccounts;
    TriedAgain(own, attempted, tried, x, t);
  }

  lemma LastTried(rounds: seq<Round>)
    requires rounds != [] && Last(rounds).Missed?
    ensures Last(rounds).token in TriedIn(rounds)
  {
  }

  lemma MissedMore(script: seq<Attempt>, rounds: seq<Round>, last: Round)
    requires AllMissed(script, rounds) && |rounds| < |script| && Follows(script[|rounds|], last)
    ensures last.Missed? ==> AllMissed(script, rounds + [last])
    ensures !last.Missed? ==> Sequel(script, rounds + [last])
  {
    hide Follows;
    assert (rounds + [last])[..|rounds|] == rounds;
  }

  ghost predicate TokenFits(own: Token -> AccountId, t: Token, excluded: set<Token>, known: set<Token>, lineage: set<Token>) {
    known <= lineage && t in lineage && forall x | x in excluded && x in known :: own(x) != own(t)
  }

  lemma NotTriedYet(own: Token -> AccountId, script: seq<Attempt>, excluded: set<Token>, lineage: set<Token>)
    ensures Trying(own, script, [], {}, excluded, lineage, lineage)
  {
    NothingTried(own, excluded, lineage);
  }

  // One more round: it carries on if it missed, and closes the sequel otherwise.
  lemma TryingOn(own: Token -> AccountId, script: seq<Attempt>, rounds: seq<Round>, attempted: set<Token>, excluded: set<Token>,
                 lineage0: set<Token>, known: set<Token>, lineage: set<Token>, last: Round)
    requires Trying(own, script, rounds, attempted, excluded, lineage0, known)
    requires |rounds| < |script| && Follows(script[|rounds|], last) && known <= lineage
    requires !last.NoMore? && !last.LateFirst? ==> TokenFits(own, last.token, excluded + attempted, known, lineage)
    ensures last.Missed? ==> Trying(own, script, rounds + [last], attempted + {last.token}, excluded, lineage0, lineage)
    ensures !last.Missed? ==> Sequel(script, rounds + [last]) && (attempted == {} <==> |rounds + [last]| == 1)
    ensures DistinctOwners(own, TriedIn(rounds + [last])) && Avoids(own, TriedIn(rounds + [last]), excluded, lineage0)
  {
    hide DistinctOwners, Avoids, TokensTried, Follows, TriedIn, AllMissed, Sequel;
    RoundMore(rounds, last);
    MissedMore(script, rounds, last);
    if !last.NoMore? && !last.LateFirst? {
      FitsMore(own, TriedIn(rounds), last.token, excluded, lineage0, known, lineage, attempted);
    }
  }

  lemma FitsMore(own: Token -> AccountId, tried: seq<Token>, t: Token, excluded: set<Token>, lineage0: set<Token>, known: set<Token>,
                 lineage: set<Token>, attempted: set<Token>)
    requires TokensTried(own, tried, attempted, known) && DistinctOwners(own, tried) && Avoids(own, tried, excluded, lineage0)
    requires lineage0 <= known && TokenFits(own, t, excluded + attempted, known, lineage)
    ensures TokensTried(own, tried + [t], attempted + {t}, lineage)
    ensures DistinctOwners(own, tried + [t]) && Avoids(own, tried + [t], excluded, lineage0)
  {
    hide DistinctOwners, Avoids, TriedAccounts;
    TokensTriedMore(own, tried, attempted, known, lineage, t);
    TriedMore(own, tried, t, excluded, lineage0, known, attempted);
  }

  lemma TryingAlso(own: Token -> AccountId, script: seq<Attempt>, rounds: seq<Round>, attempted: set<Token>, excluded: set<Token>,
                   lineage0: set<Token>, lineage: set<Token>, last: Round)
    requires Trying(own, script, rounds, attempted, excluded, lineage0, lineage) && rounds != [] && last == Last(rounds)
    requires last.Missed? && last.verdict.Checked? && own(last.verdict.token) == own(last.token)
    ensures Trying(own, script, rounds, attempted + {last.verdict.token}, excluded, lineage0, lineage)
  {
    hide DistinctOwners, Avoids, TokensTried, Follows, TriedIn, AllMissed;
    LastTried(rounds);
    TokensTriedAgain(own, TriedIn(rounds), attempted, lineage, last.token, last.verdict.token);
  }

  lemma AllTried(own: Token -> AccountId, script: seq<Attempt>, rounds: seq<Round>, attempted: set<Token>, excluded: set<Token>,
                 lineage0: set<Token>, lineage: set<Token>)
    requires Trying(own, script, rounds, attempted, excluded, lineage0, lineage) && |rounds| == |script| && rounds != []
    ensures Sequel(script, rounds) && Last(rounds).Missed?
    ensures DistinctOwners(own, TriedIn(rounds)) && Avoids(own, TriedIn(rounds), excluded, lineage0)
  {
    hide DistinctOwners, Avoids, TokensTried, Follows, TriedIn;
  }

  lemma NoneWasLeft(own: Token -> AccountId, s: Runtime, limit: nat, script: seq<Attempt>, rounds: seq<Round>, attempted: set<Token>,
                    excluded: set<Token>, lineage0: set<Token>, known: set<Token>, at: nat)
    requires Inv(own, s, {}, limit) && |rounds| < |script|
    requires Trying(own, script, rounds, attempted, excluded, lineage0, known)
    requires at < |script[|rounds|].passes| && !script[|rounds|].passes[at].late
    requires ReadyIn(s, excluded + attempted, script[|rounds|].passes[at].suitable) == {}
    ensures NoOneLeft(own, s, script[|rounds|], script[|rounds|].passes[at].allLimited, excluded,
                      TriedIn(rounds + [NoMore(script[|rounds|].passes[at].allLimited)]))
  {
    hide Inv, ReadyIn, AllMissed, DistinctOwners, Avoids, Exhausts, TriedIn;
    RoundMore(rounds, NoMore(script[|rounds|].passes[at].allLimited));
    NothingReady(own, s, limit, script[|rounds|].passes[at].suitable, excluded, attempted, TriedIn(rounds));
  }

  lemma AvoidsEarlier(own: Token -> AccountId, tokens: seq<Token>, excluded: set<Token>, earlier: set<Token>, lineage: set<Token>)
    requires Avoids(own, tokens, excluded, lineage) && earlier <= lineage
    ensures Avoids(own, tokens, excluded, earlier)
  {
  }

  lemma NothingLearned(rounds: seq<Round>)
    requires |rounds| == 1 && rounds[0].NoMore?
    ensures FailureKinds(VerdictsIn(rounds)) == {} && !OnlyQuota(VerdictsIn(rounds))
  {
    assert rounds[..0] == [];
  }

  lemma RoundMore(rounds: seq<Round>, round: Round)
    ensures TriedIn(rounds + [round]) == if round.LateFirst? || round.NoMore? then TriedIn(rounds) else TriedIn(rounds) + [round.token]
    ensures VerdictsIn(rounds + [round]) == if round.Missed? then VerdictsIn(rounds) + [round.verdict] else VerdictsIn(rounds)
    ensures (rounds + [round])[..|rounds|] == rounds
  {
    assert (rounds + [round])[..|rounds|] == rounds;
  }

  lemma TriedMore(own: Token -> AccountId, tokens: seq<Token>, t: Token, excluded: set<Token>, lineage: set<Token>,
                  known: set<Token>, attempted: set<Token>)
    requires DistinctOwners(own, tokens) && Avoids(own, tokens, excluded, lineage) && lineage <= known
    requires forall u | u in tokens :: u in attempted && u in known
    requires forall x | x in excluded + attempted && x in known :: own(x) != own(t)
    ensures DistinctOwners(own, tokens + [t]) && Avoids(own, tokens + [t], excluded, lineage)
  {
    DistinctMore(own, tokens, t);
  }

  // The failure kinds seen, and whether the verdicts so far leave no doubt about the quota.
  ghost predicate Learned(kinds: set<string>, sawQuota: bool, sawFailure: bool, verdicts: seq<Verdict>) {
    && kinds == FailureKinds(verdicts) && (sawQuota && !sawFailure <==> OnlyQuota(verdicts))
    && ((sawQuota || sawFailure) <==> verdicts != [])
  }

  lemma WhatLearned(kinds: set<string>, sawQuota: bool, sawFailure: bool, verdicts: seq<Verdict>)
    requires Learned(kinds, sawQuota, sawFailure, verdicts)
    ensures kinds == FailureKinds(verdicts) && (sawQuota && !sawFailure <==> OnlyQuota(verdicts))
  {
  }

  lemma LearnMore(kinds: set<string>, sawQuota: bool, sawFailure: bool, verdicts: seq<Verdict>, v: Verdict)
    requires Learned(kinds, sawQuota, sawFailure, verdicts) && (v.Failed? || !v.available)
    ensures if v.Failed? then
        Learned(if v.kind.Some? then kinds + {v.kind.value} else kinds, sawQuota, true, verdicts + [v])
      else
        Learned(kinds, sawQuota || v.limited, sawFailure || !v.limited, verdicts + [v])
  {
    VerdictMore(verdicts, v);
    hide FailureKinds, OnlyQuota;
  }

  lemma NothingTried(own: Token -> AccountId, excluded: set<Token>, lineage: set<Token>)
    ensures TriedIn([]) == [] && DistinctOwners(own, []) && Avoids(own, [], excluded, lineage)
    ensures TriedAccounts(own, {}, TriedIn([]))
    ensures Learned({}, false, false, VerdictsIn([])) && VerdictsIn([]) == [] && FailureKinds([]) == {} && !OnlyQuota([])
  {
  }

  lemma OnlyKind(kinds: set<string>, kind: string)
    requires |kinds| == 1 && kind in kinds
    ensures kinds == {kind}
  {
    assert |kinds - {kind}| == 0;
  }

  lemma VerdictMore(verdicts: seq<Verdict>, v: Verdict)
    ensures FailureKinds(verdicts + [v]) == FailureKinds(verdicts) + if v.Failed? && v.kind.Some? then {v.kind.value} else {}
    ensures OnlyQuota(verdicts + [v]) <==> v.Checked? && !v.available && v.limited && (verdicts == [] || OnlyQuota(verdicts))
  {
    assert forall w :: w in verdicts + [v] <==> w in verdicts || w == v;
  }

  lemma DistinctMore(own: Token -> AccountId, tokens: seq<Token>, t: Token)
    requires DistinctOwners(own, tokens) && forall u | u in tokens :: own(u) != own(t)
    ensures DistinctOwners(own, tokens + [t])
  {
  }

  lemma ExcludedElsewhere(own: Token -> AccountId, s: Runtime, limit: nat, excluded: set<Token>, t: Token)
    requires Inv(own, s, {}, limit) && t in s.graph.accounts && forall y | y in excluded :: ResolveIn(s.graph, y) != t
    ensures forall x | x in excluded && x in s.graph.lineage :: own(x) != own(t)
  {
    forall x | x in excluded && x in s.graph.lineage ensures own(x) != own(t) {
      FreshAccount(own, s.graph, excluded, t, x);
    }
  }

  lemma LiveInLineage(own: Token -> AccountId, s: Runtime, limit: nat, t: Token)
    requires Inv(own, s, {}, limit) && t in s.graph.accounts
    ensures t in s.graph.lineage
  {
  }

  lemma ResolvedElsewhere(own: Token -> AccountId, s: Runtime, limit: nat, x: Token)
    requires Inv(own, s, {}, limit)
    ensures own(ResolveIn(s.graph, x)) == own(x)
  {
    ResolveKeepsOwner(own, s.graph.accounts.Keys, s.graph.aliases, x, {});
  }

  lemma LastHeld(held: seq<Token>, foreign: multiset<Token>, leases: seq<Token>)
    requires multiset(leases) == multiset(held) + foreign && held != []
    ensures held[|held| - 1] in leases
  {
    assert held[|held| - 1] in multiset(leases);
  }

  lemma LeaseReturned(held: seq<Token>, foreign: multiset<Token>, leases: seq<Token>, i: nat)
    requires multiset(leases) == multiset(held) + foreign && held != []
    requires i < |leases| && leases[i] == held[|held| - 1]
    ensures multiset(WithoutLease(leases, i)) == multiset(held[..|held| - 1]) + foreign
  {
    assert leases == leases[..i] + [leases[i]] + leases[i + 1..];
    assert held == held[..|held| - 1] + [held[|held| - 1]];
    var last := leases[i];
    forall x ensures multiset(WithoutLease(leases, i))[x] == (multiset(held[..|held| - 1]) + foreign)[x] {
      assert multiset(leases)[x] == multiset(WithoutLease(leases, i))[x] + multiset{last}[x];
      assert multiset(held)[x] == multiset(held[..|held| - 1])[x] + multiset{last}[x];
    }
  }
}
