# Account pool, task runner and key store: a Dafny model

The repository runs a pool of upstream accounts for several server processes at once. Each process keeps an in-memory
copy of the pool, saves it through a compare-and-swap store, and merges three ways when another process was faster.
Access tokens rotate while requests hold generation slots on them, background refreshes are queued under them, and OAuth
exchanges are in flight for them. Around that core there is a bounded task runner with generations, a key store with a
cached snapshot, and bounded logs whose counts must stay exact. This project models those parts and proves what they
promise over every input and every interleaving.

`dafny verify dfyconfig.toml` checks the whole project.

## How the model is built

- **Accounts, views, the store.** An account is a dictionary from fields to values (`Accounts.Account`), a view maps
  access tokens to accounts. The store is a view with a revision that grows by one with every committed mutation; a
  mutation succeeds iff it names the current revision, otherwise it changes nothing. Loaded views are normalised: every
  key equals its account's `access_token`, counters are non-negative integers, management ids are distinct.
- **Several processes.** `PoolProtocol` is a step machine over the store and any number of processes; `NoLostIncrements`,
  `QuotaUse` and `CredentialChain` prove run theorems about it, and `SaveRefinement` proves that the imperative save loop of
  `AccountPool` performs exactly such a run. `SaveOutcomes` says what a save that went through tells its caller.
- **Accounts behind tokens.** `own: Token -> AccountId` stands for "a token never passes from one account to another".
  The alias graph, the slots, the refresh queue and the slot selection of one process are proved against it while tokens
  rotate; `transit` is the ghost set of tokens that a new view displaced and no move has redirected yet.
- **The classes** hold the fields that the Python classes update in place. Each method's contract equates its new state
  with a specification function or relation, and the lemmas beside it say what those mean.
- **Other actors.** What other threads and processes may do between two atomic actions of a method is a method of its own
  with a nondeterministic body (`AuthStore.Elapse`, `AuthService.OtherThreads`, `ImageSelector.OthersRun`,
  `JobStore.OthersRun`, `AccountStore.Rival`): callers may rely on its contract only. What the environment answers to a
  method, such as the candidates of a selection round, the remote checks, outages of the store and random draws, is one of
  its parameters, so that its contract can say for every such script how the call ends. Hashes are parameters too.

| file | part of the repository |
|---|---|
| `Accounts`, `AccountMerge`, `MergeTheorems` | accounts, views and the conflict merge |
| `PoolProtocol`, `NoLostIncrements`, `QuotaUse`, `CredentialChain`, `AccountPool`, `SaveRefinement`, `SaveOutcomes` | saving through the store, many processes |
| `TokenAliases`, `ImageLeases`, `LeaseRuns`, `ViewEffects`, `AccountRuntime`, `SlotSelection` | aliases and generation slots under rotation |
| `FailureRefresh`, `RefreshRuns`, `RefreshScopes`, `RefreshOrder`, `OAuthFlights` | the refresh queue, single-flight exchanges |
| `ImageResults`, `ImportAccounting` | counting image results and imported rows |
| `TaskRunner`, `RunnerSafety`, `RunnerTheorems`, `RunnerOrder`, `RunnerCrew`, `RunnerDraining`, `BoundedTaskRunner` | the bounded task runner |
| `AuthKeys`, `AuthService` | dedicated keys |
| `Tails`, `EventLog`, `ImportFailures` | bounded logs with exact totals |

## What was found

These are statements one might expect of the code that do not hold of it. For each there is a theorem that says, for all
inputs or all runs, exactly when the code meets it; where a concrete input is proved too, it is named as the witness.

- After a merge management ids are distinct iff the two sides did not add one account under two tokens
  (`MergeTheorems.MergeKeepsIdsDistinct`).
- A merge keeps both sides' counts of an account the baseline lacks iff the remote side had counted nothing
  (`NoLostIncrements.ConcurrentAdditionLosesCounts`; `NoLostIncrements.MergeKeepsBothCountsIff` covers the accounts the
  baseline knows as well).
- After an exchange whose save raises every account has as many slots as leases iff the token did not change, the account
  had no slot, or the store, read again, lacks the account, holds it under the old token, or holds it under a third one
  while the aliases already led from the old token to the new one (`ViewEffects.RaisedRotation`, and for any rotation
  `AccountRuntime.AccountRuntime.ApplyRefreshedTokens`; right after a compaction
  the last case cannot occur, `AccountRuntime.CompactedRecovers`). After a deletion whose save raises it is so iff the account
  had no slot, or the store lacks it or holds it under the deleted token (`ViewEffects.RaisedDeletion`). Witness for both:
  `AccountRuntime.RaisedSaveOrphansSlot`.
- A draining shutdown leaves tasks behind iff it finds tasks queued while each worker of the run stands between seeing the
  queue empty and looking at the run's mode (`RunnerDraining.DrainingStrandsTasksIff`; witness
  `RunnerTheorems.DrainingMayStrandATask`).
- An exchange starts from the current generation iff it started under the account lock or nothing replaced that generation
  since the request read it (`OAuthFlights.StartIsCurrentIff`; witness `OAuthFlights.StaleExchangeCanStart`). The answer of
  an exchange that started stale is never stored (`OAuthFlights.StaleStartIsNeverStored`).
- A result key is remembered after a merge iff it is in the remote list when the local one is unchanged, and in the local
  list otherwise (`ImageResults.KeysAfterMerge`); so a key one side had counted counts again iff the other list was kept and
  lacks it (`ImageResults.CountedAgainAfterMerge`; witness `ImageResults.KeysAreLostAcrossProcesses`).
- A resumed import worker that reports only the details it kept undercounts iff details had been dropped and it adds at least
  as many as are missing (`ImportFailures.ResumedReportIsExactWhen`). A job that is marked failed counts every failure iff
  no fetch failed since the last due checkpoint (`ImportFailures.FetchThenFail`; witness
  `ImportFailures.UnwrittenFetchIsLost`).
- A repeated result key is recognised, within the window, iff stripping and then cutting it leaves no blank at its end
  (`ImageResults.RepeatInWindowChangesNothing`, `ImageResults.RecognisedAfter`); a new key is counted iff it is not the stored
  form of a remembered one (`ImageResults.FreshKeyCounts`; witness for both `ImageResults.UnstableKeyCountsAgain`).
- Two rows of one account are not both imported as new iff the row that comes first has the other's fingerprint in its
  lineage; the later row's own history is not looked at (`ImportAccounting.NewRowIff`; witness
  `ImportAccounting.FormerTokenFirst`).
- The numbers of appended events exceed every earlier one, dropped ones included, iff the cut drops no number as high as the
  highest it keeps (`EventLog.NewAboveDroppedIff`; witness `EventLog.OutOfOrderReuses`).

## Model

| member | source | states |
|---|---|---|
| AccountMerge.MergeAccountFields | services/account_service.py:600-642 | The in-place field merge, whatever order it visits fields in, yields for each field the local change, the remote value, a removal, or the floored sum of both sides' increments. |
| AccountMerge.RotatedAccountToken | services/account_service.py:644-663 | Finds the token under which a view holds a management id, and only if exactly one other token does. |
| AccountMerge.MergeAccountsAfterConflict | services/account_service.py:665-749 | The loops over removals and edits produce the per-account reference merge MergedView, in whatever order tokens are visited. |
| AccountMerge.MergeLocalRemovals | services/account_service.py:675-708 | Every locally removed account is resolved as the reference merge says, also when the remote side rotated it. |
| AccountMerge.MergeLocalEdit | services/account_service.py:710-748 | One locally edited account is resolved in place without disturbing the others. |
| MergeTheorems.MergeIsPerAccount | services/account_service.py:665-749 | The merged view holds for each management id exactly what merging that account alone gives. |
| MergeTheorems.MergeWithIdleLocal | services/account_service.py:570-749 | merge(b, b, r) = r for all normalised views. |
| MergeTheorems.MergeWithIdleRemote | services/account_service.py:570-749 | merge(b, l, b) = l for all normalised views, with deletions, additions, removed fields, counters, quota use and rotations. |
| MergeTheorems.MergeKeepsIdsDistinct | services/account_service.py:665-749 | The merged view is well formed, keys equal to tokens and management ids distinct, iff the two sides did not add one account under two tokens. |
| MergeTheorems.LocalDeletionWins | services/account_service.py:675-696 | A locally deleted account is gone even if the other side rotated or edited it. |
| MergeTheorems.RemoteDeletionWins | services/account_service.py:698-748 | A remotely deleted account stays gone despite local edits or rotation. |
| MergeTheorems.OneSidedRotation | services/account_service.py:644-749 | A rotation on one side leaves exactly one entry, under the new token, with both sides' field edits. |
| MergeTheorems.DoubleRotationKeepsRemote | services/account_service.py:698-703 | When both sides rotated, only the remote token remains. |
| MergeTheorems.MergedAccountNormalised | services/account_service.py:570-642 | Merging normalised accounts keeps counters non-negative integers and the key equal to the token. |
| MergeTheorems.MergedQuota | services/account_service.py:586-642 | A local use of quota, which also moves the time of last use, is taken off the remote quota, never below zero; any other local change of the quota is a snapshot that replaces it; without one the remote quota stands. |
| MergeTheorems.MergedPlainField | services/account_service.py:600-642 | A field that is neither counter nor quota ends as the local value if it was edited locally and as the remote one otherwise. |
| MergeTheorems.MergedRemovedField | services/account_service.py:609-641 | A field removed locally is gone, whatever the remote side did to it. |
| PoolProtocol.MutationReachesDesired | services/account_service.py:548-561 | Applying the upserts and deletes computed from the persisted view and the memory to the persisted view gives the memory. |
| PoolProtocol.OwnedViewsMerge | services/account_service.py:665-749 | Views that never hand a token to another account meet the merge's preconditions. |
| PoolProtocol.StepKeepsInv | services/account_service.py:798-873 | Every step of every process keeps all views normalised, snapshots consistent with the store at their revision, and memory equal to the persisted copy outside a save. |
| NoLostIncrements.MergeCarriesIncrements | services/account_service.py:570-642 | A merge adds to the remote counters exactly the local increments since the baseline, also across a rotation. |
| NoLostIncrements.ConcurrentAdditionLosesCounts | services/account_service.py:713-721 | Of an account that both sides added under one token the merge keeps the local counter alone, so the sum is kept iff the remote one had counted nothing. |
| NoLostIncrements.MergeKeepsBothCountsIff | services/account_service.py:570-749 | For all mergeable views that hold the account on both sides, under one token if the baseline lacks it: the exact condition under which the merged counter is the remote one plus the local increments. |
| NoLostIncrements.UnawareMerge | services/account_service.py:665-749 | A merge by a process that does not know the account takes it over from the store as it is. |
| NoLostIncrements.StepCounts | services/account_service.py:798-873 | Each protocol step changes the stored counter by the increments of a save that returned True, and by nothing otherwise. |
| NoLostIncrements.NoIncrementIsLost | services/account_service.py:798-873 | Over any interleaving of loads, conflicts, merges and retries of any number of processes, some of which need not know the account yet, a never-deleted account's stored success and fail equal their initial values plus the increments of exactly the saves that returned True. |
| QuotaUse.MergeCarriesUse | services/account_service.py:586-642 | A merge onto newer remote state takes exactly the local use off the remote quota, never below zero, and keeps the time of that use. |
| QuotaUse.StepUses | services/account_service.py:798-873 | Each protocol step takes off the stored quota what a save that returned True used, and nothing otherwise. |
| QuotaUse.NoUseIsLost | services/account_service.py:798-873 | Over any interleaving of any number of processes between two upstream snapshots, the stored quota is the initial one minus the uses of exactly the saves that returned True, or zero. |
| QuotaUse.QuietIsTracked | services/account_service.py:798-873 | Every state in which all processes agree with the store and no save is under way may start such a run. |
| CredentialChain.MergeLeavesRemoteCredentials | services/account_service.py:833-849 | A merge by a process that did not exchange leaves the stored generation as it is. |
| CredentialChain.MergeKeepsExchange | services/account_service.py:833-849 | A merge guarded by the generation it started from stores the exchanged credentials over exactly that generation. |
| CredentialChain.StepReplacesItsOwnGeneration | services/account_service.py:833-849 | A committed exchange finds in the store exactly the generation it was sent with, however many conflicts it went through, and leaves exactly the one it obtained; a save that is quiet about the credentials leaves the stored generation alone. |
| CredentialChain.ExchangesFormAChain | services/account_service.py:1550-1632 | Over any interleaving, unguarded imports, edits, additions and deletions of the same account included, the changes of its stored credentials form one chain in which every exchange starts from the generation it was sent with. |
| CredentialChain.IdleHolds | services/account_service.py:798-873 | Every state in which no save is under way may start such a run. |
| CredentialChain.NoGenerationIsUsedTwice | services/account_service.py:1550-1632 | As long as neither the issuer nor an edit brings a generation back, none is exchanged or edited away twice. |
| AccountPool.AccountStore.Mutate | services/account_service.py:806-818 | The store commits iff the expected revision is current and changes nothing otherwise. |
| AccountPool.AccountPool.SaveAccounts | services/account_service.py:798-873 | The retry loop ends in the state and answer of SaveFrom, for any sequence of rival commits between its attempts, and collects exactly the added tokens that a conflict revealed to be in the store. |
| SaveRefinement.AttemptIsAStep | services/account_service.py:806-873 | One attempt of the loop is one commit, retry or abort step of the protocol. |
| SaveRefinement.SaveLoopIsARun | services/account_service.py:798-873 | The whole loop, with its rivals, is a run of the protocol, so the run theorems hold of it. |
| SaveOutcomes.DeletionIsSaved | services/account_service.py:665-708 | A deletion that was saved is in the store and in memory, whatever rotations and edits of the account other processes committed between the attempts. |
| SaveOutcomes.ExchangeSurvivesConflict | services/account_service.py:833-857 | While the store still holds the generation an exchange started from, the merge keeps the account under the new token. |
| SaveOutcomes.CollectedMeansAlreadyStored | services/account_service.py:827-832 | After a save, an added token is among the collected ones iff the store had it right before the attempt that saved. |
| SaveOutcomes.AddedRowWasStoredHere | services/account_service.py:3089-3116 | After an import's save went through, every row reported as added names a token that the store has now and did not have right before the attempt that saved. |
| TokenAliases.ResolveAccessToken | services/account_service.py:1265-1271 | The loop ends, by the shrinking set of unseen aliases, in the resolution of the token, cycles included. |
| TokenAliases.PruneTokenAliases | services/account_service.py:751-762 | The loop keeps exactly the aliases that lead elsewhere to a live account, each pointing straight at it. |
| TokenAliases.PruningPreservesMeaning | services/account_service.py:751-762 | For any alias graph, cycles included, pruning leaves resolution unchanged for every token that leads to a live account, makes all others their own end, and leaves single hops to live accounts. |
| TokenAliases.RedirectInv | services/account_service.py:1448-1450 | Redirecting an account's sources to its live token settles them and disturbs no other token. |
| TokenAliases.ReplaceInv | services/account_service.py:478-498 | A new view, also one that brings accounts back, leaves every token resolving to its account except those it displaced. |
| TokenAliases.SourcesCover | services/account_service.py:1525-1530 | The alias sources computed for a token contain every settled token of its account. |
| ImageLeases.LeaseAccounting | services/account_service.py:1995-2014 | A live account's slot count is the number of outstanding leases resolving to it, with as many ordered start times, within the concurrency limit. |
| ImageLeases.AcquireInv | services/account_service.py:2095-2098 | Taking a slot below the limit keeps the accounting of every account. |
| ImageLeases.ReleaseInv | services/account_service.py:2151-2166 | Giving a lease back under any token its account ever had keeps the accounting of every account. |
| ImageLeases.MoveInv | services/account_service.py:1443-1470 | Moving slots and start times to the new token keeps the accounting and settles the sources. |
| ImageLeases.ViewInv | services/account_service.py:478-498 | A new view keeps every account's slots in one place, live or awaiting its move. |
| ImageLeases.WelcomeViewInv | services/account_service.py:478-498 | A view may bring accounts back: if their slots are still where they were, they are kept in one place, awaiting a move. |
| ImageLeases.RemoveInv | services/account_service.py:764-776 | Dropping deleted accounts' state leaves every live account's slots and aliases alone. |
| LeaseRuns.SlotsMatchLeases | services/account_service.py:1443-1531 | Over any run of acquires, releases, rotations, view changes, pruning and deletions, a live account's slot count is its leases handed out minus given back, equals the leases resolving to it, with as many ordered start times, within the limit. |
| ViewEffects.AllMovesDone | services/account_service.py:478-498 | Applying a view moves the slots of each account it rotates, once and with all its alias sources, and leaves every other account's slots and aliases as they are. |
| ViewEffects.RaisedRotation | services/account_service.py:778-868 | After an exchange whose save raised, slots and leases agree for all accounts iff the view read again lacks the account, holds it under the old token, or found its slots through an alias, or there were none. |
| ViewEffects.RaisedDeletion | services/account_service.py:778-868 | After a deletion whose save raised, they agree iff the view read again lacks the account or holds it under the deleted token, or there were no slots. |
| AccountRuntime.AccountRuntime.MoveRuntimeToken | services/account_service.py:1443-1470 | The loops move exactly the sources' slots and start times, sorted, to the new token and redirect the sources. |
| AccountRuntime.AccountRuntime.PassiveTokenRotations | services/account_service.py:1508-1531 | Finds every account whose token the loaded view replaced, once, with all its alias sources. |
| AccountRuntime.AccountRuntime.ApplyAccountView | services/account_service.py:478-498 | Applying a loaded view keeps the lease accounting, touches only rotated accounts, and leaves nothing new in transit but the tokens of accounts that came back. |
| AccountRuntime.AccountRuntime.AcquireSlot | services/account_service.py:1995-2004 | Records one slot and its start time and keeps the accounting. |
| AccountRuntime.AccountRuntime.ReleaseSlot | services/account_service.py:2151-2166 | Gives one lease back under any token of its account and keeps the accounting. |
| AccountRuntime.AccountRuntime.ApplyRefreshedTokens | services/account_service.py:1533-1637 | A local rotation, saved through any conflict views, ends with the accounting intact and reports success only if the new token is live; a save that went through leaves single-hop aliases, and nothing of an account that is gone; if the save raises, the accounting is intact iff RotationRecovers, and that of all other accounts in any case. |
| AccountRuntime.AccountRuntime.DeleteAccount | services/account_service.py:3140-3190 | Deleting an account removes it and its runtime state, leaves single-hop aliases and keeps the accounting of the others; if the save raises, the accounting is intact iff DeletionRecovers. |
| AccountRuntime.RaisedSaveOrphansSlot | services/account_service.py:1599-1637 | A state with one slot in which a raised rotation or deletion loses it whenever the account comes back under any token but its old one, the new one included. |
| AccountRuntime.CompactedRecovers | services/account_service.py:751-762 | Right after a compaction the condition is: no slot, account gone, or account under its old token. |
| SlotSelection.ImageSelector.AcquireNext | services/account_service.py:2049-2106 | Takes exactly one slot, of a suitable account that none of the excluded tokens stands for at that moment, or none; it gives up only in a round that is too late or finds no such account at all, and takes a slot if the first round has one free. |
| SlotSelection.ImageSelector.Release | services/account_service.py:2151-2157 | Gives the caller's last lease back even if its token rotated meanwhile, and no one else's. |
| SlotSelection.ImageSelector.TryAccount | services/account_service.py:2195-2258 | One attempt leases an account iff its round in time finds one and the remote answer says it is available; otherwise the slot is given back and the round says why. |
| SlotSelection.ImageSelector.GetAvailableAccessToken | services/account_service.py:2168-2273 | At most 20 attempts on pairwise distinct, not excluded accounts. The call ends with a token, whose slot it then holds, iff its last attempt leased an account; with quota exhausted iff all was limited from the start or every attempt was so confirmed; with a failure kind iff, quota aside, it is the only one seen; too late iff a deadline passed; unavailable only if no further account could be had or 20 attempts were made. |
| FailureRefresh.ResolveTwice | services/account_service.py:1265-1271 | Resolution is stable even where it ends in a cycle of dead tokens. |
| FailureRefresh.NoAccountTwice | services/account_service.py:4130-4171 | No live account is both active and pending, or queued or active under two tokens. |
| FailureRefresh.RefreshQueue.Schedule | services/account_service.py:4115-4178 | A request marks the active worker if forced, widens the pending entry, or appends one entry, unless refused for a start within 30 seconds; it is accepted iff the account is then queued or active, exactly the start times of active or recent refreshes are kept, and the queue invariant is kept. |
| FailureRefresh.RefreshQueue.StartOne | services/account_service.py:4182-4203 | Starts the oldest pending refresh iff fewer than the limit are active. |
| FailureRefresh.RefreshQueue.StartPending | services/account_service.py:4180-4203 | Starts pending refreshes oldest first and ends with none pending or the limit reached. |
| FailureRefresh.RefreshQueue.Finish | services/account_service.py:4205-4230 | The end of a worker frees its place and queues the account again iff a rerun was asked for and it is live, marked and not pending. |
| FailureRefresh.RefreshQueue.RenamePending | services/account_service.py:1472-1506 | A rotation renames pending entries without creating duplicates, joins their scopes and start times, and leaves active workers alone. |
| RefreshRuns.StepKeepsInv | services/account_service.py:4115-4267 | Every request, start, end, rotation, view change and pruning keeps the queue consistent and each live account queued or active at most once. |
| RefreshRuns.EveryStateIsGood | services/account_service.py:4115-4267 | The queue invariant holds in every state of every run. |
| RefreshRuns.ForcedRequestIsRequeued | services/account_service.py:4205-4230 | A request forced while its account was being refreshed is pending again when that worker ends, whatever rotations came between, if the account is live and still marked. |
| RefreshScopes.RequestScope | services/account_service.py:4152-4178 | A request that meets a pending entry makes it a full account refresh iff it was one or one is requested; a new entry has the requested scope; other entries keep theirs. |
| RefreshScopes.PendingScopeIff | services/account_service.py:4115-4230 | Over any run, rotations and reruns included, a pending entry is a full account refresh iff one of the requests that joined it since it was queued, under whatever token, asked for that. |
| RefreshOrder.FirstInFirstOut | services/account_service.py:4115-4230 | Over any run the refreshes started so far are those of the accounts queued first, in this order, and the rest is pending in that order, whatever tokens the accounts rotated to. |
| RefreshOrder.StartedInTurn | services/account_service.py:4180-4203 | The i-th refresh started is that of the i-th account queued, so no account overtakes another. |
| OAuthFlights.OneExchangePerGeneration | services/account_service.py:1766-1776 | At most one exchange per credential generation is in flight at any time. |
| OAuthFlights.NoOrphanedWaiter | services/account_service.py:1777-1790 | Whoever waits for a flight waits for one that is answered or still has its owner. |
| OAuthFlights.EveryStateIsGood | services/account_service.py:1700-1862 | The flight table invariant holds in every state of every run of joining, settling, leaving and outside replacement. |
| OAuthFlights.StoredAtMostOnce | services/account_service.py:1550-1632 | Over any run at most one answer obtained for a generation is stored. |
| OAuthFlights.StepAnswersOnce | services/account_service.py:1777-1790 | An answer is never changed, and a stored one replaces the account's current, unused generation. |
| OAuthFlights.StartIsCurrentIff | services/account_service.py:1741-1776 | In any run, an exchange starts from the current generation iff it started under the account lock or nothing replaced that generation since its request read it. |
| OAuthFlights.StaleExchangeCanStart | services/account_service.py:1765-1776 | A concrete run in which an exchange of a used generation starts outside the account lock. |
| OAuthFlights.StaleAnswerIsDiscarded | services/account_service.py:1550-1632 | An answer for a generation that is no account's current one, whatever replaced it, is not stored. |
| OAuthFlights.StaleStartIsNeverStored | services/account_service.py:1550-1632 | In any run, an exchange that is under way from a replaced generation is never stored, however much later it is answered. |
| OAuthFlights.AnswerIsStoredIff | services/account_service.py:1550-1632 | In any run, the answer to an exchange of an account's current generation is stored iff it brings new credentials and nothing gave the account others until then; it is then exactly what the account has. |
| OAuthFlights.NeededIsRefreshed | services/account_service.py:1741-1776 | A request that needs the current generation refreshed exchanges it or waits for the one exchange of it under way. |
| ImageResults.NormalizeKeys | services/account_service.py:314-329 | The loop keeps the last 256 distinct non-empty keys, each stripped of blanks and then cut to 256 characters. |
| ImageResults.LoadedRemembers | services/account_service.py:1079-1084 | The keys of every account whose list was normalised once are distinct, non-empty and without blanks at either end, whatever the raw list held. |
| ImageResults.CountedOnce | services/account_service.py:4321-4356 | A counted result raises success + fail by exactly one, and the stored keys change only if it has a key. |
| ImageResults.CountedEffects | services/account_service.py:4321-4356 | A counted result raises success or fail, as it turned out, and leaves the other; it takes one off a known quota iff it spends, never below zero, marks the quota unknown at zero, ends a limited status, and touches no other field. |
| ImageResults.RecognisedAfter | services/account_service.py:4287-4308 | After a result was counted, exactly the still remembered keys and the stored form of its own are taken for repeats; so its key is recognised iff the cut left no blank at its end. |
| ImageResults.RepeatInWindowChangesNothing | services/account_service.py:4300-4313 | In any run, keyless results included, repeating a key before 256 others were counted changes no counter, quota or key list iff its form has no blank at the end; otherwise it is counted every time. |
| ImageResults.StableMemory | services/account_service.py:4321-4327 | If no counted key ends in a blank after the cut, the account remembers exactly the last 256 counted. |
| ImageResults.FreshKeyCounts | services/account_service.py:4300-4313 | A key that was never counted is counted iff it is not remembered, which it can be only as the stored form of another, unstable key. |
| ImageResults.UnstableKeyCountsAgain | services/account_service.py:4287-4289 | A key of 255 letters, a blank and more is counted at every repeat, and the 255 letters alone are taken for its repeat. |
| ImageResults.EachKeyCountsOnce | services/account_service.py:4287-4371 | Over any run of one process success + fail grow by the number of distinct keys counted, plus the counted results without a key, plus the repeats of forgotten keys, plus the repeats of unstable ones. |
| ImageResults.ForgottenIsLate | services/account_service.py:4321-4327 | A repeat counts as forgotten only if its key is none of the last 256 counted. |
| ImageResults.KeysAfterMerge | services/account_service.py:600-642 | For any three accounts, the merge remembers the remote keys if the local list is unchanged and the local ones otherwise. |
| ImageResults.CountedAgainAfterMerge | services/account_service.py:600-642 | For any three accounts, a key one side had counted is counted again after the merge iff the other side's list was kept and lacks it. |
| ImageResults.KeysAreLostAcrossProcesses | services/account_service.py:600-642 | Two processes that count different keys at once keep both counts but one key, so the other counts again. |
| ImportAccounting.DecideAll | services/account_service.py:3031-3053 | The loop decides every distinct token once and its two counts add up. |
| ImportAccounting.AdjustForConflicts | services/account_service.py:3093-3098 | Additions the store turned out to have become updates, and the counts follow. |
| ImportAccounting.AddAccountItems | services/account_service.py:2992-3116 | One status per row; added + skipped + invalid is the number of rows; the returned count is the number of added statuses. |
| ImportAccounting.StatusMeans | services/account_service.py:3105-3116 | A row is invalid iff it has no token, added iff it is the first row of a token decided new that the store did not have. |
| ImportAccounting.LaterRowsChangeNothing | services/account_service.py:3031-3116 | Rows are decided in their order: for any rows, the statuses of the first n are those that importing these n alone gives. |
| ImportAccounting.KnownTokensAreSkipped | services/account_service.py:3032-3053 | A rotated token of a live account, a live token and a known fingerprint are never added, in whatever company. |
| ImportAccounting.KnownPrints | services/account_service.py:3023-3030 | After any rows the known fingerprints are exactly the pool's and those in the lineages, former ones included, of the rows that were stored. |
| ImportAccounting.LiveAfter | services/account_service.py:3031-3053 | After any rows the live tokens are exactly the pool's and those of the new rows. |
| ImportAccounting.NewRowIff | services/account_service.py:3031-3053 | A row is new iff its token leads to no live account, its fingerprint was not known, and no row stored before it has that fingerprint in its lineage. |
| ImportAccounting.OneNewPerFingerprint | services/account_service.py:3039-3046 | Once a row is stored, a later row with any fingerprint of its lineage, current or former, is never added. |
| ImportAccounting.FormerTokenFirst | services/account_service.py:3039-3046 | An unknown account whose row carries its former fingerprint is imported once if that row comes first and twice if the former token's row does. |
| RunnerSafety.PendingCommits | services/bounded_task_runner.py:185-202 | A commit succeeds iff the reservation is still pending; the full-queue and closed branches are never reached. |
| RunnerSafety.StepKeepsInv | services/bounded_task_runner.py:124-421 | Every step of callers and workers keeps the counters, the ledger of slots and tasks, and the futures. |
| RunnerSafety.Reachable | services/bounded_task_runner.py:101-421 | The invariant holds in every state reachable from a new runner. |
| RunnerTheorems.AcceptedWork | services/bounded_task_runner.py:124-212 | Accepted work is what is reserved, queued, in hand and active over all generations, at most the capacity; active callbacks never exceed the workers allowed, also across restarts; pending reservations belong to the current run. |
| RunnerTheorems.NeverFull | services/bounded_task_runner.py:195-199 | In every reachable state a pending reservation can be committed. |
| RunnerTheorems.TaskDisposal | services/bounded_task_runner.py:332-421 | Each task is started at most once or cancelled at most once, never both; each slot is released at most once and only when the task is nowhere; a future is resolved at most once. |
| RunnerTheorems.FutureAnswered | services/bounded_task_runner.py:230-272 | A submitted future is resolved exactly when its task is no longer queued, in hand, being run or owed a cancellation; the answer comes before its worker is free again. |
| RunnerTheorems.AllSlotsReturn | services/bounded_task_runner.py:204-212 | When nothing is outstanding, every slot ever given out was released exactly once. |
| RunnerTheorems.CancelledStartsNothing | services/bounded_task_runner.py:388-399 | A cancelled run stays cancelled and starts none of its tasks. |
| RunnerOrder.FirstInFirstOut | services/bounded_task_runner.py:185-202 | In every reachable state the tasks a run's workers took are the first ones committed to it, in the order of the commits, and its queue holds the rest in that order, unless the run was cancelled. |
| RunnerOrder.TakenInCommitOrder | services/bounded_task_runner.py:379-408 | The i-th task taken from a run is the i-th committed to it, so no later task overtakes an earlier one. |
| RunnerCrew.AcceptedWorkIsStaffed | services/bounded_task_runner.py:124-156 | In every reachable state a run with a queued task or a pending reservation was started, a started run got exactly as many workers as allowed, and none of them leaves while it admits tasks. |
| RunnerCrew.OpeningMeans | services/bounded_task_runner.py:124-143 | A start opens a fresh run iff admission was closed; a restart always does, and cancels the old run and its queue. |
| RunnerCrew.ShutdownMeans | services/bounded_task_runner.py:289-307 | A shutdown closes admission and drops the reservations; it cancels the run and its queue unless it waits, and waiting a second time changes nothing. |
| RunnerCrew.ReserveMeans | services/bounded_task_runner.py:145-156 | A reservation is made iff admission is open and capacity is left, and then for the current run. |
| RunnerTheorems.DrainingMayStrandATask | services/bounded_task_runner.py:381-387 | A concrete run in which draining leaves a committed task in the queue with no worker left. |
| RunnerDraining.DrainingStrandsTasksIff | services/bounded_task_runner.py:289-307 | In every execution, once the workers of a drained, not cancelled run have left, tasks are left iff at the shutdown some were queued while every worker had seen the queue empty and not yet looked at the mode. |
| RunnerDraining.DrainingTakesAllOrNone | services/bounded_task_runner.py:379-408 | In that case none of the tasks is ever taken; otherwise, in every later state, the queue is empty or a worker will still look at it. |
| BoundedTaskRunner.BoundedTaskRunner.Start | services/bounded_task_runner.py:124-132 | Opens admission, in a fresh run if the current one was closed, and creates its workers. |
| BoundedTaskRunner.BoundedTaskRunner.Restart | services/bounded_task_runner.py:134-143 | Cancels the current run's queued tasks, hands exactly those back, and opens a fresh run. |
| BoundedTaskRunner.BoundedTaskRunner.Reserve | services/bounded_task_runner.py:145-156 | Gives a slot iff the runner admits and the capacity is not used up. |
| BoundedTaskRunner.BoundedTaskRunner.Commit | services/bounded_task_runner.py:176-202 | Appends the task to its run's queue iff its reservation is still pending, exactly once. |
| BoundedTaskRunner.BoundedTaskRunner.Rollback | services/bounded_task_runner.py:204-212 | Releases an unused reservation exactly once. |
| BoundedTaskRunner.BoundedTaskRunner.Shutdown | services/bounded_task_runner.py:289-307 | Closes admission and leaves no pending reservation. |
| BoundedTaskRunner.BoundedTaskRunner.CloseLocked | services/bounded_task_runner.py:332-354 | The loops cancel exactly the current run's reservations and, unless draining, hand back exactly its queued tasks. |
| BoundedTaskRunner.BoundedTaskRunner.CancelReservation | services/bounded_task_runner.py:326-330 | Gives a pending reservation's slot back once. |
| BoundedTaskRunner.BoundedTaskRunner.DecideTask | services/bounded_task_runner.py:390-399 | A task in hand runs unless its run was cancelled meanwhile. |
| BoundedTaskRunner.BoundedTaskRunner.AfterEmpty | services/bounded_task_runner.py:384-388 | A worker that saw the queue empty leaves iff its run no longer runs. |
| BoundedTaskRunner.BoundedTaskRunner.CallbackOver | services/bounded_task_runner.py:251-262 | The future is resolved while the worker still counts as active. |
| BoundedTaskRunner.BoundedTaskRunner.TakeTask | services/bounded_task_runner.py:382-382 | A worker takes the oldest task of its own run. |
| BoundedTaskRunner.BoundedTaskRunner.EndTask | services/bounded_task_runner.py:404-408 | The worker gives up its active place and the task's slot at once. |
| AuthKeys.LegitKeepsUnique | services/auth_service.py:207-260 | Each committed create, edit, removal or use mark keeps hashes unique and names unique within a role. |
| AuthKeys.AlwaysUnique | services/auth_service.py:262-369 | Whatever callers and processes interleave, ids, hashes and names are unique in every state of the store. |
| AuthKeys.TouchChangesOnlyLastUse | services/auth_service.py:371-421 | A use mark creates, revives and re-enables nothing and changes only the last use of one enabled key. |
| AuthKeys.DecimalInjective | services/auth_service.py:249 | Numbered names differ for different numbers. |
| AuthKeys.TakenNamesNeedKeys | services/auth_service.py:243-252 | If the first n candidate names are taken, there are at least n keys. |
| AuthKeys.BuildDefaultName | services/auth_service.py:243-252 | The search ends in the first free candidate, with a suffix of at most the number of the role's other keys plus one. |
| AuthService.AuthStore.Mutate | services/auth_service.py:278-285 | A mutation commits iff its revision is current, changes nothing otherwise, and may fail. |
| AuthService.AuthService.RefreshIfDue | services/auth_service.py:110-147 | The cache is declared usable iff its last success is at most 30 seconds old; it never goes back to an older revision, a refresh that is due and undisturbed makes it usable, and a call that refreshes nothing leaves it as it was. |
| AuthService.AuthService.ReloadLocked | services/auth_service.py:88-100 | A reload fails iff the store cannot be read; otherwise it installs one revision's content, not older than the store was when it began. |
| AuthService.AuthService.Authenticate | services/auth_service.py:371-421 | An accepted key was held, enabled, by the store at an instant at most 30 seconds and one load delay before the freshness check, or later, and carries the new time of use; a use mark is given up only after four conflicts. A key is refused only if the cache is unusable, the store lacked it, enabled, in that same time, or a reload after a conflict failed; the call commits nothing but use marks. |
| AuthService.AuthService.CreateKey | services/auth_service.py:262-301 | Commits exactly the key it returns, new in id, hash and name and of the requested role, or nothing; it refuses only a taken name and is unavailable only if the store fails, conflicts on every attempt or the draws are spent. |
| AuthService.AuthService.UpdateKey | services/auth_service.py:303-344 | Commits exactly the edit it returns, with the requested name, state and key, or nothing; a key of another role is missing to it and never changed. |
| AuthService.AuthService.DeleteKey | services/auth_service.py:346-369 | Commits exactly the removal, or nothing; a key of another role is never removed. |
| Tails.TrimEarly | services/account_operation_events.py:269-270 | Trimming during a loop keeps what trimming at the end would keep. |
| EventLog.NormalizeEvents | services/account_operation_events.py:190-212 | The loop keeps the last records, numbered by position where they carry no number. |
| EventLog.NumbersAreKept | services/account_operation_events.py:32-49 | Every record stays, in order, under the positive number it carries, and under its position if it carries none; entries that are no records leave no trace. |
| EventLog.AppendEvents | services/account_operation_events.py:215-271 | The result is the last entries of the kept log and the valid additions, numbered on. |
| EventLog.NewAboveKept | services/account_operation_events.py:239-268 | New numbers increase and exceed every number kept. |
| EventLog.BatchIsFold | services/account_operation_events.py:274-302 | Appending a + b equals appending a, then b. |
| EventLog.NoNumberIsReused | services/account_operation_events.py:239-271 | Over any run from a log in order, the log is the end of the history and no number is used twice, whatever was cut off. |
| EventLog.NewAboveDroppedIff | services/account_operation_events.py:239-271 | For any log and at least one valid addition, all new numbers exceed all earlier ones, dropped ones included, iff the cut drops no number as high as the highest it keeps. |
| EventLog.OutOfOrderReuses | services/account_operation_events.py:239-271 | From a log out of order a cut can bring a number back. |
| ImportFailures.FailureAccumulator.Append | services/account_import_job.py:81-85 | The total counts every failure while only the last details are kept. |
| ImportFailures.FailureAccumulator.Extend | services/account_import_job.py:87-89 | Many failures count like as many single ones. |
| ImportFailures.NeverLowers | services/account_import_job.py:204-241 | The next total is never below the stored one, nor below the reported one. |
| ImportFailures.ResumedReportIsExactWhen | services/account_import_job.py:230-241 | For a worker that reports only the kept details and its additions the total is exact iff nothing was dropped, nothing is added, or fewer are added than were dropped. |
| ImportFailures.RemoteImportJob.Update | services/account_import_job.py:400-419 | Writes exactly the merged job, whatever fields are named, and fails iff the stored job is no longer this worker's; a report of the worker's totals leaves the exact count stored and nothing unwritten. |
| ImportFailures.RemoteImportJob.Fail | services/account_import_job.py:482-512 | Marks the job failed with one failure more than stored and the last 20 details; the count falls short by exactly the failures no checkpoint had written. |
| ImportFailures.RemoteImportJob.RecordFetches | services/cpa_service.py:385-408 | Over any sequence of fetches the stored job lacks exactly the failures since the last due checkpoint. |
| ImportFailures.NothingUnwrittenIff | services/account_import_job.py:106-116 | Nothing is unwritten iff no fetch failed since the last due checkpoint. |
| ImportFailures.FetchThenFail | services/account_import_job.py:482-512 | A job taken over, fetched for and then marked failed has the exact count iff no fetch failed since the last due checkpoint. |
| ImportFailures.UnwrittenFetchIsLost | services/account_import_job.py:482-512 | One failing fetch before any checkpoint is due is the input on which it does not. |
| ImportFailures.RemoteImportJob.RecordFetch | services/account_import_job.py:451-480 | A due checkpoint persists the total at the start plus every failure since, and the last 20 details; otherwise the failure stays unwritten. |
| ImportFailures.RemoteImportJob.Finish | services/account_import_job.py:550-782 | Every failure of storing, validating and synchronising is counted once and the final record has the exact total; it gives up iff the stored job is no longer this worker's. |
| ImportFailures.CheckpointGate.Mark | services/account_import_job.py:106-116 | A checkpoint is due after 20 items or a quarter second. |
| ImportFailures.FallbackKeepsTheCount | services/account_import_job.py:119-129 | Without usable statuses the reported number of additions is kept and nothing is called invalid. |
| ImportFailures.WhoFails | services/account_import_job.py:576-688 | If storing fails every fetched account fails under its name; otherwise exactly the accounts reported as invalid do, in order, followed by the failed synchronisations; unusable statuses make nobody fail. |
| ImportFailures.OneErrorPerInvalid | services/account_import_job.py:669-688 | One error per item that was refused. |

## Left out

- PoolProtocol.StepKeepsInv: a retry is taken only where the two sides did not add one account under two tokens; otherwise
  loading the merged view would rename one of the ids, which the model does not do.
- NoLostIncrements.NoIncrementIsLost: one operation per save either counts or rotates, as the account lock enforces; an
  account that is neither deleted nor added anew during the run is required, since both replace its counters.
- QuotaUse.NoUseIsLost: no operation of the run takes over an upstream snapshot of the quota; a snapshot that meets a use in
  conflict is what MergeTheorems.MergedQuota says. Two uses noted at the same instant are excluded, since the merge tells a use
  from a snapshot by the time of last use.
- PoolProtocol.MutationReachesDesired: a storage call that commits and then raises is not a step of the protocol; its effect
  on the slots is modelled by the raised outcomes of AccountRuntime.
- AccountMerge.MergeAccountFields: numbers stored as text are not read as integers; every counter is already an integer.
- AccountRuntime.AccountRuntime.ApplyRefreshedTokens: the views of the save bring no deleted account back, and those before a
  raised end hold the new token, as SaveOutcomes.ExchangeSurvivesConflict proves of the merges a guarded save makes.
- AccountRuntime.AccountRuntime.DeleteAccount: one account at a time, and no other deleted account comes back meanwhile.
- LeaseRuns.SlotsMatchLeases: deleted accounts are not added again under an old token, and rotations through the account
  edit form, which drop the new token's alias after saving, are not among the steps.
- SlotSelection.ImageSelector.AcquireNext: waiting is bounded by the number of passes given, after which the deadline counts
  as passed; a request without a deadline that waits for ever is not modelled.
- SlotSelection.ImageSelector.Release: what other threads do meanwhile keeps the lease accounting, so none of their saves raises
  and orphans a slot, the case that ViewEffects.RaisedRotation and ViewEffects.RaisedDeletion describe.
- FailureRefresh.RefreshQueue.Schedule: the requested token is one the process has held, as all callers pass.
- FailureRefresh.RefreshQueue.StartPending: no other thread acts between two of its starts, and the worker limit is fixed;
  RefreshRuns covers the interleavings start by start. A thread that fails to start, and the scopes kept for active
  workers, are not modelled.
- OAuthFlights.EveryStateIsGood: the exchange with the issuer and the bookkeeping of its errors are one nondeterministic
  answer; backoff, expiry and busy checks are the flag that says whether a refresh is needed.
- RunnerTheorems.TaskDisposal: futures cancelled by their holder from outside are not modelled; queue joins and thread
  joins, and the waiting they imply, are left out, so nothing is claimed about termination of a shutdown.
- AuthService.AuthService.Authenticate: the bound counts from the freshness check; the time spent waiting for the lock
  afterwards, and the delay of a load, come on top, as in the code.
- AuthService.AuthService.CreateKey: random keys and ids are finite lists of draws; running out of draws is reported as
  unavailable instead of drawing for ever. Names and keys arrive stripped of surrounding space.
- EventLog.BatchIsFold: the second append starts from the events of the first as they are; cleaning an event again is
  assumed to be needed only where the caller passes raw events.
- ImportFailures.RemoteImportJob.RecordFetch: the event list written with each checkpoint is the subject of EventLog.
- ImportFailures.RemoteImportJob.Fail: adopting the stored job's id when the worker has none is left out.
- ImportAccounting.AddAccountItems: merging the payload fields and choosing management ids is left out; a fingerprint is an
  uninterpreted function of the token.
- ImageResults.EachKeyCountsOnce: the mark that asks for a remote check after a failure is left out, and so are stored key lists
  with entries that are not text.
- Deleting, editing and adding accounts as whole service operations, proxies, cumulative totals and logs.
- OAuth, upstream, object storage and subprocess calls, and everything in the HTTP layer, backup and presentation.
- Token parsing, hashing, encryption and diagnostic cleaning, which stay uninterpreted.
