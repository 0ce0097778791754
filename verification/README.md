# Verified model of the deal-sourcing backend

A Dafny model of the stateful parts of the backend, with proofs of what they promise over whole runs.
`dafny verify dfyconfig.toml` checks everything.

The source changes rows, Redis keys and in-memory registries step by step, so every such operation is a
method of a class (or a loop over a list) that is proved equal to a specification function of the old
state.  The promises are then lemmas about those functions, over every run, every interleaving or every
input.

| component | files | main results |
|---|---|---|
| claims | `ClaimModel`, `ClaimProofs`, `ClaimDedup`, `ClaimSimilarity`, `ClaimHistory`, `ClaimStrength`, `ClaimStore` | over every history of observing, reconciling and deduplicating: supersession is a forest with current roots, edges are set once, agreement leaves exactly one supported claim, no evidence is dropped or mixed, in a dispute the strongest evidence takes over, reruns create nothing |
| provider clients | `ClientRegistry` | in every interleaving of get and close: one owner per pass, each object closed at most once per pass, every created client in exactly one place, and exactly which calls share one |
| queue and dispatcher | `TaskQueue`, `Dispatcher`, `DispatcherRuns` | the three lanes are one priority queue; over every run, wherever dispatches end early, each push waits, was handed over since or was lost by a dispatch that ended early; exactly when it was; the budget is accounted for to the last call |
| discovery pages | `DiscoveryPages`, `DiscoverJob` | interleaved WATCH, GET and EXEC refine an atomic counter; exactly when a page in flight is handed out again; who gives a page back |
| inbound delivery | `Fingerprint`, `InboundDelivery`, `InboundRuns`, `InboundRecords` | with repeated sends and crashes at every commit point the observations are stored once; exactly when success is not final; refusals are counted and waited out exactly; failures stand on record |
| identity | `Identity`, `IdentityReview` | blocking yields exactly the pairs sharing a key; merges lead to strictly older persons, so following them ends; exactly when an approval leaves observations on a merged person; pairs are flagged once and decisions stand |
| deals | `DealLifecycle`, `DealStages`, `DealRequests`, `DealAttempts`, `DealIntervals`, `DealDrafts` | over every run, whichever pipeline runs commit: the log replays to the stage, each stage has its one exact forward step, deals are approved and held exactly by decisions of that verb, every call spent and every task queued is accounted for, exactly when the log explains them, how often one deal is investigated, how far requests are apart; keys take effect once |
| candidate pages | `CandidateCursor`, `CandidatePaging` | a cursor returns its row; keyset pages neither repeat nor skip anybody |

Whatever the source leaves open is a parameter: clocks and the moment each observation's strength is read,
the iteration order of sets and of ties, which calls fail or raise although they took effect, what
providers and matchers answer, where a worker dies, and which transactions commit.  `Options` holds the
optional value and `Sequences` what several components say of lists.

## Where the code and its promises differ

In each case the code is modelled as it is, and the exact condition is proved.

- A succeeded inbound job is not final: a later delivery whose start fails, early or at its commit, while
  the failed state can still be written, turns it into a failed job; and so does a final commit that takes
  effect but raises, since the worker then writes a failure (`InboundRuns.SuccessIsKeptUnlessUndone`,
  `SuccessCanBeLost`, `MisledCommitLosesSuccess`).  If a start fails before the attempt was read, the
  attempt counter also goes back to 1 (`LedgerCountsAttempts`).  The observations are unaffected.
- The dispatcher holds the tasks it popped only in memory.  If it ends early, by an error of Redis or by
  cancellation, the task in hand and all later ones are lost, and a call paid for before the hand-over is
  spent in vain (`DispatcherRuns.RunsLoseNothing`, `PushIsLostIff`, `RunsInventNothing`,
  `CallIsWastedIff`, `StoppedDispatchLosesTask`, `StopAfterPayingWastesCall`); in runs without an early end
  nothing is lost (`QuietRunsLoseNothing`).  A hand-over that takes effect but raises leaves its task both
  handed over and waiting, with the call given back (`LostAnswerDoublesTask`).
- A pipeline run pays for and queues its work deal by deal, and commits stages and log once at its end.
  The log names exactly the requests of the runs that committed (`DealRequests.CommittedRequestsAreLogged`);
  it explains the queued work, and the calls spent, exactly if no other run queued, or paid, anything
  (`LogExplainsRedisIff`).  The limit of 20 calls for investigating one deal holds for the log only: each run
  that tries the deal and does not commit spends five more, without bound
  (`DealAttempts.InvestigationIsBounded`, `AbortedRunsInvestigateAgain`, `TwentyCallsAreExceeded`), and its
  requests do not count for the stuck interval (`DealIntervals.GateRequestsIff`).
- The stuck interval counts from the start of the run that made the request, not from the request: two
  requests are apart by the interval less the time the first run had taken until then
  (`DealIntervals.GatesKeepTheInterval`, `InvestigationsKeepTheInterval`, `ProgressShortensInterval`).  A
  retry of an investigation restarts the interval at its own time.
- Approving a match that went stale can merge into a person already merged, and leave observations and
  relations on it (`Identity.ApprovalKeepsSubjectsCanonicalIff`, `ApprovalKeepsRelationsTrueIff`,
  `StaleApprovalStrandsObservation`).  Merges still lead to older persons.
- A page reservation can repeat a page in flight, exactly when some holder is nine net reservations old,
  and the latest reservation can be withdrawn unless it is page 10 and page 1 after it was withdrawn
  first (`DiscoveryPages.ReservationLimitsIff`, `WrapRepeatsLivePage`, `PageTenIsSkipped`).
- A discovery delivery that is cancelled, rather than failing, keeps its page reserved, and so does one
  whose reservation took effect but did not return (`DiscoverJob.PageIsKeptIff`,
  `CancelledProviderCallKeepsPage`, `UnseenReservationKeepsPage`).
- The outbox backoff has a 300-second cap that its own exponent limit never reaches
  (`InboundDelivery.BackoffStopsAt256`).
- The pipeline run is described as idempotent, but every run makes one more draft request, and spends one
  more call, for exactly the deals that are ready for outreach when a call is left at their turn
  (`DealDrafts.DraftIsRequestedIff`, `DraftsRepeatEveryRun`).  The queue keeps one entry of the identical
  task while it waits; the calls are spent all the same.

## Model

| member | source | states |
|---|---|---|
| ClaimModel.Strongest | backend/app/processing/reconcile.py:274 | the observation chosen is one of the group and no other is stronger at the moments read |
| ClaimModel.MaxConfidence | backend/app/processing/reconcile.py:297 | the confidence stored is that of some observation of the group and bounds all of them |
| ClaimStrength.ConfidenceDecides | backend/app/processing/reconcile.py:108-115 | at equal age and moment the larger confidence is stronger, and a confidence of zero counts as one half |
| ClaimStrength.NewerIsNeverWeaker | backend/app/processing/reconcile.py:108-115 | at equal confidence the newer observation is never weaker |
| ClaimStrength.AgeTakesHalfAtMost | backend/app/processing/reconcile.py:108-115 | each full day takes a 365th of the confidence, until half of it is left |
| ClaimStrength.RankingIsSortedAndStable | backend/app/processing/reconcile.py:311 | the ranking of a group keeps its observations, never puts a stronger one behind a weaker one at the moments read, and keeps the query's order among equals |
| ClaimStrength.StrongestTakesOver | backend/app/processing/reconcile.py:272-345 | whoever a pass supersedes in a disagreeing scope yields to a contradicted claim of one observation that none of the scope beats; in an agreeing scope to the supported claim that cites them all |
| ClaimStrength.StrongerEvidenceWins | backend/app/processing/reconcile.py:309-345 | over any history, a claim of a disputed scope that a pass supersedes points to a claim with the value of an observation no weaker than any of the scope at the moments read |
| ClaimStrength.AgreeIff | backend/app/processing/reconcile.py:272-273 | a group disagrees exactly if two observations of the scope differ by more than white space around them |
| ClaimStrength.StripTakesSurroundingSpace | backend/app/processing/reconcile.py:272 | what is compared is the value without the longest white space before and behind it |
| ClaimModel.ScopesAreInhabited | backend/app/processing/reconcile.py:227-233 | the groups visited are exactly the (predicate, opportunity) scopes with an observation, each once |
| ClaimProofs.QueryIsOrdered | backend/app/processing/reconcile.py:210-215 | the query yields every row once, newest first, ties by descending id |
| ClaimProofs.GroupMembers | backend/app/processing/reconcile.py:227-229 | a group is exactly the rows of its scope, in query order |
| ClaimProofs.GroupGrows | backend/app/processing/reconcile.py:227-229 | appending rows leaves a group identical or adds an observation with a new id |
| ClaimProofs.AddKeepsTidy | backend/app/processing/reconcile.py:134-151 | a claim added because none matched never duplicates the status and evidence of another |
| ClaimProofs.WinnerSettles | backend/app/processing/reconcile.py:312-345 | recording a winner closes the scope's current claims in its favour and touches no other scope |
| ClaimProofs.AgreementSettles | backend/app/processing/reconcile.py:272-307 | new agreeing evidence leaves one current supported claim citing the whole group, whatever the scope held |
| ClaimProofs.DisputeSettles | backend/app/processing/reconcile.py:309-379 | a disagreeing group ends with a contradicted claim per observation, current claims all contradicted |
| ClaimProofs.ScopePassSettles | backend/app/processing/reconcile.py:233-379 | from any settled scope and any appended evidence, one pass settles the scope, adds edges only from current to current claims and touches nothing else |
| ClaimProofs.SettledIsStable | backend/app/processing/reconcile.py:205-209 | a pass over a settled scope changes nothing under any clock, even if the strength order changed |
| ClaimHistory.PassSettles | backend/app/processing/reconcile.py:201-387 | one pass settles every scope, whatever was appended since the last one |
| ClaimHistory.ReconcileIsIdempotent | backend/app/processing/reconcile.py:205-209 | reconciling settled claims again is the identity, at any clock |
| ClaimHistory.PassAddsAttestedClaims | backend/app/processing/reconcile.py:248-379 | each claim a pass adds carries the time of the pass, has the value and start of one observation it cites that no other cited one beats, and the largest confidence of those cited; no other claim's facts change |
| ClaimHistory.EvolvesKeepsForest | backend/app/processing/reconcile.py:154-167 | handing current claims over to claims that stay current keeps every chain finite and ending at a current claim of its scope |
| ClaimHistory.HandingOverKeepsSettled | backend/app/processing/dedup.py:87-93 | near-duplicate removal keeps every scope settled |
| ClaimHistory.SupersessionIsAForest | backend/app/processing/reconcile.py:154-167 | in every run, following supersession from any claim ends, inside its scope, at a current claim |
| ClaimHistory.EdgesAreSetOnce | backend/app/processing/reconcile.py:164-167 | across any part of a run a claim keeps its facts, and a superseded claim is never written again |
| ClaimHistory.EdgesLeadToStandingClaims | backend/app/processing/reconcile.py:161-167 | a step changes a claim only by superseding a current one with another claim of its scope that is current afterwards, closing validity at its start |
| ClaimHistory.AgreementHasOneClaim | backend/app/processing/reconcile.py:272-307 | in every run, a reconciled scope with two or more agreeing observations has exactly one current claim, supported and citing exactly them |
| ClaimHistory.NoEvidenceIsDropped | backend/app/processing/reconcile.py:233-379 | after a pass every observation is cited with its own value in its own scope; in a dispute by a contradicted claim of its own |
| ClaimHistory.ClaimsNeverMixEvidence | backend/app/processing/reconcile.py:224-226 | at every moment a claim cites only observations of its scope that say what it says, and no two claims of a scope share status and evidence |
| ClaimHistory.DisputesStayVisible | backend/app/processing/reconcile.py:309-379 | a disagreeing scope always has a current claim and all its current claims are contradicted |
| ClaimHistory.RerunsCreateNothing | backend/app/processing/reconcile.py:205-209 | after any history, any number of dedup passes and any passing of time, a rerun creates and changes no claim |
| ClaimDedup.SimilarIsSymmetric | backend/app/processing/dedup.py:19-28 | similarity does not depend on the order of the two vectors |
| ClaimSimilarity.SimilarIsCosine | backend/app/processing/dedup.py:19-28 | whenever the norms exist as numbers, similarity is a cosine of at least 0.92 |
| ClaimSimilarity.DissimilarWithoutVector | backend/app/processing/dedup.py:21-27 | an empty vector, one of another length and one of zeros are similar to nothing |
| ClaimSimilarity.ScalingChangesNothing | backend/app/processing/dedup.py:19-28 | scaling a vector by a positive number changes no similarity |
| ClaimSimilarity.SimilarToItself | backend/app/processing/dedup.py:19-28 | a non-zero vector is similar to itself, and to none opposite or at a right angle |
| ClaimSimilarity.BoundIsExact | backend/app/processing/dedup.py:15-28 | on unit vectors of the plane the bound 0.92 is met exactly from 0.92 on |
| ClaimSimilarity.FirstCitationsDecide | backend/app/processing/dedup.py:50-85 | near duplicates are claims of one scope whose first cited observations have similar vectors |
| ClaimDedup.PassIsDetermined | backend/app/processing/dedup.py:63-93 | the loop-free description of a pass has exactly one result |
| ClaimDedup.SurvivorsAreDistinct | backend/app/processing/dedup.py:66-93 | after a pass no two current claims of a scope are near duplicates |
| ClaimDedup.SecondPassChangesNothing | backend/app/processing/dedup.py:63-93 | a second pass, in any order of ties, changes nothing |
| ClaimDedup.PassEvolves | backend/app/processing/dedup.py:87-93 | each claim superseded points directly at a near duplicate that still stands and is no older; nothing else changes |
| ClaimStore.ClaimTable.FindMatchingClaim | backend/app/processing/reconcile.py:117-151 | a hit exactly when the table holds a claim of that scope, stripped value, status and evidence |
| ClaimStore.ClaimTable.CloseSupersededClaims | backend/app/processing/reconcile.py:154-167 | exactly the listed current claims of the predicate, other than the replacement, yield to it |
| ClaimStore.ClaimTable.AddAndClose | backend/app/processing/reconcile.py:301-305 | adding a row and closing the others is one replacement of the scope's current claims |
| ClaimStore.ClaimTable.ReconcileGroup | backend/app/processing/reconcile.py:237-307 | the branches over row references compute the specified table and the exact count |
| ClaimStore.ClaimTable.AddWinner | backend/app/processing/reconcile.py:312-345 | the winner is recorded unless already on record, and the list searched next holds exactly the opportunity's rows again |
| ClaimStore.ClaimTable.ReconcileContradiction | backend/app/processing/reconcile.py:309-345 | winner and counter-evidence are recorded as specified, with the exact count |
| ClaimStore.ClaimTable.AddLosers | backend/app/processing/reconcile.py:347-379 | the loop, searching a list it extends, adds exactly the missing counter-evidence |
| ClaimStore.ClaimTable.GroupObservations | backend/app/processing/reconcile.py:227-229 | the dictionary maps each scope, in order of first appearance, to its observations in query order |
| ClaimStore.ClaimTable.ListOpportunity | backend/app/processing/reconcile.py:234-236 | exactly the rows of the opportunity are listed |
| ClaimStore.ClaimTable.ReconcileEach | backend/app/processing/reconcile.py:231-379 | the loop over the groups, on a growing table, reconciles the scopes one after the other with an exact count |
| ClaimStore.ClaimTable.ReconcileObservations | backend/app/processing/reconcile.py:201-387 | the whole pass over the table in place equals its specification; the result is the number of rows added |
| ClaimStore.ClaimTable.DeduplicateClaims | backend/app/processing/dedup.py:47-103 | the nested loops compute the loop-free description; the count is exactly the claims that stopped being current |
| ClaimStore.ClaimTable.AbsorbNearDuplicates | backend/app/processing/dedup.py:73-93 | one round of the inner loop settles all later claims with respect to one newer claim |
| ClientRegistry.ProcessClients.GetOpenai | backend/app/client_lifecycle.py:43-77 | answer and new registry under the normalised key; refused while closing, reused if present |
| ClientRegistry.ProcessClients.GetTavily | backend/app/client_lifecycle.py:79-107 | the same for the other provider, whose keys can never coincide |
| ClientRegistry.ProcessClients.BeginClose | backend/app/client_lifecycle.py:113-130 | the first caller takes every entry, factory and distinct object; a later one changes nothing and learns what to await |
| ClientRegistry.ProcessClients.CloseEach | backend/app/client_lifecycle.py:139-154 | every closable object is tried despite failures; the failed set is exact and an error is reported exactly if it is not empty |
| ClientRegistry.ProcessClients.FinishClose | backend/app/client_lifecycle.py:155-176 | failed entries and their factories are reinstated and the registry opens again |
| ClientRegistry.EveryInterleaving | backend/app/client_lifecycle.py:62-179 | every interleaving of get, close, provider calls and wake-ups keeps ownership, conservation and call records coherent |
| ClientRegistry.OnePassAtATime | backend/app/client_lifecycle.py:113-137 | at most one task owns a shutdown pass, and nothing is registered meanwhile |
| ClientRegistry.ClosedAtMostOncePerPass | backend/app/client_lifecycle.py:123-128 | no object is closed twice in one pass, however many keys share it |
| ClientRegistry.ClientsAreLogged | backend/app/client_lifecycle.py:74-76 | every entry and every retirement is of the very client made under its serial |
| ClientRegistry.NoClientIsLost | backend/app/client_lifecycle.py:109-179 | the client made n-th is itself in exactly one of registry, running pass, retired; if retired and closable, it was closed successfully in a finished pass |
| ClientRegistry.PassEndsTruthfully | backend/app/client_lifecycle.py:155-176 | when a pass ends the registry holds exactly the entries whose close failed, and exactly the factories their keys name |
| ClientRegistry.CloseReturnsAfterThePass | backend/app/client_lifecycle.py:132-137 | a close call, owning or waiting, returns only after its pass has finished |
| ClientRegistry.KeysAgreeIff | backend/app/client_lifecycle.py:57-61 | two calls make the same key if and only if provider, API key and factory are equal and each optional text is, an empty one counting as missing |
| ClientRegistry.AnswersFitTheCall | backend/app/client_lifecycle.py:62-77 | in every interleaving a call is rejected exactly while a pass is running; otherwise it gets the client made for its own arguments if one is registered, and exactly if not, a new one |
| ClientRegistry.ClientsAreShared | backend/app/client_lifecycle.py:57-77 | until a pass begins, two calls are answered with one entry if and only if their arguments say the same, whatever else happens |
| TaskQueue.ZAddMembers | backend/app/collectors/queue.py:57-66 | a lane keeps one entry per task, in score order; only that task's entry changes |
| TaskQueue.LanesAreOneQueue | backend/app/collectors/queue.py:32-37 | high, normal and low in order are one queue in priority order |
| TaskQueue.LanesByPriority | backend/app/collectors/queue.py:32-37 | an entry is in the high lane from priority 10, in the normal one from 1, and in the low one below |
| TaskQueue.TextOrderIsLexicographic | backend/app/collectors/queue.py:57-66 | ties are ordered by the first difference of the texts |
| TaskQueue.EnqueueKeepsOk | backend/app/collectors/queue.py:50-66 | every lane stays ordered, without repeated tasks, holding only its own priorities |
| TaskQueue.EnqueueUpdatesOneEntry | backend/app/collectors/queue.py:50-66 | after an enqueue the queue holds the new entry and every former one, except the same task's entry of the same lane |
| TaskQueue.EnqueueAddsAtMostOne | backend/app/collectors/queue.py:57-66 | an enqueue adds at most one occurrence of its task and none of any other |
| TaskQueue.TakingIsByPriority | backend/app/collectors/queue.py:83-97 | what is popped has non-increasing priority, none below anything left; popped and left together are the queue |
| TaskQueue.LaneByLane | backend/app/collectors/queue.py:89-97 | popping lane by lane is taking the first entries of the one queue |
| Dispatcher.Redis.Enqueue | backend/app/collectors/queue.py:50-66 | the queue then holds the new entry and every former one, except the same task's entry of the same lane, and the lanes stay in order |
| Dispatcher.Redis.PopTopWithPriority | backend/app/collectors/queue.py:83-97 | returns and removes the first n entries of the one queue, or all of them |
| Dispatcher.Redis.Peek | backend/app/collectors/queue.py:100-113 | the same tasks as a pop would return, nothing removed |
| Dispatcher.Redis.TakeTurn | backend/app/collectors/jobs.py:1869-1895 | the turn of one popped task, whole or cut at any of its awaits, does to Redis what is specified; the cached budget stays the stored one |
| Dispatcher.Redis.DispatcherJob | backend/app/collectors/jobs.py:1848-1899 | the loop with its cached budget does what is specified, wherever it ends; if it ends regularly, it counts the hand-overs whose answer it got |
| Dispatcher.PoppingPartway | backend/app/collectors/queue.py:83-97 | a job that ends while it is popping has removed exactly the first entries of the one queue |
| Dispatcher.OneDelivery | backend/app/collectors/jobs.py:1868-1895 | a popped task is handed over exactly if its call is in the budget and the worker queue takes it; if not, it waits again, deferred to the low lane or with the priority it was popped with; if the answer was lost, both |
| Dispatcher.AccountBalances | backend/app/collectors/jobs.py:1868-1895 | wherever the loop ends, handed over, sent back and lost are together exactly what was popped, but for answers lost; the calls spent are the Tavily tasks handed over and those spent in vain, but for answers lost |
| Dispatcher.AccountSettles | backend/app/collectors/jobs.py:1868-1895 | wherever the loop ends, exactly the tasks its account sends back wait beside what waited, exactly those it hands over are handed over, in order, and the budget falls by exactly what it charges |
| DispatcherRuns.DispatchConserves | backend/app/collectors/jobs.py:1848-1899 | wherever a dispatch ends, what then waits, what it handed over and what it lost are together exactly what waited before, but for answers lost |
| DispatcherRuns.RunsLoseNothing | backend/app/collectors/jobs.py:1848-1899 | over any run, from each push of a task on, it waits in a lane, has been handed over since, or has been lost since by a dispatch that ended early |
| DispatcherRuns.QuietRunsLoseNothing | backend/app/collectors/jobs.py:1848-1899 | if no dispatch ends early, nothing is lost and no call spent in vain; if no answer is lost either, nothing is doubled |
| DispatcherRuns.PushIsLostIff | backend/app/collectors/jobs.py:1865-1895 | the last push of a task that did not wait already neither waits nor was handed over since if and only if a dispatch that ended early lost it since |
| DispatcherRuns.RunsInventNothing | backend/app/collectors/jobs.py:1848-1899 | over any run, what waits, was handed over or was lost was pushed as often, and budget, Tavily hand-overs and calls in vain make up the monthly limit, each but for answers lost; the budget is never negative |
| DispatcherRuns.CallIsWastedIff | backend/app/collectors/jobs.py:1873-1886 | a dispatch spends at most one call in vain: exactly if it ends early after a Tavily task was paid for, and before its hand-over was confirmed or its call given back |
| DispatcherRuns.StoppedDispatchLosesTask | backend/app/collectors/jobs.py:1865-1868 | one push, and a dispatch that ends after its pop: the task neither waits nor was handed over |
| DispatcherRuns.StopAfterPayingWastesCall | backend/app/collectors/jobs.py:1873-1881 | one push, and a dispatch that ends between paying and handing over: one call is spent without a hand-over |
| DispatcherRuns.LostAnswerDoublesTask | backend/app/collectors/jobs.py:1879-1887 | one push, and a hand-over that takes effect but raises: the task is handed over and waits again, and its call is given back |
| DiscoveryPages.EveryInterleavingIsCoherent | backend/app/collectors/queue.py:203-254 | in every interleaving, what a worker has read is current as long as EXEC would accept it |
| DiscoveryPages.CommandsRefineAtomicCounter | backend/app/collectors/queue.py:195-254 | every command is a step of an atomic counter: nothing, hand out the next page, or take back the page shown, which is then next again |
| DiscoveryPages.CounterStaysInRange | backend/app/collectors/queue.py:213-217 | the counter stays between 0 and 10 |
| DiscoveryPages.PagesComeInCycle | backend/app/collectors/queue.py:195-202 | without withdrawals the i-th reservation, whoever makes it, is the i-th page of the cycle 1 to 10 |
| DiscoveryPages.ConflictsAreRetried | backend/app/collectors/queue.py:204-230 | in every interleaving a failed EXEC starts the attempt over, and exactly the third one in a row ends the reservation without a page and the withdrawal without effect |
| DiscoveryPages.WindowIsKept | backend/app/collectors/queue.py:195-254 | as long as no reservation wraps onto a page in flight, every interleaving keeps the window |
| DiscoveryPages.ReservationsStayApart | backend/app/collectors/queue.py:227-249 | in such runs pages in flight are pairwise distinct, a withdrawal takes back the caller's own and latest reservation, and the next reservation returns that page again |
| DiscoveryPages.ReservationLimitsIff | backend/app/collectors/queue.py:213-249 | in such runs the next reservation repeats a page in flight if and only if some holder is nine net reservations old; the latest one can be withdrawn if and only if it is not page 10 with the counter at 0 |
| DiscoveryPages.WrapRepeatsLivePage | backend/app/collectors/queue.py:213-217 | a run in which two workers hold page 1 |
| DiscoveryPages.PageTenIsSkipped | backend/app/collectors/queue.py:245-249 | a run after which the latest reservation, page 10, cannot be withdrawn |
| DiscoverJob.DiscoverImpl | backend/app/collectors/jobs.py:731-797 | a handled reservation had exactly one rollback attempt; one left unhandled by cancellation is exactly characterised |
| DiscoverJob.Discover | backend/app/collectors/jobs.py:627-704 | failure or duplicate attempts exactly one rollback, success none; a page is kept without any exactly on success, early cancellation, or a reservation that did not return |
| DiscoverJob.PageIsKeptIff | backend/app/collectors/jobs.py:631-704 | the outcome, as a function of the faults, keeps a page that was taken if and only if it succeeds, is cancelled before giving the page back has begun, or the reservation took effect without returning |
| DiscoverJob.DeliveryEndsIff | backend/app/collectors/jobs.py:627-800 | a delivery succeeds exactly if no step it takes is disturbed, answers as a duplicate exactly for a finished job, and is cancelled only by a cancellation |
| DiscoverJob.UnseenReservationKeepsPage | backend/app/collectors/queue.py:203-228 | a reservation that took effect but raised fails the delivery with no attempt to give the page back |
| DiscoverJob.CancelledProviderCallKeepsPage | backend/app/collectors/jobs.py:749-751 | a delivery whose provider call is cancelled ends cancelled, with its page reserved and no attempt to give it back |
| Fingerprint.NumberOfDigits | backend/app/collectors/persistence.py:22 | the decimal length can be read back |
| Fingerprint.BuildPayload | backend/app/collectors/persistence.py:17-24 | the buffer extended part by part is the framing of all parts in order |
| Fingerprint.FramingWrittenOut | backend/app/collectors/persistence.py:17-24 | the framing, written out for a text and a missing part |
| Fingerprint.DecodeInvertsPayload | backend/app/collectors/persistence.py:4-7 | a decoder recovers every part, whatever bytes it holds |
| Fingerprint.PayloadIsInjective | backend/app/collectors/persistence.py:4-7 | two payloads are equal if and only if all parts are, a missing part counting as empty |
| InboundDelivery.SameIndexTextSameKey | backend/app/agents/inbound_job.py:57-70 | rows with equal index text have equal retry keys, so the unique index never refuses a deduplicated batch |
| InboundDelivery.CompletedHasEveryKeyOnce | backend/app/agents/inbound_job.py:332-352 | after storing, the keys are those stored before plus those of the batch, each once |
| InboundDelivery.CompletedTwice | backend/app/agents/inbound_job.py:315-318 | storing a batch whose keys are present adds nothing |
| InboundDelivery.Deduplicate | backend/app/agents/inbound_job.py:332-352 | the loop with its growing key set keeps exactly the rows with new keys, in order |
| InboundDelivery.JobRow.UpdateJob | backend/app/job_ledger.py:27-66 | the row's new state, field by field, with bounded attempt and progress |
| InboundDelivery.JobRow.StartJob | backend/app/job_ledger.py:69-94 | a succeeded or cancelled job is untouched; any other is running with the next attempt and no error |
| InboundDelivery.BackoffStopsAt256 | backend/app/outbox.py:70 | delays grow with the attempts, reach 256 seconds at eight and never the 300-second cap |
| InboundDelivery.ReadyPositions | backend/app/outbox.py:49-56 | the rows fetched are pending and due, in creation order; one left out is later than all of them, and only if the limit was reached |
| InboundDelivery.Outbox.DispatchPending | backend/app/outbox.py:41-80 | sends happen in order; rows change only on commit, each ready one to dispatched or delayed; the counts add up |
| InboundDelivery.AttemptSends | backend/app/outbox.py:60-77 | the loop over the fetched rows updates exactly them and sends exactly the accepted ones |
| InboundRecords.BackoffDoubles | backend/app/outbox.py:70 | the delay is two seconds after the first refusal, doubled with each further one until 256 |
| InboundRecords.PassOverOutbox | backend/app/outbox.py:41-80 | a committed pass dispatches exactly the fetched events that were accepted; a refused one counts one more attempt and is due exactly after its delay; no other changes |
| InboundRecords.AcceptedAreSent | backend/app/outbox.py:60-77 | the messages sent are those of the accepted events, each once |
| InboundRecords.RefusalsAreCounted | backend/app/outbox.py:49-79 | in every run the attempts grow by exactly the committed refusals of a due event, and it is due exactly when the doubled delay after the last one has passed; nothing else changes either |
| InboundRecords.SendsAreTries | backend/app/outbox.py:49-66 | a message is sent exactly by a try of the pending and due event that is accepted |
| InboundRecords.UpdateSaysWhatChanges | backend/app/job_ledger.py:27-66 | an update keeps what it does not speak of, and stores what it says, attempt and progress within their bounds |
| InboundRecords.FailureIsRecorded | backend/app/job_ledger.py:27-66 | a failure written down leaves the job failed and finished, with that failure's phase, attempt and error |
| InboundRecords.OnlyFailuresFail | backend/app/agents/inbound_job.py:122-470 | only a failure written down makes a job failed |
| InboundRecords.ProgressIsRecorded | backend/app/agents/inbound_job.py:144-463 | an undisturbed delivery leaves, commit by commit, a running job without error in its phase and attempt, and at last a complete one |
| InboundRecords.KeysAgreeIff | backend/app/agents/inbound_job.py:57-70 | rows have equal retry keys if and only if they say the same, a missing locator counting as the empty object |
| InboundRecords.EveryRowIsStoredOnce | backend/app/agents/inbound_job.py:315-376 | once the job succeeded, whatever was repeated, every row of the submission is stored, once, and no other |
| InboundRuns.EveryRun | backend/app/agents/inbound_job.py:122-470 | the invariant behind the results below holds in every run |
| InboundRuns.EffectHappensOnce | backend/app/agents/inbound_job.py:315-376 | with repeats and crashes at every commit point, no key is stored twice; the rows are none or those of one clean delivery, and all of them once the job succeeded |
| InboundRuns.RowsAreWrittenOnce | backend/app/agents/inbound_job.py:315-376 | once stored, the rows never change again |
| InboundRuns.SuccessIsKeptUnlessUndone | backend/app/agents/inbound_job.py:144-163 | after success an event changes job or rows if and only if it is the written failure of a start, before or at its commit, or of a final commit that took effect but raised |
| InboundRuns.SuccessCanBeLost | backend/app/agents/inbound_job.py:144-163 | runs, one for each kind of failed start, in which a succeeded job ends as failed |
| InboundRuns.MisledCommitLosesSuccess | backend/app/agents/inbound_job.py:446-470 | a final commit that takes effect but raises: success is stored, and then a failure over it |
| InboundRuns.SuccessIsFinal | backend/app/job_ledger.py:83-86 | over any continuation in which no such failure is written, success is final |
| InboundRuns.LedgerCountsAttempts | backend/app/agents/inbound_job.py:144-163 | in every run a succeeded job is complete in every field, and the attempt on record rises by one with each delivery that starts the job, also if only the failure of its commit is written; a start that raises before the attempt is read writes 1 |
| InboundRuns.RedeliveryRepairs | backend/app/agents/inbound_job.py:398-457 | from every state of every run an undisturbed redelivery succeeds with the clean rows, unless the job was cancelled |
| InboundRuns.PendingUntilSent | backend/app/outbox.py:60-79 | an event is marked dispatched only after a message was sent; a try refused or not committed leaves it pending and due again 256 seconds later at most |
| Identity.ChoiceIsOlder | backend/app/identity/resolve.py:154-161 | of a pair in id order the person kept is strictly older in (creation, id) |
| Identity.FollowChain | backend/app/collectors/jobs.py:161-166 | the loop ends, at the canonical person the merges lead to |
| Identity.MergeKeepsOrdered | backend/app/identity/merge.py:127-130 | a merge into an older person keeps every merge leading to a strictly older person |
| Identity.RootAfterMerge | backend/app/identity/merge.py:127-130 | a merge redirects exactly the persons that led to the one merged away |
| Identity.FileUnder | backend/app/identity/resolve.py:116-120 | a person is appended under each of its keys and nowhere else |
| Identity.InvertKeys | backend/app/identity/resolve.py:114-120 | under each key the index lists exactly its holders, in load order |
| Identity.PairsOfOne | backend/app/identity/resolve.py:127-131 | the two loops add exactly the ordered pairs of one list |
| Identity.PairsOfAll | backend/app/identity/resolve.py:122-131 | the pairs are exactly those filed together under some key |
| Identity.CandidatePairs | backend/app/identity/resolve.py:114-131 | the pairs are exactly the unordered pairs of persons that share a key |
| Identity.Session.MergePersons | backend/app/identity/merge.py:28-143 | the bulk updates together are the specified merge; a missing person is an error and an already merged one a no-op |
| Identity.Session.ResolveIdentities | backend/app/identity/resolve.py:133-202 | the pair loop computes the specified database; merged and flagged counts are exact |
| Identity.Session.ResolveAll | backend/app/identity/resolve.py:91-204 | a whole run evaluates each pair sharing a key exactly once, in whatever order |
| Identity.ResolutionFollows | backend/app/identity/resolve.py:137-202 | for any pair order, observations and relations follow to canonical persons, exactly the relations joining merged persons are gone, and canonical persons fall by exactly the merges |
| Identity.ResolutionKeepsClean | backend/app/identity/merge.py:84-111 | rows about canonical persons only, and no self-relations, is kept by a run |
| Identity.Session.Approve | backend/app/api/routes/collection.py:666-718 | each refusal changes nothing; otherwise the specified merge and an approved match |
| Identity.Session.RejectMatch | backend/app/api/routes/collection.py:719-747 | each refusal changes nothing; otherwise only the match is written |
| Identity.ApprovalKeepsSubjectsCanonicalIff | backend/app/api/routes/collection.py:683-704 | an approval keeps observations on canonical persons if and only if the person kept is canonical or nothing had to move |
| Identity.ApprovalKeepsRelationsTrueIff | backend/app/identity/merge.py:91-111 | an approval leaves every relation joining the canonical persons its ends lead to if and only if the person kept is canonical or no relation had to move |
| Identity.StaleApprovalStrandsObservation | backend/app/api/routes/collection.py:683-704 | a stale match whose approval leaves an observation on a merged person |
| Identity.MergesLeadToOlderPersons | backend/app/api/routes/collection.py:694-702 | in every run, stale approvals included, merges lead to strictly older persons and following them ends at a canonical one |
| IdentityReview.PairIsHandled | backend/app/identity/resolve.py:137-200 | by verdict, a pair of canonical persons is merged into the older, waits for review with one match more exactly if it did not, or stays as it is |
| IdentityReview.StalePairIsPassedOver | backend/app/identity/resolve.py:137-142 | a pair with a missing or merged person changes nothing |
| IdentityReview.ApprovalIsStored | backend/app/api/routes/collection.py:673-712 | a pending match of two stored persons, and no other, is stored as approved, alone, and can then be neither approved nor rejected |
| IdentityReview.RejectionIsStored | backend/app/api/routes/collection.py:719-747 | the same for rejections, which change no person |
| IdentityReview.PairsAreFlaggedOnce | backend/app/identity/resolve.py:166-192 | in every run no pair waits for two decisions at once |
| IdentityReview.DecisionsStand | backend/app/api/routes/collection.py:673-747 | whatever follows, a decided match is never written again, and no match changes its persons |
| DealLifecycle.RanksFall | backend/app/lifecycle.py:30-144 | every transition of the table lowers the rank, and none leads back to the early stages |
| DealStages.TableIsAChain | backend/app/lifecycle.py:30-144 | the table is one chain of stages, plus closing an open deal, skipping the contact and approving without a hold |
| DealLifecycle.Store.TransitionOpportunity | backend/app/opportunity_service.py:227-282 | an invalid transition is refused, one to the present stage writes nothing, any other changes the stage and logs it |
| DealLifecycle.Store.AdvanceInvestigating | backend/app/agents/lifecycle_job.py:264-343 | the retry, timeout and outreach branches do what is specified |
| DealLifecycle.Store.PassGate | backend/app/agents/lifecycle_job.py:353-515 | a gate advances if its output exists, else queues the work once per interval if the budget allows, else does nothing |
| DealLifecycle.Store.AdvanceOpportunity | backend/app/agents/lifecycle_job.py:206-518 | one opportunity moves as specified for its stage, evidence, log and budget; cut after paying, it has spent exactly the price of that move |
| DealLifecycle.Store.AdvancePipeline | backend/app/agents/lifecycle_job.py:171-520 | the loop over the batch, each opportunity seeing what the ones before left; a run that ends before its commit leaves the database as it was and Redis as far as it had come |
| DealLifecycle.MovesAreGuarded | backend/app/agents/lifecycle_job.py:206-518 | every move of the pipeline respects the table, its evidence gate, its budget and the retry limit |
| DealStages.ForwardStep | backend/app/agents/lifecycle_job.py:206-515 | a turn leads each stage to its one successor if and only if its evidence is there, and closes a deal if and only if it timed out after three retries |
| DealStages.CollectionSignals | backend/app/collectors/jobs.py:905-911 | collection moves exactly a discovered deal on to interesting, with an event |
| DealStages.TurnAsks | backend/app/agents/lifecycle_job.py:244-515 | what a turn pays for and queues, with its price, for each stage, and that it is nothing otherwise |
| DealStages.PipelineOnlyTimesOut | backend/app/agents/lifecycle_job.py:266-283 | in every run the pipeline approves and holds no deal, and its events end in closed exactly with the timeout reason, out of investigation |
| DealLifecycle.Store.RecordDecision | backend/app/api/routes/candidates.py:1178-1310 | each refusal in the source's order, replay of a known key, or one change and one event |
| DealStages.DecisionIsAcceptedIff | backend/app/api/routes/candidates.py:1172-1265 | under a new key a decision is accepted if and only if key and reason are well formed, the candidate is a founder of the deal, the memo exists, and the stage allows the verb |
| DealStages.DecisionIsRefusedFor | backend/app/api/routes/candidates.py:1188-1265 | under a new key each refusal comes exactly for its reason, in the source's order: key, candidate, link, reason, stage, memo |
| DealStages.DecisionTakesEffect | backend/app/api/routes/candidates.py:1236-1310 | an accepted decision is stored, word for word, and moves the deal where its verb says; a refused one changes nothing |
| DealStages.VerbsLeadWhereTheySay | backend/app/api/routes/candidates.py:1172-1176 | in every run a stored event ends in approved, or on hold, if and only if its verb is to proceed, or to hold, and a decline ends in closed |
| DealStages.StageIsLastDecision | backend/app/api/routes/candidates.py:1172-1310 | in every run a deal is approved, or on hold, if and only if its last stage change is an accepted decision of that verb, and closed if and only if it is a decline or the timeout |
| DealLifecycle.EveryRun | backend/app/agents/lifecycle_job.py:171-520 | the invariant behind the results below holds in every run of pipeline, collection and human decisions, whichever pipeline runs commit |
| DealStages.EveryRunIsLawful | backend/app/agents/lifecycle_job.py:206-515 | in every run each stored event has the stages that belong to its reason or verb |
| DealLifecycle.LogReplaysToStage | backend/app/opportunity_service.py:262-271 | replaying the stored events from the initial stage yields the present stage |
| DealLifecycle.StageChangesAreBounded | backend/app/lifecycle.py:30-144 | stage changes are at most the fall in rank, never more than ten |
| DealLifecycle.LateStagesHaveEvidence | backend/app/agents/lifecycle_job.py:431-515 | diligence and later open or approved stages have axes; memo-ready, hold and approved have a succeeded memo |
| DealLifecycle.BudgetAndAttemptsAreBounded | backend/app/agents/lifecycle_job.py:250-323 | the agent budget is never negative, and the log has at most one start and three retries of a deal's investigation |
| DealLifecycle.FinalStagesAreAbsorbing | backend/app/lifecycle.py:121-138 | an approved or closed opportunity keeps its stage whatever follows |
| DealLifecycle.KeysTakeEffectOnce | backend/app/api/routes/candidates.py:1210-1236 | no idempotency key is stored twice in any run |
| DealLifecycle.AcceptedDecisionsAreFinal | backend/app/api/routes/candidates.py:1206-1236 | after an accepted decision and any later run, the same request is answered identically, every other use of its key is refused, and neither changes anything |
| DealRequests.BudgetPaysForRequests | backend/app/agents/lifecycle_job.py:250-520 | in every run, whichever pipeline runs commit or are cut, the calls spent are the cost of all requests made, and the work queued is that of the requests not cut before queueing, in order |
| DealRequests.CommittedRequestsAreLogged | backend/app/agents/lifecycle_job.py:255-520 | in every run the log names exactly the requests of the pipeline runs that committed, in order, each at the start of its run |
| DealRequests.LogExplainsRedisIff | backend/app/agents/lifecycle_job.py:250-520 | the queued work is what the log says if and only if no run queued work without committing; the calls spent are what the log says if and only if no run paid without committing |
| DealAttempts.InvestigationIsBounded | backend/app/agents/lifecycle_job.py:250-300 | the calls spent on investigating a deal are five for each start and retry on its log and for each run that tried it and did not commit: at most 20, and 5 for each of those runs |
| DealAttempts.AbortedRunsInvestigateAgain | backend/app/agents/lifecycle_job.py:244-262 | n runs over a deal that awaits its investigation, none committing, spend 5 n calls, change neither deal nor log, and queue n investigations, or none if each is cut after paying |
| DealAttempts.TwentyCallsAreExceeded | backend/app/agents/lifecycle_job.py:244-262 | a run in which a deal still waiting for its investigation has cost 25 calls |
| DealIntervals.GateRequestsIff | backend/app/agents/lifecycle_job.py:60-77 | in every run, a stage that misses its output requests it if and only if the budget allows and every earlier request of a committed run belongs to a run that started longer ago than the interval |
| DealIntervals.GatesKeepTheInterval | backend/app/agents/lifecycle_job.py:353-515 | in every run and under any clock, a request for a missing output comes later than any logged one for the same output by more than the interval less the progress of that one's run |
| DealIntervals.InvestigationsKeepTheInterval | backend/app/agents/lifecycle_job.py:264-300 | the same for investigations, if no other job sets the row of a deal under investigation back in time; after a retry the whole interval is kept |
| DealIntervals.ProgressShortensInterval | backend/app/db/models.py:46-51 | two runs whose requests are apart by the interval less the progress of the first run, and one |
| DealDrafts.DraftIsRequestedIff | backend/app/agents/lifecycle_job.py:302-343 | a run over a batch requests a draft for a deal if and only if the deal was ready for outreach when the run began and a call is left when its turn comes |
| DealDrafts.DraftsRepeatEveryRun | backend/app/agents/lifecycle_job.py:302-343 | n runs over a deal ready for outreach make n draft requests and spend n calls |
| CandidateCursor.ScanInvertsBase64 | backend/app/api/routes/candidates.py:755-768 | the lenient decoder inverts padded base64url for every text |
| CandidateCursor.ShortVectors | backend/app/api/routes/candidates.py:755-768 | the encodings of three test vectors of section 10 of RFC 4648 |
| CandidateCursor.UrlSafeVector | backend/app/api/routes/candidates.py:755-768 | the two symbols that are safe in a URL |
| CandidateCursor.UnpaddedRoundTrip | backend/app/api/routes/candidates.py:755-768 | stripping the padding and putting it back by length loses nothing |
| CandidateCursor.CursorRoundTrip | backend/app/api/routes/candidates.py:741-784 | a cursor decodes to its row under the same filters and is refused under any others |
| CandidatePaging.PageIsPrefix | backend/app/api/routes/candidates.py:922-988 | a page is the first rows beyond the cursor: all, or as many as asked for if more follow, with the last one as next cursor |
| CandidatePaging.NobodyTwice | backend/app/api/routes/candidates.py:838-847 | under any inserts and removals between requests, following cursors returns strictly descending rows, so nobody twice |
| CandidatePaging.EverybodyPresentIsReturned | backend/app/api/routes/candidates.py:922-988 | whoever is in the table of every request until the walk ends is returned |
| CandidatePaging.OnlyPersonsAreReturned | backend/app/api/routes/candidates.py:925-928 | whoever is returned was in the table of some request |
| CandidatePaging.FixedTableIsReturned | backend/app/api/routes/candidates.py:922-988 | on an unchanging table the walk from any cursor ends, and its pages are exactly the rows beyond it |
| CandidatePaging.FixedTableFromTheStart | backend/app/api/routes/candidates.py:922-988 | from the first page, the pages are the whole table in order |

## Left out

- Claims: one person is fixed, claims come only from reconciliation, and a claim's id is its position in the table; person merges inside a claim history are not modelled (a merge does not reassign claims).
- Claims: trust scores, artifact metadata and the claim-observation link table.
- Missing timestamps: an observation without `observed_at`, and persons without a creation time.
- Floating point: scores and vectors are reals, and similarity compares squares instead of taking roots.
- Network, database, object storage, PDF parsing, model calls and logging: only their outcomes appear, as parameters or events.
- Digests (MD5, SHA-256) and JSON text: results are about the text before the digest; the JSON printer and parser of the cursor are parameters, and a task is its canonical text.
- ClientRegistry.ProcessClients.GetOpenai: a factory that returns None, for which the source would call it again, is not modelled.
- ClientRegistry.ProcessClients.GetTavily: the same.
- Cancellation of a waiting or finishing close call; of close itself only what the loop catches.
- Registry storage: the close protocol of `storage.py` is the one-slot case of the client registry.
- Queue maintenance: depth report, clearing, budget initialisation and reset, resetting a page counter; the same task in two lanes is allowed, as in the source.
- Two dispatchers, two pipeline runs or two deliveries of one submission at the same time: budgets are read and spent in separate steps, and nothing is promised then.
- InboundDelivery.Outbox.DispatchPending: a payload that cannot be read is one of the refusals; row locks, the time of dispatch and the error text are left out.
- InboundDelivery.JobRow.UpdateJob: timestamps are reduced to whether they are set; an unknown job id is the missing job of `InboundRuns`.
- Cancelling a job through the API while it runs.
- DiscoverJob.Discover: what happens after the provider answered is one step that may fail; whether a failure is raised again or returned is not distinguished.
- Identity.Session.MergePersons: handles, names, e-mail, score snapshots and opportunity founders.
- Matching scores: the verdict on a pair is a parameter, and so are the blocking keys of a person.
- DealLifecycle.Store.AdvancePipeline: selection, order and locking of the batch, and the counters it reports; the readings of the clock within the turn of one deal are one reading.
- DealLifecycle.Store.QueueWork: an investigation is one piece of work, which a run cut while it queues the three tasks has either queued or not.
- DealLifecycle.Store.RecordDecision: proposals and service-level metadata; key and reason arrive already stripped.
- DealLifecycle.Store.TransitionOpportunity: service-level initialisation on receipt.
- Log texts: the pipeline's reasons are distinct values, which its text searches tell apart.
- The route by which a deal becomes contacted, and the submission that opens a received one, beyond its initial stage.
- Candidate lists: search, filters, totals and the data joined to each row.
- Scoring formulas, service-level arithmetic, privacy and source policies, status normalisation and the frontend: single-branch or bounded-mean facts.
- Migrations.
