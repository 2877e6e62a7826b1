# SmartStay search execution: a Dafny model and its proofs

SmartStay's backend runs hotel searches through a queue that is shared by many clients and
many workers, keeps the results in sessions that other requests continue, and guards every
step with leases, fences, bounded pools and caches. This project models those mechanisms and
proves what they promise over every run, together with the computations on the results:
merging, price scores and ranking.

Each component is written twice. A value-level specification (functions on a state) carries
the theorems: invariants over arbitrary sequences of steps, exact conditions, round trips.
Where the program changes state in place, a class or a method with loops does so too, and is
proved to compute the specification. Concurrency is a step system: every awaited command is
one step, a step may take effect and lose its reply, and a statement about all step sequences
is a statement about all interleavings.

| files | component |
|---|---|
| `Common`, `OrderedMaps`, `Sorting`, `BestPerKey` | shared vocabulary: options, insertion-ordered maps, sorting by a comparison, best item per key |
| `SearchAdmission`, `AdmissionLeases` | the seven atomic admission scripts over three keys, what each answers and writes, and how long an admission lasts |
| `SearchSessions`, `SearchSessionStore`, `SessionWrites`, `ContinuationLease` | the session map, its in-place store, what each operation accepts and stores, and the continuation lease over whole runs |
| `ContinuationProtocol`, `ContinuationExclusion`, `ContinuationLoss` | requests that continue a search as a step system over the session store: exclusion, lost leases, writes without a lease |
| `ContinuationHotels`, `ContinuationEnds` | under that step system: what becomes of the hotels, and what a request leaves when it ends |
| `StoredExecutions`, `LeaseCoupling`, `ExecutionSteps`, `ProtocolBounds`, `StaleListRun` | the stored executions under that step system: how each step moves them, when a step does not, bounds on attempts and calls over its runs, and a run that breaks them |
| `QueuedSearch`, `QueuedSearchSafety`, `SlotReturns`, `QueuedSearchRuns` | clients, workers, queue, ledger and sessions as one step system, its safety, when a slot is given back, and concrete runs |
| `AttemptOwnership`, `AdmissionSaga` | what workers and clients decide at each step, and that an attempt without its admission stores nothing |
| `JsonText`, `JsonEquality` | stable serialisation and fingerprint text, and when two texts are equal |
| `ProviderExecutions`, `ProviderOutcomes`, `ContinuationPass`, `RetryBounds` | the state machine of a provider's part of a search, where each result takes it, one continuation request, bounds on attempts and calls |
| `ProviderCapacity`, `CapacityCoordinator`, `ProviderCalls`, `CapacityDecisions` | the two-level semaphore, the same in place, its composition with timeouts, and who is granted, queued and refused |
| `IdempotencyCache`, `IdempotencyEviction`, `IdempotencyStore`, `SearchIdempotency` | the record cache, which records it gives up, the same in place, and whole runs of clients and executions |
| `AnalyticsJourneys`, `AnalyticsAggregates`, `AnalyticsRuns`, `JourneyMarks` | journey accounting, the same in place, whole runs with retention, and what a journey is counted under |
| `OfferMerge`, `HotelMerge`, `MergeSignals`, `HotelResults` | offers, two hotel records, what their signals mean, whole result lists |
| `PriceBaseline`, `PriceQuantiles`, `PriceScores`, `PriceWeights`, `HotelRanking` | quantiles and outlier fences, their exact values, price scores, what they weigh, the ranking order |

Check everything with `dafny verify dfyconfig.toml`.

## Where the program falls short of its own promise

The code is modelled as it is; each of these has an exact condition and, where a run is
needed to show that it occurs, a run from the start.

- Admission numbers start again after a reset: a begin hands out one more than the begins
  since then (`SearchAdmission.BeginHandsOutIff`), so adoption can hand out the same (token,
  number) pair twice (`SearchAdmission.SamePairIsIssuedTwice`). Safety rests on the session's
  claim (`QueuedSearchSafety.ReissuedFenceCannotClaimAgain`).
- A client's compensating release removes its record exactly when nobody has begun on it
  since it was created or adopted (`SearchAdmission.CompensationSparesBegunRecords`). In a run
  of clients and workers it removes one that was begun, expired and was adopted again
  (`QueuedSearchRuns.CompensationRemovesABegunRecord`).
- Two writes settle a search. An attempt that has stored its results gives its slot back
  exactly when the response is a success and the store's reply arrives
  (`SlotReturns.SlotIsReturnedIff`), one that has marked its search as failed exactly when that
  reply arrives (`SlotReturns.FailedSlotIsReturnedIff`). Otherwise the slot of the settled
  search stays taken (`QueuedSearchRuns.UnsuccessfulRunKeepsItsSlot`,
  `QueuedSearchRuns.FailedRunKeepsItsSlot`) until a redelivery, which gives it back exactly
  while the session lives (`SlotReturns.RedeliveryReturnsTheSlotIff`), or until the lease's
  expiry (`SlotReturns.ExpiryReturnsTheSlot`).
- A continuation request that writes before it has a lease overwrites the executions recorded
  since it read, unless a lease is active or it carries the same list
  (`ContinuationLoss.RecordedExecutionsSurviveIff`). A poll that read a search while it was
  queued can so erase the executions of the finished search
  (`ContinuationLoss.StalePollErasesExecutions`).
- A cursor can get more attempts than its limit in two ways. The first lies in the moves of the
  execution itself: an attempt is recovered after the limit was used up and another is begun.
  For the moves of one execution value that is the exact condition
  (`RetryBounds.LimitIsExceededIff`, `RetryBounds.FreshRunExceedsTheLimit`).
- The second is a write without a lease that brings back an older list. There is a run of the
  protocol, without any recovery, in which a poll that waited makes an ended execution runnable
  again and a cursor with limit two gets a third call
  (`StaleListRun.StaleListAllowsAnotherCall`). Once a search is settled, a step moves its stored
  executions otherwise than by begins, results and recoveries exactly when it is an accepted
  write without a lease whose list is neither the stored one nor its recovery
  (`ExecutionSteps.ListMovesIff`). Along every run of the protocol without such a step the
  bounds on attempts and calls, the exact condition above, and the finality of ended executions
  hold (`ProtocolBounds.ProtocolRetryBound`, `ProtocolBounds.ProtocolListBound`,
  `ProtocolBounds.ProtocolLimitIff`, `ProtocolBounds.ProtocolEndedForGood`).
- The session store alone lets a claim of an initial search end an active continuation lease,
  exactly when the search is not settled and the claim's number is new
  (`ContinuationLease.ClaimEndsALeaseIff`). The protocol above the store never gets there
  (`ContinuationExclusion.ClaimsNeverMeetALease`).
- Stable texts coincide outside JSON, and an object member named `__proto__` is not
  fingerprinted (`JsonEquality.StableTextsCollideOutsideJson`,
  `JsonEquality.ProtoMemberIsNotFingerprinted`).
- A hotel identified by coordinates loses its merge key when the chosen record's latitude lies
  beyond the poles, which the key admits (`HotelMerge.MergeKeepsKeyIff`).

## Assumptions

Identifiers drawn from random generators are fresh; digests are injective, so the text that is
hashed stands for its hash. Numbers inside JSON are carried as their printed text. Prices,
costs and coordinates are reals. A clock never runs backwards within a run. Text
normalisation, locale comparison and the runtime's sort are parameters or are characterised
by what they guarantee (`HotelMerge.Host`, `OfferMerge.Normalizer`,
`HotelRanking.RankingIsTheSortedPermutation`).

## Model

| member | source | states |
|---|---|---|
| SearchAdmission.RunsStayWithinCapacity | server/queue/searchQueueAdmission.js:22-195 | over every sequence of script calls the sorted set and the records hash have equal keys and equal expiry values, fences exist only for records, and the configured maximum is never exceeded |
| SearchAdmission.FenceCountsBegins | server/queue/searchQueueAdmission.js:65-132 | while a job is not reset its fence grows by exactly one per successful begin |
| SearchAdmission.OlderAttemptIsPowerless | server/queue/searchQueueAdmission.js:85-132 | of two attempts on one job between resets the second has the larger number, and from then on the first can neither renew nor release |
| SearchAdmission.OwnershipIsChecked | server/queue/searchQueueAdmission.js:85-108 | renewing or releasing succeeds exactly for the record's token and current number, and a refusal changes nothing |
| SearchAdmission.BeginHandsOutIff | server/queue/searchQueueAdmission.js:65-83 | after any history a begin hands out number n if and only if the record has the caller's token and n - 1 attempts were begun since its last reset |
| SearchAdmission.SamePairIsIssuedTwice | server/queue/searchQueueAdmission.js:22-163 | from an empty ledger: reserve, begin, expiry, take-over and adoption, after which the same token begins with number 1 again |
| SearchAdmission.FenceIsReissuedAfterAdoption | server/queue/searchQueueAdmission.js:134-163 | after expiry, take-over and adoption the same token is handed number 1 again |
| SearchAdmission.FenceIsBeginsSinceReset | server/queue/searchQueueAdmission.js:22-181 | after any history the fence of a job equals the begins since its record was last created, adopted or removed |
| SearchAdmission.CompensationSparesBegunRecords | server/queue/searchQueueAdmission.js:1247-1267 | after any history a compensating release removes the record if and only if it has the client's token and nobody began on it since its last reset |
| SearchAdmission.CompensationReachesAdoptedRecord | server/queue/searchQueueAdmission.js:812-845 | counterexample to the same claim without "since its last reset" |
| SearchAdmission.CompensationIsAcceptedAfterAdoption | server/queue/searchQueueAdmission.js:110-163 | from an empty ledger: the first client's compensation is refused once a worker has begun and removes the record after take-over and adoption |
| SearchAdmission.AdmissionLedger.ReserveAdmission | server/queue/searchQueueAdmission.js:22-63 | the reserve script in place computes its specification |
| SearchAdmission.AdmissionLedger.BeginExecution | server/queue/searchQueueAdmission.js:65-83 | the begin script in place computes its specification |
| SearchAdmission.AdmissionLedger.RenewAdmission | server/queue/searchQueueAdmission.js:85-108 | the renew script in place computes its specification |
| SearchAdmission.AdmissionLedger.ReleaseAdmission | server/queue/searchQueueAdmission.js:110-132 | the release script in place computes its specification |
| SearchAdmission.AdmissionLedger.AdoptStoredReservation | server/queue/searchQueueAdmission.js:134-163 | the adopt script in place computes its specification |
| SearchAdmission.AdmissionLedger.ReleaseTerminalReservation | server/queue/searchQueueAdmission.js:165-181 | the terminal release script in place computes its specification |
| SearchAdmission.AdmissionLedger.CountAdmitted | server/queue/searchQueueAdmission.js:183-195 | the snapshot script in place computes its specification |
| AdmissionLeases.ReserveAnswers | server/queue/searchQueueAdmission.js:22-63 | for every ledger, what a reservation answers follows from the job's live record, and from the number of live records when there is none |
| AdmissionLeases.ReserveLeaves | server/queue/searchQueueAdmission.js:22-63 | a reservation removes what has expired and leaves every other live job alone; its own record is extended by a whole lease, created for a whole lease, or left as it was |
| AdmissionLeases.BeginLeaves | server/queue/searchQueueAdmission.js:65-83 | a begin by the record's token starts a whole lease under the next number and touches no other job; any other is refused and changes nothing |
| AdmissionLeases.RenewLeaves | server/queue/searchQueueAdmission.js:85-108 | an accepted renewal moves the expiry in both keys to the call's time plus the lease, keeps search, token, fingerprint and number, and touches no other job |
| AdmissionLeases.AdoptLeaves | server/queue/searchQueueAdmission.js:134-163 | an accepted adoption gives the record the stored search and token for a whole lease, deletes its number, and touches no other job |
| AdmissionLeases.ReleaseTerminalLeaves | server/queue/searchQueueAdmission.js:165-181 | a terminal release succeeds exactly when no other token has the record, which is then gone from all three keys |
| AdmissionLeases.SnapshotLeaves | server/queue/searchQueueAdmission.js:183-195 | a count removes exactly the expired jobs and counts the live ones |
| AdmissionLeases.AdmissionLastsItsLease | server/queue/searchQueueAdmission.js:22-163 | whoever wins a lease by reserving, beginning, renewing or adopting keeps the record unchanged until the lease ends, over any calls for other jobs |
| AdmissionLeases.HeartbeatsKeepAdmission | server/queue/searchQueueWorker.js:393-406 | a holder that renews before each lease runs out owns its record all along, over any interleaved calls for other jobs, so none of its renewals is refused |
| SearchSessions.StepKeepsValid | server/storage/searchSession.js:72-120 | every store operation keeps the session limit, the fencing counter above every fence, and lock expiry within session expiry |
| SearchSessions.ActiveLeaseKeepsSession | server/storage/searchSession.js:465-491 | a session whose continuation lease is active is never evicted |
| SearchSessionStore.AppendedHotels | server/storage/searchSession.js:1235-1286 | appending loses no hotel with an id, repeats none, and the latest record of an id wins |
| SearchSessionStore.SessionStore.RemoveExpired | server/storage/searchSession.js:72-120 | the eviction loops compute the specified sweep of sessions and tombstones |
| SearchSessionStore.SessionStore.Save | server/storage/searchSession.js:167-324 | saving in place computes its specification |
| SearchSessionStore.SessionStore.ClaimInitial | server/storage/searchSession.js:1016-1115 | claiming the initial search in place computes its specification |
| SearchSessionStore.SessionStore.UpdateInitialExecution | server/storage/searchSession.js:1117-1168 | writing the initial search in place computes its specification |
| SearchSessionStore.SessionStore.TryAcquire | server/storage/searchSession.js:711-814 | acquiring the continuation lease in place computes its specification |
| SearchSessionStore.SessionStore.RenewContinuation | server/storage/searchSession.js:816-887 | renewing the lease in place computes its specification |
| SearchSessionStore.SessionStore.ReleaseContinuation | server/storage/searchSession.js:889-1014 | releasing the lease in place computes its specification |
| SearchSessionStore.SessionStore.UpdateSession | server/storage/searchSession.js:1170-1233 | a fenced write in place computes its specification |
| SearchSessionStore.SessionStore.AppendHotels | server/storage/searchSession.js:1235-1286 | the append loop computes its specification |
| SearchSessionStore.SessionStore.ClearSession | server/storage/searchSession.js:1288-1309 | clearing a session in place computes its specification |
| SessionWrites.UpdateStores | server/storage/searchSession.js:1170-1233 | a write is accepted exactly from those who may write a living session; it stores the supplied fields, keeps every other, and touches no other session |
| SessionWrites.UpdateInitialStores | server/storage/searchSession.js:1117-1168 | a write of the initial search is accepted exactly from its current execution while no continuation runs; it stores the supplied fields and the stage, and gives up the token exactly when that is terminal |
| SessionWrites.ReleaseStores | server/storage/searchSession.js:889-1014 | a release is accepted exactly from the holder, stores the supplied fields, keeps every other, and frees the lock |
| SessionWrites.AppendStores | server/storage/searchSession.js:1235-1286 | after an accepted append the session lists every hotel it had or was given, by id and once each, with the latest given record of each id, and nothing else of its contents has changed |
| SessionWrites.ClaimStores | server/storage/searchSession.js:1016-1115 | a claim is accepted exactly with a new number on a living unsettled search; it shows it as running and keeps its results and its lock |
| SessionWrites.AcquireStores | server/storage/searchSession.js:711-814 | the lease is acquired exactly when the session lives and has none; it gets the next number, is held for exactly five minutes, and contents stay |
| SessionWrites.RenewStores | server/storage/searchSession.js:816-887 | a renewal is accepted exactly from the holder, and the lease is then held for exactly five minutes more |
| SessionWrites.SaveStores | server/storage/searchSession.js:167-324 | a save is accepted exactly when the session lives already or fewer than 500 live; it stores the draft without lease or claim |
| SessionWrites.ReadAnswers | server/storage/searchSession.js:605-709 | a session is returned exactly while it lives, reported as expired exactly while that is remembered, and as unknown otherwise |
| SessionWrites.ExpiryIsRemembered | server/storage/searchSession.js:72-120 | a session found expired is reported so for half an hour and no longer |
| SessionWrites.RefusedWrites | server/storage/searchSession.js:493-546 | a refused write names the active lease when it came without one, and the stale lease when it came with one |
| SessionWrites.RefusedInitialWrites | server/storage/searchSession.js:1117-1168 | why a write of an initial search is refused: gone, stale, or under a continuation, in that order |
| ContinuationLease.FencesIncrease | server/storage/searchSession.js:711-814 | over a whole run every later acquire gets a strictly larger fencing number, across all sessions |
| ContinuationLease.EarlierHolderIsFencedOff | server/storage/searchSession.js:493-546 | after a later acquire nothing shown with the earlier lease is ever accepted, and it changes nothing |
| ContinuationLease.AcquiresAreSeparated | server/storage/searchSession.js:711-1014 | of the store under arbitrary callers: between two successful acquires on a session the first lease expired or one of the named endings took place |
| ContinuationLease.LeaseEndsExactlyByAnEnding | server/storage/searchSession.js:711-1233 | while it has not expired, a held lease ends with an operation if and only if that is one of the named endings |
| ContinuationLease.ClaimEndsALeaseIff | server/storage/searchSession.js:1016-1115 | under an active lease, a claim lets a second acquire succeed if and only if the search is not settled and the claim's number is new |
| ContinuationProtocol.StepKeeps | server/services/stayService.js:1672-2362 | every step of every continuation request, worker and new search keeps the invariant that only settled or direct searches have executions, and that requests with a lease run on those only |
| ContinuationProtocol.BegunList | server/services/stayService.js:1942-1958 | after the acquire exactly the runnable executions are begun |
| ContinuationProtocol.AppliedList | server/services/stayService.js:2081-2276 | recording a result changes the execution it is for and no other |
| ContinuationExclusion.AcquiresAreSeparatedByReleaseOrExpiry | server/services/stayService.js:1672-2362 | over every run of the protocol, between two successful acquires of a search's continuation lease it was released by its holder or had expired |
| ContinuationExclusion.ClaimsNeverMeetALease | server/services/stayService.js:1760-1900 | over every run of the protocol, an accepted claim of an initial search never meets an active continuation lease |
| ContinuationLoss.LeaseIsLost | server/storage/searchSession.js:465-546 | a lease is lost once it expires or another request acquires |
| ContinuationLoss.LostLeaseChangesNothing | server/services/stayService.js:1898-2362 | a request that has lost its lease changes no session and no execution in any continuation of the run |
| ContinuationLoss.UnfencedWriteIff | server/services/stayService.js:1711-1860 | a write without a lease, whether or not its reply arrives, stores the executions that the request carries (those it read in normal form, or their recovery when it resets) if the session lives and no lease is active, and changes nothing otherwise |
| ContinuationLoss.RecordedExecutionsSurviveIff | server/services/stayService.js:1711-1860 | the executions recorded for a live session survive such a write if and only if a lease is active or the request carries the same ones |
| ContinuationLoss.StalePollErasesExecutions | server/services/stayService.js:1760-1808 | a run from the start in which a poll that read a queued search erases the executions of the finished one |
| LeaseCoupling.StepKeeps2 | server/services/stayService.js:1672-2362 | every step keeps the invariant that a request holding the lease carries the stored list, or the begin of it before its first write, with the results still to record those of running executions, and that no two requests hold the same number |
| LeaseCoupling.OthersLeaveTheList | server/storage/searchSession.js:493-546 | while a request holds the lease of a session, no step of anybody else changes its stored executions |
| StoredExecutions.BegunView | server/services/stayService.js:1942-1958 | whatever was stored, the list a request begins under its lease reads as the stored list with exactly its runnable executions begun |
| StoredExecutions.RecoveredView | server/services/stayService.js:1652-1670 | whatever was stored, the list a request resets reads as the stored list with each running execution recovered |
| ExecutionSteps.ListMovesIff | server/services/stayService.js:1711-2362 | in every reachable state and for every step, the stored executions of a live search whose initial execution is settled move by the begin of what could run, by one result, by recovery or not at all, as the step stands for, if and only if the step is not an accepted write without a lease whose list is neither the stored one nor its recovery |
| ProtocolBounds.RunIsMoves | server/services/stayService.js:1672-2362 | along any run of the protocol without such a write, each stored execution makes a run of begins, results and recoveries |
| ProtocolBounds.CallsWithinBegins | server/services/stayService.js:1934-2079 | along such a run the calls of a provider never exceed its begins and the calls that were outstanding at the start |
| ProtocolBounds.ProtocolRetryBound | server/providers/common/providerContinuationState.js:708-1007 | along such a run, from any state the start leads to, stored attempts on a cursor never exceed the limit plus the recoveries since it was adopted, and the calls of a provider never exceed limit times cursors plus recoveries plus the calls outstanding |
| ProtocolBounds.ProtocolLimitIff | server/providers/common/providerContinuationState.js:708-1007 | along such a run that starts within the limit, stored attempts exceed the limit if and only if an attempt is recovered after the limit was used up and another is begun after that |
| ProtocolBounds.ProtocolEndedForGood | server/providers/common/providerContinuationState.js:557-590 | along such a run a completed or terminal execution never changes again |
| ProtocolBounds.ProtocolListBound | server/services/stayService.js:1934-2342 | along such a run on a fresh list, all provider calls together stay within the sum of limit times cursors plus recoveries plus the calls outstanding |
| StaleListRun.StaleListAllowsAnotherCall | server/services/stayService.js:1711-1860 | for every fresh execution with limit two, a run from the start without a recovery in which a poll that waited writes its older list back: the ended execution can run again and its cursor gets a third call |
| ContinuationHotels.RecordedPagesWereAppended | server/services/stayService.js:2081-2276 | in every run of the protocol, a request about to record a page has had an append for that very result accepted under its lease |
| ContinuationHotels.AppendStepStores | server/services/stayService.js:2180-2210 | that append stores the hotels it was given |
| ContinuationHotels.HotelsAreNeverLost | server/storage/searchSession.js:1170-1286 | in every continuation of every run, a settled search that still lives lists every hotel that it listed before |
| ContinuationEnds.DecideMeans | server/services/stayService.js:1711-1860 | before the lock a request concludes exactly when nothing is active, waits exactly when nothing can run and something has to be waited for, and otherwise tries for the lease |
| ContinuationEnds.OpenedMeans | server/services/stayService.js:1672-1760 | an opened request ends under an active lease, resets a search marked as continuing without one, and decides otherwise |
| ContinuationEnds.EndedRequestTellsTrue | server/services/stayService.js:1559-1650 | in every run of the protocol, a request that concludes, waits or releases leaves the session free, with the executions it carries, and with a status and an incomplete flag that agree with them |
| QueuedSearchSafety.InitialSearchIsFenced | server/storage/searchSession.js:1016-1168 | over every interleaving, claims on a session carry strictly increasing fences, each accepted initial-search write comes from the most recent claim, and after a terminal write no claim or write is accepted |
| QueuedSearchSafety.ClaimsIncrease | server/storage/searchSession.js:1016-1115 | in any history the protocol can produce a later claim on a session has a larger fence |
| QueuedSearchSafety.SlotsAreReturnedAfterSettlement | server/queue/searchQueueWorker.js:282-520 | a worker gives a slot back only after its session was completed or failed, removes only that search's record, and no other exit gives one back; the search-id mismatch exit is never taken |
| QueuedSearchSafety.AdmissionsMatchTheStoredJob | server/queue/searchQueueAdmission.js:870-1267 | on return from admission the last script step left the record equal to the stored job's search and token, or none for a job seen finished |
| QueuedSearchSafety.ReissuedFenceCannotClaimAgain | server/storage/searchSession.js:1016-1115 | once a number has claimed a session, no worker that begins with that number or a lower one can claim it again in any continuation of the run |
| QueuedSearchSafety.UnsuccessfulCompletionKeepsItsSlot | server/queue/searchQueueWorker.js:410-519 | a stored but unsuccessful response ends its attempt in a fault, with the slot not yet given back |
| AttemptOwnership.LostAttemptStoresNothing | server/queue/searchQueueWorker.js:356-420 | once a heartbeat of a running attempt is refused, no continuation of any run from the start stores results under its execution token |
| AttemptOwnership.StoringNeedsOwnership | server/queue/searchQueueWorker.js:356-420 | the assertion before storing goes on exactly when no heartbeat was refused and the ledger's record has the attempt's token and number, and then for a whole new lease; otherwise the attempt never stores results |
| AttemptOwnership.HeartbeatFindsLossIff | server/queue/searchQueueWorker.js:356-406 | a heartbeat is refused exactly when the record is gone or has another token or number, and otherwise starts a new lease |
| AttemptOwnership.AttemptStartsIff | server/queue/searchQueueWorker.js:301-330 | a delivered attempt starts exactly when the record has its token and the reply arrives, under the next number and for a whole lease |
| AttemptOwnership.AttemptSearchesIff | server/services/stayService.js:1275-1318 | an attempt searches exactly when its session lives, is not settled, was claimed with lower numbers only and the reply arrives; it returns its slot at once exactly when the session is settled |
| AttemptOwnership.ResultsAreStored | server/services/stayService.js:901-931 | results are stored exactly from the current execution of a living session without a continuation; the session is then settled with them |
| AttemptOwnership.RetryNeedsOwnership | server/queue/searchQueueWorker.js:453-471 | an attempt that marked a retry asks the queue for one exactly when it still owns its admission |
| AdmissionSaga.ReserveDecides | server/queue/searchQueueAdmission.js:949-1026 | a client goes on with a reservation exactly when its job is live for the same payload or there is room, and holds the live search or its own |
| AdmissionSaga.AddedJobIsHeld | server/queue/searchQueueAdmission.js:1028-1088 | adding the job stores what the client holds unless the queue has the job already |
| AdmissionSaga.ReadJobDecides | server/queue/searchQueueAdmission.js:1090-1150 | the client returns exactly when the stored job is the one it holds, compares states when it is another for the same payload, and fails otherwise |
| AdmissionSaga.ReadStateDecides | server/queue/searchQueueAdmission.js:1152-1240 | a finished job sends the client to release, an unfinished one to adopt, a missing one to fail |
| AdmissionSaga.AdoptDecides | server/queue/searchQueueAdmission.js:1186-1228 | the client adopts exactly while its own record is there unbegun for the same payload; the record then has the job's search and token |
| AdmissionSaga.ReleaseFinishedDecides | server/queue/searchQueueAdmission.js:1158-1185 | the client gives its reservation for a finished job back exactly when nobody else has the record |
| AdmissionSaga.CompensationDecides | server/queue/searchQueueAdmission.js:1247-1267 | a failing client gives back exactly a reservation that it created and nobody has begun, and its session is cleared |
| SlotReturns.SlotIsReturnedIff | server/queue/searchQueueWorker.js:410-519 | in every continuation in which a worker that stored its results finishes without crashing, it has returned the slot if and only if the response was a success and the store's reply arrived |
| SlotReturns.FailedSlotIsReturnedIff | server/queue/searchQueueWorker.js:473-519 | in every continuation in which a worker whose failure mark was accepted finishes without crashing, it has returned the slot if and only if the reply to the mark arrived |
| SlotReturns.ReleaseRemovesIff | server/queue/searchQueueWorker.js:506-518 | the release that a settled attempt issues removes its record exactly when the record still has its token and number, and changes nothing otherwise |
| SlotReturns.SettledWritesAreRefused | server/storage/searchSession.js:1117-1168 | no write of the initial search is accepted once it is settled |
| SlotReturns.RedeliveryReturnsTheSlotIff | server/services/stayService.js:1275-1318 | a further delivery of a settled job whose record is still there returns the slot if and only if the session has not expired |
| SlotReturns.ExpiryReturnsTheSlot | server/queue/searchQueueAdmission.js:183-195 | a slot whose lease ran out is gone after the next count |
| QueuedSearchRuns.UnsuccessfulRunKeepsItsSlot | server/queue/searchQueueWorker.js:410-519 | a run from the start after which the search is settled, its attempt has ended and its slot is taken; a further delivery gives it back |
| QueuedSearchRuns.FailedRunKeepsItsSlot | server/queue/searchQueueWorker.js:473-519 | a run from the start in which the failure mark is stored and its reply lost: the search is settled, its attempt has ended and its slot is taken; a further delivery gives it back |
| QueuedSearchRuns.CompensationRemovesABegunRecord | server/queue/searchQueueAdmission.js:870-1267 | a run from the start in which a client in its catch block removes a record on which a worker has begun |
| QueuedSearchSafety.CompletionDropsToken | server/services/stayService.js:901-931 | storing an unsuccessful response settles the session and clears the execution token |
| QueuedSearchSafety.MarkIsRefused | server/services/stayService.js:1348-1417 | without the execution token neither the retry nor the failure can be marked |
| QueuedSearchSafety.StepKeeps | server/queue/searchQueueWorker.js:240-520 | every step of every client and worker keeps the system invariant |
| JsonEquality.StableTextsAreEqualIffSame | server/providers/common/providerContinuationState.js:134-165 | two JSON values have the same stable text exactly when they are equal as JSON values, objects unordered |
| JsonEquality.StableTextsCollideOutsideJson | server/providers/common/providerContinuationState.js:134-165 | outside JSON two different values can have the same stable text |
| JsonEquality.FingerprintsAreEqualIffSame | server/storage/searchIdempotency.js:100-208 | two JSON payloads have the same fingerprint text exactly when they are equal up to member order and members named `__proto__` |
| JsonEquality.PlainFingerprintsAreExact | server/storage/searchIdempotency.js:100-208 | without such members the fingerprint text is exact |
| JsonEquality.ProtoMemberIsNotFingerprinted | server/storage/searchIdempotency.js:140-174 | a member named `__proto__` never reaches the fingerprint |
| JsonEquality.ArrangeDependsOnSet | server/storage/searchIdempotency.js:140-174 | the order in which members are printed depends only on their set of names |
| ProviderExecutions.NormalizeEffect | server/providers/common/providerContinuationState.js:321-471 | normalising makes an execution normal (active ones can be continued), and it is a fixed point exactly when every stamp is a number |
| ProviderExecutions.NormalizeExecutions | server/providers/common/providerContinuationState.js:501-527 | the normalising loop computes one entry per provider, the last one winning |
| ProviderExecutions.NormalizedListIsNormal | server/providers/common/providerContinuationState.js:501-527 | any stored list normalises to one normal execution per provider |
| ProviderExecutions.TwiceNormalizedIsFixed | server/providers/common/providerContinuationState.js:59-71 | whatever was stored, a list that is normalised a second time is in normal form and stays as it is |
| ProviderExecutions.StallsOnEqualCursor | server/providers/common/providerContinuationState.js:765-899 | a returned continuation ends the execution as stalled exactly when it names the same provider and an equal cursor |
| ProviderOutcomes.ResultDecides | server/providers/common/providerContinuationState.js:765-1007 | the state a result leads to, exactly: completed on a last page, pending on another page, retryable on a failure that may be tried again, terminal otherwise |
| ProviderOutcomes.LastPageCompletes | server/providers/common/providerContinuationState.js:842-899 | no results, or a page without a usable continuation, complete the execution with the delivered context and outcome and without a continuation |
| ProviderOutcomes.NextPagePends | server/providers/common/providerContinuationState.js:842-899 | another page leaves the execution pending at that page with all its attempts, ready to run |
| ProviderOutcomes.RepeatedPageStalls | server/providers/common/providerContinuationState.js:796-840 | the page it came from ends the execution as stalled |
| ProviderOutcomes.FailureWaits | server/providers/common/providerContinuationState.js:901-1007 | a retryable failure within a minute and with attempts left keeps its page and can run again exactly from the end of the wait on |
| ProviderOutcomes.FailureEnds | server/providers/common/providerContinuationState.js:901-1007 | any other failure ends the execution |
| ProviderOutcomes.BeginCounts | server/providers/common/providerContinuationState.js:708-763 | a begin counts one attempt on the same page |
| ProviderOutcomes.RecoveryReopens | server/services/stayService.js:1652-1670 | a recovery makes a running execution pending at its page with its attempts counted |
| ProviderOutcomes.ContinueOnce | server/services/stayService.js:1934-2342 | over a whole request the search is completed exactly when every provider was completed before or found its last page, and has failed exactly when all came to an end and one to a failure |
| ContinuationPass.RunPass | server/services/stayService.js:1934-2342 | a continuation request begins every runnable provider once, applies its result, and leaves the others unchanged |
| ContinuationPass.PassEffect | server/services/stayService.js:1934-2342 | a runnable execution is attempted exactly once and does not stay running; completed, terminal, running and waiting ones are untouched |
| ContinuationPass.Summarize | server/providers/common/providerContinuationState.js:1009-1119 | the summary loop counts each state, what waits and what can run, reports the least wait that it read, and finds work left exactly when some execution is active, with a clock that may advance during the loop |
| ContinuationPass.Conclude | server/services/stayService.js:1559-1650 | the search is over exactly when every execution is completed or terminal, and has failed exactly when one of them is terminal; an empty list counts as completed |
| ContinuationPass.RetryBound | server/providers/common/providerContinuationState.js:708-1007 | over any run of moves of one execution value, attempts on a cursor never exceed the limit plus the recoveries since it was adopted, and all begins never exceed limit times cursors plus recoveries |
| ContinuationPass.RunsAreBounded | server/providers/common/providerContinuationState.js:708-1007 | the invariant behind the bound holds along every run of begins, results and recoveries of one execution value |
| ContinuationPass.RecoveryExceedsTheLimit | server/services/stayService.js:1652-1670 | a running execution that has used up its limit makes one attempt more when it is recovered and begun again |
| RetryBounds.LimitIsExceededIff | server/providers/common/providerContinuationState.js:708-1007 | along any run of moves of one execution value that starts within the limit, a cursor gets more attempts than its limit if and only if an attempt is recovered after the limit was used up and another is begun after that |
| RetryBounds.FreshRunExceedsTheLimit | server/services/stayService.js:1652-1670 | a run of moves from a fresh execution that makes one attempt more than the limit, for every limit |
| RetryBounds.TurnIsThePass | server/services/stayService.js:1934-2342 | a request on a list moves each execution as a pass does |
| RetryBounds.ListCallsAreBounded | server/services/stayService.js:1934-2342 | over any sequence of requests, one after another, and recoveries on a fresh list, all provider calls are within the sum of limit times cursors plus recoveries |
| ContinuationPass.EndedForGood | server/providers/common/providerContinuationState.js:557-590 | no begin, result or recovery changes a completed or terminal execution value again |
| ProviderCapacity.DrainKeeps | server/providers/common/inMemoryProviderCapacityCoordinator.js:251-289 | draining keeps counts, limits, order and single holding, and leaves no startable waiter |
| ProviderCapacity.AcquireKeeps | server/providers/common/inMemoryProviderCapacityCoordinator.js:291-415 | an arrival keeps the invariant, is granted at once only if nobody of its provider waits, and is queued only if it cannot start |
| ProviderCapacity.ReleaseKeeps | server/providers/common/inMemoryProviderCapacityCoordinator.js:177-222 | a release works exactly for a held operation, never meets the zero clamps, and a second one changes nothing |
| ProviderCapacity.AbortKeeps | server/providers/common/inMemoryProviderCapacityCoordinator.js:381-406 | an aborted waiter leaves the queue and no slot moves |
| ProviderCapacity.GrantFirstKeeps | server/providers/common/inMemoryProviderCapacityCoordinator.js:258-289 | granting the first startable waiter overtakes nobody of its provider |
| ProviderCapacity.ActiveIsSum | server/providers/common/inMemoryProviderCapacityCoordinator.js:156-175 | the global count is the sum of the per-provider counts |
| CapacityCoordinator.Coordinator.DrainQueue | server/providers/common/inMemoryProviderCapacityCoordinator.js:251-289 | the drain loop in place computes its specification |
| CapacityCoordinator.Coordinator.AcquireCapacity | server/providers/common/inMemoryProviderCapacityCoordinator.js:291-415 | acquiring in place computes its specification and keeps the invariant |
| CapacityCoordinator.Coordinator.ReleaseCapacity | server/providers/common/inMemoryProviderCapacityCoordinator.js:177-222 | the once-only release function computes its specification: its flag and the held operations agree |
| CapacityCoordinator.Coordinator.SignalAborted | server/providers/common/inMemoryProviderCapacityCoordinator.js:381-406 | the abort listener computes its specification |
| CapacityDecisions.AcquireAnswersIff | server/providers/common/inMemoryProviderCapacityCoordinator.js:291-415 | a call gets a slot exactly when both limits leave room, is refused for capacity exactly when there is no room and the queue is full in all or for its provider, and waits otherwise |
| CapacityDecisions.OvertakenOnlyAtProviderLimit | server/providers/common/inMemoryProviderCapacityCoordinator.js:251-289 | a drain lets a later waiter pass an earlier one only while the earlier one's provider is at its limit |
| CapacityDecisions.CallsAreRefusedIff | server/providers/common/inMemoryProviderCapacityCoordinator.js:339-361 | over whole runs a call ends as refused exactly when it had neither room nor a place in the queue when it started |
| CapacityDecisions.OutcomesHaveCauses | server/providers/common/providerOperationTimeoutService.js:288-428 | over whole runs a call times out only by its timer, and returns or throws only with a slot |
| CapacityDecisions.RaceIsDecided | server/providers/common/providerOperationTimeoutService.js:367-428 | a running call is decided by its operation or its timer, a waiting one by its timer alone |
| ProviderCalls.SlotsAreReleasedExactlyOnce | server/providers/common/providerOperationTimeoutService.js:288-428 | for any race of grant, timeout, result and cleanup, a settled call gave its slot back exactly once if it had one and never otherwise, and holds nothing |
| ProviderCalls.AllSettledFreesEverySlot | server/providers/common/providerOperationTimeoutService.js:409-428 | when all calls have settled every count is zero and nobody waits |
| ProviderCalls.PoolStaysWithinLimits | server/providers/common/inMemoryProviderCapacityCoordinator.js:164-175 | in every reachable state all four limits hold, the counts agree with the held operations, and a call waits only while a limit it falls under is reached |
| ProviderCalls.ProvidersAreServedInOrder | server/providers/common/inMemoryProviderCapacityCoordinator.js:251-415 | calls of one provider are granted slots in order of arrival, apart from those that gave up |
| ProviderCalls.DecisionIsFinal | server/providers/common/providerOperationTimeoutService.js:367-428 | the race of a call is decided once; a waiter that timed out is never granted a slot |
| IdempotencyCache.EvictBytesSucceeds | server/storage/searchIdempotency.js:324-354 | making room for a response in range always succeeds, evicting only fulfilled records of other keys: the failure exit in the loop is unreachable |
| IdempotencyCache.ReserveBytesExact | server/storage/searchIdempotency.js:324-354 | byte reservation succeeds exactly when the size is known and in range |
| IdempotencyCache.EvictCountEffect | server/storage/searchIdempotency.js:356-378 | making room for a record fails exactly when the cache is full of pending ones, and evicts fulfilled ones only |
| IdempotencyCache.SweepEffect | server/storage/searchIdempotency.js:283-299 | the sweep removes exactly the expired records |
| IdempotencyCache.AdmitEffect | server/storage/searchIdempotency.js:389-492 | what each answer means for the records, and that only expired and fulfilled ones are dropped |
| IdempotencyCache.CompleteEffect | server/storage/searchIdempotency.js:494-557 | a completion touches only its own record and evicted fulfilled ones, and stores exactly when the response is stable and fits |
| IdempotencyCache.FailEffect | server/storage/searchIdempotency.js:558-567 | a failure removes its own record and no other |
| IdempotencyCache.DeleteAtEffect | server/storage/searchIdempotency.js:251-281 | deleting a record lowers the byte count by exactly its bytes: the clamp hides nothing |
| IdempotencyEviction.BytesAreFreedOldestFirst | server/storage/searchIdempotency.js:324-354 | bytes are freed only while the response would not fit, oldest completed record first and none more than needed |
| IdempotencyEviction.OldestIsGivenUpForARecord | server/storage/searchIdempotency.js:356-378 | below the cap nothing is given up for a record, and at the cap the one oldest completed record |
| IdempotencyStore.RecordStore.RemoveExpired | server/storage/searchIdempotency.js:283-299 | the sweep loop in place computes its specification |
| IdempotencyStore.RecordStore.RemoveOldestCompleted | server/storage/searchIdempotency.js:301-322 | the search for the oldest completed record in place computes its specification |
| IdempotencyStore.RecordStore.ReserveResponseBytes | server/storage/searchIdempotency.js:324-354 | the eviction loop in place computes its specification |
| IdempotencyStore.RecordStore.ReserveCapacity | server/storage/searchIdempotency.js:356-378 | the capacity loop in place computes its specification |
| IdempotencyStore.RecordStore.AdmitSearch | server/storage/searchIdempotency.js:389-492 | a request up to its first suspension computes its specification and keeps the invariant |
| IdempotencyStore.RecordStore.Settle | server/storage/searchIdempotency.js:494-557 | the fulfilment handler computes its specification and keeps the invariant |
| IdempotencyStore.RecordStore.Reject | server/storage/searchIdempotency.js:558-567 | the rejection handler computes its specification and keeps the invariant |
| SearchIdempotency.EveryReplyComesFromOneExecution | server/storage/searchIdempotency.js:389-592 | every response a client receives, replayed or awaited, is what one execution returned for the same key and the same payload up to member order |
| SearchIdempotency.RepliesAreRecent | server/storage/searchIdempotency.js:412-467 | a replay is younger than the time to live, and a request joins only an execution younger than that |
| SearchIdempotency.ExecutionsOfAKeyDoNotOverlap | server/storage/searchIdempotency.js:469-576 | two executions of one key never overlap, unless the earlier one still runs a time to live after it started |
| SearchIdempotency.CacheStaysWithinItsCaps | server/storage/searchIdempotency.js:251-378 | in every reachable state the byte counter is the sum over the live records, both caps hold, and a record counts the size of its response |
| SearchIdempotency.LateResultLeavesSuccessor | server/storage/searchIdempotency.js:494-567 | a late result never touches the record of another running execution |
| SearchIdempotency.StoredExactlyWhenStableAndFits | server/storage/searchIdempotency.js:497-557 | in every reachable state a finishing owner stores its response exactly when it carries a search id and fits |
| AnalyticsRuns.EveryJourneyCountsOnce | server/analytics/analyticsMeasurement.js:253-409 | over any run of events, sweeps and forgetting, on every day within the retention each count equals the number of journeys that bear that mark on that day |
| AnalyticsRuns.OutcomesAddUp | server/analytics/analyticsMeasurement.js:313-367 | a day's completed and failed counts add up to the journeys whose outcome lies on it; partial is within visible; visible, none and provider error exclude each other |
| AnalyticsRuns.LastOutcomeCounts | server/analytics/analyticsMeasurement.js:292-367 | the outcome that counts is that of the journey's last ending event, on that event's day |
| AnalyticsRuns.NoOutcomeYet | server/analytics/analyticsMeasurement.js:212-251 | a journey without an ending event has no outcome |
| AnalyticsRuns.EarliestTimesAreKept | server/analytics/analyticsMeasurement.js:369-409 | a journey's start and first choice are the earliest of their events, in whatever order these arrive |
| AnalyticsRuns.ChoiceIsCountedWhenMeasurable | server/analytics/analyticsMeasurement.js:369-409 | a first choice is counted as soon as start and choice allow it, with the duration and day known then, and once only; no measurable choice is left uncounted |
| AnalyticsRuns.SweepKeeps | server/analytics/analyticsMeasurement.js:645-693 | a retention sweep keeps the accounting of every day it keeps |
| JourneyMarks.FlagsAreRaisedByEvents | server/analytics/analyticsMeasurement.js:253-270 | a journey bears a flag exactly when one of its events raised it, on the day of the first of them to arrive |
| JourneyMarks.LastEndingIsCounted | server/analytics/analyticsMeasurement.js:292-367 | a journey is counted under completed or failed, and under what was found, as its last ending event says, on that day and no other |
| JourneyMarks.DurationsAreBucketed | server/analytics/analyticsMeasurement.js:119-153 | every duration falls into the one bucket whose range holds it |
| JourneyMarks.LastSeenIsLatest | server/analytics/analyticsMeasurement.js:212-251 | a journey is known exactly when it has an event, and was last seen at its latest one |
| JourneyMarks.PruneForgetsIff | server/analytics/analyticsMeasurement.js:645-693 | pruning forgets exactly the journeys last seen before the cutoff |
| AnalyticsJourneys.ApplyFollows | server/analytics/analyticsMeasurement.js:411-643 | an event changes a day's counts exactly as it changes the journey's marks of that day |
| AnalyticsJourneys.LowerAllCounts | server/analytics/analyticsMeasurement.js:272-311 | retracting a counted outcome never meets the clamp at zero |
| AnalyticsAggregates.AggregateState.RecordEvent | server/analytics/analyticsMeasurement.js:411-643 | recording an event in place computes its specification |
| AnalyticsAggregates.AggregateState.RecordTerminalOutcome | server/analytics/analyticsMeasurement.js:313-367 | replacing a terminal outcome in place computes its specification |
| AnalyticsAggregates.AggregateState.RecordFirstChoice | server/analytics/analyticsMeasurement.js:369-409 | recording a first choice in place computes its specification |
| AnalyticsAggregates.AggregateState.PruneOld | server/analytics/analyticsMeasurement.js:645-693 | pruning in place computes its specification |
| OfferMerge.MergedOffers | server/providers/common/hotelMergeService.js:402-458 | merging offers keeps every key, and of each key the earliest of the most complete offers |
| OfferMerge.CollectOffers | server/providers/common/hotelMergeService.js:402-458 | the merging loop computes the specified merge |
| OfferMerge.BestOfferIsCheapest | server/providers/common/hotelMergeService.js:480-573 | there is a best offer exactly when prices can be compared, and no comparable offer undercuts it |
| OfferMerge.JoinInjective | server/providers/common/hotelMergeService.js:115-219 | a joined key determines its parts |
| HotelMerge.SlotTextsAreExact | server/providers/common/hotelMergeService.js:115-219 | two records share a slot of the result map exactly when they share every signal of their key, whatever kind it is |
| HotelMerge.MergeStaysInGroup | server/providers/common/hotelMergeService.js:1319-1622 | a merged record belongs to the group it was merged in |
| HotelMerge.MergeKeepsKeyIff | server/providers/common/hotelMergeService.js:1319-1622 | a merged record keeps the key of its two sources, except exactly when it is a coordinate key and the chosen location's latitude is invalid |
| HotelMerge.MergedLocation | server/providers/common/hotelMergeService.js:1270-1317 | a merged record has coordinates whenever one of the two had, and takes its whole location from one of them, than which neither ranks higher |
| HotelMerge.MergedPrice | server/providers/common/hotelMergeService.js:818-1030 | the price of a merged record is that of a merged offer which no comparable offer undercuts |
| MergeSignals.CoordinatesCoincideIff | server/providers/common/hotelMergeService.js:29-53 | two coordinates give the same signal exactly when they lie on one side of zero and round to the same ten-thousandth of a degree |
| MergeSignals.FixedIsExact | server/providers/common/hotelMergeService.js:29-53 | two numbers have the same text with fixed decimals exactly when sign and rounded magnitude agree |
| MergeSignals.LocationIsTakenFrom | server/providers/common/hotelMergeService.js:1270-1317 | the location comes from the record with coordinates, then the one with a calculated distance, then the one with a distance |
| MergeSignals.MergedDetails | server/providers/common/hotelMergeService.js:1319-1622 | a merged record keeps the first name that is not empty, the identifiers of the first record and the better confidence |
| MergeSignals.MoreIsMoreComplete | server/providers/common/hotelMergeService.js:251-305 | an offer that says more is at least as complete, and equally complete only if the other says as much |
| MergeSignals.BestOfferCostsLeast | server/providers/common/hotelMergeService.js:460-573 | no comparable valid offer costs less than the best one, by known total or else by price, nor the same at a lower price |
| HotelResults.MergeProviderHotelResults | server/providers/common/hotelMergeService.js:1624-1679 | the loop over a map keyed by text computes the specified grouping by signals |
| HotelResults.MergedKeysAreDistinct | server/providers/common/hotelMergeService.js:1624-1679 | no two records of the result share a merge key |
| HotelResults.NoGroupIsLost | server/providers/common/hotelMergeService.js:1624-1679 | every record has a group in the result, whose record keeps the key or has none; a record without key passes unchanged |
| HotelResults.GroupsAreByKey | server/providers/common/hotelMergeService.js:1624-1679 | two records share a group exactly when they share a merge key |
| HotelResults.OffersAreRepresented | server/providers/common/hotelMergeService.js:402-458 | every positive-price offer is represented in its group by an offer with the same key, a positive price and at least its completeness |
| HotelResults.NoOfferIsInvented | server/providers/common/hotelMergeService.js:1319-1324 | every offer of the result was reported for some record |
| HotelResults.MergingIsIdempotent | server/providers/common/hotelMergeService.js:1624-1679 | merging a merged list changes nothing |
| PriceBaseline.QuantileIsMonotone | src/utils/smartStayEngine.ts:274-317 | over a sorted list a larger quantile is never a smaller price |
| PriceBaseline.ThreePricesWithinFences | src/utils/smartStayEngine.ts:370-395 | with five prices or more at least three lie within the fences, so the guard always holds |
| PriceBaseline.BaselineIsSound | src/utils/smartStayEngine.ts:319-427 | quartiles are in order, median and average lie within the range of the reference prices, counts add up, and exactly the prices outside the fences are left out |
| PriceBaseline.BaselineIgnoresOrder | src/utils/smartStayEngine.ts:319-334 | the baseline does not depend on the order of the prices |
| PriceQuantiles.QuantileAtPlace | src/utils/smartStayEngine.ts:274-317 | a quantile whose position falls on a place is the price there |
| PriceQuantiles.QuantileBetweenPlaces | src/utils/smartStayEngine.ts:274-317 | between two places a quantile lies on the straight line between their prices |
| PriceQuantiles.MedianIsTheMiddle | src/utils/smartStayEngine.ts:274-349 | the median is the middle price or the mean of the two middle ones |
| PriceQuantiles.ReferencePricesAre | src/utils/smartStayEngine.ts:357-395 | the reference prices are those at most one and a half quartile distances outside the quartiles, or all when there are few or the quartiles agree |
| PriceQuantiles.BaselineQuantiles | src/utils/smartStayEngine.ts:319-427 | median, quartiles and count of a baseline are those of all positive prices |
| PriceQuantiles.BaselineExtremes | src/utils/smartStayEngine.ts:397-427 | minimum, maximum, average and count of a baseline are those of its reference prices |
| PriceScores.BudgetCurveFalls | src/utils/smartStayEngine.ts:709-735 | the budget curve falls across all its pieces and never below ten |
| PriceScores.BudgetCurveHasNoJump | src/utils/smartStayEngine.ts:709-735 | the pieces of the budget curve meet at its five break points, and the curve falls at most 340 points per unit of the ratio |
| PriceScores.BudgetScoreFalls | src/utils/smartStayEngine.ts:688-753 | the budget score never rises with the cost |
| PriceScores.MarketScoreFalls | src/utils/smartStayEngine.ts:755-814 | the market score never rises with the cost under a fixed baseline |
| PriceScores.PriceScoreFalls | src/utils/smartStayEngine.ts:816-840 | the price score never rises with the cost under a fixed baseline and completeness |
| PriceScores.LessCompleteNeverHelps | src/utils/smartStayEngine.ts:737-752 | at one amount, less complete cost information never scores higher |
| PriceScores.ScoresAreInRange | src/utils/smartStayEngine.ts:688-840 | market, budget and price scores lie between 0 and 100 |
| PriceScores.BaselineContextIsGood | src/utils/smartStayEngine.ts:461-498 | every context built from prices meets what the score lemmas ask |
| PriceWeights.BudgetScoreCorners | src/utils/smartStayEngine.ts:688-753 | the budget score at the five corners of the curve, less what an incomplete cost takes off |
| PriceWeights.IncomparableBudget | src/utils/smartStayEngine.ts:688-708 | without a comparable cost the budget score is 30, and without a budget the market decides alone |
| PriceWeights.CheapestScoresAll | src/utils/smartStayEngine.ts:755-814 | the cheapest price of a market scores 100 |
| PriceWeights.DearestScoresAQuarter | src/utils/smartStayEngine.ts:755-814 | the dearest price of a market scores between 9 and 25 |
| PriceWeights.MarketScoreInTheMiddle | src/utils/smartStayEngine.ts:755-814 | an average price half way between the cheapest and the dearest scores 63 |
| PriceWeights.MarketScoreWithoutRange | src/utils/smartStayEngine.ts:755-775 | without a market the score is 40, with a single price 72 |
| PriceWeights.AverageBonusIs | src/utils/smartStayEngine.ts:786-805 | the comparison with the average is worth 22 points for the whole ratio and at most 16 |
| PriceWeights.PriceScoreIsWeighted | src/utils/smartStayEngine.ts:816-840 | the price score is the nearest whole number to eleven parts market and nine parts budget, in twentieths |
| PriceWeights.PriceScoreResponds | src/utils/smartStayEngine.ts:816-840 | twenty points of the market score are worth eleven, twenty of the budget score nine, and equal scores are the price score |
| HotelRanking.ComparisonIsStrictTotalOrder | src/utils/smartStayEngine.ts:2013-2116 | the comparison is a strict total order on the hotels of a list |
| HotelRanking.ComparisonIsLexicographic | src/utils/smartStayEngine.ts:2013-2116 | the comparison is the dictionary order of the criteria, with a missing price after every price |
| HotelRanking.RankingIsTheSortedPermutation | src/utils/smartStayEngine.ts:1974-2134 | the ranking is the one permutation of the hotels that respects the comparison |
| HotelRanking.LowestPriorityFirst | src/utils/smartStayEngine.ts:2013-2031 | budget priorities never fall along the ranking, and within one priority smart scores never rise |
| HotelRanking.WithinBudgetComesFirst | src/utils/smartStayEngine.ts:207-242 | a hotel whose reliable cost is within the budget precedes every one that is dearer, unreliable or without a comparable cost |
| HotelRanking.BudgetClassesAre | src/utils/smartStayEngine.ts:207-242 | the five classes under a budget, by reliability, by the budget and by comparability |
| HotelRanking.ClassesComeInOrder | src/utils/smartStayEngine.ts:2013-2031 | with a budget the hotels come in the order of their classes |

## Left out

- ContinuationPass.RetryBound: stated for an execution in normal form; reading any stored list puts it there (ProviderExecutions.TwiceNormalizedIsFixed).
- ContinuationPass.RunPass: takes the clock readings and the results of the provider calls as parameters; the lease renewals and session writes between them are steps of ContinuationProtocol.
- RetryBounds.ListCallsAreBounded: speaks of requests one after another; ProtocolBounds.ProtocolListBound is the statement for requests that interleave.
- ProtocolBounds.ProtocolRetryBound: speaks of runs without the writes that ExecutionSteps.ListMovesIff names, and of a live session; after such a write the bound starts again from the list that it brought back.
- StaleListRun.StaleListAllowsAnotherCall: one family of runs; that every such write leads to a further call is not claimed, as its list may have nothing left to run.
- ContinuationPass.RecoveryExceedsTheLimit: one move further from a given running state; the exact condition is RetryBounds.LimitIsExceededIff.
- SearchIdempotency.ExecutionsOfAKeyDoNotOverlap: capacity eviction and unstorable responses allow a second execution after the first has finished, as in the source.
- AnalyticsRuns.EveryJourneyCountsOnce: says nothing about days older than the retention, whose buckets a late event can open again, nor about `clearAggregates`, which the server does not call.
- HotelResults.OffersAreRepresented: offers are compared by key and completeness, not by price.
- SearchSessionStore.SessionStore.Save: a saved snapshot that itself carries lease fields or an id is not modelled; no caller passes one.
- SearchSessionStore.SessionStore.RenewContinuation: a renewal that names only a token and no fencing number is not modelled; no caller makes one.
- SearchSessionStore.SessionStore.ReleaseContinuation: a release that names only a token and no fencing number is not modelled; no caller makes one.
- AnalyticsAggregates.AggregateState.RecordEvent: the counters of event names, outcomes, durations and choices other than the first are not modelled; only journey counts and first choices are.
- ContinuationProtocol.StepKeeps: sessions of an older format, which name one provider and have no list of executions, are not modelled; nor are the currency, error and retry fields of the writes.
- The execution states that an initial search creates; a session's list of them enters as it was stored.
- Session ids of earlier process generations, and the different error they are reported with.
- `structuredClone`: sessions, responses and hotel records are values, so aliasing does not arise.
- Command timeouts, connection handling and heartbeat timers of the queue client, beyond the lost replies they cause.
- The last error code and message of an execution, provider id normalisation, and the errors thrown for malformed arguments.
- The capacity coordinator and the session store on Valkey, and the lease-loss observer that only those provide.
- Reports and rates computed from the analytics state.
- The fields of a merged hotel that carry descriptions, images, reviews, amenities and provenance.
- Review, location, star, amenity, reliability and preference scores, badges and explanations; they enter the ranking as given numbers.
- The format of an idempotency key, request validation, routes, middleware and everything in the browser.
- The worker heartbeat scripts, which repeat the admission pattern in a simpler form.
