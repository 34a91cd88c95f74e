# Pulsar verifier sidecar: a verified model

The sidecar observes verification requests committed on the Pulsar chain, collects the proofs they name
(from submitters or from other validators), runs a verifier backend on them and reports the verdicts to
consensus. This project models the protocols inside it and proves what they keep over whole runs.

| file | what it models |
|---|---|
| `Common`, `Records` | options, byte strings, store records, events, bounded failures |
| `Proofs`, `Protobuf` | proof identity, protobuf layout and the hand-written encoded length |
| `StoreOps`, `ProofStore` | the proof store's transitions; the store as an object |
| `JobExecution`, `Scheduler`, `VerificationWorker` | attempts and backoff; the worker's queue and jobs; the worker as an object |
| `VerifierSystem`, `VerifierRuns` | store, broadcast and verification worker together, and whole runs of them |
| `Availability`, `DriverModel`, `DriverRuns`, `NetworkDriver` | provider index, network driver, runs of the driver, the driver as an object |
| `Retrieval`, `RetrievalWorker`, `P2pSystem`, `P2pRuns` | retrieval bookkeeping; the P2P worker with the driver, and whole runs of them |
| `RetrievalLives`, `P2pWitnesses` | one life of a retrieval, from first to last step; runs that show what may happen between lives |
| `LocalIndex`, `StaleListings` | store, P2P worker and provider index: offering what is stored, and when more is offered |
| `WaitingRecords`, `LostRecords` | store, P2P worker and driver: fetching what was observed and is not stored, and when that is given up |
| `Descriptor`, `PagedQuery`, `Listener`, `ListenerWitness` | chain records, the paged recovery query, the block listener with allow-list refresh, what it can miss |
| `Sizes` | message limits and cache weights derived from the proof limit |
| `Submission`, `Contract` | transaction-bound submission with its receipt cache; the consensus-facing queries |

How things are modelled:

- Concurrency is a state machine over labelled steps. Each task is its source cut at every await, so any
  step of any other task may fall between two of its steps. A run is any sequence of enabled steps; the
  theorems hold for every run.
- A claim is an object identity: every installed record gets a tag from a counter that only grows, so
  evicting a record and storing it again is visible.
- Committing a transition and sending its events are separate steps; the events of a commit may be sent
  late and in any order. An eviction sends its event as part of the removal. The broadcast receiver is a
  bounded queue that drops its oldest entry and raises a lag flag. An entry past its deadline is an evict
  step away.
- A snapshot walks the keys present when it starts and looks at each at some later moment.
- SHA-256 is a parameter. Results that rest on collision resistance name the two inputs that would have to
  collide: preimages of ids, artifacts in the same place, or transactions of one run.
- Time is a natural number that only grows. Network, chain node, verifier backends, timers, random choices
  and other tasks are arbitrary inputs of the steps.
- Where the source changes an object in place there is a class whose methods are proved equal to the
  functions the theorems are about.

Assumptions about the surroundings: the swarm reports a failed outbound request with the peer it was sent
to (`P2pRuns.FailureReleasesIffPeerMatches` says exactly what happens otherwise), it never reports the
local peer as disconnected, and its request ids are not reused. For the listener, the node reports the
height and pages the records of the chain as it is, the chain only grows, and equal validator hashes mean
equal validator sets. A store call
runs to its end once it has committed.

Some things one might expect do not hold of the code. Each of these has a run that shows it and the exact
condition under which it does hold:

- No request is missed after a gap: `LongJumps.LongJumpMisses`, exactly for advances of more than three
  (`LongJumps.JumpIsSafeIff`, `ListenerModel.BlockMissesNothingIff`).
- Removed validators are not listed: `DriverRuns.RemovedPeerGetsListed`, exactly by a proof that arrives after
  the removal of its sender (`DriverRuns.ListingStaysAuthorizedIff`).
- Evicted proofs are not listed: `StaleListings.EvictedProofStaysListed`, exactly by a ProofStored event that was
  sent after the eviction and is read after it (`StaleListings.ListingsStayIff`).
- Timers act only in the life they were set in: `P2pWitnesses.EarlierLifeTimerActs`, exactly when the later life
  has counted up to the timer's generation (`RetrievalLives.AnyTimerActsIff`).
- A waiting record has a retrieval: `P2pWitnesses.WaitingRecordTimesOut`, `P2pWitnesses.WaitingRecordLosesRetrieval`
  and, with the store beside the worker, `LostRecords.WaitingRecordIsLost`. A retrieval ends exactly under the
  guards of `RetrievalLives.DropsIff`; a waiting record is left alone exactly by the steps of
  `WaitingRecords.CoverLostIff`.

Where names and code differ, the code is followed: the test `filters_unauthorized_provider_hints` is about a
check that refuses the whole response rather than filtering it (`DriverRuns.ResponseAcceptedIff`), and the
result list that the protobuf file calls unordered keeps the order of the request.

## Model

| member | source | states |
|---|---|---|
| `Proofs.TypeFromNumber` | src/proof.rs:88-99 | a wire number is accepted exactly when it is the number of a proof type, and gives that type |
| `Proofs.PreimageInjective` | src/proof.rs:23-36 | the hashed concatenation determines the proof type and the three component hashes |
| `Proofs.IdentityBindsEveryComponent` | src/proof.rs:109-122 | two proofs with one verification id agree in type, proof, statement and key, or their id preimages or two artifacts in the same place are a collision |
| `Protobuf.EncodedLenIsEncodingLength` | src/proof.rs:125-146 | the hand-written size is the length of the real protobuf encoding, for every proof |
| `Protobuf.PayloadWithinEncodedLen` | src/proof.rs:133-138 | the payload never exceeds the encoded size, so a size-checked proof always has a payload length |
| `Protobuf.ProofRoundTrip` | src/proof.rs:148-170 | encoding, decoding and converting back gives the same proof, whichever parts are empty |
| `Protobuf.EncodingInjective` | src/proof.rs:148-157 | different proofs have different encodings |
| `Records.NewFailure` | src/store/record.rs:33-63 | a failure is made exactly when code and message are within their bounds and the code is lowercase snake case starting with a letter |
| `StoreOps.ObserveEffect` | src/store/mod.rs:117-165 | observing marks the record observed once, keeps its content part, queues it exactly when content is there, and owes exactly those events |
| `StoreOps.InsertLocalEffect` | src/store/mod.rs:167-223 | content is accepted exactly within the size limit; the first content wins, keeps the chain part, and owes a ProofStored event exactly when it is new |
| `StoreOps.AttachEffect` | src/store/mod.rs:225-269 | a download is accepted exactly when it matches id and limit and the id was observed; new content makes the record Queued |
| `StoreOps.BeginEffect` | src/store/mod.rs:286-330 | a job is issued exactly for a Queued record, with that record's content and the identity of the object just installed; the error branch is unreachable |
| `StoreOps.FinishEffect` | src/store/mod.rs:338-386 | an outcome is written exactly when the very object claimed is still installed; it fails only if that object is no longer Verifying |
| `StoreOps.RetryEffect` | src/store/mod.rs:393-428 | retry succeeds exactly for queued and retryable failed records and leaves the record Queued with its content |
| `StoreOps.ReadAndEvictKeepStoreOk` | src/store/expiry.rs:39-48 | reading a record never moves its deadline; eviction keeps every other record sound |
| `StoreOps.ArrivalOrderIrrelevant` | src/store/mod.rs:573-580 | observation and content may arrive in either order: the store ends the same, with the record Queued |
| `ProofStores.ProofStore.ObserveChainVerification` | src/store/mod.rs:117-165 | observing leaves record, answer and sent events exactly as the transition says, and the store sound |
| `ProofStores.ProofStore.InsertLocalProof` | src/store/mod.rs:167-223 | storing local content leaves record, answer and sent events exactly as the transition says; a refused proof changes nothing |
| `ProofStores.ProofStore.AttachDownloadedProof` | src/store/mod.rs:225-269 | attaching a download leaves record, answer and sent events exactly as the transition says; each refusal changes nothing |
| `ProofStores.ProofStore.BeginVerification` | src/store/mod.rs:286-330 | the job handed out, the installed claim and the event sent are exactly those of the claim transition |
| `ProofStores.ProofStore.FinishVerification` | src/store/mod.rs:338-386 | the outcome is installed, and its event sent, exactly when the claimed object is still there; a stale job changes nothing |
| `ProofStores.ProofStore.RetryVerification` | src/store/mod.rs:393-428 | a retry requeues and sends its event exactly when allowed; a refusal changes nothing |
| `ProofStores.ProofStore.Invalidate` | src/store/mod.rs:480-483 | the entry is gone and its eviction event sent exactly if there was one |
| `ProofStores.ProofStore.Statuses` | src/store/mod.rs:430-456 | one status per requested id, in order, unknown ids included |
| `ProofStores.ProofStore.CompletedResults` | src/store/mod.rs:459-478 | the loop returns the completed subset in request order |
| `ProofStores.ProofStore.ReadyForVerification` | src/store/mod.rs:500-506 | the snapshot filter selects exactly the Queued records |
| `ProofStores.CompletedAmongIsExact` | src/store/mod.rs:459-478 | a pair (id, verdict) is returned exactly when the id was asked for and its record is completed with that verdict |
| `JobExecution.ExecuteJob` | src/verification/worker.rs:184-252 | the outcome is that of the first attempt that is not a retryable failure or of the last one; without a backend there is no verdict; the shift and the final panic are unreachable; the time is within the budget |
| `JobExecution.TimeBudgetBound` | src/verification/worker.rs:202-224 | any job takes at most (R+1)(timeout + 2 s) + backoff (2^R - 1) |
| `Scheduler.HandleEventKeeps` | src/verification/worker.rs:134-161 | an event keeps the queue duplicate-free and disjoint from running ids, queues what a Queued event names, and drops an id only on its eviction |
| `Scheduler.WithoutIsExact` | src/verification/worker.rs:177-181 | the retain drops exactly one id and keeps order and distinctness |
| `VerificationWorkers.VerificationWorker.EnqueueId` | src/verification/worker.rs:171-175 | the queue grows exactly by an id that is neither queued nor running |
| `VerificationWorkers.VerificationWorker.RemovePendingId` | src/verification/worker.rs:177-181 | the loop removes the id from queue and set and keeps the rest in order |
| `VerificationWorkers.VerificationWorker.HandleStoreResult` | src/verification/worker.rs:134-161 | an event is applied as specified; a lag rebuilds the queue as exactly the ready ids without a job |
| `VerificationWorkers.VerificationWorker.ReconcileReadyRecords` | src/verification/worker.rs:163-169 | the queue becomes exactly the ready ids without a running job |
| `VerificationWorkers.VerificationWorker.StartReadyJobs` | src/verification/worker.rs:89-111 | it ends with every slot taken, the queue empty or stop seen; what left the queue is running or not ready; every new job holds its record |
| `VerificationWorkers.VerificationWorker.CommitCompletion` | src/verification/worker.rs:113-132 | the store never refuses the outcome of a running job, the claim is released, and a record that is ready again is queued |
| `VerifierInvariant.NextKeepsInv` | src/verification/worker.rs:62-182 | every step of clients, broadcast and worker keeps the joint invariant: store soundness, exact claims, event order, scheduler bounds, no stranded record |
| `VerifierRuns.NoReadyRecordStranded` | src/verification/worker.rs:62-182 | at every control point of every run each Queued record is pending, has a job for its id, has an unsent or unread notice, a lag reconcile is due, or the worker is about to look at it |
| `VerifierRuns.QuiescentMeansNothingReady` | src/verification/worker.rs:62-87 | once nothing is in flight and no job runs, no record is Queued |
| `VerifierRuns.SchedulerBounds` | src/verification/worker.rs:89-111 | jobs never exceed the bound, no two share an id, the queue is duplicate-free and disjoint from jobs, and the store never refuses the worker a transition |
| `VerifierRuns.CleanStop` | src/verification/worker.rs:62-87 | after stop was seen nothing is claimed, and a worker that returned leaves no job and no Verifying record |
| `VerifierRuns.ClaimsAreUnique` | src/store/mod.rs:286-330 | two claims with one identity are the same claim, across evictions and reinsertions |
| `VerifierRuns.VerifyingRecordHasOneHolder` | src/store/mod.rs:286-330 | each Verifying record is the object held by exactly one live job, issued by one claim |
| `VerifierRuns.FinishTouchesOnlyItsOwnClaim` | src/store/mod.rs:338-386 | a finish changes the store only if the claimed object was neither evicted nor replaced at any moment since its claim |
| `VerifierRuns.CompletedIsAbsorbing` | src/store/expiry.rs:20-58 | until eviction no operation and no read changes a completed record, its verdict or its deadline, which is completion time plus retention |
| `VerifierRuns.VerdictProvenance` | src/verification/worker.rs:184-252 | a verdict found under an id was returned by the backend registered for the type, on stored content hashing to the id, for an observed request, through one claim, all in the record's current incarnation |
| `Contract.ParseIds` | src/rpc/contract.rs:51-70 | a request is accepted exactly with at most 512 distinct ids of 32 bytes, and they are returned in order |
| `Contract.GetVerificationResults` | src/rpc/contract.rs:19-34 | refused exactly for unacceptable ids, otherwise the completed subset in wire form |
| `Contract.GetProofStatuses` | src/rpc/contract.rs:37-49 | refused exactly for unacceptable ids, otherwise one wire status per id in order |
| `Contract.StatusRoundTrip` | src/rpc/contract.rs:72-104 | the wire status loses nothing and carries a verdict exactly for completed records |
| `Contract.ResultsAreExact` | src/rpc/contract.rs:19-34 | the response names a verdict exactly for the requested ids completed with it |
| `Contract.StatusResponseFits` | src/rpc/server.rs:58-60 | whatever the store holds, the encoded answer to any acceptable status request fits the RPC message limit |
| `Contract.ReportedVerdictIsExplained` | src/rpc/contract.rs:19-34 | every verdict reported, with the store moving between the reads of one query, has the full provenance above at the moment its own id was read |
| `Contract.VerdictIsAboutTheCommittedRequest` | src/chain/descriptor.rs:54-76 | the content behind a reported verdict is what the committed descriptor of the id describes, in every part, or the two preimages of the id are a collision |
| `Availability.RelationDeterminesIndex` | src/p2p/availability.rs:36-82 | an index without empty buckets is nothing more than its relation of ids and peers |
| `Availability.ValidateProviders` | src/p2p/availability.rs:109-128 | a provider list is accepted exactly when short enough, parseable and inside the allow-list, and then gives the set it names |
| `Availability.AvailabilityIndex.AddOne` | src/p2p/availability.rs:37-42 | adds one pair to the relation and nothing else |
| `Availability.AvailabilityIndex.RemoveOne` | src/p2p/availability.rs:56-63 | removes one pair, never leaving an empty bucket |
| `Availability.AvailabilityIndex.RemoveEverywhere` | src/p2p/availability.rs:65-70 | the retain removes exactly the pairs of one peer |
| `Availability.AvailabilityIndex.ReplaceProviderProofs` | src/p2p/availability.rs:72-81 | afterwards the peer is listed for exactly the given ids, every other pair is as before |
| `Availability.AvailabilityIndex.Providers` | src/p2p/availability.rs:44-54 | lists every provider of the id once, in increasing order of their bytes |
| `Availability.SortedIsUnique` | src/p2p/availability.rs:44-54 | the byte order leaves one possible answer: two sorted listings of one set are equal |
| `DriverModel.AuthorizeKeeps` | src/p2p/driver.rs:641-671 | the incremental diff leaves allow-list, gossip peers and authorized set equal to the new validators without the local peer |
| `DriverModel.HandleKeeps` | src/p2p/driver.rs:389-420 | one loop iteration keeps request correlation and the drain invariant, never goes back a phase, and while draining never adds work |
| `DriverRuns.RequestEffect` | src/p2p/driver.rs:567-602 | a request goes out exactly when running, authorized and not in flight, with ids nobody else has |
| `DriverRuns.ResponseEffect` | src/p2p/driver.rs:977-1031 | a proof is delivered exactly when the asked peer sends, for this chain, content of known type, within the limit and hashing to the id; that peer is then listed exactly in this case |
| `DriverRuns.RespondEffect` | src/p2p/driver.rs:604-639 | an answer leaves exactly for a known token, right content or none, and a waiting peer; the token is gone either way |
| `DriverRuns.DrainProtocol` | src/p2p/driver.rs:673-705 | over whole runs the phase only moves forward, work never grows after drain began, no Drain call is answered twice, only the one that started the drain waits and only until Drained, success is told only when Drained with nothing unfinished, and in_flight is exactly the pairs on the wire |
| `DriverRuns.DrainAnswers` | src/p2p/driver.rs:490-500 | in each iteration of any run at most one Drain caller is answered: a call during the drain is refused at once, one after it succeeds at once, the one that started it succeeds in the iteration that ends the drain |
| `DriverRuns.DrainProgress` | src/p2p/driver.rs:673-705 | each answer, response, failure or delayed message takes exactly one unit off the drain |
| `DriverRuns.TokenConsumedOnce` | src/p2p/driver.rs:604-639 | an inbound token is consumed at most once: every later use in any run is refused as unknown |
| `DriverRuns.LocalPairsOnlyLocal` | src/p2p/driver.rs:782-880 | no network input changes what the index says about the local peer |
| `DriverRuns.LocalCommandsSetLocalPairs` | src/p2p/driver.rs:432-455 | announce, forget and replace set the local peer's pairs exactly |
| `DriverRuns.ResponseAcceptedIff` | src/p2p/driver.rs:782-880 | a gossip response counts exactly when signer and forwarder are authorized and it has at most 128 entries, each the id of an authorized peer, so one that names the local peer is dropped whole; what it then lists and reports is exactly what it names |
| `DriverRuns.ListingStaysAuthorizedIff` | src/p2p/driver.rs:977-1031 | an iteration keeps every listed provider authorized or local exactly unless it accepts a proof from a peer removed since it was asked |
| `DriverRuns.OnlyValidatorsListed` | src/p2p/driver.rs:641-671 | a run without such late proofs lists authorized validators and the local peer only, at every moment |
| `DriverRuns.RemovedPeerGetsListed` | src/p2p/driver.rs:977-1031 | for any peer and proof a run of three inputs that ends with the removed peer listed |
| `NetworkDrivers.NetworkDriver.RequestProofFrom` | src/p2p/driver.rs:567-602 | the in-place handler gives the refusal or the request id of the request transition and keeps the driver's invariant |
| `NetworkDrivers.NetworkDriver.Respond` | src/p2p/driver.rs:604-639 | the in-place handler removes the token before anything else and gives the answer of the respond transition; afterwards the token is unknown |
| `NetworkDrivers.NetworkDriver.HandleOutboundResponse` | src/p2p/driver.rs:977-1031 | the in-place handler closes the request, updates the index and emits the one event of the response transition, keeping the invariant |
| `NetworkDrivers.NetworkDriver.HandleOutboundFailure` | src/p2p/driver.rs:899-918 | the in-place handler closes the request, unlists the peer and emits the failure event, keeping the invariant |
| `NetworkDrivers.NetworkDriver.HandleInboundRequest` | src/p2p/driver.rs:926-975 | an admitted request gets a fresh token and one event; a refused one, or one nobody can be told of, leaves no token behind |
| `NetworkDrivers.NetworkDriver.ReplacePeers` | src/p2p/driver.rs:641-671 | the two diff loops end with three equal sets and no removed peer in the index |
| `NetworkDrivers.NetworkDriver.Drain` | src/p2p/driver.rs:490-500 | in place, a Drain call starts the drain and forgets open queries, is refused or is told of success, as the drain transition says; the invariant is kept |
| `NetworkDrivers.NetworkDriver.CompleteDrain` | src/p2p/driver.rs:688-705 | the caller that started the drain is answered exactly when draining with nothing unfinished |
| `RetrievalWorkers.RetrievalWorker.EnsureRetrieval` | src/p2p/worker.rs:303-326 | a waiting id is tracked and queued, any other is dropped; slots are untouched |
| `RetrievalWorkers.RetrievalWorker.EnqueueId` | src/p2p/worker.rs:328-337 | queues exactly an id that is idle and unfinished |
| `RetrievalWorkers.RetrievalWorker.Stop` | src/p2p/worker.rs:523-534 | an idle retrieval is removed, an active one is marked finished and keeps its slot |
| `RetrievalWorkers.RetrievalWorker.StopAllExcept` | src/p2p/worker.rs:547-556 | the loop stops exactly the retrievals that no longer wait |
| `RetrievalWorkers.RetrievalWorker.FinishRequestOf` | src/p2p/worker.rs:494-521 | an owned completion frees exactly one slot without underflow, any other changes nothing |
| `RetrievalWorkers.RetrievalWorker.ClearQueryOf` | src/p2p/worker.rs:487-492 | forgets the query and outdates its timer |
| `RetrievalWorkers.RetrievalWorker.HandleWake` | src/p2p/worker.rs:471-485 | a timer of another generation does nothing; a live one requeues the retrieval or ends it past its deadline |
| `P2pInvariant.FinishReleases` | src/p2p/worker.rs:494-521 | ending an owned request frees its slot and drops the retrieval or requeues it with the peer ruled out |
| `P2pInvariant.AcceptTakes` | src/p2p/worker.rs:377-395 | an accepted request takes one slot, stays within the limit and keeps every peer asked at most once |
| `P2pInvariant.NotInFlight` | src/p2p/worker.rs:377-395 | the worker never asks for a pair that is on the wire |
| `P2pInvariant.NextKeepsInv` | src/p2p/worker.rs:85-561 | every step of worker and driver keeps the joint invariant: slot correspondence, schedule, no stall, deadlines and peers of each retrieval |
| `P2pRuns.SlotConservation` | src/p2p/worker.rs:339-441 | in every state slots in use, plus an acceptance on its way back, equal requests on the wire plus completions not yet taken; the counter is exact and within the limit |
| `P2pRuns.RequestsAreOwned` | src/p2p/worker.rs:494-521 | the duplicate-request error never reaches the worker, every completion finds its owner, and the subtraction never underflows |
| `P2pRuns.InboundRequestsAccounted` | src/p2p/worker.rs:157-166 | in every state each unanswered inbound request is in exactly one unread event or is the one being answered, with its own id |
| `P2pRuns.WorkerEndsIff` | src/p2p/worker.rs:85-301 | the worker ends exactly by answering a peer whose channel has closed or by being broken off, by an unpublished query or announcement or a closed store channel; no other refusal of an answer or a request ever happens |
| `P2pInvariant.AnswerRefusedOnlyIfClosed` | src/p2p/driver.rs:604-639 | an answer made from the store is refused exactly when the channel is closed: the token is known, and the content has the asked id and fits |
| `P2pRuns.NoRetrievalStalls` | src/p2p/worker.rs:303-561 | between handlers each retrieval is active, has an open query with a timer of its generation, or is queued; queued ones are in the queue with every slot taken, finished ones are active |
| `P2pRuns.RetrievalAges` | src/p2p/worker.rs:356-441 | while tracked a retrieval's deadlines are set at most once, no attempted peer is forgotten, and no peer gets two accepted requests |
| `P2pRuns.PastDeadlineEnds` | src/p2p/worker.rs:356-521 | past its deadline a retrieval ends at the next completion, timer or provider choice that decides about it |
| `P2pRuns.TimerBounds` | src/p2p/worker.rs:443-469 | a query schedules one timer of the new generation, within the capped backoff and the time left; the active deadline it expects exists |
| `P2pRuns.BackoffDoubles` | src/p2p/worker.rs:568-571 | the cap doubles from the initial backoff until the maximum and then stays |
| `P2pRuns.FailureReleasesIffPeerMatches` | src/p2p/driver.rs:899-918 | a failure event releases the slot of its request exactly when the reported peer is the one asked |
| `RetrievalLives.LifeBegins` | src/p2p/worker.rs:303-326 | an untracked id becomes tracked exactly where its record is found waiting, as a fresh queued retrieval of generation zero |
| `RetrievalLives.DropsIff` | src/p2p/worker.rs:157-561 | a step ends a retrieval exactly under one of the listed guards: how its request ended, what the store reports, a reconcile, a passed deadline, a draining driver |
| `RetrievalLives.FoundStaysTrackedIff` | src/p2p/worker.rs:303-561 | over whole runs an id found waiting stays tracked exactly as long as no step drops it |
| `RetrievalLives.NoPeerAskedTwice` | src/p2p/worker.rs:356-395 | in no run are there two request steps for one id and peer while the id stays tracked |
| `RetrievalLives.RequestWasChecked` | src/p2p/worker.rs:356-395 | every request in any run goes back to a choice of that peer made before the transfer deadline, with nothing done by the worker in between |
| `RetrievalLives.QueryWasChecked` | src/p2p/worker.rs:396-441 | every availability query goes back to a step that found nobody to ask, no open query and the active deadline ahead |
| `RetrievalLives.TimerActsIff` | src/p2p/worker.rs:471-485 | within one life a timer acts exactly when the retrieval is unfinished and the generation has moved on by a multiple of 2^64 since; a superseded one is only spent |
| `RetrievalLives.AnyTimerActsIff` | src/p2p/worker.rs:471-485 | whenever it was set, a timer acts in a life exactly when the retrieval is unfinished and the timer's generation is the number of times this life has moved on, modulo 2^64 |
| `P2pWitnesses.EarlierLifeTimerActs` | src/p2p/worker.rs:303-326 | a run in which a timer of one life closes the query of the next, because generations start again |
| `P2pWitnesses.WaitingRecordTimesOut` | src/p2p/worker.rs:471-485 | a run of nine steps in which a record found waiting is given up by its timer past the deadline, with no request ever made |
| `P2pWitnesses.WaitingRecordLosesRetrieval` | src/p2p/worker.rs:494-521 | a run in which a record found waiting while a stopped request is out ends up without a retrieval when that request fails |
| `LocalIndex.NextKeepsInv` | src/p2p/worker.rs:270-301 | every step of store, broadcast, driver and worker keeps stored proofs covered and event order right |
| `LocalIndex.StoredProofsAreListed` | src/p2p/worker.rs:536-545 | until the worker stops, each stored proof is listed for the local peer, has an unsent or unread ProofStored event, or a reconcile or announcement is due |
| `LocalIndex.QuiescentIndexIsComplete` | src/p2p/worker.rs:270-301 | once nothing is in flight the local peer is listed for every stored proof |
| `StaleListings.ListingsStayIff` | src/p2p/worker.rs:270-301 | a step keeps every listed proof stored or with its eviction ahead exactly unless it announces content whose eviction was read before |
| `StaleListings.OnlyStoredListed` | src/p2p/worker.rs:270-301 | a run without such an announcement lists, at every moment, only stored proofs and proofs whose eviction lies ahead |
| `StaleListings.QuiescentIndexIsExact` | src/p2p/worker.rs:536-545 | and once nothing is in flight the local peer is listed for exactly the stored proofs |
| `StaleListings.EvictedProofStaysListed` | src/p2p/worker.rs:270-301 | for any proof a run after which nothing is in flight and the local peer is listed for it without having it |
| `WaitingRecords.NextKeepsInv` | src/p2p/worker.rs:247-326 | every step of store, broadcast, driver and worker keeps the store sound, the worker's invariant, and a later notice for every record that waits again after an unread eviction |
| `WaitingRecords.CoverLostIff` | src/p2p/worker.rs:247-561 | a step leaves a waiting record in the worker's hands, noticed or due for a reconcile exactly unless it gives its retrieval up on a late event, a failed request, a passed deadline or a draining driver |
| `WaitingRecords.UncoveredWasLost` | src/p2p/worker.rs:247-561 | in any run a waiting record that nobody takes care of was lost by one such step and has waited since |
| `WaitingRecords.WaitingIsSought` | src/p2p/worker.rs:303-561 | in any run until the worker stops, each waiting record has a request out, a query with its timer, or a place in the queue with every slot taken, is about to be looked at, or was lost by one step |
| `LostRecords.WaitingRecordIsLost` | src/p2p/worker.rs:443-485 | from an empty store a run after which nothing is in flight, the record waits and nobody takes care of it |
| `Descriptors.ObservedIdIsContentId` | src/chain/descriptor.rs:54-76 | a descriptor with the hashes of some content is valid exactly with the id the store computes for it |
| `Descriptors.ObservedIdBindsContent` | src/chain/descriptor.rs:54-76 | content with an observed id is what the chain described in every part, or the two preimages of that id are a collision |
| `PagedQuery.ReadAnswer` | src/chain/client.rs:451-464 | an answer passes exactly when it arrived, decodes and is at the pinned height |
| `PagedQuery.ReadPage` | src/chain/client.rs:293-321 | the record loop succeeds exactly when the listing so far is valid and strictly ordered, and collects its pending requests |
| `PagedQuery.ProofsByHeight` | src/chain/client.rs:240-334 | against any server the query ends within 257 requests, succeeds exactly when the answers start with a complete listing, returns its pending records and never reports more than 256 of them; every request names the height, and after the first carries the key of the page before and the height of the first answer |
| `PagedQuery.CompleteIsBounded` | src/chain/client.rs:316-330 | a complete listing has at most 257 pages and 256 records |
| `PagedQuery.CompleteIsUnique` | src/chain/client.rs:320-330 | the answers of a server contain at most one complete listing |
| `PagedQuery.PendingIsExact` | src/chain/descriptor.rs:22-51 | the result is exactly the pending requests of the listing, all at the requested height, strictly increasing by index |
| `ListenerModel.QueryReturnsPending` | src/chain/client.rs:240-334 | a server that pages the true listing of a height, however cut, makes the query succeed with exactly the requests pending there |
| `ListenerModel.WindowIsTopThree` | src/listener.rs:430-434 | the window is the top three heights that exist |
| `ListenerModel.NothingSkippedIff` | src/listener.rs:430-434 | advancing leaves no height out exactly when it advances by at most three |
| `ListenerModel.ScanFinds` | src/listener.rs:334-347 | a completed scan observes exactly what is pending at each height of the window when it comes to it |
| `ListenerModel.BlockMissesNothingIff` | src/listener.rs:302-332 | a block that advances the listener leaves nothing unobserved exactly when it advances by at most three or every request still pending at a skipped height was known, is in the block or is found in the window |
| `ListenerModel.SessionMissesNothingIff` | src/listener.rs:279-296 | the same for a session that starts at a greater height than the remembered one |
| `ListenerModel.InitializeKeeps` | src/listener.rs:279-296 | a session start that succeeds covers the window and refreshes the allow-list for the height it remembers; a recoverable failure changes neither height, hash nor allow-list, a fatal one leaves the allow-list or empties it |
| `ListenerModel.ProcessBlockKeeps` | src/listener.rs:302-332 | a processed block is observed, the window stays covered, and the remembered height only moves up and only after everything succeeded; a recoverable failure changes neither height, hash nor allow-list |
| `ListenerModel.RefreshKeeps` | src/p2p/service.rs:217-226 | a failed fetch changes nothing; a removed local validator empties the set and is fatal; otherwise the set is that of the height |
| `ListenerRuns.WindowAlwaysCovered` | src/listener.rs:279-347 | across sessions, gaps, repeats and reconnects every still-pending request in the window of the remembered height was observed |
| `ListenerRuns.NothingMissed` | src/listener.rs:302-347 | if the remembered height never jumps by more than three up to some moment, nothing still pending between the first window and the height of that moment is ever missed |
| `LongJumps.LongJumpMisses` | src/listener.rs:302-347 | for every advance by more than three, a truthful node and a run of two successful calls after which a request still pending at the first skipped height is unobserved |
| `LongJumps.JumpIsSafeIff` | src/listener.rs:302-347 | over all runs against truthful nodes, an advance is certain to leave nothing unobserved exactly when it is by at most three |
| `ListenerRuns.AllowListIsCurrent` | src/listener.rs:298-332 | refetching only when the hash changes leaves the allow-list equal to the validators at the remembered height without the local peer |
| `Listeners.ParseProofEvents` | src/listener.rs:349-375 | the block is accepted exactly when each submission is valid for it and no index repeats, and gives the ids in order |
| `Listeners.ListenerTask.ReconcileActiveWindow` | src/listener.rs:334-347 | the loops over heights and their proofs observe exactly what the scan transition observes, up to the first failure |
| `Listeners.ListenerTask.ReplacePeersAt` | src/p2p/service.rs:217-226 | the snapshot is fetched before the driver is changed; the removed local validator case empties the set |
| `Listeners.ListenerTask.InitializeSession` | src/listener.rs:279-296 | status, window scan, hash and refresh in place: state and outcome are those of the initialize transition |
| `Listeners.ListenerTask.ProcessNewBlock` | src/listener.rs:302-332 | gap scan, observations, refresh and remembered height in place: state and outcome are those of the block transition |
| `Sizes.ResponseFitsIff` | src/p2p/codec.rs:20-38 | every answer with a proof within the limit, or none, fits the response bound for any chain id, and with a chain id nothing larger does |
| `Sizes.RequestFitsIff` | src/p2p/codec.rs:69-79 | a request fits its fixed bound exactly for chain ids of at most 987 bytes |
| `Sizes.ExchangeRoundTrip` | src/p2p/codec.rs:93-128 | what one peer answers within the limits the other reads back unchanged |
| `Sizes.SubmissionFits` | src/rpc/submission.rs:68-73 | under the configured ranges the limit exists and no in-limit proof with an in-limit transaction exceeds it |
| `Sizes.WireSizeAgrees` | src/p2p/driver.rs:1073-1093 | the size the driver measures on the wire is the size the store measures |
| `Sizes.DeliveredProofIsStorable` | src/p2p/driver.rs:1073-1093 | a delivered proof is never refused by the store for size or identity |
| `Sizes.WeightIsDefined` | src/store/mod.rs:582-595 | no expect of the weigher fails for a record the store may hold, and no record outweighs the maximum checked at start |
| `Submissions.AcceptedIff` | src/submission.rs:128-236 | a submission is accepted exactly when within the limits and named by the one message of its transaction; the id-mismatch branch is unreachable |
| `Submissions.TransactionDeterminesId` | src/submission.rs:77-125 | accepted submissions of one transaction have one id whatever proof each carried, and one proof unless two artifacts in the same place collide; equal hashes mean equal ids unless the two transactions collide |
| `SubmissionRuns.InsertionSucceeds` | src/submission.rs:90-94 | storing a validated submission never fails |
| `SubmissionRuns.ReceiptsAreRight` | src/submission.rs:77-125 | with caching, sharing, expiry and abandoned initializers, whoever gets a receipt gets that of its own submission or an earlier step of this run accepted a transaction that collides with its own; content was stored before its transaction was relayed |
| `SubmissionRuns.ReceiptsAreExact` | src/submission.rs:77-125 | in a run whose accepted transactions have distinct hashes every receipt is exactly that of the caller's submission |
| `SubmissionServices.SubmissionService.Submit` | src/submission.rs:77-125 | a cached receipt causes no new effect and is the caller's own unless its transaction collides with the one that filled the slot; otherwise content is stored, then relayed, a success gives the caller's own receipt, and only a success is remembered |

## Left out

- libp2p transports, gossip internals, identity files, tonic servers, control socket, CLI, telemetry and configuration parsing: I/O around unseen libraries.
- The Barretenberg process handling: a backend is anything that returns a verdict, reports a failure, panics or runs out of time.
- The bodies of SHA-256, hex and UTF-8 decoding and of the Cosmos message decoders: parameters; envelope checks of gossip messages other than the provider list are taken as passed.
- Deadlock freedom of the bounded command and event channels: the channels are unbounded here, so only safety is stated.
- Fairness: no result says that an enabled step is eventually taken.
- Shutdown ordering between tasks and the reconnect backoff: sequencing of awaits, which would add easy members only.
- drive_pending and try_retrieve as methods: they await the driver in every turn, so they are steps of P2pSystem and not methods of RetrievalWorker.
- The order of announcements and random choices among providers: any choice is allowed.
- Wrap-around of the 64-bit request and token counters: they are unbounded; only the timer generation wraps.
- A driver task that dies, and with it the worker: the driver is always there in this model.
- Moka's own size policy: an eviction may happen at any time; only the weight of a record is modelled.
- A caller that is cancelled between a store commit and the sending of its events: its events would stay unsent, which the theorems allow for as pending.
