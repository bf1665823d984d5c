# Verified models of Mantle's off-chain services

This project models the hardest logic of the Mantle monorepo in Dafny and proves what that logic
promises, for all inputs, all runs and all interleavings. Its parts are:

- **Batch JSON-RPC in proxyd** (`JsonRpc`, `BatchSort`, `BatchForward`, `BatchGroups`, `BatchTraffic`, `BatchServer`,
  `BatchTheorems`): a batch is grouped by backend group and by repetition of its IDs, looked up in the cache,
  cut into mini-batches, forwarded with retries and failover, re-sorted by ID and scattered back. Every slot
  ends up with what its own request is owed, and the upstream traffic is exactly the mini-batches of the misses.
- **State surgery** (`FiniteSums`, `SurgerySpec`, `SurgeryMigrate`, `SurgeryTheorems`): the migration of BVM ETH
  balances into native balances. It computes one function of its input, whatever the map order, conserves the
  supply, and its last check passes exactly when the skipped accounts held nothing.
- **The transaction manager** (`SendState`, `TxManager`, `TxHistory`, `TxReadings`, `TxRuns`, `TxTheorems`): the
  event loop, its goroutines, the shared send state, the receipt channel, cancellation and the wait group, as one
  state machine. Every claim about a run is a claim about its steps.
- **The response cache and the connection limiter** (`CacheKeys`, `RpcCache`, `ChainCache`, `WsLimiter`): when
  cache hits agree with a chain that reorganises; connection counters equal the number of live sessions.
- **Fraud-proof traces and gas prices** (`FraudTrace`, `GasPricer`, `GasUpdater`): the shape of the trace and the
  dispatch over it; the price recurrence over many epochs; the blocks each epoch pays for.

How the outside world appears:

- In the batch handler, what the network, the limiter, the deadline and the cache answer is a function of the time
  at which they are asked (`BatchForward.Env`), so a contract that holds for every `Env` holds for every behaviour.
  They can only be asked through the object `BatchForward.Outside`, which remembers every HTTP request, cache
  lookup, deadline check and forward of a backend group. Results about what is sent are results about that record.
- Iteration over a Go map takes any remaining key (`:|`), so results hold for every order.
- A panic, a nil dereference and `log.Crit` are outcomes (`Panicked`, `Crashed`, `None`), not preconditions.
- Concurrent code is a machine whose steps carry what the node, the clock and the callbacks answer. Theorems
  quantify over all step sequences.
- `uint64` arithmetic that can wrap is written with the modulus. `float64` is `real`.

Where the code and its own words differ, or a plausible reading of it fails, the model follows the code:

- A comment says that repeated request IDs lead to upstream batches of size one (proxyd/server.go:295). They lead
  to one batch group per repetition count, and a group is cut into mini-batches of the configured size.
  `RepeatsShareABatch` is a client of the handler, with IDs 1, 2, 1, 2, that causes an upstream batch of two.
  `RepeatsShareIff` says exactly when an answered batch does so: upstream batches may hold two requests and some
  group of repeated IDs has two cache misses. `RepeatsShareWithoutHits` and `RepeatsTravelAloneInOneGroup` turn
  this into a condition on the requests.
- A response reaches the cache some time after the node gave it: proxyd/server.go:379 forwards, the loop at
  proxyd/server.go:392-404 stores, and no lock spans the two, nor the guard of a store and its write. So the cache
  can serve a block that the chain has replaced. `StoredTooLate` is a run in which it does. `HitsAreTruthfulIff`:
  hits are truthful at every moment of a run if and only if no step stored a result that was outdated by then.
  `DeepAnswersAreNeverOutdated`: a result about blocks that were already deep when the node answered never is.
- When the transaction manager gives up, no hash's latest *recorded* receipt query was positive. The queries
  themselves may say otherwise, because a goroutine asks in one step and records in another:
  `AbortDespitePositiveQuery` is a run in which Send gives up on a transaction that a query has already found, and
  `OvertakenRecord` one in which two goroutines record their answers in the wrong order. `ReadingsAgreeIff` says
  exactly when the two readings agree about a hash that one goroutine polls. If several poll it, only one direction
  is proved, `ReadingsDifferOnlyIf`. `AbortAndQueries` is exact for updates that each return a transaction of their
  own.
- The error of `NewGasPricer` speaks of the range (0,100], but only values at or below zero are refused
  (gas-oracle/gasprices/l2_gas_pricer.go:35).
- The trace of `GenerateStates` ends with a repeated block state, and the step to it is none of the documented
  transitions; `TraceIsDocumented` says so as an equivalence.
- Genesis does not always have the last word in the migration: the zero-nonce pass adds to an allocated account
  that had no old account. `AllocCanChange` is such an input, `AllocKeptIff` the exact condition.
- The confirmation test of the transaction manager adds in `uint64`. `ConfirmedIff` says exactly when the sum
  misleads it and `ConfirmedCanWrap` shows one such case.
- The updater adds an epoch's gas in `uint64`. `GasConserved` holds exactly when no epoch's gas wraps, and
  `GasCanWrap` is an epoch that is priced as if it had used nothing.

## Model

| member | source | states |
|---|---|---|
| BatchSort.SortBatchRPCResponse | proxyd/backend.go:457-472 | panics exactly on duplicate request IDs; otherwise it permutes the answers, and each ends at its request's position if and only if the answers carry the request IDs, each once |
| BatchSort.SortSlice | proxyd/backend.go:467-471 | in place: sorted by position, and a permutation of what was there |
| BatchSort.SortedPlacesIds | proxyd/backend.go:457-472 | answers sorted by a position map are in request order exactly when their IDs are a permutation of the distinct request IDs |
| BatchForward.Ask | proxyd/methods.go:365-391 | whatever the cache holds at whatever time, a hit carries the ID of the request that asks |
| BatchForward.StampAll | proxyd/backend.go:437-441 | panics exactly when the status is not 200 and some answer has no error object; otherwise every error carries the status |
| BatchForward.Arrange | proxyd/backend.go:437-445 | stamping and sorting invent no answer and restore request order for any permutation of the IDs |
| BatchForward.ReadReply | proxyd/backend.go:397-449 | fails exactly on a reply that is retried or of an unexpected shape; an honest reply never panics, and each answer was said in it about the request at its position |
| BatchForward.DoForward | proxyd/backend.go:356-449 | makes and records one HTTP request; fails exactly if the reply is retried or of an unexpected shape; an honest reply never panics, and what comes back was said by this backend, at this time, about the request at its position |
| BatchForward.Retry | proxyd/backend.go:221-273 | every failed exchange but the last is followed by another, up to the allowed number; an unexpected shape and a usable reply end it |
| BatchForward.Forward | proxyd/backend.go:211-273 | an error exactly if the backend was offline, over its limit, of an unexpected shape, or failed each of its maxRetries + 1 tries; otherwise what it said in the last exchange; the HTTP requests made are exactly those of this attempt |
| BatchForward.ServingNeverDeclines | proxyd/backend.go:211-273 | a backend that is up, below its limit and replies in shape declines nothing |
| BatchForward.TryBackends | proxyd/backend.go:486-520 | backends are tried in order, each after the one before declined |
| BatchForward.GroupForward | proxyd/backend.go:479-524 | adds exactly one call to the record, which accounts for all HTTP requests made; the no-backends error exactly if every backend declined, otherwise what the last one tried said about each request |
| BatchGroups.Classify | proxyd/server.go:301-339 | only a request with an ID and a mapped method is routed, and to the group of its own method |
| BatchGroups.OccurrencesGrow | proxyd/server.go:340-342 | the occurrence count of an ID grows strictly with each request that carries it |
| BatchGroups.MembersSound | proxyd/server.go:340-345 | each member of a batch group is a routed request of that backend group and count, in request order |
| BatchGroups.MembersComplete | proxyd/server.go:340-345 | every routed request is in its batch group |
| BatchGroups.MembersHaveDistinctIds | proxyd/server.go:290-295 | requests of one batch group never share an ID, so no upstream batch can trip the duplicate-ID panic |
| BatchGroups.RepeatsTravelAloneIff | proxyd/server.go:340-345 | before the cut: batch groups of repeated IDs have one member each if and only if no two IDs meet in a later occurrence |
| BatchGroups.RepeatsTravelAloneInOneGroup | proxyd/server.go:340-345 | with one backend group, two IDs meet in a later occurrence if and only if two IDs are repeated |
| BatchGroups.RepeatsCanShareAGroup | proxyd/server.go:340-345 | IDs 1, 2, 1, 2: the second occurrences share a batch group |
| BatchServer.GroupRequests | proxyd/server.go:301-346 | the batch map is exactly the partition of the routed requests, and every direct answer is in its slot |
| BatchServer.SplitByCache | proxyd/server.go:349-360 | every element is looked up once, in order; the hits are exactly those that the cache answered, with that answer in their slot; the misses are the others, in order; no other slot changes |
| BatchServer.Scatter | proxyd/server.go:392-394 | each answer goes to the slot of its own request and nowhere else |
| BatchServer.ForwardMiniBatch | proxyd/server.go:379-394 | one call for exactly these elements; every element gets what that call says about it, or the group's error under its own ID |
| BatchTraffic.ChunkStart | proxyd/server.go:363-376 | mini-batch i starts inside the misses exactly when i is below the computed count |
| BatchTraffic.ChunksCover | proxyd/server.go:363-376 | the mini-batches begin at the first miss and end after the last |
| BatchTraffic.CutCarries | proxyd/server.go:363-378 | the first calls of a cut carry a prefix of the misses, and all of a full cut carry exactly the misses, in order |
| BatchServer.ForwardNext | proxyd/server.go:365-394 | one deadline check; if the deadline had passed, no call at all; otherwise exactly one call right after the check, for exactly these misses, in the order of the backends, and their slots are filed |
| BatchServer.ForwardCut | proxyd/server.go:364-394 | mini-batch i is forwarded after the i before it, so the calls so far stay the first i + 1 mini-batches of the misses |
| BatchServer.ForwardMisses | proxyd/server.go:362-407 | however it ends, the calls are the first mini-batches of the misses, each full but the last of all, within the maximum and free of duplicate IDs, each right after its own passed deadline check; a timeout comes from one more check that failed, and no call follows that check; if it completes, there are as many calls as mini-batches and all misses are filed |
| BatchServer.ProcessGroup | proxyd/server.go:348-407 | one group from cache to slots, touching no slot of another group; traffic as above, also after a timeout or a crash |
| BatchServer.ProcessAll | proxyd/server.go:347-408 | in any order of the batch map, every group is handled exactly once; after a timeout or a crash, the calls of every group are still its first mini-batches, and no call follows the failed check |
| BatchServer.HandleBatchRPC | proxyd/server.go:289-410 | honest backends never crash it; however it ends, the recorded calls of each batch group are the first mini-batches of its misses, each after its own passed deadline check; it times out only after a failed check, which no call follows; if it answers, every mini-batch was sent and every slot holds what its request is owed: what the cache said to its own lookup, or what the very call that carried it says |
| BatchTheorems.SlotsCarryIds | proxyd/server.go:301-409 | slot k answers under request k's own ID whenever request k parsed and validated, whatever proxyd's cache holds |
| BatchTheorems.SlotsAreReference | proxyd/server.go:289-410 | with the no-op cache and stateless, serving backends, the slots are the reference answers of the requests one by one |
| BatchTheorems.BatchEqualsAlone | proxyd/server.go:289-410 | a client that sends a batch and then one of its requests alone gets responses both times, and slot for slot the same, whatever IDs repeat and however batches are visited and cut |
| BatchTheorems.SuchBackendsExist | proxyd/backend.go:356-449 | the assumptions of that comparison can be met |
| BatchTheorems.RoutedAtMostOnce | proxyd/server.go:340-378 | however the handler ends, a routed request was sent at most once, to the group of its method and to no other, and never if the cache answered it |
| BatchTheorems.RoutedExactlyOnce | proxyd/server.go:340-378 | in an answered batch, a routed request is answered from the cache and never sent, or sent exactly once, to the group of its method, and to no other |
| BatchTheorems.DirectNeverSent | proxyd/server.go:301-338 | however the handler ends, a request that proxyd answers itself is never sent upstream |
| BatchTheorems.RepeatsShareIff | proxyd/server.go:290-295 | an upstream batch of an answered batch carries several requests with repeated IDs if and only if upstream batches may hold two and some group of repeated IDs has two cache misses |
| BatchTheorems.RepeatsShareWithoutHits | proxyd/server.go:290-295 | without cache hits: if and only if upstream batches may hold two and two IDs meet in a later occurrence |
| BatchTheorems.RepeatsShareABatch | proxyd/server.go:290-295 | a client that sends IDs 1, 2, 1, 2 gets responses and causes an upstream batch that carries the last two together |
| SurgeryMigrate.StateDB.Import | state-surgery/cli.go:233-241 | writing an account field by field and slot by slot leaves exactly that account, without its zero slots |
| SurgeryMigrate.ReadLists | state-surgery/cli.go:83-152 | the list-by-list fill gives the addresses to migrate and, for each slot, the kind that the last list to name it gives |
| SurgeryMigrate.CheckStorage | state-surgery/cli.go:169-196 | succeeds exactly when every storage slot is accounted for, and then returns the sum of the balance slots |
| SurgeryMigrate.CopyAccounts | state-surgery/cli.go:250-316 | succeeds exactly when no copied account held native balance; then the output is the genesis overlay and the total is that of the copied balances |
| SurgeryMigrate.CreditLeftovers | state-surgery/cli.go:323-332 | credits every listed address without an old account, on top of genesis |
| SurgeryMigrate.Migrate | state-surgery/cli.go:71-345 | completes exactly when all checks hold on the input, and then produces the one output the input determines, whatever the map order |
| SurgeryTheorems.BalanceSlots | state-surgery/storage.go:15-32 | a slot counts as a balance exactly when it belongs to a listed address |
| SurgeryTheorems.FoundIsListed | state-surgery/cli.go:169-196 | summing balance slots is summing the balances of the listed addresses |
| SurgeryTheorems.FoundMinusMigrated | state-surgery/cli.go:250-342 | the gap of the last check: listed balances of skipped accounts minus migrated balances nobody listed |
| SurgeryTheorems.UnlistedHoldNothing | state-surgery/cli.go:169-196 | after the slot check, an unlisted address holds no balance |
| SurgeryTheorems.LastCheckPassesIff | state-surgery/cli.go:336-342 | the gap is what the skipped accounts held, so the last check passes if and only if they held nothing |
| SurgeryTheorems.OutputTotal | state-surgery/cli.go:233-332 | output balances add up to genesis balances plus the migrated total |
| SurgeryTheorems.Conservation | state-surgery/cli.go:201-211 | after a completed migration, output balances add up to genesis balances plus total supply minus the accepted delta |
| SurgeryTheorems.OutputAccounts | state-surgery/cli.go:250-332 | what becomes of each account: code, nonce and storage kept and balance replaced; genesis as given; BVM ETH gone; new accounts with only a balance |
| SurgeryTheorems.AllocKeptIff | state-surgery/cli.go:323-332 | an allocated account is exactly as genesis says if and only if it existed before, or no list names it, or it held nothing |
| SurgeryTheorems.AllocCanChange | state-surgery/cli.go:323-332 | an input on which the migration completes and an allocated account ends with more than genesis gave it |
| SendState.ReplayMined | bss-core/txmgr/send_state.go:61-85 | the mined set is the set of hashes whose latest receipt query was positive |
| SendState.ReplayCount | bss-core/txmgr/send_state.go:41-85 | the counter is the number of nonce-too-low errors since the mined set last became empty |
| SendState.AbortMeaning | bss-core/txmgr/send_state.go:90-102 | the abort test read off the event log, in both directions |
| SendState.SendState.ProcessSendError | bss-core/txmgr/send_state.go:41-57 | refines the replay: logs one event exactly for an error that contains nonce-too-low |
| SendState.SendState.TxMined | bss-core/txmgr/send_state.go:61-66 | refines the replay by one mined event |
| SendState.SendState.TxNotMined | bss-core/txmgr/send_state.go:70-85 | refines the replay by one not-mined event, with its conditional reset |
| SendState.SendState.ShouldAbortImmediately | bss-core/txmgr/send_state.go:90-102 | true exactly when nothing is believed mined and enough errors came since the last reset |
| SendState.SendState.IsWaitingForConfirmation | bss-core/txmgr/send_state.go:106-111 | true exactly when some hash's latest query was positive |
| TxHistory.SendIsReplay | bss-core/txmgr/send_state.go:41-85 | at every moment of every run the shared state is the replay of what the steps so far recorded |
| TxHistory.StoriesHold | bss-core/txmgr/txmgr.go:138-202 | whatever a goroutine holds goes back to its own steps: a publication, a query, a measured tip, in this order |
| TxHistory.HashIsOwn | bss-core/txmgr/txmgr.go:141-162 | a goroutine works on the hash that its own price update returned |
| TxHistory.ChannelStoryHolds | bss-core/txmgr/txmgr.go:191-243 | until the event loop decides, the channel holds exactly the first receipt put on it; a received receipt is that one |
| TxHistory.CancelsAreCaused | bss-core/txmgr/txmgr.go:141-175 | a cancelled context or a return without receipt goes back to the caller, a fatal update or a verdict to abort |
| TxReadings.ReadingsAgreeIff | bss-core/txmgr/txmgr.go:275-324 | with one poller for a hash, the latest query and the latest record agree if and only if no goroutine holds a contradicting answer it has not recorded |
| TxReadings.ReadingsDifferOnlyIf | bss-core/txmgr/txmgr.go:275-324 | in general they differ only by a held answer or by two goroutines asking about one hash |
| TxReadings.FreshMeansOnePoller | bss-core/txmgr/txmgr.go:141-185 | if every price update returns a transaction of its own, every hash has one poller |
| TxReadings.AbortAndQueries | bss-core/txmgr/txmgr.go:162-175 | at a verdict to abort, with such updates, no hash's latest query was positive if and only if no goroutine holds an unrecorded receipt |
| TxRuns.AbortDespitePositiveQuery | bss-core/txmgr/txmgr.go:162-175 | an undisturbed run in which Send gives up although, whenever there had been an error, the latest query of a hash was positive |
| TxRuns.OvertakenRecord | bss-core/txmgr/txmgr.go:275-324 | a run in which nobody holds an answer and the readings still differ |
| TxTheorems.ReceiptIsGenuine | bss-core/txmgr/txmgr.go:137-243 | a returned receipt has five steps behind it: one goroutine published a hash, later found this receipt for it, measured in the same poll a tip that passes the confirmation test, and was first to put it on the channel; the event loop received that one, and reports it reverted exactly when failed |
| TxTheorems.AbortIsJustified | bss-core/txmgr/txmgr.go:162-175 | without a cancelled caller or a fatal update, giving up was preceded by a verdict to abort at a step when no hash's latest recorded query was positive and enough nonce-too-low errors had been recorded since the last reset |
| TxTheorems.NoGoroutineLeft | bss-core/txmgr/txmgr.go:123-139 | the wait group always counts the live goroutines; none is left when Send has returned |
| TxTheorems.LaunchesAreJustified | bss-core/txmgr/txmgr.go:207-228 | every launch but the first directly follows a check that saw no hash whose latest recorded query was positive |
| TxTheorems.LaunchesHaveTheirOwnChecks | bss-core/txmgr/txmgr.go:217-228 | no two launches are backed by the same check |
| TxTheorems.RunsAreBounded | bss-core/txmgr/txmgr.go:112-332 | every step that no timer and no caller triggers brings the end closer: any run is bounded by the potential of the state and twelve steps for each of those |
| TxTheorems.CancelledNeverStuck | bss-core/txmgr/txmgr.go:120-243 | once cancelled, a run that has run out of such steps has returned, with no goroutine left; in particular none is blocked on the channel |
| TxTheorems.ConfirmedIff | bss-core/txmgr/txmgr.go:302-302 | the uint64 confirmation test means what it should if and only if not exactly one side wraps as described |
| TxTheorems.ConfirmedCanWrap | bss-core/txmgr/txmgr.go:302-302 | a height near the top of the range passes the test although it is not confirmed |
| CacheKeys.KeysDetermineParams | proxyd/methods.go:57-63 | keys of the block handlers determine the decoded parameters: no collisions |
| CacheKeys.HandlersDoNotShareKeys | proxyd/methods.go:197-200 | keys of different handlers never coincide, nor with the last-value keys in the same store |
| CacheKeys.InputHasNoColon | proxyd/methods.go:325-363 | a valid block input contains no colon, so it can be read back from a key |
| RpcCache.Get | proxyd/methods.go:365-391 | a hit is the known result, under the ID of the request that asks |
| RpcCache.PutThenGet | proxyd/methods.go:22-49 | what is stored for one request is read back for any that differs only in ID; a refused put changes no answer; a static value is never replaced |
| RpcCache.ResponseCache.Guard | proxyd/methods.go:94-106 | passes exactly when the cached height exceeds the block number plus confirmations in uint64 |
| RpcCache.ResponseCache.PutBlockByNumber | proxyd/methods.go:81-109 | the handler's order of checks stores exactly what may be stored |
| RpcCache.ResponseCache.PutBlockRange | proxyd/methods.go:142-176 | likewise for ranges: both ends must pass |
| RpcCache.ResponseCache.PutCall | proxyd/methods.go:214-239 | likewise for eth_call |
| RpcCache.ResponseCache.PutRPC | proxyd/cache.go:157-163 | dispatch: one handler's effect, the first value of a static method, or nothing |
| RpcCache.ResponseCache.GetImmutable | proxyd/methods.go:373-391 | a response exactly if the stored text decompresses and decodes, built around the stored result with the asking request's ID |
| RpcCache.ResponseCache.GetBlockByNumber | proxyd/methods.go:65-79 | the handler's checks give exactly the hits that the stored keys allow |
| RpcCache.ResponseCache.GetBlockRange | proxyd/methods.go:125-140 | likewise for ranges |
| RpcCache.ResponseCache.GetCall | proxyd/methods.go:202-212 | likewise for eth_call |
| RpcCache.ResponseCache.GetLastValue | proxyd/methods.go:245-267 | the last polled number, under the asking request's ID |
| RpcCache.ResponseCache.GetRPC | proxyd/cache.go:143-155 | the seven handlers, each with its own checks, answer exactly when a result is known, with that result, no error, and the asking request's ID |
| ChainCache.AnswerStable | l2geth/internal/ethapi/api.go:777-807 | a reorganisation does not change the answer about deep blocks or ranges of them |
| ChainCache.GuardMeansDeep | proxyd/methods.go:94-106 | what passes the guard and exists is deep, though the cached height may be stale |
| ChainCache.CheckSound | proxyd/methods.go:81-176 | a result about blocks that passes its guard is about deep blocks, and an eth_call result about a fixed block |
| ChainCache.StoreSound | proxyd/methods.go:81-239 | writing a checked result, however late, leaves only entries for fixed, deep blocks |
| ChainCache.RunsAreSound | proxyd/server.go:379-404 | every run of answers, guards, writes, evictions, polls, growth and reorganisations, in any order, keeps the cache invariant |
| ChainCache.HitsAreTruthfulIff | proxyd/server.go:379-404 | over any run, every hit for a block or a range is at every moment, under the request's ID, what the chain would answer then, if and only if no step stored a result that was outdated by then |
| ChainCache.PendingWasAnswered | proxyd/server.go:379-404 | whatever is about to be stored was answered by an earlier step, from the chain of that step |
| ChainCache.DeepAnswerStays | l2geth/internal/ethapi/api.go:777-807 | from the moment its blocks are deep, an answer never changes again |
| ChainCache.DeepAnswersAreNeverOutdated | proxyd/server.go:379-404 | a result about blocks that were deep when the node answered is never outdated when it is stored, however late that is |
| ChainCache.OnlyDeepEntries | proxyd/methods.go:65-239 | no reachable store has an entry for a moving tag: block entries are for fixed, deep blocks, and eth_call keys end in a fixed block |
| ChainCache.GuardMeaning | proxyd/methods.go:94-106 | the guard in plain arithmetic, wrap-around included, in both directions |
| ChainCache.CallGuard | proxyd/methods.go:184-239 | exactly which eth_call responses are stored |
| ChainCache.StoredTooLate | proxyd/server.go:379-404 | a run in which a block is replaced between the answer about it and its storage, and the cache then serves the replaced block |
| WsLimiter.LocalBackendRateLimiter.IncBackendWSConns | proxyd/rate_limiter.go:226-235 | moves the count of this backend by one or, at the maximum, not at all, and no other count; a count within the maximum stays so |
| WsLimiter.LocalBackendRateLimiter.DecBackendWSConns | proxyd/rate_limiter.go:237-244 | moves the count of this backend down by one or, at zero, not at all, and no other count |
| WsLimiter.LocalBackendRateLimiter.FailedDial | proxyd/backend.go:275-294 | an attempt that is turned away or whose dial fails leaves every count as it was if and only if the backend is limited or has no count |
| WsLimiter.StepKeepsCount | proxyd/backend.go:275-294 | every step of every session keeps every counter exact |
| WsLimiter.CountersAreExact | proxyd/backend.go:327-343 | in every interleaving the counter is the number of sessions holding a slot and never exceeds the limit |
| WsLimiter.NoSlotLeaks | proxyd/backend.go:526-561 | attempts that failed contribute nothing: with no session left, every counter is zero |
| WsLimiter.SaturationIsReal | proxyd/backend.go:327-343 | an attempt is turned away exactly when all slots are taken by live sessions |
| FraudTrace.AppendBlock | fraud-proof/proof/prover.go:144-237 | the nested loops append exactly the block's states, with the accumulated gas in its last inter state |
| FraudTrace.GenerateStates | fraud-proof/proof/prover.go:91-261 | fails exactly when a block it asks for is missing; otherwise returns the trace |
| FraudTrace.TraceIsDocumented | fraud-proof/proof/prover.go:263-270 | adjacent states are a documented transition exactly before the last pair |
| FraudTrace.TraceLength | fraud-proof/proof/prover.go:91-261 | two states, plus two per block, one per transaction and one per intra state |
| FraudTrace.DispatchMatches | fraud-proof/proof/prover.go:271-378 | for a documented transition the generator takes the matching branch with an index that exists |
| FraudTrace.TraceIsProvable | fraud-proof/proof/prover.go:271-378 | for every state but the last two the generator takes the branch of the transition made there |
| GasPricer.NewGasPricer | gas-oracle/gasprices/l2_gas_pricer.go:31-45 | refuses exactly a floor below one or a change that is not positive; starts at the larger of price and floor |
| GasPricer.GasPricer.CalcNextEpochGasPrice | gas-oracle/gasprices/l2_gas_pricer.go:49-81 | fails exactly on negative usage, a target below one or no ratio; otherwise the clamped, scaled, rounded, floored price |
| GasPricer.GasPricer.CompleteEpoch | gas-oracle/gasprices/l2_gas_pricer.go:84-92 | a failed epoch leaves the price alone; the price never falls below the floor |
| GasPricer.StepBounds | gas-oracle/gasprices/l2_gas_pricer.go:57-75 | one epoch at ratio one moves the price by at most the allowed factor, plus rounding |
| GasPricer.MonotoneInUsage | gas-oracle/gasprices/l2_gas_pricer.go:57-75 | more usage never lowers the next price, at any ratio |
| GasPricer.RisesIffAboveTarget | gas-oracle/gasprices/l2_gas_pricer.go:63-75 | at ratio one the price rises exactly when usage was above the target |
| GasPricer.FloorHolds | gas-oracle/gasprices/l2_gas_pricer.go:75-75 | after any epochs, failed or not, at any ratio, the price is at least the floor |
| GasPricer.GrowthBound | gas-oracle/gasprices/l2_gas_pricer.go:49-92 | after n successful epochs the price is at most (p + 1/m)(1+m)^n - 1/m |
| GasPricer.DecayBound | gas-oracle/gasprices/l2_gas_pricer.go:49-92 | and at least p(1-m)^n when m < 1 |
| GasPricer.IdleStep | gas-oracle/gasprices/l2_gas_pricer.go:57-81 | without usage the price strictly falls until it is at the floor or price times m is below one, and then stays |
| GasPricer.IdleSettles | gas-oracle/gasprices/l2_gas_pricer.go:57-81 | it comes to rest within price minus floor epochs |
| GasUpdater.TotalGas | gas-oracle/gasprices/gas_price_updater.go:73-81 | the loop returns the 64-bit sum of the blocks' gas, or fails if one cannot be fetched |
| GasUpdater.NewGasPriceUpdater | gas-oracle/gasprices/gas_price_updater.go:28-53 | refuses exactly a block gas limit or an epoch length below one |
| GasUpdater.GasPriceUpdater.UpdateGasPrice | gas-oracle/gasprices/gas_price_updater.go:55-96 | start and price move together and only when the epoch closes; a failed publication still closes it |
| GasUpdater.EpochsTile | gas-oracle/gasprices/gas_price_updater.go:55-96 | over any calls, completed epochs follow one another without gap or overlap |
| GasUpdater.EachBlockCountedOnce | gas-oracle/gasprices/gas_price_updater.go:72-90 | the start never moves back; each block in between is in exactly one epoch, and no other block is in any |
| GasUpdater.GasConserved | gas-oracle/gasprices/gas_price_updater.go:72-90 | the epochs' totals add up to the gas of exactly those blocks if and only if no epoch's gas wraps |
| GasUpdater.GasCanWrap | gas-oracle/gasprices/gas_price_updater.go:73-81 | a truthful two-block epoch whose gas wraps to zero |
| GasUpdater.PriceIsThatOfTheEpochs | gas-oracle/gasprices/gas_price_updater.go:85-90 | the price after any calls is the pricer's over the completed epochs alone |
| GasUpdater.PriceGrowth | gas-oracle/gasprices/gas_price_updater.go:55-96 | so at ratio one it stays above the floor and below the growth bound in the number of completed epochs |

## Left out

- JSON parsing, HTTP transport, authentication, per-IP limits, logging and metrics in proxyd: a request is what `Env.parse` makes of it, a reply is a status and a decoded body.
- The batch handler's own cache writes: what the cache holds is any function of time, which covers whatever the handler and others store; what storing does is modelled in `RpcCache` and `ChainCache`.
- Redis, LRU and snappy: the store is a map with arbitrary eviction, compression any encoding that can be undone.
- BatchForward.ReadReply: the texts of transport errors are shortened; no branch depends on them.
- Whether an eth_call hit equals a fresh call: its key omits the gas price and is built from unchecked text, so only its storage guard and its key prefix are stated.
- BatchTraffic.ChunkStart: the float division and minimum of the mini-batch loop are integer arithmetic here; they are exact for the at most 100 calls that a batch may hold.
- BatchSort.SortSlice: Go's sorting algorithm is an insertion sort here; only sortedness and permutation are used.
- WebSocket sessions and `Send` with its goroutines are modelled on values as state machines: one step is atomic, so the locks of the source are taken as correct, and object identity and aliasing are not captured.
- ChainCache.HitsAreTruthfulIff: the chain in front of the cache is a state machine on values. A lookup, a poll, a guard and a write are one step each, and nothing else is. The assumptions about the chain are those of `ChainCache.LegalChain`: genesis stays, a block that once had more than the configured number of confirmations on top of it is never replaced, and heights plus confirmations stay within uint64. A polled height is one that the chain has reached.
- TxTheorems.CancelledNeverStuck: a return of `updateGasPrice`, `sendTx` or a node call is a step that the run may take by itself, so the theorem assumes that these callbacks return once the context is cancelled.
- The counter of nonce-too-low errors is unbounded.
- Timing: tickers and timeouts are steps that may happen at any moment, so nothing is said about how long anything takes.
- ClearPendingTx and the submitter service loop around Send: they depend on drivers and add only easy facts.
- Keccak is an uninterpreted function of two words. `SurgeryTheorems.KeyScheme` lists what is assumed of it for the keys in play.
- Reading address files, chain databases and trie preimages: the lists and the old state are given; a read error would only abort earlier.
- EVM execution, tries, hashes and the contents of one-step proofs: a transaction is its list of intra states and the gas it used.
- FraudTrace.GenerateStates: a start or end number of zero is not modelled, because the block before the first would not exist; errors of tracing a transaction are not modelled either, and would only end the run earlier.
- GasPricer.GasPricer.CalcNextEpochGasPrice: float64 rounding and the overflow of its conversion back to uint64 are not modelled; prices are natural numbers and arithmetic is exact.
- The token price ratio is a non-negative number from outside; how it is fetched is not modelled.
- Generated contract bindings, configuration, command lines, key management, and the base-fee and data-availability-fee updaters.
