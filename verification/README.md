# Stateful protocols of an Aptos-style node, in Dafny

This project models the stateful protocols of the node and of its REST API and proves what they keep
over whole runs. `dafny verify dfyconfig.toml` checks everything. Nothing here executes the node.

| part | files | what it is about |
|---|---|---|
| gas-price estimate | `GasLedger`, `GasPrices`, `GasBlockPrices`, `GasCache`, `GasWindow`, `GasSteps`, `GasRuns`, `GasStale`, `GasMeaning`, `GasEstimator` | the backwards walk over blocks with its per-block price cache |
| epoch manager | `EpochProof`, `EpochWorld`, `EpochSafety`, `EpochCache`, `EpochCacheRun`, `EpochReplies`, `EpochDelivery`, `EpochMessages`, `EpochConservation`, `EpochManager` | messages, background verification, the cache of verified proofs and epoch changes in any interleaving |
| execution pipeline | `ExecutionPipeline`, `PipelineRuns`, `PipelineStages` | three queues and stages, one reply per block |
| payloads | `Payloads`, `PayloadRuns`, `PayloadManager` | the status cell of a block's batches, and block preparation |
| votes of a round | `VotingPower`, `PendingVotes`, `VoteSafety`, `VoteOutcomes`, `QuorumCertificates`, `VoteCollector` | vote counting, and immediate and delayed certificate aggregation |
| safety-rules start-up | `SafetyInit`, `SafetyCore` | the initialization loop, the retry, and the core and storage behind them |
| port allocator | `PortAllocator` | the lock file and counter file shared by processes |
| long poll | `LongPoll` | the active-connection counter |
| paging | `Pagination` | cursors over an account's modules and resources |
| rendering | `Rendering` | running timestamps against per-version lookup |

Each state machine is a datatype with a step function; runs are arbitrary finite sequences of steps, so
an invariant proved over runs holds in every interleaving. Where the program updates an object in place
there is a class whose methods are proved equal to the step functions (`GasEstimator`, `EpochManager`,
`Stages`, `ProofWithData`, `RoundVotes`, `MetricsSafetyRules`, `CounterFiles`, `Connections`), and the
program's loops are loops there. What a step function computes is stated a second time from what the run was
given (the ledger's versions, the messages and outcomes, the queued blocks, the votes so far), and the two are
proved to agree.

## What the program depends on

These are the facts about code outside the model that the results rest on.

- Chain: versions are partitioned into blocks with non-decreasing epochs; genesis is exactly version 0
  and the only block of its epoch; looking up a version's block succeeds for every committed version.
- On-chain gas schedule and block limits are constant within an epoch.
- The market window of the estimate is at least one block, which the configuration sanitizer demands
  (`config/src/config/gas_estimation_config.rs:76-79`); the results over runs of estimates need it.
- Reconfiguration notices are taken from their queue in order; that their epochs increase is a hypothesis
  of the two results that need it.
- Clocks never go back; steps of different tasks interleave arbitrarily; futures are not dropped, except
  in the long poll, where dropping is one of the steps.
- Signatures: a ledger info carries the validator set a quorum of which signed it, and checking it
  against a set is comparing sets. Hashes (batch digests, waypoint values, ledger-info digests) identify
  what they are the hash of.
- Payloads are prefetched at their block's own timestamp.
- Batch reader: data delivered for a digest is the batch with that digest.
- Filter, deduplication and shuffling are functions of their arguments.
- Safety rules: `SafetyInit.Honest` is the contract the initialization loop needs, and
  `SafetyCore.RulesAreHonest` and `SafetyCore.StorageIsBounded` prove it of the actual core and storage.
- Port files: writing and truncating the counter file once it is open succeeds; every process has the
  same permutation of the port range.

## Where the program falls short of the obvious statement

- Resource paging (`api/src/context.rs:460-467`) rebuilds the cursor of a resource group as the path of
  a plain resource. `Pagination.GroupsCanLoop` gives accounts on which following the cursors never ends,
  and `Pagination.ResourcePagesIff` the exact condition for paging to be right.
- A stale caller of the gas estimate may get fewer prices than a walk without the cache would;
  `GasStale.StaleCallerGetsLess` is such a call, and `GasRuns.EveryCallGetsAPrefix` says exactly when.
- The cache of verified proofs of store (`consensus/src/epoch_manager.rs:173`) outlives epochs, and a
  cached proof is accepted without asking the current validators. `EpochCacheRun.StaleProofIsTaken` is a
  run where a quorum store takes a proof only an earlier epoch's validators were asked about,
  `EpochCache.CheckedByReaderIff` says exactly when that is so, and `EpochCache.StoreProofsAreChecked`
  that it does not happen when proposals carry only proofs of their own epoch.
- `GasPrices.NoMinimumOfNothing` is the exact condition on the settings for the estimate not to take the
  minimum of an empty list; the estimate is modelled for such settings.
- The counter of long polls keeps counting every handler dropped while it waits
  (`LongPoll.DroppedHandlerStaysCounted`); it returns to zero exactly when there is none
  (`LongPoll.CounterReturnsToZero`).
- The comment on the delayed aggregator's configuration (`config/src/config/consensus_config.rs:107-110`)
  describes the waiting time without the 32-bit cast of the percentage. The model follows the code;
  `VoteSafety.CastLosesTheDelay` is a configuration where they differ, and `VoteSafety.DocumentedDelayIff`
  the exact condition for them to agree.
- A panic while opening the counter file leaves the lock file behind
  (`PortAllocator.FailedOpenLeaksLock`), after which no call gets a port (`PortAllocator.NoPortAfterLeak`);
  it is the only way to (`PortAllocator.LockIsReleased`).

## Model

| member | source | states |
|---|---|---|
| `GasRuns.ForwardRunsAreExact` | api/src/context.rs:983-1088 | In every run of calls on a growing ledger whose versions never go backwards, across epoch changes and expiries, every walking call collects element for element the prices a walk without the cache collects. |
| `GasRuns.EveryCallGetsAPrefix` | api/src/context.rs:983-1137 | In every run, also with stale callers, a walking call gets a prefix of its cache-free list, not empty unless that list is; it gets the whole list if and only if it does not start inside a window with more of the epoch below it; the "prices empty" arms are never taken. |
| `GasStale.StaleCallerGetsLess` | api/src/context.rs:1003-1088 | Two calls with a history of two blocks, the second from one block earlier: it gets one price where the cache-free list has two. |
| `GasRuns.MapIsAlwaysAWindow` | api/src/context.rs:983-1152 | After every call of every run the price map holds the exact prices of a contiguous run of complete blocks of one epoch, at most the history length, and is full or reaches the epoch's first block. |
| `GasRuns.LinkedAfterCommits` | api/src/context.rs:1326-1332 | Commits between calls leave the cached window true of the longer ledger, although the newest block may have grown. |
| `GasRuns.EstimatesAreOrdered` | api/src/context.rs:950-1154 | Every estimate any run returns, computed, defaulted or served from the cache, has low <= market <= prioritized, given that a configured override has. |
| `GasRuns.ComputedEstimate` | api/src/context.rs:1090-1144 | A computed estimate is the statistics of a non-empty price list, at least floor(9n/10)+1 of whose n prices are at most the prioritized value, and none of its values is below the on-chain minimum when every user transaction pays it. |
| `GasPrices.StatisticsMeaning` | api/src/context.rs:1090-1137 | What low, market and prioritized mean, without sorting: the least of the recent prices; the least value a strict majority of the market window does not exceed; the bucket above the least value that floor(9n/10)+1 prices do not exceed. |
| `GasPrices.OrderStatistic` | api/src/context.rs:1108-1127 | The k-th element of the sorted list, raised to a floor, is the least value from the floor up that k+1 elements do not exceed. |
| `GasPrices.CountOfSort` | api/src/context.rs:1108-1110 | Sorting keeps the number of elements up to every bound. |
| `GasPrices.NextBucketMonotone` | api/src/context.rs:869-880 | Rounding up to sorted buckets is monotone. |
| `GasPrices.LeastBucketAbove` | api/src/context.rs:869-880 | On sorted buckets the result is at most every bucket above the price. |
| `GasPrices.NextBucket` | api/src/context.rs:869-880 | The result is never below the price, is the price or a bucket, and is the price exactly when no bucket is above it. |
| `GasPrices.NoMinimumOfNothing` | api/src/context.rs:1043-1067 | A full block always has a user transaction if and only if the block size is at least 1 and any gas limit is at least 1. |
| `GasMeaning.BlockPriceMeans` | api/src/context.rs:1034-1073 | The price of a block from the versions from its first up to but not including its last: the on-chain minimum if fewer of them than the block size are user transactions and their summed gas times the conflict window stays below any gas limit; otherwise the first bucket above the least gas price among them, or that price itself. |
| `GasBlockPrices.InclusionPriceMeans` | api/src/context.rs:1034-1073 | The same for the bounds of any block a caller's ledger reaches. |
| `GasBlockPrices.NextBucketIsFirst` | api/src/context.rs:869-880 | Rounding up gives the first configured bucket above the price, or the price if there is none. |
| `GasMeaning.ReturnedEstimate` | api/src/context.rs:950-1153 | In every run, which way a call goes and what it returns: the minimum when disabled; the override if set; the estimate stored by the latest walking call if that was in this epoch and not too long ago; otherwise the statistics of its prices, or the minimum if its epoch has no complete block to look at. |
| `GasLedger.BlockAtIsEnclosing` | storage/aptosdb/src/db/include/aptosdb_reader.rs:566-592 | Looking up a version finds a block exactly when the version lies between the block's first and last version. |
| `GasWindow.IndexWalkIs` | api/src/context.rs:1003-1026 | How far the walk goes: to the window if it lies below within reach, else to the epoch's first block or the end of the history. |
| `GasWindow.WalkIs` | api/src/context.rs:990-1026 | The walk over versions visits exactly the blocks of the walk over block indices and stops on a cached block exactly when it does. |
| `GasWindow.PriceIndependentOfCaller` | api/src/context.rs:920-948 | Every caller at or beyond a block's end computes the same price for it. |
| `GasWindow.InsertedRun` | api/src/context.rs:1074-1077 | Inserting a run of blocks between smaller and larger keys lays the run out between them. |
| `GasWindow.RangeOfWindow` | api/src/context.rs:1079-1088 | Reading the map downwards from a block gives the prices of the window up to that block, newest first, cut at the remaining history. |
| `GasSteps.WithinWindow` | api/src/context.rs:1003-1011 | A call whose start block is cached takes everything from the map and leaves the window as it is. |
| `GasSteps.LinksUp` | api/src/context.rs:1003-1152 | A walk that meets the window from above collects a full history, and insertion and eviction leave one longer window cut to the history. |
| `GasSteps.LeapsAbove` | api/src/context.rs:1003-1152 | A walk that ends before the window is long enough by itself, and eviction drops the whole old window, leaving no gap. |
| `GasSteps.BelowWindow` | api/src/context.rs:1003-1152 | A stale walk below a full window collects a full list, and eviction drops exactly what it inserted. |
| `GasEstimator.CollectBlocks` | api/src/context.rs:990-1026 | The loop that collects blocks backwards computes the walk function for every cache content. |
| `GasEstimator.GasEstimator.PriceBlocks` | api/src/context.rs:1034-1078 | The pricing loop returns the walked blocks' prices in order, each the one its versions give it, and enters them in the map. |
| `GasEstimator.GasEstimator.EvictOld` | api/src/context.rs:1146-1151 | The eviction loop keeps the largest keys, as many as the history length. |
| `GasCache.ServedUntilExpiry` | api/src/context.rs:890-918 | An estimate that was stored is served, at any later time, exactly to callers of its own epoch and exactly until it expires. |
| `GasEstimator.GasEstimator.FinishEstimate` | api/src/context.rs:1026-1153 | Pricing, statistics, eviction and the cache update together are the step function that the run results are about; the remaining-history subtraction does not underflow. |
| `GasEstimator.GasEstimator.Estimate` | api/src/context.rs:950-1154 | A whole call returns the estimate and leaves the cache of the step function. |
| `EpochSafety.EpochIsolation` | consensus/src/epoch_manager.rs:1336-1391 | In every interleaving of receipt, background verification, consumption and epoch change, an event handed to a processor or quorum store carries that instance's epoch, and its own signatures (those of proposals, votes and signed batch infos) were checked with that instance's validator set, although the buffered-proposal sender outlives shutdown. |
| `EpochDelivery.DeliveriesAreVerifiedMessages` | consensus/src/epoch_manager.rs:1336-1391 | In every run, what a reader is handed was received while its epoch was current, is of that epoch, and a later step ended its verification with the good outcome and every proof accepted, unless it is the node's own or a sync info. |
| `EpochDelivery.OnlyPassedEventsAreHeld` | consensus/src/epoch_manager.rs:1376-1391 | In every run, an event waits in a queue or was handed over only if a step ended the task of that very event, of that very instance, with `ok` and all proofs accepted, or as the node's own or a sync info. |
| `EpochDelivery.OutcomeDecides` | consensus/src/epoch_manager.rs:1376-1538 | The converse: whenever a task ends, its event is put once at the end of its own instance's queue for its kind if the outcome passes it on and that instance still reads the kind; otherwise no queue changes; nothing else does. |
| `EpochDelivery.TasksAreForReceived` | consensus/src/epoch_manager.rs:1336-1375 | In every run, each task is for a message received while its instance was current, of that instance's epoch, from that peer and with those proofs, batch traffic only with a quorum store. |
| `EpochDelivery.RunKeepsWired` | consensus/src/epoch_manager.rs:628-1313 | Every run keeps: the current epoch's processor runs, its quorum store exactly if enabled, and the manager's and every task's senders reach their instance's readers as long as those are there. |
| `EpochConservation.EventsAreConserved` | consensus/src/epoch_manager.rs:1484-1538 | In every run and at every instance, the times a task passed an event on or a proposal was put back are exactly the times it is waiting, was handed over or was dropped from a full queue: none is lost and none is doubled. |
| `EpochMessages.MessageCauses` | consensus/src/epoch_manager.rs:1336-1482 | In every run, a message to a started node adds one unchecked task if it is an event of the current epoch (batch traffic only with a quorum store) and no task otherwise, and sends its sender just the replies due: a request for the endings up to a later epoch; the endings, at most 100, from an earlier epoch unless the node is a validator; the endings requested if the node is that far; else none. |
| `EpochMessages.DeliveredProofsAreSigned` | consensus/consensus-types/src/proof_of_store.rs:338-351 | In every run, each proof of store a reader is handed in another node's message has a step behind it that found its signatures good or aggregated them, for an instance no later than the reader's. |
| `EpochMessages.CacheIsItsHistory` | consensus/consensus-types/src/proof_of_store.rs:338-351 | In every run, the cache holds for a batch exactly what was last put there, by aggregation or by a good check of a proof it did not hold, and not dropped since. |
| `EpochMessages.BadProofStopsMessage` | consensus/consensus-types/src/proof_of_store.rs:338-351 | A proof that is not cached and is found bad keeps its message from every reader, whatever else of it is found good. |
| `EpochCache.ProofsWereChecked` | consensus/consensus-types/src/proof_of_store.rs:338-351 | In every interleaving each proof of store that reaches a reader in another node's message was checked against the validators of an instance started no later than the reader, which put it into the cache. |
| `EpochCache.CheckedByReaderIff` | consensus/src/epoch_manager.rs:1347-1369 | Such a proof was checked against the reader's own validators if and only if it was not found in the cache with an earlier instance as its checker. |
| `EpochCache.CheckedByTaskIff` | consensus/consensus-types/src/proof_of_store.rs:338-351 | An accepted proof is checked with the task's own validators if and only if the cache does not hold it, with this signature, from another instance. |
| `EpochCache.StoreProofsAreChecked` | consensus/consensus-types/src/common.rs:369-413 | With notices in increasing order and proposals whose payload proofs name only the proposal's epoch, every proof of a proof-of-store message that reaches a quorum store was checked against that store's own epoch's validators. |
| `EpochCacheRun.StaleProofIsTaken` | consensus/consensus-types/src/proposal_msg.rs:83-101 | A run in which a rejected proposal of one epoch leaves a proof naming the next epoch in the cache, and the next epoch's quorum store takes it although a check against its own validators would have failed. |
| `EpochCache.RunKeepsAccounts` | consensus/src/epoch_manager.rs:173-238 | Every run keeps: cache entries, tasks, waiting events and deliveries each name an instance that checked the proof and put it into the cache. |
| `EpochSafety.OneProcessor` | consensus/src/epoch_manager.rs:583-655 | At most one round manager, recovery manager or DAG bootstrapper is live, exactly while its close handle is held; the same for the quorum store; and both are those of the current epoch. |
| `EpochSafety.EpochChangesOnlyOnProof` | consensus/src/epoch_manager.rs:1421-1430 | After start-up a step changes the epoch if and only if it receives a proof that starts at the current epoch, whose first ledger info the current validators signed and every other one the set announced before it; then a new instance runs as the notice announces (epoch state, kind of processor, quorum store, empty queues), and no earlier instance changes its epoch or its kind of processor. |
| `EpochSafety.EpochsAreNotices` | consensus/src/epoch_manager.rs:1615-1623 | The epochs a run starts are those of the notices it takes from the queue, one each, in order. |
| `EpochSafety.EpochNeverDecreases` | consensus/src/epoch_manager.rs:523-547 | When notices arrive in increasing order the local epoch never decreases between any two points of a run, and is the same at both only if no epoch was started in between. |
| `EpochSafety.EpochsAscend` | consensus/src/epoch_manager.rs:1615-1623 | When notices arrive in increasing order the started epochs are strictly increasing, whatever messages come in between. |
| `EpochSafety.RunKeepsInv` | consensus/src/epoch_manager.rs:583-1538 | Every run keeps the invariant linking senders, close handles, captured tasks, queues and deliveries to instances and their epochs. |
| `EpochReplies.RepliesByKind` | consensus/src/epoch_manager.rs:430-521 | A message of another epoch is answered by at most one request or proof, a request by at most one proof and only for epochs the responder has, and a proof by nothing. |
| `EpochReplies.RepliesDieOut` | consensus/src/epoch_manager.rs:430-521 | However nodes change in between, messages in flight and the replies they cause are used up after at most three deliveries per message. |
| `EpochReplies.LaggingNodeCatchesUp` | consensus/src/epoch_manager.rs:457-521 | A node that hears of a later epoch asks for it, the sender answers with a page of its chain, and that proof is accepted. |
| `EpochProof.VerifyProof` | types/src/epoch_change.rs:67-118 | The two loops, skipping stale ledger infos and verifying each jump, return the last ledger info exactly for accepted proofs. |
| `EpochProof.ChainedIffEveryLink` | types/src/epoch_change.rs:104-115 | A proof without stale prefix is accepted if and only if every ledger info is vouched for by the epoch state the one before it announced. |
| `EpochSafety.ShutdownStopsAll` | consensus/src/epoch_manager.rs:583-626 | After a shutdown nothing is live, every close handle is given up, queues and epochs are as before, and the proposal and quorum-store senders are kept. |
| `EpochSafety.StartedHandles` | consensus/src/epoch_manager.rs:628-892 | Starting an epoch when nothing is live leaves exactly the new processor, and its quorum store if enabled, live with the one handle for it, and senders of the new epoch only, apart from a proposal sender nobody reads. |
| `EpochSafety.RestartKeepsInv` | consensus/src/epoch_manager.rs:523-1313 | Shutting down and starting the next epoch keeps the invariant, tasks of the old epoch that are still running included. |
| `EpochManager.EpochManager.InitiateNewEpoch` | consensus/src/epoch_manager.rs:523-547 | A proof that does not verify changes nothing; one that does shuts down and starts the instance the awaited notice announces; the invariant holds, and the only live processor is that of the current epoch. |
| `EpochManager.EpochManager.ProcessMessage` | consensus/src/epoch_manager.rs:1320-1482 | A message changes the epoch exactly if it is a proof that leads on from the current one, keeps all epochs otherwise, and keeps the invariant with at most one live processor, that of the current epoch. |
| `EpochManager.EpochManager.Start` | consensus/src/epoch_manager.rs:1615-1623 | The first notice starts the first epoch and establishes the invariant. |
| `EpochManager.EpochManager.FinishVerification` | consensus/src/epoch_manager.rs:1358-1391 | A background task that ends, possibly after its epoch, changes no epoch; its event is put once into its own instance's queue if and only if the outcome passes it on and that instance still reads such events. |
| `EpochManager.EpochManager.VerifyStoreProof` | consensus/consensus-types/src/proof_of_store.rs:338-351 | Verifying a proof keeps the invariants, and the check recorded is the task's own instance's exactly if no other instance's entry was found. |
| `EpochManager.EpochManager.CacheAggregated` | consensus/src/quorum_store/proof_coordinator.rs:231-236 | A quorum store caches a proof it aggregated under its batch, which keeps the invariants. |
| `EpochManager.EpochManager.Consume` | consensus/src/round_manager.rs:1094-1176 | A live reader takes one waiting event, which leaves its queue and nothing else changes: it is of the reader's epoch; its own signatures, where its kind has any to check, were checked with that epoch's validators; each proof of store it carries was checked with those of an epoch started no later, the reader's own unless found in the cache. |
| `EpochManager.EpochManager.PutBack` | consensus/src/round_manager.rs:813-834 | A proposal is put at the end of the reader's own queue if the reader is still a running round manager, and nowhere otherwise; the invariant is kept. |
| `ExecutionPipeline.RunKeepsInv` | consensus/src/execution_pipeline.rs:64-245 | Every interleaving of callers and stages keeps: what was sent into a queue is what its stage finished, works on and has not received, in order, and the replies are those of what was finished. |
| `PipelineRuns.ExactlyOnePlace` | consensus/src/execution_pipeline.rs:64-245 | At any time every queued block is in exactly one queue, stage or reply: none is lost, and none gets two replies. |
| `PipelineRuns.QueueOrder` | consensus/src/execution_pipeline.rs:163-245 | Blocks that pass preparation are executed, applied and replied to in queue order; only replies to failed preparations are outside that order. |
| `PipelineRuns.RepliesAreJustified` | consensus/src/execution_pipeline.rs:97-245 | In every run, the reply with ticket t is for the t-th queued block: Ok exactly when that block's own preparation, execution and ledger update succeeded, then with its prepared transactions and that output; otherwise with the first error. The command executed has the queued block's id, parent, configuration and metadata and its prepared transactions, and the ledger is updated for it only after its execution succeeded. |
| `PipelineRuns.QueuedAsAsked` | consensus/src/execution_pipeline.rs:64-95 | In every run, the commands queued are, in order, the blocks, metadata, parents and configurations the callers gave, each with its own ticket. |
| `PipelineRuns.PipelineDrains` | consensus/src/execution_pipeline.rs:151-245 | With no more blocks queued the stages take at most six steps per block in flight, and when none can go on every queued block has been replied to. |
| `PipelineRuns.BusyWhileWorkRemains` | consensus/src/execution_pipeline.rs:151-245 | Some stage can go on exactly while a block is in flight. |
| `PipelineStages.Stages.Queue` | consensus/src/execution_pipeline.rs:64-95 | Queueing appends a command with the given block, metadata, parent and configuration and a new reply channel, and nothing else. |
| `PipelineStages.Stages.PrepareBlock` | consensus/src/execution_pipeline.rs:97-149 | A failed preparation replies at once; a successful one hands the combined transactions on. |
| `PipelineStages.Stages.ExecuteBlock` | consensus/src/execution_pipeline.rs:174-205 | The outcome of an execution, good or bad, is handed on with the block. |
| `PipelineStages.Stages.LedgerApply` | consensus/src/execution_pipeline.rs:214-242 | The ledger is updated only on a successful checkpoint, and the reply is sent either way. |
| `PipelineStages.Stages.PrepareStage` | consensus/src/execution_pipeline.rs:151-161 | The receive loop empties its queue, preparing its blocks in order and leaving the other stages alone. |
| `PipelineStages.Stages.ExecuteStage` | consensus/src/execution_pipeline.rs:163-208 | The receive loop executes its queue in order and hands every outcome on. |
| `PipelineStages.Stages.LedgerApplyStage` | consensus/src/execution_pipeline.rs:210-245 | The receive loop updates the ledger for successful executions in order and replies for every block. |
| `PayloadRuns.PreparationsAgree` | consensus/src/payload_manager.rs:119-284 | After one prefetch, over every sequence of prefetches and preparations with any mixture of dropped senders, reader errors and successes, no call finds the status cell empty; it holds the requests for or the concatenation of the unexpired batches; and all successful preparations return the same list: the payload's transactions position by position (the unexpired batches in proof order, then the inline batches), filtered, deduplicated, shuffled, and cut at the end to the payload's limit. |
| `PayloadRuns.RetrySucceeds` | consensus/src/payload_manager.rs:189-233 | From every reachable cell a preparation whose receivers deliver, or that finds the data cached, succeeds with that list. |
| `PayloadRuns.FailureRequestsAgain` | consensus/src/payload_manager.rs:190-223 | A preparation with a receiver that does not deliver fails with the error of the first such receiver, and the same batches are requested again. |
| `PayloadRuns.NothingTwice` | consensus/src/block_preparer.rs:48-60 | If the deduplicator leaves no two equal transactions, the shuffler only reorders, and neither it nor the filter adds any, then no transaction of a block is prepared twice and every prepared one is the payload's. |
| `PayloadRuns.StoreInputIs` | consensus/src/payload_manager.rs:168-284 | The transactions handed to the preparer are laid out from the payload: each unexpired batch at its place in proof order, then each inline batch. |
| `Payloads.AwaitDelivers` | consensus/src/payload_manager.rs:190-227 | Waiting succeeds if and only if every receiver delivers, and then yields the requested batches in order. |
| `Payloads.AwaitFirstFailure` | consensus/src/payload_manager.rs:190-223 | A failed wait reports the first receiver that did not deliver: its digest if the sender was dropped, else the reader's error. |
| `Payloads.RequestedInOrder` | consensus/src/payload_manager.rs:39-62 | A batch is requested exactly if the block is not later than its proof's expiration, at the place the proof has among those. |
| `PayloadManager.RequestTransactions` | consensus/src/payload_manager.rs:39-62 | The loop requests the batches of exactly the unexpired proofs, in order. |
| `PayloadManager.ProofWithData.Prefetch` | consensus/src/payload_manager.rs:119-153 | Prefetching puts fresh requests into the cell. |
| `PayloadManager.ProofWithData.ProcessPayload` | consensus/src/payload_manager.rs:168-234 | The take, the waiting loop and the put-back leave a status on every path and return the data or the first error. |
| `PayloadManager.PrefetchPayloadData` | consensus/src/payload_manager.rs:119-153 | Prefetching touches the cell exactly for a quorum-store payload. |
| `PayloadManager.GetTransactions` | consensus/src/payload_manager.rs:158-284 | The transactions and the limit for every kind of payload, inline batches last, and none for a block without a payload. |
| `PayloadManager.PrepareBlock` | consensus/src/block_preparer.rs:38-65 | For a block without a payload, a direct payload, or one in the quorum store whose batches arrive: the result is a prefix of the shuffled, deduplicated, filtered transactions of the payload, as long as its limit allows; on a quorum-store payload the call is one step of the runs above. |
| `VotingPower.QuorumsMeet` | types/src/validator_verifier.rs:187-195 | Two sets of validators with the power of a quorum share a validator when twice the quorum exceeds the total. |
| `VotingPower.DefaultQuorumIntersects` | types/src/validator_verifier.rs:187-195 | The default quorum of two thirds plus one does. |
| `VotingPower.SumAndCheck` | types/src/validator_verifier.rs:361-405 | The summing loop, in any order, finds an unknown author or compares the total power of the authors with the quorum. |
| `QuorumCertificates.OneCertificatePerRound` | consensus/src/pending_votes.rs:104-313 | All certificates a round yields, at once or by the delayed event and whatever equivocation there is, are for one ledger info and signed by a quorum. |
| `VoteOutcomes.EveryOutcome` | consensus/src/pending_votes.rs:104-313 | In every round, each vote and each delayed event gets exactly one outcome, given by what arrived before: equivocation or duplicate from the author's first vote; the certificate of exactly those whose first vote was for the ledger info, or the aggregation error, when their power is a quorum and need not wait; delayed with that power otherwise; below a quorum, the timeout certificate with the highest round of exactly those who timed out, its error, one echo, or just added. |
| `VoteOutcomes.RoundIsItsHistory` | consensus/src/pending_votes.rs:104-286 | In every round, the signers of a ledger info are those whose first vote was for it, the partial timeout certificate is of those who timed out below a quorum, and the event waiting is that of the first quorum put off. |
| `QuorumCertificates.DelayIsBounded` | consensus/src/qc_aggregator.rs:106-180 | In every run at most one delayed event is scheduled, due at most the maximum delay after the round began; nothing is aggregated below quorum; both panics of the delayed event's handler are unreachable. |
| `QuorumCertificates.NoQuorumIsStranded` | consensus/src/qc_aggregator.rs:133-180 | Whenever a ledger info has a quorum of the validator set, its certificate has been attempted or the delayed event for it is still waiting. |
| `QuorumCertificates.AttemptIff` | consensus/src/qc_aggregator.rs:106-154 | An accepted vote leads to an attempt if and only if its ledger info then has a quorum of known validators and delaying is off, the threshold is reached, or nothing was delayed and the maximum delay is over; so after a failed delayed attempt only the threshold helps. |
| `QuorumCertificates.RunsAsNoDelay` | consensus/src/qc_aggregator.rs:56-180 | With a threshold of at most the quorum, or no delay allowed, the delayed and the no-delay aggregator have exactly the same runs, with the same states. |
| `QuorumCertificates.ActsAtOnceIff` | consensus/src/qc_aggregator.rs:119-154 | On all powers and times the delayed aggregator acts at once if and only if its threshold is at most the quorum or the maximum delay is zero. |
| `QuorumCertificates.TimeoutCertificates` | consensus/src/pending_votes.rs:224-250 | A timeout certificate is signed by a quorum and carries the highest of the rounds signed. |
| `QuorumCertificates.TimeoutIsEchoedOnce` | consensus/src/pending_votes.rs:255-266 | A timeout is echoed at most once a round, and only when the timeout votes hold more power than the total without a quorum. |
| `VoteSafety.ScheduledInTime` | consensus/src/qc_aggregator.rs:145-158 | A delayed event is due between now and the maximum delay, at the earlier of that and the given percentage of the elapsed time later. |
| `VoteSafety.DocumentedDelayIff` | config/src/config/consensus_config.rs:107-110 | For all powers of a quorum and all times the event is due at the documented time if and only if nothing is ever put off, or the percentage fits into 32 bits, or the maximum delay is too short for the cut percentage to show. |
| `VoteSafety.CastLosesTheDelay` | consensus/src/qc_aggregator.rs:157-158 | A percentage of 2^32, with the default voting-power percentage and a maximum delay of 700 units of the clock: the event is due at once where the documented time is the maximum delay. |
| `VoteSafety.EventFindsQuorum` | consensus/src/pending_votes.rs:288-313 | A waiting event's ledger info has votes, and of a quorum. |
| `VoteSafety.RunKeepsInv` | consensus/src/pending_votes.rs:104-313 | Every run keeps: each author counts for one ledger info, attempts and events have quorums, fired events were served, and the timeout record carries its highest round. |
| `VoteCollector.RoundVotes.InsertVote` | consensus/src/pending_votes.rs:104-273 | A vote, duplicate, equivocating, first or timeout, gets exactly the outcome that the votes and events so far give it. |
| `VoteSafety.RejectedIffCounted` | consensus/src/pending_votes.rs:115-138 | A vote is turned down as equivocation exactly if its author is counted for another ledger info, and as a duplicate exactly if it is counted for the same one and this is not its first timeout. |
| `QuorumCertificates.CertificateIsAttempt` | consensus/src/pending_votes.rs:275-286 | A certificate's voters are a quorum, and so are the present signers of its ledger info. |
| `VoteCollector.RoundVotes.AddTimeoutVote` | consensus/src/pending_votes.rs:220-266 | The new state for a timeout vote: certificate, echo, error or just added. |
| `VoteCollector.RoundVotes.ProcessDelayedQc` | consensus/src/pending_votes.rs:288-313 | When the delayed event fires, its panics are unreachable and the outcome is the certificate of all whose first vote so far is for its ledger info, or the error. |
| `SafetyInit.MetricsSafetyRules.PerformInitialize` | consensus/src/metrics_safety_rules.rs:39-68 | For any core that keeps the contract the loop terminates, asks storage from strictly increasing versions each equal to the waypoint reached by then, at most once per version up to the bound, and returns what initializing from the last of them gave, or an internal error if storage had no answer. |
| `SafetyInit.MetricsSafetyRules.Retry` | consensus/src/metrics_safety_rules.rs:70-84 | The action runs a second time exactly when its first run failed as not initialized, in the wrong epoch or with an outdated waypoint, and initialization then succeeded; a failed initialization is the result. |
| `SafetyCore.RulesAreHonest` | consensus/safety-rules/src/safety_rules.rs:216-257 | On any proofs, malformed and stale ones included, the core's reported waypoints are its own, never go back and stay within what storage proves. |
| `SafetyCore.GuardedInitializeIs` | consensus/safety-rules/src/safety_rules.rs:216-285 | Initializing changes nothing unless the proof leads on from the stored waypoint; then the waypoint moves, if at all, forward to the proof's last boundary, and the epoch becomes the one announced there, with the outcome of the key, unless a later epoch was already reached, which is reported as out of date. |
| `SafetyCore.VerifiesIff` | types/src/epoch_change.rs:67-118 | A proof verifies from a waypoint if and only if, after older boundaries only, it has the waypoint's own one, every later one is signed by the validators the one before it announced, and it does not end before the waypoint. |
| `SafetyCore.StorageIsBounded` | storage/aptosdb/src/db/include/aptosdb_reader.rs:395-427 | Storage proves nothing beyond its latest version, so core and storage together keep the loop's contract. |
| `SafetyCore.PageVerifies` | storage/aptosdb/src/db/include/aptosdb_reader.rs:829-876 | From the boundary of any epoch storage returns a page of the chain from there, and the core accepts it. |
| `SafetyCore.RetrieveIs` | storage/aptosdb/src/db/include/aptosdb_reader.rs:395-427 | Storage answers a version it has with the endings of the epochs from that of the version on, at most 100, and nothing beyond its latest version. |
| `SafetyCore.InitializationSettles` | consensus/src/metrics_safety_rules.rs:39-68 | Over the actual core and storage, from any epoch boundary, initialization ends in an epoch not before the one voted in if storage knows it, and otherwise reports being out of date at storage's last boundary without touching the epoch. |
| `PortAllocator.MutualExclusion` | config/src/utils.rs:125-181 | In every interleaving from a fresh counter file at most one call is between taking and releasing the lock, and the lock file exists while one is. |
| `PortAllocator.LockIsReleased` | config/src/utils.rs:61-65 | The lock file exists exactly while a call is inside or after one panicked opening the counter file; the stored counter is always an index of the port vector. |
| `PortAllocator.FailedOpenLeaksLock` | config/src/utils.rs:163-174 | One call whose counter file cannot be opened: the lock file is left with nobody inside. |
| `PortAllocator.NoPortAfterLeak` | config/src/utils.rs:155-181 | After a leak no call returns a port any more, in every continuation, and the lock file stays. |
| `PortAllocator.NoOtherPanics` | config/src/utils.rs:183-209 | No call indexes past the vector or finds the lock file it is to remove gone. |
| `PortAllocator.EveryCallGetsOn` | config/src/utils.rs:125-209 | In every reachable state a step touches its own call only: it panics for want of the lock after 100 looks, for want of the counter file, or after 1000 attempts to bind, and otherwise gets on, with the port the counted attempts lead to, until it returns the port it has bound. |
| `PortAllocator.PortsAreUnique` | config/src/utils.rs:125-209 | Ports returned by different calls differ while all calls together have made at most as many bind attempts as there are ports, failed attempts and panicking calls included. |
| `PortAllocator.BindPortFromCounter` | config/src/utils.rs:183-209 | The loop finds the first bindable port from the counter on, wrapping around, with the counter after it, and fails exactly when none of the tries can be bound. |
| `PortAllocator.CounterFiles.GetUniquePort` | config/src/utils.rs:125-153 | A call stores the counter after the port it returns, a panicking one leaves the file alone, and both remove the lock file. |
| `LongPoll.LongPollsAreBounded` | api/src/transactions.rs:236-273 | In every interleaving the counter is the number of handlers that incremented and did not decrement, and at most the maximum are in the long poll. |
| `LongPoll.AdmittedIff` | api/src/transactions.rs:236-256 | In every interleaving and for every limit, a request goes on to the long poll if and only if fewer requests than the limit have arrived and not left; otherwise it is answered at once. |
| `LongPoll.CounterReturnsToZero` | api/src/transactions.rs:236-273 | With all handlers out the counter is zero if and only if none was dropped while waiting; dropped ones lower the limit. |
| `LongPoll.DroppedHandlerStaysCounted` | api/src/transactions.rs:236-273 | A limit of one and a handler dropped while it waits: nobody is inside, the counter is one, and the next request is turned away. |
| `LongPoll.Connections.Enter` | api/src/transactions.rs:236-256 | The increment and comparison: a request is let into the long poll exactly if the counter was below the limit. |
| `LongPoll.Connections.Exit` | api/src/transactions.rs:247-271 | The decrement, which never goes below zero. |
| `Pagination.ModulePages` | api/src/context.rs:473-514 | Following next-key cursors with any positive limits yields all of an account's modules in key order, each once, and ends. |
| `Pagination.KeepListsAll` | api/src/context.rs:380-500 | What a listing keeps of the account's keys is every module, or every resource and resource group, and every unreadable key, in key order and each once. |
| `Pagination.PageIs` | api/src/context.rs:395-514 | For every account, a page fails if and only if one of its items or the one after them cannot be read; otherwise it has its items in order and the cursor of the next. |
| `Pagination.ResourcePagesWithoutGroups` | api/src/context.rs:375-471 | The same for resources of an account without resource groups. |
| `Pagination.ResourcePagesIff` | api/src/context.rs:375-471 | Paging resources is right for all limits if and only if no item but the first is a group whose predecessor is not before the plain resource of the group's name. |
| `Pagination.GroupsCanLoop` | api/src/context.rs:460-467 | A resource and a group of a smaller name of the same length: with one item a page, every page is the resource again, for ever. |
| `Pagination.CleanWalks` | api/src/context.rs:375-514 | On items whose cursors lead back to them, pages of given limits are the first so many items, with a next page exactly while some are left. |
| `Pagination.KeepAfterSeek` | api/src/context.rs:380-414 | Seeking in the account's keys and then filtering is filtering and then seeking. |
| `Rendering.RenderingsAgreeIff` | api/src/context.rs:636-696 | For every chain, one running timestamp gives the looked-up timestamp on all version ranges if and only if every metadata transaction carries its block's time and blocks beginning without one keep the time before. |
| `Rendering.ListedTimesAreBlockTimes` | api/src/transactions.rs:721-753 | On chains whose non-genesis blocks begin with their metadata, whatever is asked for, the request gets the error due (invalid limit or start, too many, pruned) or exactly the versions of its range, 25 by default and at most the page size, each with the time of the block it is in. |
| `Rendering.PageRangeIsRight` | api/src/page.rs:26-98 | The range of versions of a page, or its error, from the start and limit asked for. |
| `Rendering.RenderSequential` | api/src/context.rs:636-668 | The rendering loop computes the running-timestamp function. |
| `Rendering.TimeAtStart` | storage/aptosdb/src/db/include/aptosdb_reader.rs:523-534 | At its first version a block's own time is looked up. |
| `Rendering.TimeWithin` | storage/aptosdb/src/db/include/aptosdb_reader.rs:523-534 | Inside a block the looked-up time does not change. |

## Left out

- Gas estimate: the arm that takes the minimum price when a block's transactions cannot be read, and 64-bit overflow of the gas sum times the conflict multiplier.
- Gas estimate: the read-locked look at the cache before the write lock is one check with the one after it, since calls take effect under the lock.
- Epoch manager: queue capacities and their service order are abstracted to taking or evicting any waiting event; local timeouts, which carry no epoch, commit votes and decisions, and batch requests are not among the events.
- Epoch manager: an RPC request of another epoch is answered by the same function as an event of another epoch and is not a message of its own; a failing state sync, which panics, is not a step.
- Epoch manager: shutdown, state sync and the start of the next epoch are one step, so the states between taking a close handle and its acknowledgement do not occur in the model.
- Epoch manager: the cache's capacity and its entries' lifetime of 20 seconds are abstracted to dropping any entry at any time; a check and the insertion that follows it are one step; a store's aggregated proof is any proof that names its epoch.
- EpochSafety.EpochIsolation: sync infos are passed on unverified, batches are checked against their sender only, the node's own messages are not checked, and the proofs of store in a message may come from the cache, as the code does; for these it claims the epoch and not a signature check (for the proofs see `EpochCache`, for the outcomes `EpochDelivery`).
- Execution pipeline: parallel signature verification is the identity; closing a queue at shutdown, and callers that drop their receiver, are not modelled.
- Payload manager: commit notifications to the quorum store, and overlapping calls for one block, which the code declares unsupported.
- Votes: signatures are their signers; whether aggregating them succeeds is an input of the step; a delayed event of an earlier round is discarded before it reaches the votes modelled here.
- Votes: durations are whole units of the clock, divided rounding down, and their products do not overflow; validator sets without any voting power, whose quorum exceeds their total, are not covered.
- Safety rules: failures of the persistent storage that holds the waypoint and safety data; signing and voting rules.
- Port allocator: ports chosen by the operating system outside the nextest environment, and other programs' use of the ports beyond making a bind attempt fail.
- Paging: the bytes behind names and lengths are their ranks in byte order; expanding a resource group's value into its members is applied to the items of a page and not modelled.
- Pagination.ModulePages: for accounts all of whose keys can be read; for the others `Pagination.PageIs` says which pages fail.
- Pagination.ResourcePagesIff: for accounts all of whose keys can be read.
- Rendering: converting a transaction to its API form, and reads that fail.
- HTTP plumbing, node start-up, networking, cryptography, the Move VM, mempool and the storage engine.
