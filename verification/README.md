# A verified model of the in-memory zkSync Era test node

The model covers the part of era-test-node that decides what a client sees: the state machine of
blocks, batches and time; forked storage and the write buffer the VM works on; snapshots; historical
states; event filters; gas estimation; the cache of remote data; and the display of pubdata costs.

## How it is built

| file | content |
|---|---|
| `Base.dfy` | machine integers, hashes, storage keys, blocks |
| `LocalStorage.dfy`, `ForkedStorage.dfy`, `Views.dfy` | the three storage layers, each with its cache-free meaning |
| `Bytecode.dfy` | setting and reading contract code |
| `GasEstimation.dfy` | sandboxed probes and the binary search |
| `Filters.dfy` | log matching, filters, notification and polling |
| `NodeModel.dfy` | the node as a state machine: one operation of `Op` per call, `Step`, `Run` |
| `Coupling.dfy`, `Chain.dfy`, `History.dfy` | what one step keeps: counters and time, the chain, the archive |
| `Runs.dfy`, `Reachable.dfy` | the node invariant over whole runs and every stored snapshot; concrete runs |
| `Ledgers.dfy` | records of what calls did, kept beside a run through snapshots, reverts and resets |
| `Blocks.dfy` | what every stored block says |
| `Calls.dfy` | what single calls give their clients |
| `Snapshots.dfy`, `VmTime.dfy`, `SlotWrites.dfy`, `HistoricalReads.dfy`, `PastReads.dfy`, `CodeRuns.dfy`, `CacheRuns.dfy`, `OfflineReads.dfy`, `Delivery.dfy`, `Receipts.dfy`, `LogQueries.dfy` | theorems over whole runs |
| `NodeObject.dfy` | the node as an object with mutable fields; each call is proved to be its step |
| `RemoteCache.dfy`, `HttpSource.dfy` | the cache of remote data, its directory on disk, the read-through calls |
| `Pubdata.dfy` | pubdata accounting |

Each layer that the program changes in place is a class (`ForkStorage`, `StorageView`, `EthFilters`,
`InMemoryNode`, `Cache`, `HttpForkSource`). Every method of a class is proved against a function on
plain values, and the lemmas are about those functions and about arbitrary runs of them.

What the model takes from outside, and in what form:

- The VM is an oracle. A run is a list of storage accesses with a result, events and bytecodes; its
  storage accesses are served by the modelled view. `TxContract` and `EmptyContract` state the one
  thing the node relies on: a batch with a transaction leaves `(b, t)` and `(m + 1, t + 1)` in the two
  SystemContext slots, an empty batch leaves `(b, t)` and `(m, t)`. In gas estimation the VM is an
  arbitrary strategy that chooses its next access from the answers it has received, with a bound on the
  number of its accesses that changes no verdict of a run that finishes (`GasEstimation.BudgetIsIrrelevant`).
- `compute_hash` is a free constructor, so it is collision-free; the bytecode hash is any
  collision-free partial function with non-zero values.
- The remote chain is a fixed function. Where a call may fail because the remote cannot be reached, an
  `online` flag says whether it can.
- Counters have their machine widths: additions saturate, and the L2 block number is cut to 32 bits
  where the program casts it. `HasRoom` says that one more batch fits. A stored timestamp of exactly
  2^64, which the program cannot unpack, is beyond saturation and outside `HasRoom`.
- Fee formulas (`derive_overhead`, the estimate scale factor) are arbitrary functions.

Three things the proofs brought out:

- The archive entry written for the head known before a transaction holds the state after that
  transaction, and never the head's own state (`HistoricalReads.HeadIsArchivedTooLate`). A client that
  reads a slot at that head right after the commit sees what the transaction wrote;
  `HistoricalReads.HeadReadsAfterTx` says for which slots this makes no difference. Mined blocks are
  not archived at all, so reads at them show the present: `PastReads.MinedReadsAreRightExactly` says for
  which later writes they are right all the same, and `Reachable.ReadAtMinedBlockChanges` is a concrete
  one that is not. At transaction blocks the same happens to slots whose archived value is zero, or has
  left the window (`PastReads.ArchivedReadsAreRightExactly`). The archive keeps 129 states, while its
  constant and its comment say 128.
- Mining two or more blocks with interval zero leaves the node's clock behind the VM's, and the next
  committed transaction panics (`Reachable.IntervalZeroPanics`, with a concrete run from a fresh node in
  `Reachable.FreshNodePanicsAfterIntervalZero`). Apart from that only `set_time` to a time before the
  stored one can cause the panic (`Runs.TimeStaysAheadExactly`, `Reachable.MinedNodePanicsAfterSetTime`).
  The doc comment of `set_time` warns of an invalid state in general; mining one block repairs it.
- A filter made by `eth_newFilter` without a from-bound announces logs that `eth_getFilterLogs` then
  never returns (`Delivery.DefaultFiltersQueryNothing`, with a concrete run in
  `Reachable.DefaultFilterPollsWhatItCannotQuery`).

## Model

| member | source | states |
|---|---|---|
| ForkedStorage.WriteIsReadBack | src/fork.rs:185-205 | a write is read back if and only if it is non-zero or hides no non-zero remote value; no other slot is disturbed |
| ForkedStorage.StepRefines | src/fork.rs:178-252 | each caching operation answers as the cache-free overlay does, or reports that the remote was unreachable |
| ForkedStorage.RunRefines | src/fork.rs:178-306 | over every run of reads, first-write queries, code loads and writes, the caching store refines the cache-free one, answer by answer |
| ForkedStorage.QueriesAreInvisible | src/fork.rs:178-252 | any number of queries, answered or failed, changes no later answer |
| ForkedStorage.RunFailsExactly | src/fork.rs:178-252 | over every run an operation that cannot reach the remote fails if and only if the local layer is silent and no earlier operation fetched the slot or bytecode; every other one gives the cache-free answer |
| ForkedStorage.FetchedStaysInReach | src/fork.rs:190-224 | a slot or bytecode that was fetched once is answered from then on whether or not the remote can be reached |
| ForkedStorage.FetchIsAtForkBlock | src/fork.rs:193-224 | what is fetched is the remote's value at the fork block, and the remote's bytecode |
| ForkedStorage.FirstWriteIsOnce | src/fork.rs:232-252 | after any run a write is initial exactly if the slot reads zero, was not in the local layer at the start, and was not written since |
| ForkedStorage.ForkStorage.ReadValueInternal | src/fork.rs:178-209 | the in-place read is the specified one and keeps the caches true; a success is the overlay value, it fails exactly offline with a silent local layer and nothing fetched, and afterwards a silent slot is cached |
| ForkedStorage.ForkStorage.LoadFactoryDepInternal | src/fork.rs:211-228 | the same for bytecodes |
| ForkedStorage.ForkStorage.IsWriteInitialInternal | src/fork.rs:232-252 | a first write is one to a slot that reads zero and was never written locally |
| ForkedStorage.ForkStorage.SetValue | src/fork.rs:298-301 | the write changes the local layer only |
| ForkedStorage.ForkStorage.StoreFactoryDep | src/fork.rs:302-305 | the same for bytecodes |
| Views.ExecuteRefines | src/deps/storage_view.rs:46-114 | every answer of every script of accesses is that of a plain write buffer over the cache-free overlay; the storage below keeps its contents |
| Views.BufferIsLastWrites | src/deps/storage_view.rs:100-122 | the buffer holds exactly the last write to each slot |
| Views.FlushInAnyOrder | src/node/in_memory.rs:1544-1546 | writing the buffered slots gives the same storage in every order |
| Views.FlushRefinesView | src/node/in_memory.rs:1544-1546 | after a flush the storage reads what the view read, except exactly the slots last written zero over a non-zero remote value |
| Views.ViewAnswersByItself | src/deps/storage_view.rs:46-114 | what a view has looked up it answers from then on without the storage below |
| Views.StorageView.Lookup | src/deps/storage_view.rs:46-56 | the cached lookup returns the pending write or else the overlay value, and keeps the caches true |
| Views.StorageView.SetValue | src/deps/storage_view.rs:100-114 | a write returns the value it replaces |
| Views.StorageView.IsInitialWrite | src/deps/storage_view.rs:80-88 | the cached verdict is that of the storage below, whatever was buffered |
| Bytecode.CodeRoundTrip | src/utils.rs:60-90 | cutting code into 32-byte words and writing the words out again gives the same bytes |
| Bytecode.FirstByteWeighsMost | src/utils.rs:60-90 | words are big-endian |
| Bytecode.UsableExactly | src/utils.rs:60-90 | bytecode is refused exactly if it is not made of whole 32-byte words or has no hash |
| Bytecode.SetCodeIsReadBack | src/node/in_memory_ext.rs:351-377 | code that was set is read back byte for byte after any later storage operations that do not write code slots, code published elsewhere or by transactions under its own hash included; refused exactly when it cannot be hashed |
| Bytecode.SetCodeCall | src/node/in_memory_ext.rs:351-377 | the in-place call is the specified one |
| Bytecode.GetCodeCall | src/node/eth.rs:255-283 | reading code returns what the code slot leads to without caches |
| CodeRuns.SetCodeIsReadBackOverRuns | src/node/in_memory_ext.rs:351-377 | code that was set on the node is read back byte for byte after any calls that keep the history and publish code under its own hash, as long as the account's code slot is not changed in the end |
| CodeRuns.DeployedCodeIsRead | src/node/in_memory.rs:1544-1560 | code that a committed transaction published under its hash and wrote to the account's code slot is read back over the same histories |
| CodeRuns.CodeIsWhatTheSlotLeadsTo | src/node/eth.rs:255-283 | the code of an account is the one its slot in the code storage contract leads to, or empty |
| GasEstimation.PreparedAccount | src/node/in_memory.rs:706-724 | the probed transaction finds its own nonce with the deployment nonce kept, a balance that covers all its gas, and every other slot unchanged |
| GasEstimation.ProbeSees | src/node/in_memory.rs:683-732 | the VM of a probe finds the enforced nonce, a balance raised by the fee for the limit and its overhead, and otherwise the node's slots |
| GasEstimation.ProbeRefines | src/node/in_memory.rs:683-732 | a probe's verdict is a function of the storage contents alone, which it leaves unchanged |
| GasEstimation.BudgetIsIrrelevant | src/node/in_memory.rs:683-732 | the bound on storage accesses that the model puts on a probe changes no verdict of a probe that finishes within it |
| GasEstimation.ProbesAreInvisible | src/node/in_memory.rs:683-732 | after any number of probes every storage query and every other probe answers as before |
| GasEstimation.SearchGasLimit | src/node/in_memory.rs:515-549 | the result is the maximum or a limit that succeeds; if success is monotone it is at most 1000 above the least successful limit; at most k probes for a maximum below 1001 * 2^k |
| GasEstimation.HalveOnce | src/node/in_memory.rs:521-549 | one probe at least halves the range, so the probe budget shrinks by one |
| GasEstimation.EstimateGas | src/node/in_memory.rs:483-679 | pubdata is measured first and refused exactly above the limit, the search runs on top of it, and one more run of the scaled suggestion decides between failure, overflow of 64 bits and the estimate |
| Filters.MatchLog | src/filters.rs:53-78 | the loop over addresses and topics decides the stated match: range, address, and allowed topics at positions the log has |
| Filters.QueryMeansRequest | src/node/eth.rs:662-677 | the query made of a request matches exactly the logs that the request's own fields ask for: bounds with their defaults, listed addresses, allowed topics at the first four positions |
| Filters.VerdictIsStable | src/filters.rs:53-59 | a verdict at the log's block is the verdict at every later block if the from-bound does not follow the head; otherwise a match ends when the chain moves on |
| Filters.UnboundedRequest | src/node/eth.rs:662-677 | a request without a from-bound keeps an announced log visible to eth_getLogs but not to its own installed filter |
| Filters.ExactlyOnceInOrder | src/filters.rs:168-234 | for every run of filter operations, everything a filter's polls returned followed by what waits is what waited followed by the matching events since, in order |
| Filters.IdsAreNeverReused | src/filters.rs:98-165 | ids strictly increase over every run of filter operations and start above all ids in use |
| Filters.EthFilters.Add | src/filters.rs:98-159 | installation takes the next id or fails on overflow |
| Filters.EthFilters.RemoveFilter | src/filters.rs:162-165 | removal drops the filter and says whether it existed |
| Filters.EthFilters.GetNewChanges | src/filters.rs:168-201 | a poll returns the waiting items and empties the filter |
| Filters.EthFilters.Broadcast | src/filters.rs:208-234 | an event is appended to exactly the filters of its kind (and match), in whatever order they are visited |
| Coupling.PanicIffOutOfStep | src/node/in_memory.rs:1653-1696 | a commit panics if and only if the stored batch or block number differs from the node's or the stored time is later than the node's |
| Coupling.PackedLayout | src/node/in_memory.rs:1767-1782 | a packed word holds the number above 128 bits, cut to 32 bits, and the time below; number zero means nothing was stored |
| Coupling.NextContextFromSlots | src/node/in_memory.rs:293-325 | the next numbers continue those packed in the VM's two slots or else the node's own, the block number cut to 32 bits, and the next time is one above the latest of all three, saturating |
| Coupling.CommitCouples | src/node/in_memory.rs:1641-1703 | after a commit the counters have moved by one batch and two blocks and again agree with what the VM stored |
| Coupling.MineOneCouples | src/utils.rs:102-149 | after one mined block the numbers agree; time is ahead exactly for the first block or if the interval covers the VM's step |
| Coupling.MineCouples | src/utils.rs:96-152 | a mining call leaves time ahead of storage if and only if it mined one block or its interval is not zero |
| Chain.CommitKeepsChain | src/node/in_memory.rs:1454-1476 | a commit appends a transaction block and a trailing block that fit the chain, and leaves a guessable head hash |
| Chain.MineOneKeepsChain | src/utils.rs:135-148 | a mined block fits the chain although its parent hash is guessed; known head and archive stay |
| Chain.BrokenLinkOverFork | src/node/in_memory.rs:93-103 | a parent link differs from the predecessor's hash exactly for a first local block that was mined over a fork block with another hash than the guessed one |
| Chain.IntegrityWithoutFork | src/node/in_memory.rs:93-116 | without a fork every number up to the head has a block under its own hash that names its predecessor |
| Chain.NewNodeIsSealed | src/node/in_memory.rs:202-280 | a new node, forked or not, starts with a sound chain |
| Blocks.StartOfChain | src/node/in_memory.rs:202-280 | without a fork the chain starts at an empty block 0 of time 1000 with no parent, over a fork at the remote block, with its batch and time |
| Blocks.FirstTxContinuesTheStart | src/node/in_memory.rs:1454-1476 | the first transaction block names the first block as its parent and has the batch and time after the start's |
| Blocks.MineOneStamps | src/utils.rs:135-148 | the newest block after mining carries the node's own batch and time, and no transaction |
| Blocks.MinedAreSpaced | src/utils.rs:102-149 | the stored blocks of a mining call open one batch each, start right after the latest time known and are an interval apart |
| Blocks.RunChronicles | src/node/in_memory.rs:1644-1703 | in every reachable state and snapshot the stored blocks are, one by one, those of the calls that were not undone, with number, hash, batch, time and transaction of the moment each became the head |
| Blocks.EveryBlockTellsItsStory | src/node/in_memory.rs:1644-1703 | the same from a fresh node, forked or not |
| Blocks.BatchesNeverFall | src/node/in_memory.rs:1641-1703 | along a chain the batch grows by one from block to block, except at a trailing block, which shares it; the newest block has the node's batch |
| History.NumbersIncrease | src/node/in_memory.rs:1655-1663 | the archived block numbers strictly increase, so nothing is archived twice, although mining leaves the known head stale |
| History.PushSlides | src/node/in_memory.rs:746-769 | inserting a new hash slides the window of 129 by one |
| History.CommitSlides | src/node/in_memory.rs:1655-1663 | a commit archives the head known so far and the transaction block, both with the state right after the transaction's writes |
| History.MineOneKeepsWindow | src/utils.rs:142-148 | mining leaves the archive a window over the chain |
| Runs.StepKeepsGood | src/node/in_memory.rs:1506-1703 | every admissible call keeps caches, counters, chain, archive and filter ids in order, whatever the clock says |
| Runs.PanicExactly | src/node/in_memory.rs:1670-1696 | an admissible call in a good state panics exactly when it commits a transaction while storage is ahead of the node's time |
| Runs.TimeStaysAheadExactly | src/node/in_memory_ext.rs:31-90 | from a state in time, a call leaves it in time if and only if it is not a set_time below stored time and not a mining of several blocks with interval zero |
| Runs.RunKeepsGood | src/node/in_memory.rs:792-823 | the invariant holds in every reachable state and in every stored snapshot, over transactions, mining, clock changes, reverts and resets |
| Runs.ForwardRunsNeverPanic | src/node/in_memory.rs:1653-1696 | no run of admissible calls that never turns time back panics |
| Runs.FreshNodeNeverPanics | src/node/in_memory.rs:202-280 | the same from a fresh node, forked or not |
| Reachable.ReachableChainIsSound | src/node/in_memory.rs:1644-1703 | in every reachable state the stored blocks are exactly one per number from base to head, each under its own hash and linked, with the exact exception over a fork |
| Reachable.ReachableChainWithoutFork | src/utils.rs:135-143 | without a fork every block of every reachable chain names its predecessor's hash |
| Reachable.ReachableArchiveIsWindow | src/node/in_memory.rs:746-769 | in every reachable state the archived keys, in order, are the hashes of the last 129 archived blocks of the current chain, all different |
| Reachable.IntervalZeroPanics | src/utils.rs:110-114 | two blocks mined with interval zero make the next commit panic |
| Reachable.SetTimePanics | src/node/in_memory_ext.rs:81-90 | so does setting the clock below the stored time |
| Reachable.FreshNodePanicsAfterIntervalZero | src/utils.rs:110-114 | a concrete run from a fresh node, all calls admissible, whose transaction panics after two blocks at interval zero |
| Reachable.MinedNodePanicsAfterSetTime | src/node/in_memory_ext.rs:81-90 | a concrete run that panics after the clock was set to zero |
| Reachable.MinedOverForkBreaksLink | src/utils.rs:135-143 | a concrete fork over which the first mined block does not name the fork block |
| Reachable.ReadAtMinedBlockChanges | src/node/eth.rs:1058-1087 | a concrete slot reads 0 at a mined block, and 1 at the same block after it was set |
| Reachable.DefaultFilterPollsWhatItCannotQuery | src/node/eth.rs:662-663 | a concrete filter, installed without conditions, whose poll returns a log that its own query omits |
| Reachable.StartHasTheInvariants | src/node/in_memory.rs:202-280 | a fresh node, forked or not, has every invariant that the theorems over runs assume of their start |
| Snapshots.RevertRestoresEverything | src/node/in_memory_ext.rs:116-189 | after a snapshot and any operations that keep it, reverting to it restores the node and the whole stack as just before, so its id is free again |
| Snapshots.RevertDropsLater | src/node/in_memory_ext.rs:160-189 | a revert succeeds exactly for ids in use and for 0 as for 1, drops that snapshot and all later ones, keeps the earlier ones |
| Snapshots.RevertReissuesAndRedelivers | src/node/in_memory.rs:799-823 | a revert restores filters whole: the first id issued after it is the first one issued after the snapshot, and a poll delivers again what a poll right after the snapshot delivered |
| Snapshots.LowerStackIsUntouched | src/node/in_memory_ext.rs:169-178 | no operation that keeps a part of the stack changes that part or the fork |
| Snapshots.StackIsBounded | src/node/in_memory_ext.rs:122-135 | the stack never holds more than 100 snapshots |
| VmTime.VmTimeNeverGoesBack | src/node/in_memory.rs:293-311 | every batch of a call gets a strictly later time than every batch of any earlier call of the same history, even after set_time into the past; a context merely prepared later is later too, until saturation |
| VmTime.BatchTimesAscend | src/utils.rs:102-149 | the batches of one call, at interval zero too, get strictly increasing times, all later than anything the node or its storage knew |
| VmTime.BatchesAreRemembered | src/node/in_memory.rs:1767-1782 | every batch of a call leaves its own time or a later one in storage |
| HistoricalReads.HistoricalReadsAreStable | src/node/eth.rs:1040-1087 | in every later state of the history in which the entry of a transaction block, or of the head known before it, is in the window, a read at the block by number or hash gives each non-zero slot as it was right after the transaction, anything else as it is now; once the entry has left the window everything is read as it is now |
| HistoricalReads.ReadAtBlock | src/node/eth.rs:1058-1087 | a read at a block of the chain shows its archive entry if the block is among the last 129 archived ones, and the present otherwise |
| HistoricalReads.ReadOutsideChain | src/node/eth.rs:1088-1108 | a read at a number outside the chain gives the remote's value, or an error without a reachable fork |
| HistoricalReads.ReadAtTag | src/node/eth.rs:1041-1064 | a read without a block, or at a tag that follows the head, is a read of the present; the earliest tag is number 0; an unknown hash is refused |
| HistoricalReads.RetainedInWindow | src/node/in_memory.rs:746-769 | an entry is found exactly while its block is among the last 129 archived ones |
| HistoricalReads.HeadIsArchivedTooLate | src/node/in_memory.rs:1544-1546 | the entry of the head known before a transaction is the state after it, and never that head's own state |
| HistoricalReads.HeadReadsAfterTx | src/node/eth.rs:1069-1087 | right after a commit a read at that head shows every slot as the transaction left it, which is its value before if and only if the transaction did not write the slot or wrote what it read already (a zero over a fork reads the remote value); never for the batch number |
| HistoricalReads.RunExtends | src/node/in_memory.rs:1644-1703 | over a history, its own reverts included, the chain is only extended: no block changes its hash or its kind, and the known head never moves back |
| SlotWrites.SlotAfterCommit | src/node/in_memory.rs:1544-1546 | after a commit every slot reads its last written value, with a zero over a fork reading the remote value, or what it read before |
| SlotWrites.SlotAfterCalls | src/fork.rs:178-209 | after any calls that keep the history, their own reverts included, a slot reads its last write that was not undone, with a zero over a fork reading the remote value, or what it read before |
| PastReads.MiningMines | src/utils.rs:135-148 | every block of a mining call is a mined block: neither a transaction block nor right after one |
| PastReads.MinedReadsShowPresent | src/node/eth.rs:1058-1087 | a mined block is never archived: at any later time of its history a read at it shows the present |
| PastReads.MinedReadsAreRightExactly | src/node/eth.rs:1058-1087 | a read at a mined block gives the value the slot had in that block if and only if no later block of the call and no later call that was not undone wrote the slot, or the last such write was of that value |
| PastReads.EveryMinedBlock | src/utils.rs:96-152 | this covers every block of every mining call: after the blocks up to it the node is good and that block is the newest |
| PastReads.ArchivedReadsAreRightExactly | src/node/eth.rs:1069-1087 | a read at a block archived with the state of that moment gives the slot's value of that moment if and only if the window still holds a non-zero value of it, or nothing wrote the slot since, or the last write was of that value |
| PastReads.EveryTxBlock | src/node/in_memory.rs:1655-1663 | this covers every transaction block, from right after its commit |
| PastReads.LatestReadsAreLastWrites | src/node/eth.rs:1041-1071 | after any calls that keep the history a read of the latest block replies with the slot's last write that was not undone, or what it read before |
| CacheRuns.CachesAlwaysAgreeWithFork | src/node/in_memory.rs:940-964 | on every run the live caches and those in every stored snapshot agree with the installed fork, resets to other forks included |
| CacheRuns.CachesAreInvisible | src/fork.rs:178-252 | two nodes that differ in cached values only give equal replies to every sequence of calls, panic at the same call if at all, and end in states that again differ in cached values only |
| CacheRuns.QueriesLeaveNoTrace | src/node/in_memory.rs:1013-1035 | a sandboxed run or a read of storage or code changes nothing but cached values, and no later reply or state |
| CacheRuns.FailedTxLeavesOneNotice | src/node/in_memory.rs:1506-1546 | a rejected transaction changes nothing; a halted or failed one leaves the state, up to cached values, and all later replies and states, as if only one pending notice had been given |
| OfflineReads.CachesHoldWhatWasFetched | src/fork.rs:178-252 | in every reachable state and snapshot the caches hold exactly what transactions, mined blocks, sandboxed runs and queries asked the remote for; a revert brings back the snapshot's, a reset forgets |
| OfflineReads.OfflineReadsFailExactly | src/fork.rs:178-228 | when the remote is out of reach a read of a slot or of code is refused exactly if the local layer is silent and no call since the start that was not undone fetched it |
| Delivery.PolledLogsAreQueried | src/node/eth.rs:843-878 | as long as no recorded transaction is committed again, every log a poll returns for a filter whose from-bound does not follow the head is returned by a query of that filter |
| Delivery.RunKeepsWaiting | src/node/in_memory.rs:1562-1640 | over every such run every waiting log is recorded in a receipt and matches at the present head, in snapshots too |
| Delivery.QueriedLogsStay | src/node/eth.rs:843-878 | a log that such a query returned is returned by it in every later state of the same history |
| Delivery.DefaultFiltersQueryNothing | src/node/eth.rs:662-663 | in every reachable state a filter whose from-bound follows the head queries nothing |
| Delivery.CommitIsFilterRun | src/node/in_memory.rs:1562-1703 | a commit is, for the filters, one notice of the pending hash, one for each log in order, and two of block hashes; LogQueries.CommitIsAnnounced says what each filter gets |
| Delivery.ExactlyOnceOverNodeRuns | src/node/eth.rs:894-915 | over every node run without revert or reset each filter gets its announcements exactly once and in order; mined blocks announce nothing |
| Receipts.NewReceiptMatches | src/node/in_memory.rs:1584-1640 | the receipt of a commit reports the run's events in order, each log naming the transaction block, its batch and its time |
| Receipts.CommitReports | src/node/in_memory.rs:1562-1615 | log i of the new receipt has the address, topics and data of event i of the run and index i, the status is the run's, and no other receipt changes |
| Receipts.ReceiptsReportTheRuns | src/node/in_memory.rs:1562-1615 | in every reachable state and snapshot there is a receipt for exactly the transactions committed and not undone, and each reports the run last committed under its hash, event by event |
| Receipts.EveryReceiptReportsItsRun | src/node/in_memory.rs:1562-1615 | the same from a fresh node |
| Receipts.ReceiptsAlwaysMatch | src/node/in_memory.rs:1584-1703 | in every reachable state and snapshot each receipt names a stored block that holds exactly its transaction, and all its logs name that block |
| LogQueries.EachLogOnce | src/node/eth.rs:816-828 | in whatever order the receipts are visited, every recorded log that matches is collected exactly once, and nothing else |
| LogQueries.EachLogOnceInEveryState | src/node/eth.rs:816-828 | the same in every reachable state |
| LogQueries.CommitIsAnnounced | src/node/in_memory.rs:1562-1703 | a commit adds to a pending filter its hash, to a block filter its two block hashes, and to a log filter the logs of the recorded receipt that it matches at the transaction block, in order |
| NodeObject.InMemoryNode.constructor | src/node/in_memory.rs:202-280 | the object starts as the specified fresh node |
| NodeObject.InMemoryNode.CreateL1BatchEnv | src/node/in_memory.rs:287-362 | the environment read through the caching view is the one computed from the cache-free storage |
| NodeObject.InMemoryNode.ArchiveCurrentState | src/node/in_memory.rs:746-769 | archiving in place is the specified insertion |
| NodeObject.InMemoryNode.ValidateTx | src/node/in_memory.rs:1255-1287 | validation accepts exactly gas limits within 64 bits, a fee at least the gas price, and a priority fee within the fee |
| NodeObject.InMemoryNode.CommitRun | src/node/in_memory.rs:1544-1703 | the in-place commit loop is the specified commit, stops exactly where that panics, and records a receipt that reports the run's events in order |
| NodeObject.InMemoryNode.RunL2Tx | src/node/in_memory.rs:1506-1706 | the whole call is the transaction step, panics included |
| NodeObject.InMemoryNode.MineEmptyBlocks | src/utils.rs:96-152 | the mining loop is the specified mining, and leaves a newest block with the node's own number, batch and time |
| NodeObject.InMemoryNode.MineBlocksCall | src/node/in_memory_ext.rs:252-269 | zero blocks are refused, otherwise the call is the mining step |
| NodeObject.InMemoryNode.IncreaseTimeCall | src/node/in_memory_ext.rs:31-44 | the clock moves by the delta in thousands, saturating |
| NodeObject.InMemoryNode.SetNextBlockTimestampCall | src/node/in_memory_ext.rs:53-70 | only later times are accepted, and the clock is set one below |
| NodeObject.InMemoryNode.SetTimeCall | src/node/in_memory_ext.rs:81-90 | the clock is set and the signed distance returned |
| NodeObject.InMemoryNode.SnapshotCall | src/node/in_memory_ext.rs:116-149 | the call is the snapshot step |
| NodeObject.InMemoryNode.RevertCall | src/node/in_memory_ext.rs:160-189 | the call is the revert step |
| NodeObject.InMemoryNode.Restore | src/node/in_memory.rs:799-823 | every snapshotted field is overwritten and the fork is not |
| NodeObject.InMemoryNode.ResetCall | src/node/in_memory.rs:940-973 | the node is replaced by a fresh one with its gas price, all snapshots are forgotten, and the well-known wallets are made rich |
| Calls.TxIsAnswered | src/node/in_memory.rs:1255-1287 | a transaction is refused without a trace if a limit exceeds 64 bits, the fee is below the gas price or the priority fee above the fee; refused if its run halts or fails; otherwise accepted and recorded, or the node panics |
| Calls.AccountsFollowTheCalls | src/node/in_memory.rs:989-1010 | in every state and snapshot exactly the accounts impersonated and not stopped are impersonated, exactly those made rich are rich, and the gas price is the one of the start |
| Calls.RichAccountIsRich | src/node/in_memory.rs:989-1010 | a rich account has a balance of 10^30, and no other slot changes |
| Calls.ResetStartsOver | src/node/in_memory.rs:940-973 | a reset leaves the given fork or genesis with 10^30 on each wallet, the chain of a fresh start, and no receipts, filters, archive or snapshots |
| Calls.ClockIsSet | src/node/in_memory_ext.rs:31-90 | increasing time moves the clock by a thousand times the argument up to its limit; a next block time is accepted exactly if later |
| Calls.NextMinedBlockHasTheTime | src/node/in_memory_ext.rs:53-70 | the next mined block gets exactly the time it was set to |
| Calls.NextTxBlockHasTheTime | src/node/in_memory_ext.rs:53-70 | so does the next transaction block |
| Calls.LimitsAreKept | src/node/in_memory_ext.rs:122-135 | a hundred snapshots are held and no more; mining no block is refused |
| Calls.FilterCallsAnswer | src/filters.rs:98-201 | a new filter is empty under the next id, a poll hands out all that waits and empties the filter, unknown ids are refused, uninstalling tells whether the filter existed |
| NodeObject.InMemoryNode.SetCodeOf | src/node/in_memory_ext.rs:351-377 | the call is the code-setting step |
| NodeObject.InMemoryNode.GetCodeOf | src/node/eth.rs:255-283 | the call is the code-reading step |
| NodeObject.InMemoryNode.SetStorageAtCall | src/node/in_memory_ext.rs:379-388 | the call is a one-slot write |
| NodeObject.InMemoryNode.SetRichAccount | src/node/in_memory.rs:989-1010 | the balance is written through a view and the account remembered |
| NodeObject.InMemoryNode.GetStorageCall | src/node/eth.rs:1020-1110 | the lookup by number, tag or hash is the specified one; asked for the latest block it gives the present value or fails offline |
| NodeObject.InMemoryNode.NewFilterCall | src/node/eth.rs:650-688 | an empty filter is installed that matches exactly the logs the request asks for, from the latest block by default; other filters stay |
| NodeObject.InMemoryNode.UninstallFilterCall | src/node/eth.rs:757-771 | the filter is dropped and the call answers whether it existed |
| NodeObject.InMemoryNode.GetFilterChangesCall | src/node/eth.rs:894-915 | the call is the polling step |
| NodeObject.InMemoryNode.CollectLogs | src/node/eth.rs:816-828 | the loop collects the matching logs receipt by receipt in some order: exactly the recorded ones that match, each once when receipts match the chain |
| NodeObject.InMemoryNode.GetLogs | src/node/eth.rs:787-832 | exactly the recorded logs that the request asks for are returned, each once, from the earliest block by default |
| NodeObject.InMemoryNode.GetFilterLogs | src/node/eth.rs:843-878 | exactly the recorded logs that the filter matches at the present head are returned, each once; other filters are refused |
| RemoteCache.RebuiltExactlyWhenUnambiguous | src/cache.rs:267-313 | every listing of the directory rebuilds the index if and only if the index is unambiguous about the stored blocks |
| RemoteCache.RestartRestores | src/cache.rs:47-133 | after any insertions, reopening without reset serves the same blocks, transactions, raw transactions, selectors and bridges, and the same index exactly when it is unambiguous, which fitting insertions guarantee |
| RemoteCache.AmbiguousRestart | src/cache.rs:280-302 | two full blocks of one number under different hashes: a restart can change the index |
| RemoteCache.LastPutIsFound | src/cache.rs:98-260 | blocks, hashes by number, transactions, lists, selectors, bridges and tokens are found as they were put last, and nothing is found with caching off |
| RemoteCache.Cache.Open | src/cache.rs:47-95 | opening reads the directory back in some order, or empties it first if reset |
| RemoteCache.Cache.ReadBlocks | src/cache.rs:280-313 | the loop over the files of a directory builds the index in the order they are listed |
| RemoteCache.Cache.Insert | src/cache.rs:115-133 | a block goes to the index, to its own store and to disk; with caching off nothing happens |
| RemoteCache.Cache.Lookup | src/cache.rs:98-112 | full and minimal blocks are looked up separately |
| RemoteCache.Cache.LookupHash | src/cache.rs:136-142 | the index is consulted unless caching is off |
| HttpSource.EveryAnswerIsTheRemotes | src/http_fork_source.rs:75-227 | for every order of calls by hash, number and tag, full or minimal, with restarts in between, each answer is the remote's or an explicit failure of an offline call |
| HttpSource.FetchedBlocksFit | src/http_fork_source.rs:166-217 | blocks fetched from a self-consistent remote always fit the index |
| HttpSource.EveryRestartRebuildsTheIndex | src/cache.rs:267-313 | after any calls and restarts against a self-consistent remote, a disk cache rebuilds the very index it has, in whatever order the directory is listed |
| HttpSource.CallsFailExactly | src/http_fork_source.rs:75-227 | over every order of calls and restarts a call that cannot reach the remote fails exactly if no earlier call fetched its answer or a restart lost it; a number is known once any block under it was fetched |
| HttpSource.EmptyIsProper | src/cache.rs:47-95 | a new cache of any kind has nothing at hand and is one that this holds for |
| HttpSource.HttpForkSource.FetchBlockByHash | src/http_fork_source.rs:152-182 | the in-place call is the specified read-through |
| HttpSource.HttpForkSource.FetchBlockByNumber | src/http_fork_source.rs:184-227 | the same by number or tag; only numbers are looked up |
| HttpSource.HttpForkSource.FetchTransactionByHash | src/http_fork_source.rs:75-104 | the same for transactions |
| HttpSource.HttpForkSource.FetchRawBlockTransactions | src/http_fork_source.rs:118-150 | the same for raw transactions; empty lists are not cached |
| Pubdata.StorageLogsDetails | src/node/storage_logs.rs:70-80 | the loop gives each write its charge and reads none |
| Pubdata.ComputeAndUpdatePubdataCost | src/node/storage_logs.rs:23-59 | one write is charged what it costs beyond the slot's last cost |
| Pubdata.EachLine | src/node/storage_logs.rs:23-80 | every line shown: none for reads, a mark for free slots, the price for the first write to a slot, then what the price exceeds the last one by, or nothing; a first naming costs the initial key bytes |
| Pubdata.ChargesTelescope | src/node/storage_logs.rs:23-59 | the total charged to a slot is its last cost plus the sum of all drops between consecutive costs |
| Pubdata.DearestWriteIsCovered | src/node/storage_logs.rs:45-57 | a slot is charged at least its dearest write |
| Pubdata.FreeSlotsAreFree | src/node/storage_logs.rs:18-31 | free slots are never charged |
| Pubdata.InterleavingIsIrrelevant | src/node/storage_logs.rs:70-80 | the total of a slot depends only on its own writes |

## Left out

- VM, bootloader and tracer internals: only the oracle contract stated above is used.
- A remote that cannot be reached during a VM run: the program unwraps the error and panics in the middle of the call; here views always reach the remote, and only direct reads can fail.
- What a panic leaves behind: a panicking call has no successor state in `Step`, since the program's lock is poisoned by it.
- Multi-threaded interleavings and lock poisoning: each RPC call is one atomic step.
- Fee derivation, floating-point scaling and `derive_overhead`: arbitrary functions in the gas model. Arithmetic on 256-bit balances does not overflow there.
- The L1-transaction branch of gas estimation, which skips the pubdata probe: the request is always an L2 transaction there. The batch environment of the probes is part of the VM strategy.
- Hashing, signatures and JSON: hashes are collision-free and files hold the values themselves.
- `eth_call`: as a state change it is the operation `Sandbox`; its result is not modelled.
- set_balance and set_nonce: one-slot writes, covered as state changes by `SetStorageAt`.
- The lists of well-known wallets: `Reset` takes the addresses as a parameter.
- Config setters, fee history, token prices and endpoints that are not implemented: only easy members.
- File-system errors, and foreign files in the cache directory.
- Block fields beyond hash, parent, number, time, batch and transactions; receipts beyond status, batch, block and logs.
- Coupling.CommitCouples: assumes that no counter is within one batch of its machine limit, because there the program's saturating additions break the numbering.
- Filters.EthFilters.Add: stands for the common part of the three install calls, which the program writes out three times.
