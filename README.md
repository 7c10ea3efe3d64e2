# Nethermind core, modelled and proved in Dafny

This project models five pieces of the Nethermind Ethereum client and proves what they
promise.

- **The fast-blocks header feed** (`BlocksRequestFeed`). This is the main part.
  - The feed hands out batches of header requests: a start number and a size of at
    most 256 headers.
  - It walks each response header by header. It checks the parent-hash chain and the
    start alignment, and offers each header to the block tree.
  - A batch whose first header has an unknown parent is parked under the parent's
    number. It is re-run when a header with that number is accepted.
  - What a response did not deliver is queued again as a remainder batch. Peers that
    send broken data or make no progress are reported.
  - On a reorg, the feed asks for the 256 headers ending at every parked key.
  - `fast_blocks.dfy` states the feed as functions of a `FeedState` value
    (`PrepareF`, `SuggestBatchF`, `LoopF`, `SuggestHeaderF`, `RunBucketF`) and proves the
    feed's properties about them.
  - `block_request_feed.dfy` is the feed as the source has it: a class whose methods
    update its fields. Every method is proved to compute exactly the corresponding
    function.
- **The pending-transaction selector** (`PendingTxSelector.SelectTransactions`).
  - The pool's transactions are sorted by nonce, then gas price descending, then gas
    limit. They are taken greedily under the block gas limit, the minimum gas price,
    per-sender consecutive nonces and per-sender balances.
  - Transactions that can never be mined from this state are removed from the pool.
  - The method's loop is proved equal to a fold of `Step`. The selection is proved
    mineable: gas, balances, nonces, order, and a duplicate-free choice from the pool
    that keeps the pool's block order.
- **`IndexedAttestation`** of the Ethereum 2.0 phase-0 beacon chain.
  - Its SimpleSerialize length is proved equal to the SSZ container rule (fixed part
    plus variable part, one 4-byte offset per variable-size field).
  - It has a structural `Equals`, the object-level `Equals` that wraps it, and a
    `GetHashCode` that always throws.
- **`TreeDumper` and `SizeCalculator`**, two visitors of a Merkle-Patricia trie walk.
  - The dumper writes one line per visited item, with a prefix grammar: two '+' per
    level, "STORAGE " inside storage tries, and a two-digit child index.
  - The calculator adds up node and code lengths.
- **`CompositeDataConsumer`**. It needs data when any of its consumers does. It asks the
  first consumer that needs data for its request, and hands every response to all of
  them.

Oracles stand in for the block tree, the state provider, hex rendering and Keccak text:
- the block tree is a `BlockTreeOracle`, whose answers are functions of the headers
  offered to it so far;
- the peer pool's peers are a parameter;
- the state provider's nonces and balances are the functions in `Env`;
- hex rendering and Keccak text are function-valued constants.

Calls to the peer pool (`ReportInvalid`, `ReportNoSyncProgress`) are recorded in a ghost
log. Calls to the transaction pool (`RemoveTransaction`) are returned as a list of
hashes.

Behaviours of the code worth noting:
- an `InvalidBlock` answer from the tree stops the loop without reporting the peer;
- the count returned by `SuggestBatch` is decremented before it is compared with zero
  for `ReportNoSyncProgress`;
- a batch without a response is queued again and also removed from the sent set
  (`finally`);
- a misaligned first header is reported twice: once as invalid and then, because
  nothing was added, for making no progress;
- batches taken from the queue, and reorg batches, are not added to the sent set;
- a synthesised reorg batch starts at `target - 255` and is not clamped at zero, unlike
  the dependency reorg batches;
- a non-reorg batch whose target is below the best requested header gets a size of
  `1 + target - start`, which can be zero or negative.

## Model

| member | source | states |
|---|---|---|
| `FastBlocks.Park` | src/Nethermind/Nethermind.Blockchain/Synchronization/FastBlocks/BlockRequestFeed.cs:165-170 | the bucket for the key, created if missing, is its old contents followed by the batch; every other bucket and every other field of the state is unchanged; parked batches stay answered batches |
| `FastBlocks.ParksOnUnknownParent` | src/Nethermind/Nethermind.Blockchain/Synchronization/FastBlocks/BlockRequestFeed.cs:159-189 | a batch whose first header has an unknown parent is not parked exactly when it is not a reorg batch and a known header of that height, with its total difficulty known, is strictly more difficult; in every other case it is parked |
| `FastBlocks.Remainder` | src/Nethermind/Nethermind.Blockchain/Synchronization/FastBlocks/BlockRequestFeed.cs:215-219 | the remainder batch starts `added` headers after the batch and ends where the batch ends; it is unanswered, unassigned and not a reorg batch |
| `FastBlocks.SuggestHeaderF` | src/Nethermind/Nethermind.Blockchain/Synchronization/FastBlocks/BlockRequestFeed.cs:235-262 | suggesting a header keeps the requested mark, only raises the tracked difficulty, only adds to queues, buckets and logs, and only forgets sent batches |
| `FastBlocks.RunBucketF` | src/Nethermind/Nethermind.Blockchain/Synchronization/FastBlocks/BlockRequestFeed.cs:253-259 | re-running a bucket only grows the state in the same sense |
| `FastBlocks.LoopF` | src/Nethermind/Nethermind.Blockchain/Synchronization/FastBlocks/BlockRequestFeed.cs:140-206 | the response loop only grows the state, and parked batches stay answered batches |
| `FastBlocks.SuggestBatchF` | src/Nethermind/Nethermind.Blockchain/Synchronization/FastBlocks/BlockRequestFeed.cs:127-233 | handling a batch only grows the state |
| `FastBlocks.FinishBatch` | src/Nethermind/Nethermind.Blockchain/Synchronization/FastBlocks/BlockRequestFeed.cs:208-232 | the remainder, the report and the sent-set removal after the loop only grow the state |
| `FastBlocks.GenesisIsAlreadyKnown` | src/Nethermind/Nethermind.Blockchain/Synchronization/FastBlocks/BlockRequestFeed.cs:237-240 | a genesis header is AlreadyKnown without asking the tree, and nothing changes |
| `FastBlocks.AcceptedHeaderRerunsBucket` | src/Nethermind/Nethermind.Blockchain/Synchronization/FastBlocks/BlockRequestFeed.cs:242-261 | the result is the tree's answer; an InvalidBlock or UnknownParent answer, a number with no bucket, or no fuel leaves only the offered header; otherwise the whole bucket at that number is re-run |
| `FastBlocks.RunBucketForgetsSent` | src/Nethermind/Nethermind.Blockchain/Synchronization/FastBlocks/BlockRequestFeed.cs:253-259 | after a bucket is re-run none of its batches is in the sent set |
| `FastBlocks.SuggestBatchForgetsSent` | src/Nethermind/Nethermind.Blockchain/Synchronization/FastBlocks/BlockRequestFeed.cs:229-232 | on every path the handled batch leaves the sent set |
| `FastBlocks.NoResponseRequeues` | src/Nethermind/Nethermind.Blockchain/Synchronization/FastBlocks/BlockRequestFeed.cs:132-136 | a batch with no response is queued again unchanged, leaves the sent set, and counts 0; nothing else changes |
| `FastBlocks.LoopStops` | src/Nethermind/Nethermind.Blockchain/Synchronization/FastBlocks/BlockRequestFeed.cs:140-206 | by the reason the loop ended: the counted headers are present, chained and start at the start number; the loop stops at the first hole, chain break, misaligned start or refused header; a break or misaligned start leaves ReportInvalid of the peer as the last report; only parking clears enqueueRemaining, and the parked batch ends the bucket at the first header's number minus one |
| `FastBlocks.LoopStopsOnRefusal` | src/Nethermind/Nethermind.Blockchain/Synchronization/FastBlocks/BlockRequestFeed.cs:158-195 | a loop that stops on a refused header stops at the last header offered, which is not genesis: the tree answered InvalidBlock, or UnknownParent; at the first header it is always UnknownParent, and the batch is parked exactly when ParksOnUnknownParent says so for the header the tree holds at that number |
| `FastBlocks.LoopCountsAccepted` | src/Nethermind/Nethermind.Blockchain/Synchronization/FastBlocks/BlockRequestFeed.cs:140-206 | every header the loop counts is genesis or was offered to the tree and answered Added or AlreadyKnown given the headers offered before it |
| `FastBlocks.SuggestBatchCount` | src/Nethermind/Nethermind.Blockchain/Synchronization/FastBlocks/BlockRequestFeed.cs:140-227 | the returned count is at least 0 and at most the response length and (when non-zero) the request size; the counted headers are present, chained and aligned, and each is genesis or was answered Added or AlreadyKnown by the tree |
| `FastBlocks.SuggestBatchRemainder` | src/Nethermind/Nethermind.Blockchain/Synchronization/FastBlocks/BlockRequestFeed.cs:208-232 | a parked batch queues and reports nothing; otherwise a short batch decrements a non-zero count once and queues `{start+added, size-added}`, which ends where the batch ended; a full batch queues nothing; a final count of 0 reports no sync progress, and only then |
| `FastBlocks.MaxTotalDifficulty` | src/Nethermind/Nethermind.Blockchain/Synchronization/FastBlocks/BlockRequestFeed.cs:55 | the largest total difficulty a peer advertises: an upper bound that some peer attains |
| `FastBlocks.MaxHeadNumber` | src/Nethermind/Nethermind.Blockchain/Synchronization/FastBlocks/BlockRequestFeed.cs:56 | the highest head number a peer advertises: an upper bound that some peer attains |
| `FastBlocks.Target` | src/Nethermind/Nethermind.Blockchain/Synchronization/FastBlocks/BlockRequestFeed.cs:56-67 | the target is the highest head number of any peer less the threshold: no peer's head less the threshold exceeds it and some peer's equals it |
| `FastBlocks.IsReorg` | src/Nethermind/Nethermind.Blockchain/Synchronization/FastBlocks/BlockRequestFeed.cs:78 | the reorg test: the target equals the best suggested number (0 without one) and the highest peer difficulty exceeds the best header provider's (no contract of its own; see IsReorgRule) |
| `FastBlocks.IsReorgRule` | src/Nethermind/Nethermind.Blockchain/Synchronization/FastBlocks/BlockRequestFeed.cs:78 | a reorg is exactly: no peer's head less the threshold is beyond the best suggested number, some peer's is exactly there, and some peer advertises more total difficulty than the best header provider seen so far |
| `FastBlocks.Enqueue` | src/Nethermind/Nethermind.Blockchain/Synchronization/FastBlocks/BlockRequestFeed.cs:89 | `Enqueue` puts the batch behind every queued batch, keeping their order, and changes nothing else |
| `FastBlocks.Dequeue` | src/Nethermind/Nethermind.Blockchain/Synchronization/FastBlocks/BlockRequestFeed.cs:62-65 | `TryDequeue` on a non-empty queue returns its head, leaves the rest queued in order, and changes nothing else |
| `FastBlocks.QueueIsFifo` | src/Nethermind/Nethermind.Blockchain/Synchronization/FastBlocks/BlockRequestFeed.cs:62-96 | the queue is first in, first out: a batch enqueued behind others is dequeued after them, and into an empty queue it is dequeued at once |
| `FastBlocks.MinKey` | src/Nethermind/Nethermind.Blockchain/Synchronization/FastBlocks/BlockRequestFeed.cs:81 | the least key of a non-empty key set |
| `FastBlocks.SortedKeysMembers` | src/Nethermind/Nethermind.Blockchain/Synchronization/FastBlocks/BlockRequestFeed.cs:81 | the ordered keys are exactly the dependency keys |
| `FastBlocks.SortedKeysAscending` | src/Nethermind/Nethermind.Blockchain/Synchronization/FastBlocks/BlockRequestFeed.cs:81 | the ordered keys are strictly ascending |
| `FastBlocks.SortedKeysFirst` | src/Nethermind/Nethermind.Blockchain/Synchronization/FastBlocks/BlockRequestFeed.cs:81 | the least key comes first, followed by the order of the others |
| `FastBlocks.ReorgBatch` | src/Nethermind/Nethermind.Blockchain/Synchronization/FastBlocks/BlockRequestFeed.cs:83-88 | a dependency reorg batch ends exactly at its key, asks for at most 256 headers (at least one for a non-negative key) and never starts below genesis; it is an unanswered, unassigned reorg batch whose minimum total difficulty is one more than the best header provider's |
| `FastBlocks.ReorgBatches` | src/Nethermind/Nethermind.Blockchain/Synchronization/FastBlocks/BlockRequestFeed.cs:81-90 | one reorg batch per key |
| `FastBlocks.ReorgBatchesElements` | src/Nethermind/Nethermind.Blockchain/Synchronization/FastBlocks/BlockRequestFeed.cs:81-90 | the i-th reorg batch is for the i-th key: start `max(0, key-255)`, size `min(key+1, 256)`, a reorg batch with minimum total difficulty one above the tracked one |
| `FastBlocks.NewBatch` | src/Nethermind/Nethermind.Blockchain/Synchronization/FastBlocks/BlockRequestFeed.cs:98-110 | a synthesised batch is returned and added to the sent set, and the best requested header does not decrease |
| `FastBlocks.IssueF` | src/Nethermind/Nethermind.Blockchain/Synchronization/FastBlocks/BlockRequestFeed.cs:78-110 | past the idle checks a batch is always returned; the tracked difficulty, the buckets and the logs are unchanged, the best requested header does not decrease, and at most the returned batch joins the sent set |
| `FastBlocks.PrepareF` | src/Nethermind/Nethermind.Blockchain/Synchronization/FastBlocks/BlockRequestFeed.cs:53-111 | PrepareRequest never lowers the best requested header, never touches the tracked difficulty, the buckets or the logs, adds at most the returned batch to the sent set, and changes nothing when it returns null |
| `FastBlocks.PrepareIdle` | src/Nethermind/Nethermind.Blockchain/Synchronization/FastBlocks/BlockRequestFeed.cs:55-73 | null is returned exactly when no peer's total difficulty exceeds the best suggested header's, or nothing is queued, the target is at or below the best requested header, and no peer exceeds the tracked difficulty |
| `FastBlocks.PrepareDequeues` | src/Nethermind/Nethermind.Blockchain/Synchronization/FastBlocks/BlockRequestFeed.cs:62-65 | when some peer is ahead and the queue is non-empty, its head is returned and removed, and nothing else changes |
| `FastBlocks.PrepareNewBatch` | src/Nethermind/Nethermind.Blockchain/Synchronization/FastBlocks/BlockRequestFeed.cs:98-110 | with nothing queued and nothing parked on a reorg, the new batch starts at the best requested header (255 below the target on a reorg), has size `min(256, 1+target-start)`, ends at or before the target (at it when the distance allows), joins the sent set, and moves the best requested header to `max(end, old)` |
| `FastBlocks.PrepareReorgBatches` | src/Nethermind/Nethermind.Blockchain/Synchronization/FastBlocks/BlockRequestFeed.cs:78-96 | on a reorg with parked batches, one reorg batch per key is made in ascending key order; the first is returned, the rest are queued, nothing is sent and the best requested header stays |
| `BlockRequestFeed.BlockTree.SuggestHeader` | src/Nethermind/Nethermind.Blockchain/Synchronization/FastBlocks/BlockRequestFeed.cs:242 | the tree's answer for the header, given the headers offered before it; the header joins the offered history |
| `BlockRequestFeed.BlocksRequestFeed.constructor` | src/Nethermind/Nethermind.Blockchain/Synchronization/FastBlocks/BlockRequestFeed.cs:37-51 | the feed starts with zero counters, an empty queue, no sent batches and no buckets |
| `BlockRequestFeed.BlocksRequestFeed.PrepareRequest` | src/Nethermind/Nethermind.Blockchain/Synchronization/FastBlocks/BlockRequestFeed.cs:53-111 | the returned batch and the new fields are exactly PrepareF of the old fields |
| `BlockRequestFeed.BlocksRequestFeed.Issue` | src/Nethermind/Nethermind.Blockchain/Synchronization/FastBlocks/BlockRequestFeed.cs:78-110 | the reorg decision, the reorg batches, the second dequeue and the new batch are exactly IssueF |
| `BlockRequestFeed.BlocksRequestFeed.EnqueueReorgBatchesInOrder` | src/Nethermind/Nethermind.Blockchain/Synchronization/FastBlocks/BlockRequestFeed.cs:79-91 | the loop over the dependency keys, smallest first, appends exactly the reorg batches of the ordered keys |
| `BlockRequestFeed.BlocksRequestFeed.HandleResponse` | src/Nethermind/Nethermind.Blockchain/Synchronization/FastBlocks/BlockRequestFeed.cs:115-125 | no header batch gives InvalidFormat and 0 and changes nothing; otherwise OK with the count and state of SuggestBatchF |
| `BlockRequestFeed.BlocksRequestFeed.SuggestBatch` | src/Nethermind/Nethermind.Blockchain/Synchronization/FastBlocks/BlockRequestFeed.cs:127-233 | the new fields and the count are exactly SuggestBatchF |
| `BlockRequestFeed.BlocksRequestFeed.SuggestHeaders` | src/Nethermind/Nethermind.Blockchain/Synchronization/FastBlocks/BlockRequestFeed.cs:138-206 | the for loop ends in exactly the state, count and enqueueRemaining of LoopF |
| `BlockRequestFeed.BlocksRequestFeed.SuggestOne` | src/Nethermind/Nethermind.Blockchain/Synchronization/FastBlocks/BlockRequestFeed.cs:142-205 | one iteration: on a break it ends the loop as LoopF does; otherwise header i is accepted and the rest of the loop is LoopF from i+1 |
| `BlockRequestFeed.BlocksRequestFeed.ParkOnUnknownParent` | src/Nethermind/Nethermind.Blockchain/Synchronization/FastBlocks/BlockRequestFeed.cs:161-189 | the three branches park the batch at number-1 and clear enqueueRemaining, or leave the state with enqueueRemaining set, as ParksOnUnknownParent decides |
| `BlockRequestFeed.BlocksRequestFeed.ParkBatch` | src/Nethermind/Nethermind.Blockchain/Synchronization/FastBlocks/BlockRequestFeed.cs:165-170 | creating the bucket if missing and appending the batch is exactly Park |
| `BlockRequestFeed.BlocksRequestFeed.SuggestHeader` | src/Nethermind/Nethermind.Blockchain/Synchronization/FastBlocks/BlockRequestFeed.cs:235-262 | the result and the new fields are exactly SuggestHeaderF |
| `BlockRequestFeed.BlocksRequestFeed.RunBucket` | src/Nethermind/Nethermind.Blockchain/Synchronization/FastBlocks/BlockRequestFeed.cs:255-258 | SuggestBatch on each batch of the bucket snapshot, in order, is exactly RunBucketF |
| `PendingTxSelector.PotentialCost` | src/Nethermind/Nethermind.Blockchain/PendingTransactionSelector.cs:69 | the potential cost of a transaction covers both its full gas at its price and its value |
| `PendingTxSelector.SortForBlock` | src/Nethermind/Nethermind.Blockchain/PendingTransactionSelector.cs:82 | the result is ordered by nonce ascending, gas price descending, gas limit ascending, and is a permutation of the pool's transactions |
| `PendingTxSelector.SortForBlockStable` | src/Nethermind/Nethermind.Blockchain/PendingTransactionSelector.cs:82 | the sort is stable: for every key, the transactions tying with it on nonce, gas price and gas limit appear in the result in their input order |
| `PendingTxSelector.GetCurrentNonce` | src/Nethermind/Nethermind.Blockchain/PendingTransactionSelector.cs:46-54 | the cached nonce, else the state's, which is then cached; no lookup answer changes |
| `PendingTxSelector.GetRemainingBalance` | src/Nethermind/Nethermind.Blockchain/PendingTransactionSelector.cs:56-64 | the cached balance, else the state's, which is then cached; no lookup answer changes |
| `PendingTxSelector.HasEnoughFunds` | src/Nethermind/Nethermind.Blockchain/PendingTransactionSelector.cs:66-79 | true exactly when the remaining balance covers `gasPrice*gasLimit + value`, and then exactly that is deducted; other senders are untouched |
| `PendingTxSelector.StepKeepsAccounted` | src/Nethermind/Nethermind.Blockchain/PendingTransactionSelector.cs:90-142 | one iteration keeps the caches in step with the selection, the gas accounting, admissibility, consecutive nonces and distinctness |
| `PendingTxSelector.RunAccounted` | src/Nethermind/Nethermind.Blockchain/PendingTransactionSelector.cs:90-142 | after any prefix of the ordered transactions: nonce cache = state nonce + selected count, balance cache = state balance - selected cost, remaining gas = limit - selected gas |
| `PendingTxSelector.Step` | src/Nethermind/Nethermind.Blockchain/PendingTransactionSelector.cs:90-142 | one iteration selects nothing or exactly its own transaction, removes nothing or exactly its hash, never both, and uses up exactly its gas limit when it selects and no gas otherwise |
| `PendingTxSelector.Run` | src/Nethermind/Nethermind.Blockchain/PendingTransactionSelector.cs:90-142 | the foreach loop only appends: the selection and the removed hashes start with what they held before, and each grows by at most one entry per transaction walked |
| `PendingTxSelector.RunSubseq` | src/Nethermind/Nethermind.Blockchain/PendingTransactionSelector.cs:81-142 | the selection is a subsequence of the walked transactions: they are taken in the order they are walked |
| `PendingTxSelector.RunOrdered` | src/Nethermind/Nethermind.Blockchain/PendingTransactionSelector.cs:81-142 | walking transactions in block order, the selection keeps the block order, is a sub-multiset of the walked transactions, and is a subsequence of them |
| `PendingTxSelector.FitsGasBound` | src/Nethermind/Nethermind.Blockchain/PendingTransactionSelector.cs:92-101 | the selected gas limits add up to at most the block gas limit |
| `PendingTxSelector.BalanceBound` | src/Nethermind/Nethermind.Blockchain/PendingTransactionSelector.cs:66-79 | each sender's selected transactions cost at most its state balance |
| `PendingTxSelector.StepRemoval` | src/Nethermind/Nethermind.Blockchain/PendingTransactionSelector.cs:103-131 | one iteration removes its transaction exactly when it fits the gas and has no sender, or pays the minimum price with a nonce below the expected one or more than 16 above it |
| `PendingTxSelector.RemovalRule` | src/Nethermind/Nethermind.Blockchain/PendingTransactionSelector.cs:103-131 | the removal rule holds after any prefix, with the expected nonce stated as state nonce plus that sender's selected count |
| `PendingTxSelector.SelectionIsMineable` | src/Nethermind/Nethermind.Blockchain/PendingTransactionSelector.cs:81-146 | the selection fits the gas, has senders and minimum prices, consecutive nonces from the state nonce, covered balances, block order, no duplicates, is drawn from the pool, and is a subsequence of the pool in block order |
| `PendingTxSelector.SelectTransactions` | src/Nethermind/Nethermind.Blockchain/PendingTransactionSelector.cs:44-147 | the foreach loop returns exactly the selection and removals of the fold of Step over the ordered pool, and the selection is mineable |
| `IndexedAttestation.SszLength` | src/Nethermind/Nethermind.Core2/Containers/IndexedAttestation.cs:26-32 | the length is at least the two offsets plus the data and signature sizes, and at least the index bytes |
| `IndexedAttestation.SszLengthIsContainerLength` | src/Nethermind/Nethermind.Core2/Containers/IndexedAttestation.cs:26-32 | the length is the SSZ container length: fixed part (4-byte offsets for the two lists, then the data and signature) plus variable part (the index bytes) |
| `IndexedAttestation.SszLengthGrowsPerIndex` | src/Nethermind/Nethermind.Core2/Containers/IndexedAttestation.cs:26-32 | one more index in either list adds exactly one index's size |
| `IndexedAttestation.Equals` | src/Nethermind/Nethermind.Core2/Containers/IndexedAttestation.cs:39-66 | true exactly when data, signature, both lengths and both lists position by position agree, which is value equality; false whenever data, signature or a length differs |
| `IndexedAttestation.EquivalentIsEquality` | src/Nethermind/Nethermind.Core2/Containers/IndexedAttestation.cs:39-66 | the element-wise rule coincides with equality of the whole value |
| `IndexedAttestation.EquivalentIsEquivalence` | src/Nethermind/Nethermind.Core2/Containers/IndexedAttestation.cs:39-66 | the rule is reflexive, symmetric and transitive |
| `IndexedAttestation.EqualsObject` | src/Nethermind/Nethermind.Core2/Containers/IndexedAttestation.cs:68-73 | false for null, true for the same reference, false for another runtime type, and otherwise value equality |
| `IndexedAttestation.GetHashCode` | src/Nethermind/Nethermind.Core2/Containers/IndexedAttestation.cs:75-78 | every call fails with NotSupported |
| `TreeDumper.ParseDecimalOfDecimal` | src/Nethermind/Nethermind.Store/TreeDumper.cs:75 | the decimal rendering of a length reads back as that length |
| `TreeDumper.TwoDigitsShape` | src/Nethermind/Nethermind.Store/TreeDumper.cs:50 | the "00" rendering of an index below 100 has exactly two characters and reads back as the index |
| `TreeDumper.Indent` | src/Nethermind/Nethermind.Store/TreeDumper.cs:49 | exactly `2*level` characters, all '+' |
| `TreeDumper.ChildIndex` | src/Nethermind/Nethermind.Store/TreeDumper.cs:50 | no index gives the empty string; an index gives its digits, which read back as the index, then one space, and three characters in all below 100 |
| `TreeDumper.Prefix` | src/Nethermind/Nethermind.Store/TreeDumper.cs:47 | `2*level` characters of '+', then "STORAGE " exactly inside storage tries, then the child index, and nothing else |
| `TreeDumper.LeadingPlusesOfIndent` | src/Nethermind/Nethermind.Store/TreeDumper.cs:49 | an indent followed by text not starting with '+' starts with exactly `2*level` '+' |
| `TreeDumper.ChildIndexStart` | src/Nethermind/Nethermind.Store/TreeDumper.cs:50 | the child index is empty or starts with a digit, so it never extends the indent |
| `TreeDumper.LineShowsDepth` | src/Nethermind/Nethermind.Store/TreeDumper.cs:47 | a prefix of indent, optional "STORAGE " and child index before a keyword shows the depth in its leading '+' characters |
| `TreeDumper.MissingNodeLineShowsDepth` | src/Nethermind/Nethermind.Store/TreeDumper.cs:54 | a missing-node line starts with exactly `2*level` '+' |
| `TreeDumper.BranchLineShowsDepth` | src/Nethermind/Nethermind.Store/TreeDumper.cs:59 | a branch line starts with exactly `2*level` '+' |
| `TreeDumper.ExtensionLineShowsDepth` | src/Nethermind/Nethermind.Store/TreeDumper.cs:64 | an extension line starts with exactly `2*level` '+' |
| `TreeDumper.LeafLineShowsDepth` | src/Nethermind/Nethermind.Store/TreeDumper.cs:69-70 | a leaf or account line starts with exactly `2*level` '+' |
| `TreeDumper.CodeLineShowsDepth` | src/Nethermind/Nethermind.Store/TreeDumper.cs:75 | a code line starts with exactly `2*level` '+' |
| `TreeDumper.TreeDumper.constructor` | src/Nethermind/Nethermind.Store/TreeDumper.cs:28 | the dump starts empty |
| `TreeDumper.TreeDumper.Reset` | src/Nethermind/Nethermind.Store/TreeDumper.cs:30-33 | the dump is empty afterwards |
| `TreeDumper.TreeDumper.ToString` | src/Nethermind/Nethermind.Store/TreeDumper.cs:78-81 | the dump built so far (no contract of its own: the visitors' contracts state what the text holds) |
| `TreeDumper.TreeDumper.VisitTree` | src/Nethermind/Nethermind.Store/TreeDumper.cs:35-45 | appends exactly one line: "EMPTY TREEE" for the empty root, else "STORAGE TREE" or "STATE TREE" |
| `TreeDumper.TreeDumper.VisitMissingNode` | src/Nethermind/Nethermind.Store/TreeDumper.cs:52-55 | appends exactly one line: indent, child index (no storage marker), "MISSING " and the hash text |
| `TreeDumper.TreeDumper.VisitBranch` | src/Nethermind/Nethermind.Store/TreeDumper.cs:57-60 | appends exactly one line: prefix, "BRANCH " and the hex text (empty for null) |
| `TreeDumper.TreeDumper.VisitExtension` | src/Nethermind/Nethermind.Store/TreeDumper.cs:62-65 | appends exactly one line: prefix, "EXTENSION " and the hex text |
| `TreeDumper.TreeDumper.VisitLeaf` | src/Nethermind/Nethermind.Store/TreeDumper.cs:67-71 | appends exactly one line: prefix, "LEAF " in storage tries and "ACCOUNT " otherwise, and the hex text |
| `TreeDumper.TreeDumper.VisitCode` | src/Nethermind/Nethermind.Store/TreeDumper.cs:73-76 | appends exactly one line: prefix, "CODE ", the hash text, " LENGTH " and the code length in decimal |
| `TreeDumper.SizeCalculator.constructor` | src/Nethermind/Nethermind.Store/TreeDumper.cs:86 | the size starts at 0 |
| `TreeDumper.SizeCalculator.ToString` | src/Nethermind/Nethermind.Store/TreeDumper.cs:116-119 | the text reads back as the size |
| `TreeDumper.SizeCalculator.VisitTree` | src/Nethermind/Nethermind.Store/TreeDumper.cs:88-90 | the size is unchanged |
| `TreeDumper.SizeCalculator.VisitMissingNode` | src/Nethermind/Nethermind.Store/TreeDumper.cs:92-94 | the size is unchanged |
| `TreeDumper.SizeCalculator.VisitBranch` | src/Nethermind/Nethermind.Store/TreeDumper.cs:96-99 | the size grows by the node's byte length |
| `TreeDumper.SizeCalculator.VisitExtension` | src/Nethermind/Nethermind.Store/TreeDumper.cs:101-104 | the size grows by the node's byte length |
| `TreeDumper.SizeCalculator.VisitLeaf` | src/Nethermind/Nethermind.Store/TreeDumper.cs:106-109 | the size grows by the node's byte length |
| `TreeDumper.SizeCalculator.VisitCode` | src/Nethermind/Nethermind.Store/TreeDumper.cs:111-114 | the size grows by the code's length |
| `CompositeDataConsumer.AnyNeedsData` | src/Nethermind/Nethermind.Store/HmbStore/CompositeDataConsumer.cs:64 | true exactly when some consumer needs data |
| `CompositeDataConsumer.OccurrencesPositive` | src/Nethermind/Nethermind.Store/HmbStore/CompositeDataConsumer.cs:58-61 | a consumer is handed a response at least once exactly when it is in the array |
| `CompositeDataConsumer.CompositeDataConsumer.constructor` | src/Nethermind/Nethermind.Store/HmbStore/CompositeDataConsumer.cs:27-29 | the composite holds the given consumers and has delivered nothing |
| `CompositeDataConsumer.CompositeDataConsumer.NeedsData` | src/Nethermind/Nethermind.Store/HmbStore/CompositeDataConsumer.cs:64 | true exactly when some consumer needs data |
| `CompositeDataConsumer.CompositeDataConsumer.PrepareRequest` | src/Nethermind/Nethermind.Store/HmbStore/CompositeDataConsumer.cs:43-53 | the request of the first consumer in array order that needs data, with none before it needing data; fails with InvalidOperation("No data needed") exactly when no consumer needs data |
| `CompositeDataConsumer.CompositeDataConsumer.HandleResponse` | src/Nethermind/Nethermind.Store/HmbStore/CompositeDataConsumer.cs:56-62 | the same hashes and data go to every consumer in array order (once per occurrence in the array), and the composite records each hand-over in order |

## Left out

- BeamBlockchainProcessor.cs is not part of this model: it consists of fire-and-forget
  tasks, event subscriptions and calls into processors that are not shown.
- Concurrency in the feed: the concurrent queue and dictionary are a `seq` and a `map`,
  and calls are taken one at a time.
- `IsFullySynced`, `TotalBlocksPending` and `_bestRequestedBody`: they are unimplemented
  or unused.
- What the block tree, the peer pool and the transaction pool do internally: they are
  oracles, parameters and logs.
- Batch identity: the source compares batches by reference (the sent `HashSet`). Here a
  batch carries an id, and batches made by the feed get fresh ids from a counter.
- `StartNumber`/`EndNumber` are integers here. The end number is taken as `start + size - 1`,
  and the nullable `EndNumber ?? 0` is not modelled.
- `FastBlocks.SuggestHeaderF`: the re-run of parked batches is bounded by `fuel`. With no
  fuel left an accepted header does not re-run its bucket. The source's recursion has
  no bound.
- `FastBlocks.LoopStops`: states that a chain break or misaligned start leaves ReportInvalid
  as the last report. It does not claim this is the only report made during the walk:
  earlier accepted headers may re-run parked batches, which report on their own.
- `BlockRequestFeed.BlocksRequestFeed.HandleResponse`: requires that a batch with a response
  carries its assigned peer. The source reads the peer's total difficulty only when a
  header at the best requested number is accepted, and throws there when there is none.
- `BlockRequestFeed.BlocksRequestFeed.PrepareRequest`: requires a non-empty peer sequence.
  The source's `Max` over no peers throws.
- The feed's `(int)` casts of request sizes, and `long` arithmetic, are taken as
  unbounded integers. UInt256 difficulties and balances are `nat`, with no wrap-around.
- Logging in PendingTransactionSelector.cs.
- `PendingTxSelector.Transaction`: the gas limit is a `nat` and the remaining gas an
  unbounded `int`, where the source has `long` for both. Negative gas limits and `long`
  overflow in `gasRemaining -= tx.GasLimit` are not modelled.
- `PendingTxSelector.SelectTransactions`: `RemoveTransaction` calls are returned as the
  list of removed hashes, so the pool's own reaction is not modelled. The selected `List`
  is returned as a sequence.
- `PendingTxSelector.PotentialCost`: the source's UInt256 product and sum wrap modulo
  2^256; here they are unbounded.
- `Transaction.BaseTxGasCost` is taken as 21000 and `IsGenesis` as number 0. Their
  definitions are not part of this model.
- `IndexedAttestation.SszLength`: the element sizes (`ValidatorIndex`, `AttestationData`,
  `BlsSignature`) are parameters, because their definitions are not part of this model.
  Null index arrays, which would throw, are not modelled.
- `IndexedAttestation.Equivalent`: `AttestationData` and `BlsSignature` are values compared
  by their encodings. Their own `Equals` overrides are not part of this model, so the
  value equality proved by `IndexedAttestation.EquivalentIsEquality` rests on that choice.
- `IndexedAttestation.Equals`: takes a non-null other attestation with non-null index arrays.
  The typed source `Equals` reads `other.Data` and the arrays' lengths, and throws on a null
  other or a null array (IndexedAttestation.cs lines 41-44).
- Hex rendering (`ToHexString`) and `Keccak.ToString` are abstract functions. The line
  terminator is "\n".
- `TreeDumper.SizeCalculator.VisitBranch`: takes a non-null node. The source throws on
  null, and so do the extension and leaf visitors.
- `TreeDumper.TreeDumper.VisitCode` and `TreeDumper.SizeCalculator.VisitCode`: take the code
  as a sequence, never null. The source reads `code.Length` and throws on a null array
  (TreeDumper.cs lines 75 and 113).
- `VisitContext.level` and `VisitContext.branchChildIndex` are `nat` here, `int` in the
  source. A negative level makes the source's `new string('+', level * 2)` throw, and a
  negative index prints with a minus sign ("-03"); neither is modelled.
- The `NeedMoreData` event forwarding in CompositeDataConsumer.cs.
- What a node-data consumer does with a response is its own code. Here each consumer
  only records what it was handed.
- NullableUInt256Converter.cs, ITraceModule.cs, IDb.cs and the two test files are not
  part of this model. They are an unseen converter's wrapper, interfaces, and tests of
  code that is not shown.
