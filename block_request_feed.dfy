/**
 * The fast-blocks header feed as the source has it: an object whose methods update its
 * counters, its queue of pending batches, its set of sent batches and its map of parked
 * batches.  Every method is proved to compute exactly the corresponding function of
 * FastBlocks, where the properties of the feed are proved.
 */
module BlockRequestFeed {
  import opened Wrappers
  import opened FastBlocks

  /** The block tree as the feed uses it: its answers depend on the headers offered so far. */
  class BlockTree {
    const oracle: BlockTreeOracle
    var offered: seq<BlockHeader>

    constructor (oracle: BlockTreeOracle)
      ensures this.oracle == oracle && offered == []
    {
      this.oracle := oracle;
      offered := [];
    }

    method SuggestHeader(header: BlockHeader) returns (r: AddBlockResult)
      modifies this
      ensures offered == old(offered) + [header]
      ensures r == oracle.suggestHeader(old(offered), header)
    {
      r := oracle.suggestHeader(offered, header);
      offered := offered + [header];
    }

    function FindHeader(number: int): Option<StoredHeader>
      reads this
    {
      oracle.findHeader(offered, number)
    }

    function BestSuggested(): Option<BestHeader>
      reads this
    {
      oracle.bestSuggested(offered)
    }
  }

  datatype BlocksDataHandlerResult = OK | InvalidFormat

  class BlocksRequestFeed {
    const blockTree: BlockTree
    var totalDifficultyOfBestHeaderProvider: nat
    var bestRequestedHeader: int
    var pendingBatches: seq<BlockSyncBatch>
    var sentBatches: set<BatchId>
    var headerDependencies: map<int, seq<BlockSyncBatch>>
    /** The id the next batch made here gets. */
    var nextBatchId: BatchId
    /** The calls made to the peer pool. */
    ghost var reports: seq<Report>

    ghost function Snapshot(): FeedState
      reads this, blockTree
    {
      FeedState(bestRequestedHeader, totalDifficultyOfBestHeaderProvider, pendingBatches, sentBatches,
                headerDependencies, nextBatchId, reports, blockTree.offered)
    }

    ghost predicate Valid()
      reads this, blockTree
    {
      Wf(Snapshot())
    }

    constructor (blockTree: BlockTree)
      ensures this.blockTree == blockTree && Valid()
      ensures Snapshot() == FeedState(0, 0, [], {}, map[], 0, [], blockTree.offered)
    {
      this.blockTree := blockTree;
      totalDifficultyOfBestHeaderProvider := 0;
      bestRequestedHeader := 0;
      pendingBatches := [];
      sentBatches := {};
      headerDependencies := map[];
      nextBatchId := 0;
      reports := [];
    }

    /** PrepareRequest(threshold) over the peers the pool holds. */
    method PrepareRequest(peers: seq<PeerInfo>, threshold: int) returns (batch: Option<BlockSyncBatch>)
      requires |peers| > 0
      modifies this
      ensures Prepared(Snapshot(), batch) == PrepareF(blockTree.oracle, old(Snapshot()), peers, threshold)
      ensures old(Valid()) ==> Valid()
    {
      var maxDifficulty := MaxTotalDifficulty(peers);
      var maxNumber := MaxHeadNumber(peers);
      var bestSuggested := blockTree.BestSuggested();
      var bestDifficulty := if bestSuggested.Some? then bestSuggested.value.totalDifficulty.GetOr(0) else 0;
      if maxDifficulty <= bestDifficulty {
        return None;
      }

      if |pendingBatches| > 0 {
        batch := Some(pendingBatches[0]);
        pendingBatches := pendingBatches[1..];
        return;
      }

      maxNumber := maxNumber - threshold;
      if maxNumber <= bestRequestedHeader && |pendingBatches| == 0
         && maxDifficulty <= totalDifficultyOfBestHeaderProvider
      {
        return None;
      }

      batch := Issue(peers, threshold);
    }

    /** The part of PrepareRequest after the idle checks. */
    method Issue(peers: seq<PeerInfo>, threshold: int) returns (batch: Option<BlockSyncBatch>)
      requires |peers| > 0
      modifies this
      ensures Prepared(Snapshot(), batch) == IssueF(blockTree.oracle, old(Snapshot()), peers, threshold)
      ensures old(Valid()) ==> Valid()
    {
      var maxDifficulty := MaxTotalDifficulty(peers);
      var maxNumber := MaxHeadNumber(peers) - threshold;
      var bestSuggested := blockTree.BestSuggested();
      var bestNumber := if bestSuggested.Some? then bestSuggested.value.number else 0;
      var isReorg := maxNumber == bestNumber && maxDifficulty > totalDifficultyOfBestHeaderProvider;
      ghost var s0 := Snapshot();
      assert isReorg == IsReorg(blockTree.oracle, s0, peers, threshold);
      if isReorg {
        EnqueueReorgBatchesInOrder();
      }
      ghost var s1 := Snapshot();
      assert s1 == if isReorg then EnqueueReorgBatches(s0, SortedKeys(s0.headerDependencies.Keys), s0.totalDifficultyOfBestHeaderProvider) else s0;

      if |pendingBatches| > 0 {
        batch := Some(pendingBatches[0]);
        pendingBatches := pendingBatches[1..];
        assert Prepared(Snapshot(), batch) == Dequeue(s1);
        return;
      }

      var start := if isReorg then maxNumber - RequestSize + 1 else bestRequestedHeader;
      var size := if 1 + maxNumber - start < RequestSize then 1 + maxNumber - start else RequestSize;
      var headers := HeadersSyncBatch(start, size, None);
      var minTotalDifficulty := if isReorg then Some(totalDifficultyOfBestHeaderProvider + 1) else None;
      var newBatch := BlockSyncBatch(nextBatchId, Some(headers), None, isReorg, minTotalDifficulty);
      nextBatchId := nextBatchId + 1;
      bestRequestedHeader := Max(EndNumber(headers), bestRequestedHeader);
      sentBatches := sentBatches + {newBatch.id};
      batch := Some(newBatch);
      assert Prepared(Snapshot(), batch) == NewBatch(s1, start, maxNumber, isReorg);
    }

    /** The reorg branch of PrepareRequest: one reorg batch per parked key, smallest key first. */
    method EnqueueReorgBatchesInOrder()
      modifies this`pendingBatches, this`nextBatchId
      ensures pendingBatches
           == old(pendingBatches) + ReorgBatches(old(nextBatchId), SortedKeys(headerDependencies.Keys), totalDifficultyOfBestHeaderProvider)
      ensures nextBatchId == old(nextBatchId) + |SortedKeys(headerDependencies.Keys)|
    {
      var remaining := headerDependencies.Keys;
      ghost var done: seq<int> := [];
      ghost var all := SortedKeys(remaining);
      var td := totalDifficultyOfBestHeaderProvider;
      var queue := pendingBatches;
      var id := nextBatchId;
      ghost var queue0 := queue;
      ghost var id0 := id;
      while remaining != {}
        invariant all == done + SortedKeys(remaining)
        invariant queue == queue0 + ReorgBatches(id0, done, td)
        invariant id == id0 + |done|
        decreases remaining
      {
        var key :| key in remaining && forall j :: j in remaining ==> key <= j;
        SortedKeysStep(all, done, remaining, key);
        ReorgBatchesAppend(id0, done, key, td);
        assert queue + [ReorgBatch(id, key, td)] == queue0 + (ReorgBatches(id0, done, td) + [ReorgBatch(id, key, td)]);
        queue := queue + [ReorgBatch(id, key, td)];
        id := id + 1;
        done := done + [key];
        remaining := remaining - {key};
      }
      assert SortedKeys(remaining) == [];
      assert done == all;
      pendingBatches := queue;
      nextBatchId := id;
    }

    /** HandleResponse: a batch without headers is an invalid format and changes nothing;
        otherwise SuggestBatch. */
    method HandleResponse(batch: BlockSyncBatch, fuel: nat) returns (result: BlocksDataHandlerResult, added: int)
      requires Valid()
      requires batch.headersSyncBatch.Some? ==> Handleable(batch)
      modifies this, blockTree
      ensures Valid()
      ensures batch.headersSyncBatch.None? ==>
                result == InvalidFormat && added == 0 && Snapshot() == old(Snapshot())
      ensures batch.headersSyncBatch.Some? ==>
                result == OK
                && Snapshot() == SuggestBatchF(blockTree.oracle, old(Snapshot()), batch, fuel).state
                && added == SuggestBatchF(blockTree.oracle, old(Snapshot()), batch, fuel).added
    {
      if batch.headersSyncBatch.Some? {
        added := SuggestBatch(batch, fuel);
        return OK, added;
      }
      return InvalidFormat, 0;
    }

    /** SuggestBatch: the response loop, then the remainder, the report and the sent set. */
    method SuggestBatch(batch: BlockSyncBatch, fuel: nat) returns (added: int)
      requires Valid() && Handleable(batch)
      modifies this, blockTree
      ensures Valid()
      ensures Snapshot() == SuggestBatchF(blockTree.oracle, old(Snapshot()), batch, fuel).state
      ensures added == SuggestBatchF(blockTree.oracle, old(Snapshot()), batch, fuel).added
      decreases fuel, 4
    {
      var headers := batch.headersSyncBatch.value;
      if headers.response.None? {
        pendingBatches := pendingBatches + [batch];
        sentBatches := sentBatches - {batch.id};
        return 0;
      }

      var enqueueRemaining;
      ghost var stop;
      added, enqueueRemaining, stop := SuggestHeaders(batch, fuel);
      ghost var e := LoopEnd(Snapshot(), added, enqueueRemaining, stop);
      assert SuggestBatchF(blockTree.oracle, old(Snapshot()), batch, fuel) == FinishBatch(batch, e);

      if added < headers.requestSize && enqueueRemaining {
        if added != 0 {
          added := added - 1;
        }
        pendingBatches := pendingBatches + [Remainder(nextBatchId, headers, added)];
        nextBatchId := nextBatchId + 1;
      }

      if added == 0 && enqueueRemaining {
        reports := reports + [ReportNoSyncProgress(batch.assignedPeer)];
      }

      sentBatches := sentBatches - {batch.id};
    }

    /** The for loop of SuggestBatch: returns `added`, `enqueueRemaining` and why it ended. */
    method SuggestHeaders(batch: BlockSyncBatch, fuel: nat) returns (added: int, enqueueRemaining: bool, ghost stop: Stop)
      requires Valid() && Answered(batch)
      modifies this, blockTree
      ensures Valid()
      ensures LoopEnd(Snapshot(), added, enqueueRemaining, stop)
           == LoopF(blockTree.oracle, old(Snapshot()), batch, 0, fuel)
      decreases fuel, 3
    {
      var headers := batch.headersSyncBatch.value;
      var response := headers.response.value;
      ghost var t := blockTree.oracle;
      ghost var s0 := Snapshot();
      stop := Exhausted;
      enqueueRemaining := true;
      added := 0;
      var i := 0;
      while i < |response| && i < headers.requestSize
        invariant i == added && enqueueRemaining && stop == Exhausted
        invariant Valid() && AcceptedPrefix(batch, i) && (i == 0 || i <= headers.requestSize)
        invariant LoopF(t, Snapshot(), batch, i, fuel) == LoopF(t, s0, batch, 0, fuel)
        decreases |response| - i
      {
        var done;
        done, enqueueRemaining, stop := SuggestOne(batch, i, fuel);
        if done {
          break;
        }
        added := added + 1;
        i := i + 1;
      }
    }

    /** One iteration of the loop, at index `i`: `done` when the loop breaks. */
    method SuggestOne(batch: BlockSyncBatch, i: nat, fuel: nat) returns (done: bool, enqueueRemaining: bool, ghost stop: Stop)
      requires Valid() && Answered(batch)
      requires AcceptedPrefix(batch, i) && (i == 0 || i <= batch.headersSyncBatch.value.requestSize)
      requires i < |Response(batch)| && i < batch.headersSyncBatch.value.requestSize
      modifies this, blockTree
      ensures Valid()
      ensures done ==> LoopEnd(Snapshot(), i, enqueueRemaining, stop)
                       == LoopF(blockTree.oracle, old(Snapshot()), batch, i, fuel)
      ensures !done ==> && enqueueRemaining && stop == Exhausted
                        && AcceptedPrefix(batch, i + 1)
                        && LoopF(blockTree.oracle, Snapshot(), batch, i + 1, fuel)
                           == LoopF(blockTree.oracle, old(Snapshot()), batch, i, fuel)
      decreases fuel, 2
    {
      var headers := batch.headersSyncBatch.value;
      var response := headers.response.value;
      done, enqueueRemaining, stop := true, true, Exhausted;
      if response[i].None? {
        stop := NullHeader;
        return;
      }
      var header := response[i].value;
      if i != 0 && header.parentHash != response[i - 1].value.hash {
        reports := reports + [ReportInvalid(batch.assignedPeer)];
        stop := BrokenChain;
        return;
      }
      if i == 0 && header.number != headers.startNumber {
        reports := reports + [ReportInvalid(batch.assignedPeer)];
        stop := Misaligned;
        return;
      }

      var addBlockResult := SuggestHeader(header, fuel);
      if addBlockResult == UnknownParent && i == 0 {
        enqueueRemaining, stop := ParkOnUnknownParent(header, batch);
        return;
      }

      if addBlockResult == InvalidBlock || addBlockResult == UnknownParent {
        stop := Rejected;
        return;
      }

      if header.number == bestRequestedHeader {
        totalDifficultyOfBestHeaderProvider :=
          Max(totalDifficultyOfBestHeaderProvider, batch.assignedPeer.value.totalDifficulty);
      }
      done := false;
    }

    /** The first header's parent is unknown: park the batch at the parent's number, unless
        a more difficult header is known at that height and the batch is not a reorg batch. */
    method ParkOnUnknownParent(header: BlockHeader, batch: BlockSyncBatch) returns (enqueueRemaining: bool, ghost stop: Stop)
      requires Valid() && Answered(batch)
      modifies this
      ensures var s := old(Snapshot());
              var alternative := blockTree.oracle.findHeader(s.offered, header.number);
              LoopEnd(Snapshot(), 0, enqueueRemaining, stop)
              == if ParksOnUnknownParent(batch.isReorgBatch, alternative, header)
                 then LoopEnd(Park(s, header.number - 1, batch), 0, false, Parked)
                 else LoopEnd(s, 0, true, NotParked)
    {
      var alternative := blockTree.FindHeader(header.number);
      if (HasTotalDifficulty(alternative) && header.difficulty > alternative.value.difficulty)
         || batch.isReorgBatch
      {
        ParkBatch(header.number - 1, batch);
        enqueueRemaining := false;
        stop := Parked;
      } else if HasTotalDifficulty(alternative) && header.difficulty < alternative.value.difficulty {
        enqueueRemaining := true;
        stop := NotParked;
      } else {
        ParkBatch(header.number - 1, batch);
        enqueueRemaining := false;
        stop := Parked;
      }
    }

    /** Adds the batch at the end of the bucket for `key`, creating the bucket if need be. */
    method ParkBatch(key: int, batch: BlockSyncBatch)
      requires Valid() && Answered(batch)
      modifies this
      ensures Snapshot() == Park(old(Snapshot()), key, batch)
    {
      if key !in headerDependencies {
        headerDependencies := headerDependencies[key := []];
      }
      headerDependencies := headerDependencies[key := headerDependencies[key] + [batch]];
    }

    method SuggestHeader(header: BlockHeader, fuel: nat) returns (result: AddBlockResult)
      requires Valid()
      modifies this, blockTree
      ensures Valid()
      ensures Suggested(Snapshot(), result) == SuggestHeaderF(blockTree.oracle, old(Snapshot()), header, fuel)
      decreases fuel, 1
    {
      if IsGenesis(header) {
        return AlreadyKnown;
      }

      result := blockTree.SuggestHeader(header);
      if result == InvalidBlock {
        return;
      }
      if result == UnknownParent {
        return;
      }

      if header.number in headerDependencies && fuel > 0 {
        RunBucket(headerDependencies[header.number], fuel);
      }
    }

    /** Re-runs SuggestBatch on each batch of a snapshot of a bucket. */
    method RunBucket(bucket: seq<BlockSyncBatch>, fuel: nat)
      requires fuel > 0
      requires Valid() && forall b :: b in bucket ==> Answered(b)
      modifies this, blockTree
      ensures Valid()
      ensures Snapshot() == RunBucketF(blockTree.oracle, old(Snapshot()), bucket, fuel)
      decreases fuel, 0
    {
      for j := 0 to |bucket|
        invariant Valid()
        invariant RunBucketF(blockTree.oracle, Snapshot(), bucket[j..], fuel)
               == RunBucketF(blockTree.oracle, old(Snapshot()), bucket, fuel)
      {
        RunBucketFStep(blockTree.oracle, Snapshot(), bucket, j, fuel);
        var _ := SuggestBatch(bucket[j], fuel - 1);
      }
    }
  }

  lemma SortedKeysStep(all: seq<int>, done: seq<int>, remaining: set<int>, key: int)
    requires all == done + SortedKeys(remaining)
    requires key in remaining && forall j :: j in remaining ==> key <= j
    ensures all == (done + [key]) + SortedKeys(remaining - {key})
  {
    SortedKeysFirst(remaining, key);
  }

  lemma ReorgBatchesAppend(firstId: BatchId, keys: seq<int>, key: int, totalDifficulty: nat)
    ensures ReorgBatches(firstId, keys + [key], totalDifficulty)
         == ReorgBatches(firstId, keys, totalDifficulty) + [ReorgBatch(firstId + |keys|, key, totalDifficulty)]
  {
    assert (keys + [key])[..|keys|] == keys;
  }
}
