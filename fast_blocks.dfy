/**
 * The fast-blocks header feed as functions of its state.  The feed hands out batches of
 * header requests to peers and assembles their responses: a batch is a start number and
 * a size (at most 256 headers); a response is an array of headers, possibly with holes.
 * Responses are walked header by header and offered to the block tree; a batch whose
 * first header has an unknown parent is parked under the parent's number and re-run
 * when a header with that number is accepted.
 *
 * The block tree is an oracle: its answers are functions of the headers offered so far.
 * The re-runs of parked batches form a recursion with no decreasing measure in the
 * source, so every function here carries `fuel`; with no fuel left, a parked bucket is
 * not re-run.
 */
module FastBlocks {
  import opened Wrappers

  /** The largest number of headers asked for in one batch. */
  const RequestSize: int := 256

  type Hash = nat

  /** Batches are objects compared by reference; a batch id stands for that identity. */
  type BatchId = nat

  datatype BlockHeader = BlockHeader(number: int, hash: Hash, parentHash: Hash, difficulty: nat)

  predicate IsGenesis(header: BlockHeader) {
    header.number == 0
  }

  datatype AddBlockResult = Added | AlreadyKnown | InvalidBlock | UnknownParent

  /** A header found in the tree by number: its difficulty, and its total difficulty when known. */
  datatype StoredHeader = StoredHeader(difficulty: nat, totalDifficulty: Option<nat>)

  /** The tree's best suggested header, as the feed reads it. */
  datatype BestHeader = BestHeader(number: int, totalDifficulty: Option<nat>)

  /** The block tree's answers, as functions of the headers offered to it so far. */
  datatype BlockTreeOracle = BlockTreeOracle(
    suggestHeader: (seq<BlockHeader>, BlockHeader) -> AddBlockResult,
    findHeader: (seq<BlockHeader>, int) -> Option<StoredHeader>,
    bestSuggested: seq<BlockHeader> -> Option<BestHeader>)

  /** What the feed reads of a peer: its head number and total difficulty. */
  datatype PeerInfo = PeerInfo(id: nat, headNumber: int, totalDifficulty: nat)

  datatype HeadersSyncBatch = HeadersSyncBatch(
    startNumber: int,
    requestSize: int,
    response: Option<seq<Option<BlockHeader>>>)

  function EndNumber(headers: HeadersSyncBatch): int {
    headers.startNumber + headers.requestSize - 1
  }

  datatype BlockSyncBatch = BlockSyncBatch(
    id: BatchId,
    headersSyncBatch: Option<HeadersSyncBatch>,
    assignedPeer: Option<PeerInfo>,
    isReorgBatch: bool,
    minTotalDifficulty: Option<nat>)

  /** The calls made to the peer pool. */
  datatype Report = ReportInvalid(peer: Option<PeerInfo>) | ReportNoSyncProgress(peer: Option<PeerInfo>)

  /** The feed's fields, the peer-pool calls made so far and the headers offered to the tree. */
  datatype FeedState = FeedState(
    bestRequestedHeader: int,
    totalDifficultyOfBestHeaderProvider: nat,
    pendingBatches: seq<BlockSyncBatch>,
    sentBatches: set<BatchId>,
    headerDependencies: map<int, seq<BlockSyncBatch>>,
    nextBatchId: BatchId,
    reports: seq<Report>,
    offered: seq<BlockHeader>)

  function Max(a: int, b: int): int {
    if a >= b then a else b
  }

  function Min(a: int, b: int): int {
    if a <= b then a else b
  }

  // ---------------------------------------------------------------------------
  // Invariants

  /** A batch that has a response also has the peer that sent it. */
  predicate Handleable(batch: BlockSyncBatch) {
    batch.headersSyncBatch.Some?
    && (batch.headersSyncBatch.value.response.Some? ==> batch.assignedPeer.Some?)
  }

  /** A batch with headers, a response and a peer: what a parked batch is. */
  predicate Answered(batch: BlockSyncBatch) {
    batch.headersSyncBatch.Some? && batch.headersSyncBatch.value.response.Some? && batch.assignedPeer.Some?
  }

  function Response(batch: BlockSyncBatch): seq<Option<BlockHeader>>
    requires Answered(batch)
  {
    batch.headersSyncBatch.value.response.value
  }

  ghost predicate Wf(s: FeedState) {
    forall k, b :: k in s.headerDependencies && b in s.headerDependencies[k] ==> Answered(b)
  }

  /** What handling a response can do to the state: the requested mark stays, the tracked
      difficulty only rises, batches are only queued and parked (never taken out of a
      queue or a bucket), sent batches are only forgotten, and the logs only grow. */
  ghost predicate Grows(s: FeedState, s': FeedState) {
    && s'.bestRequestedHeader == s.bestRequestedHeader
    && s'.totalDifficultyOfBestHeaderProvider >= s.totalDifficultyOfBestHeaderProvider
    && s.pendingBatches <= s'.pendingBatches
    && s'.sentBatches <= s.sentBatches
    && (forall k :: k in s.headerDependencies ==>
          k in s'.headerDependencies && s.headerDependencies[k] <= s'.headerDependencies[k])
    && s.nextBatchId <= s'.nextBatchId
    && s.reports <= s'.reports
    && s.offered <= s'.offered
  }

  lemma GrowsTransitive(s0: FeedState, s1: FeedState, s2: FeedState)
    requires Grows(s0, s1) && Grows(s1, s2)
    ensures Grows(s0, s2)
  {
  }

  // ---------------------------------------------------------------------------
  // Parking and queueing

  function Bucket(s: FeedState, key: int): seq<BlockSyncBatch> {
    if key in s.headerDependencies then s.headerDependencies[key] else []
  }

  /** Adds `batch` at the end of the bucket for `key`, creating the bucket if need be. */
  function Park(s: FeedState, key: int, batch: BlockSyncBatch): (s': FeedState)
    requires Wf(s) && Answered(batch)
    ensures Wf(s') && Grows(s, s')
    ensures key in s'.headerDependencies && s'.headerDependencies[key] == Bucket(s, key) + [batch]
    ensures s' == s.(headerDependencies := s'.headerDependencies)
    ensures forall k :: k != key ==>
              (k in s'.headerDependencies <==> k in s.headerDependencies) && Bucket(s', k) == Bucket(s, k)
  {
    s.(headerDependencies := s.headerDependencies[key := Bucket(s, key) + [batch]])
  }

  /** The existing header is known and has a total difficulty. */
  predicate HasTotalDifficulty(alternative: Option<StoredHeader>) {
    alternative.Some? && alternative.value.totalDifficulty.Some?
  }

  /** Whether a batch whose first header has an unknown parent is parked: always, unless it
      is not a reorg batch and an existing header at that height, with its total difficulty
      known, is strictly more difficult. */
  function ParksOnUnknownParent(isReorgBatch: bool, alternative: Option<StoredHeader>, header: BlockHeader): (b: bool)
    ensures !b <==> !isReorgBatch && HasTotalDifficulty(alternative) && header.difficulty < alternative.value.difficulty
  {
    if (HasTotalDifficulty(alternative) && header.difficulty > alternative.value.difficulty) || isReorgBatch then true
    else if HasTotalDifficulty(alternative) && header.difficulty < alternative.value.difficulty then false
    else true
  }

  /** The batch re-requesting what a response did not deliver. */
  function Remainder(id: BatchId, headers: HeadersSyncBatch, added: int): (r: BlockSyncBatch)
    ensures r.id == id && r.headersSyncBatch.Some?
    ensures r.headersSyncBatch.value.startNumber == headers.startNumber + added
    ensures EndNumber(r.headersSyncBatch.value) == EndNumber(headers)
    ensures r.headersSyncBatch.value.response.None? && r.assignedPeer.None?
    ensures !r.isReorgBatch && r.minTotalDifficulty.None?
  {
    BlockSyncBatch(id, Some(HeadersSyncBatch(headers.startNumber + added, headers.requestSize - added, None)),
                   None, false, None)
  }

  /** Enqueue: the batch goes behind every queued batch; nothing else changes. */
  function Enqueue(s: FeedState, batch: BlockSyncBatch): (r: FeedState)
    ensures |r.pendingBatches| == |s.pendingBatches| + 1
    ensures r.pendingBatches[..|s.pendingBatches|] == s.pendingBatches
    ensures r.pendingBatches[|s.pendingBatches|] == batch
    ensures r == s.(pendingBatches := r.pendingBatches)
  {
    assert (s.pendingBatches + [batch])[..|s.pendingBatches|] == s.pendingBatches;
    s.(pendingBatches := s.pendingBatches + [batch])
  }

  // ---------------------------------------------------------------------------
  // SuggestHeader, the response loop and SuggestBatch

  datatype Suggested = Suggested(state: FeedState, result: AddBlockResult)

  /** Why the response loop ended. */
  datatype Stop =
    | NoResponse   // the batch had no response at all
    | Exhausted    // the whole response (or the whole request) was walked
    | NullHeader   // a hole in the response
    | BrokenChain  // a header whose parent hash is not the previous header's hash
    | Misaligned   // a first header whose number is not the start number
    | Rejected     // the tree answered InvalidBlock, or UnknownParent after the first header
    | Parked       // the first header's parent is unknown: the batch waits for it
    | NotParked    // the same, but a more difficult header at that height is known

  /** The loop variables when the loop ends: the state, `added`, `enqueueRemaining`, and
      the reason it ended. */
  datatype LoopEnd = LoopEnd(state: FeedState, added: int, enqueueRemaining: bool, stop: Stop)

  datatype Handled = Handled(state: FeedState, added: int, stop: Stop)

  /** SuggestHeader: genesis is AlreadyKnown without asking the tree; otherwise the tree's
      answer, and an accepted header re-runs every batch parked at its number. */
  function SuggestHeaderF(t: BlockTreeOracle, s: FeedState, header: BlockHeader, fuel: nat): (r: Suggested)
    requires Wf(s)
    ensures Wf(r.state) && Grows(s, r.state)
    decreases fuel, 1, 0
  {
    if IsGenesis(header) then Suggested(s, AlreadyKnown)
    else
      var result := t.suggestHeader(s.offered, header);
      var s1 := s.(offered := s.offered + [header]);
      if result == InvalidBlock || result == UnknownParent then Suggested(s1, result)
      else if header.number in s1.headerDependencies && fuel > 0 then
        Suggested(RunBucketF(t, s1, s1.headerDependencies[header.number], fuel), result)
      else Suggested(s1, result)
  }

  /** SuggestBatch for each batch of a bucket, in order. */
  function RunBucketF(t: BlockTreeOracle, s: FeedState, bucket: seq<BlockSyncBatch>, fuel: nat): (r: FeedState)
    requires fuel > 0
    requires Wf(s) && forall b :: b in bucket ==> Answered(b)
    ensures Wf(r) && Grows(s, r)
    decreases fuel, 0, |bucket|
  {
    if bucket == [] then s
    else
      assert bucket[0] in bucket && Answered(bucket[0]);
      RunBucketF(t, SuggestBatchF(t, s, bucket[0], fuel - 1).state, bucket[1..], fuel)
  }

  /** Re-running a bucket from position `j` is re-running its batch at `j`, then the rest. */
  lemma RunBucketFStep(t: BlockTreeOracle, s: FeedState, bucket: seq<BlockSyncBatch>, j: nat, fuel: nat)
    requires fuel > 0 && j < |bucket|
    requires Wf(s) && forall b :: b in bucket ==> Answered(b)
    ensures Answered(bucket[j])
    ensures RunBucketF(t, s, bucket[j..], fuel)
         == RunBucketF(t, SuggestBatchF(t, s, bucket[j], fuel - 1).state, bucket[j + 1..], fuel)
  {
    assert bucket[j] in bucket;
    assert bucket[j..][0] == bucket[j] && bucket[j..][1..] == bucket[j + 1..];
  }

  /** The accepted headers so far: present, chained by parent hash, the first at the
      start number. */
  predicate AcceptedPrefix(batch: BlockSyncBatch, n: int)
    requires Answered(batch)
  {
    var response := Response(batch);
    && 0 <= n <= |response|
    && (forall j :: 0 <= j < n ==> response[j].Some?)
    && (n > 0 ==> response[0].value.number == batch.headersSyncBatch.value.startNumber)
    && (forall j :: 0 < j < n ==> response[j].value.parentHash == response[j - 1].value.hash)
  }

  /** The for loop of SuggestBatch from index `i` on; `added` equals `i` at the top of
      every iteration. */
  function LoopF(t: BlockTreeOracle, s: FeedState, batch: BlockSyncBatch, i: nat, fuel: nat): (e: LoopEnd)
    requires Wf(s) && Answered(batch)
    requires AcceptedPrefix(batch, i)
    requires i == 0 || i <= batch.headersSyncBatch.value.requestSize
    ensures Wf(e.state) && Grows(s, e.state)
    decreases fuel, 2, |Response(batch)| - i
  {
    var headers := batch.headersSyncBatch.value;
    var response := headers.response.value;
    if !(i < |response| && i < headers.requestSize) then LoopEnd(s, i, true, Exhausted)
    else match response[i]
      case None => LoopEnd(s, i, true, NullHeader)
      case Some(header) =>
        if i != 0 && header.parentHash != response[i - 1].value.hash then
          LoopEnd(s.(reports := s.reports + [ReportInvalid(batch.assignedPeer)]), i, true, BrokenChain)
        else if i == 0 && header.number != headers.startNumber then
          LoopEnd(s.(reports := s.reports + [ReportInvalid(batch.assignedPeer)]), i, true, Misaligned)
        else
          var suggested := SuggestHeaderF(t, s, header, fuel);
          var s1 := suggested.state;
          if suggested.result == UnknownParent && i == 0 then
            var alternative := t.findHeader(s1.offered, header.number);
            if ParksOnUnknownParent(batch.isReorgBatch, alternative, header) then
              LoopEnd(Park(s1, header.number - 1, batch), 0, false, Parked)
            else
              LoopEnd(s1, 0, true, NotParked)
          else if suggested.result == InvalidBlock || suggested.result == UnknownParent then
            LoopEnd(s1, i, true, Rejected)
          else
            var s2 := if header.number == s1.bestRequestedHeader
                      then s1.(totalDifficultyOfBestHeaderProvider :=
                                 Max(s1.totalDifficultyOfBestHeaderProvider, batch.assignedPeer.value.totalDifficulty))
                      else s1;
            LoopF(t, s2, batch, i + 1, fuel)
  }

  /** SuggestBatch: a batch without a response is queued again; otherwise the response is
      walked and the loop's end is settled by FinishBatch. */
  function SuggestBatchF(t: BlockTreeOracle, s: FeedState, batch: BlockSyncBatch, fuel: nat): (r: Handled)
    requires Wf(s) && Handleable(batch)
    ensures Wf(r.state) && Grows(s, r.state)
    decreases fuel, 3, 0
  {
    var headers := batch.headersSyncBatch.value;
    if headers.response.None? then
      Handled(Enqueue(s, batch).(sentBatches := s.sentBatches - {batch.id}), 0, NoResponse)
    else
      var e := LoopF(t, s, batch, 0, fuel);
      FinishBatch(batch, e)
  }

  /** After the loop: the undelivered remainder is queued (re-requesting the last accepted
      header), a peer that made no progress is reported, and the batch is no longer sent. */
  function FinishBatch(batch: BlockSyncBatch, e: LoopEnd): (r: Handled)
    requires Wf(e.state) && Handleable(batch)
    ensures Wf(r.state) && Grows(e.state, r.state)
  {
    var headers := batch.headersSyncBatch.value;
    var requeue := e.added < headers.requestSize && e.enqueueRemaining;
    var added := if requeue && e.added != 0 then e.added - 1 else e.added;
    var s1 := if requeue
              then Enqueue(e.state, Remainder(e.state.nextBatchId, headers, added)).(nextBatchId := e.state.nextBatchId + 1)
              else e.state;
    var s2 := if added == 0 && e.enqueueRemaining
              then s1.(reports := s1.reports + [ReportNoSyncProgress(batch.assignedPeer)])
              else s1;
    Handled(s2.(sentBatches := s2.sentBatches - {batch.id}), added, e.stop)
  }

  // ---------------------------------------------------------------------------
  // Properties of SuggestHeader, the response loop and SuggestBatch

  /** A genesis header is AlreadyKnown: the tree is not asked and nothing changes. */
  lemma GenesisIsAlreadyKnown(t: BlockTreeOracle, s: FeedState, header: BlockHeader, fuel: nat)
    requires Wf(s) && IsGenesis(header)
    ensures SuggestHeaderF(t, s, header, fuel) == Suggested(s, AlreadyKnown)
  {
  }

  /** A header the tree accepts re-runs the whole bucket parked at its number (fuel
      permitting); a rejected one re-runs nothing. */
  lemma AcceptedHeaderRerunsBucket(t: BlockTreeOracle, s: FeedState, header: BlockHeader, fuel: nat)
    requires Wf(s) && !IsGenesis(header)
    ensures var r := SuggestHeaderF(t, s, header, fuel);
            var s1 := s.(offered := s.offered + [header]);
            && r.result == t.suggestHeader(s.offered, header)
            && (r.result in {InvalidBlock, UnknownParent} || header.number !in s.headerDependencies || fuel == 0
                ==> r.state == s1)
            && (r.result !in {InvalidBlock, UnknownParent} && header.number in s.headerDependencies && fuel > 0
                ==> r.state == RunBucketF(t, s1, s.headerDependencies[header.number], fuel))
  {
  }

  /** After a bucket is re-run, none of its batches is a sent batch any more. */
  lemma {:induction false} RunBucketForgetsSent(t: BlockTreeOracle, s: FeedState, bucket: seq<BlockSyncBatch>, fuel: nat)
    requires fuel > 0
    requires Wf(s) && forall b :: b in bucket ==> Answered(b)
    ensures forall b :: b in bucket ==> b.id !in RunBucketF(t, s, bucket, fuel).sentBatches
    decreases |bucket|
  {
    if bucket != [] {
      assert bucket[0] in bucket && Answered(bucket[0]);
      var s1 := SuggestBatchF(t, s, bucket[0], fuel - 1).state;
      SuggestBatchForgetsSent(t, s, bucket[0], fuel - 1);
      RunBucketForgetsSent(t, s1, bucket[1..], fuel);
      forall b | b in bucket
        ensures b.id !in RunBucketF(t, s, bucket, fuel).sentBatches
      {
        if b != bucket[0] {
          assert b in bucket[1..];
        }
      }
    }
  }

  /** Whatever happens to it, a handled batch is no longer a sent batch. */
  lemma SuggestBatchForgetsSent(t: BlockTreeOracle, s: FeedState, batch: BlockSyncBatch, fuel: nat)
    requires Wf(s) && Handleable(batch)
    ensures batch.id !in SuggestBatchF(t, s, batch, fuel).state.sentBatches
  {
  }

  /** A batch without a response is queued again as it is and counts nothing. */
  lemma NoResponseRequeues(t: BlockTreeOracle, s: FeedState, batch: BlockSyncBatch, fuel: nat)
    requires Wf(s) && Handleable(batch) && batch.headersSyncBatch.value.response.None?
    ensures SuggestBatchF(t, s, batch, fuel)
         == Handled(s.(pendingBatches := s.pendingBatches + [batch], sentBatches := s.sentBatches - {batch.id}), 0, NoResponse)
  {
  }

  /** What is known when the loop ends, by the reason it ended: the loop stops at the
      first hole, chain break, misaligned start or rejection; a chain break and a
      misaligned start report the peer as invalid (the last report made); only parking
      clears `enqueueRemaining`, and a parked batch is the last of its bucket. */
  ghost predicate StopFacts(batch: BlockSyncBatch, e: LoopEnd)
    requires Answered(batch)
  {
    var response := Response(batch);
    var size := batch.headersSyncBatch.value.requestSize;
    && AcceptedPrefix(batch, e.added)
    && (e.added == 0 || e.added <= size)
    && (e.enqueueRemaining <==> e.stop != Parked)
    && e.stop != NoResponse
    && (e.stop == Exhausted <==> !(e.added < |response| && e.added < size))
    && (e.stop == NullHeader ==> 0 <= e.added < |response| && response[e.added].None?)
    && (e.stop == BrokenChain ==> BreaksChain(batch, e.added))
    && (e.stop == Misaligned ==> e.added == 0 && 0 < |response| && Misaligns(batch))
    && (e.stop in {BrokenChain, Misaligned} ==> LastReport(e.state) == Some(ReportInvalid(batch.assignedPeer)))
    && (e.stop in {Parked, NotParked} ==> e.added == 0 && 0 < |response| && response[0].Some?)
    && (e.stop == Parked ==> 0 < |response| && response[0].Some? && ParkedLast(e.state, response[0].value.number - 1, batch))
  }

  predicate BreaksChain(batch: BlockSyncBatch, i: int)
    requires Answered(batch)
  {
    var response := Response(batch);
    0 < i < |response| && response[i].Some? && response[i - 1].Some?
    && response[i].value.parentHash != response[i - 1].value.hash
  }

  predicate Misaligns(batch: BlockSyncBatch)
    requires Answered(batch)
  {
    var response := Response(batch);
    0 < |response| && response[0].Some? && response[0].value.number != batch.headersSyncBatch.value.startNumber
  }

  function LastReport(s: FeedState): Option<Report> {
    if s.reports == [] then None else Some(s.reports[|s.reports| - 1])
  }

  predicate ParkedLast(s: FeedState, key: int, batch: BlockSyncBatch) {
    key in s.headerDependencies && |s.headerDependencies[key]| > 0
    && s.headerDependencies[key][|s.headerDependencies[key]| - 1] == batch
  }

  lemma {:induction false} LoopStops(t: BlockTreeOracle, s: FeedState, batch: BlockSyncBatch, i: nat, fuel: nat)
    requires Wf(s) && Answered(batch)
    requires AcceptedPrefix(batch, i)
    requires i == 0 || i <= batch.headersSyncBatch.value.requestSize
    ensures StopFacts(batch, LoopF(t, s, batch, i, fuel)) && i <= LoopF(t, s, batch, i, fuel).added
    decreases |Response(batch)| - i
  {
    var headers := batch.headersSyncBatch.value;
    var response := headers.response.value;
    if i < |response| && i < headers.requestSize && response[i].Some? {
      var header := response[i].value;
      if !(i != 0 && header.parentHash != response[i - 1].value.hash)
         && !(i == 0 && header.number != headers.startNumber)
      {
        var suggested := SuggestHeaderF(t, s, header, fuel);
        var s1 := suggested.state;
        if !(suggested.result == UnknownParent && i == 0)
           && !(suggested.result == InvalidBlock || suggested.result == UnknownParent)
        {
          var s2 := if header.number == s1.bestRequestedHeader
                    then s1.(totalDifficultyOfBestHeaderProvider :=
                               Max(s1.totalDifficultyOfBestHeaderProvider, batch.assignedPeer.value.totalDifficulty))
                    else s1;
          assert LoopF(t, s, batch, i, fuel) == LoopF(t, s2, batch, i + 1, fuel);
          LoopStops(t, s2, batch, i + 1, fuel);
        }
      }
    }
  }

  /** The tree refused the header the loop stopped at.  It is the last header offered, and
      not genesis; given the headers offered before it the tree answered InvalidBlock, or
      UnknownParent.  A stop at the first header is always UnknownParent, and the batch was
      parked exactly as ParksOnUnknownParent decides from the header found at that height. */
  ghost predicate RefusalFacts(t: BlockTreeOracle, batch: BlockSyncBatch, e: LoopEnd)
    requires Answered(batch)
  {
    var response := Response(batch);
    var offered := e.state.offered;
    e.stop in {Rejected, Parked, NotParked} ==>
      && 0 <= e.added < |response| && response[e.added].Some?
      && 0 < |offered| && offered[|offered| - 1] == response[e.added].value
      && !IsGenesis(response[e.added].value)
      && var answer := t.suggestHeader(offered[..|offered| - 1], response[e.added].value);
         && (e.stop == Rejected ==> answer == InvalidBlock || (answer == UnknownParent && e.added > 0))
         && (e.stop in {Parked, NotParked} ==>
               && e.added == 0 && answer == UnknownParent
               && (e.stop == Parked
                   <==> ParksOnUnknownParent(batch.isReorgBatch, t.findHeader(offered, response[0].value.number),
                                             response[0].value)))
  }

  lemma {:induction false} LoopStopsOnRefusal(t: BlockTreeOracle, s: FeedState, batch: BlockSyncBatch, i: nat, fuel: nat)
    requires Wf(s) && Answered(batch)
    requires AcceptedPrefix(batch, i)
    requires i == 0 || i <= batch.headersSyncBatch.value.requestSize
    ensures RefusalFacts(t, batch, LoopF(t, s, batch, i, fuel))
    decreases |Response(batch)| - i
  {
    var headers := batch.headersSyncBatch.value;
    var response := headers.response.value;
    if i < |response| && i < headers.requestSize && response[i].Some? {
      var header := response[i].value;
      if !(i != 0 && header.parentHash != response[i - 1].value.hash)
         && !(i == 0 && header.number != headers.startNumber)
      {
        var suggested := SuggestHeaderF(t, s, header, fuel);
        var s1 := suggested.state;
        if suggested.result == InvalidBlock || suggested.result == UnknownParent {
          assert !IsGenesis(header);
          assert s1.offered == s.offered + [header];
          assert s1.offered[..|s1.offered| - 1] == s.offered;
        } else {
          var s2 := if header.number == s1.bestRequestedHeader
                    then s1.(totalDifficultyOfBestHeaderProvider :=
                               Max(s1.totalDifficultyOfBestHeaderProvider, batch.assignedPeer.value.totalDifficulty))
                    else s1;
          assert LoopF(t, s, batch, i, fuel) == LoopF(t, s2, batch, i + 1, fuel);
          LoopStopsOnRefusal(t, s2, batch, i + 1, fuel);
        }
      }
    }
  }

  /** The tree accepted `header`: it is genesis, or it was offered and, given the headers
      offered before it, answered Added or AlreadyKnown. */
  ghost predicate WasAccepted(t: BlockTreeOracle, offered: seq<BlockHeader>, header: BlockHeader) {
    || IsGenesis(header)
    || exists p :: 0 <= p < |offered| && offered[p] == header && t.suggestHeader(offered[..p], header) in {Added, AlreadyKnown}
  }

  /** The response's header at `j` is present and was accepted by the tree. */
  ghost predicate AcceptedAt(t: BlockTreeOracle, batch: BlockSyncBatch, offered: seq<BlockHeader>, j: int)
    requires Answered(batch)
  {
    0 <= j < |Response(batch)| && Response(batch)[j].Some? && WasAccepted(t, offered, Response(batch)[j].value)
  }

  /** The first `n` headers of the response are present and were accepted by the tree. */
  ghost predicate CountedAccepted(t: BlockTreeOracle, batch: BlockSyncBatch, offered: seq<BlockHeader>, n: int)
    requires Answered(batch)
  {
    forall j :: 0 <= j < n ==> AcceptedAt(t, batch, offered, j)
  }

  lemma WasAcceptedGrows(t: BlockTreeOracle, offered: seq<BlockHeader>, offered': seq<BlockHeader>, header: BlockHeader)
    requires offered <= offered' && WasAccepted(t, offered, header)
    ensures WasAccepted(t, offered', header)
  {
    if !IsGenesis(header) {
      var p :| 0 <= p < |offered| && offered[p] == header && t.suggestHeader(offered[..p], header) in {Added, AlreadyKnown};
      assert offered'[..p] == offered[..p];
      assert 0 <= p < |offered'| && offered'[p] == header && t.suggestHeader(offered'[..p], header) in {Added, AlreadyKnown};
    }
  }

  lemma CountedAcceptedGrows(t: BlockTreeOracle, batch: BlockSyncBatch, offered: seq<BlockHeader>,
                             offered': seq<BlockHeader>, n: int)
    requires Answered(batch) && offered <= offered'
    requires CountedAccepted(t, batch, offered, n)
    ensures CountedAccepted(t, batch, offered', n)
  {
    forall j | 0 <= j < n ensures AcceptedAt(t, batch, offered', j) {
      assert AcceptedAt(t, batch, offered, j);
      WasAcceptedGrows(t, offered, offered', Response(batch)[j].value);
    }
  }


  /** A header SuggestHeader does not refuse is accepted in the history it leaves behind. */
  lemma SuggestHeaderAccepts(t: BlockTreeOracle, s: FeedState, header: BlockHeader, fuel: nat)
    requires Wf(s)
    ensures var r := SuggestHeaderF(t, s, header, fuel);
            r.result != InvalidBlock && r.result != UnknownParent ==> WasAccepted(t, r.state.offered, header)
  {
    var r := SuggestHeaderF(t, s, header, fuel);
    if !IsGenesis(header) && r.result != InvalidBlock && r.result != UnknownParent {
      var s1 := s.(offered := s.offered + [header]);
      var p := |s.offered|;
      assert Grows(s1, r.state);
      assert s1.offered[p] == header && s1.offered[..p] == s.offered;
      assert r.state.offered[p] == header && r.state.offered[..p] == s.offered;
    }
  }

  /** Every header the loop counts was accepted by the tree. */
  lemma {:induction false} LoopCountsAccepted(t: BlockTreeOracle, s: FeedState, batch: BlockSyncBatch, i: nat, fuel: nat)
    requires Wf(s) && Answered(batch)
    requires AcceptedPrefix(batch, i)
    requires i == 0 || i <= batch.headersSyncBatch.value.requestSize
    requires CountedAccepted(t, batch, s.offered, i)
    ensures var e := LoopF(t, s, batch, i, fuel); CountedAccepted(t, batch, e.state.offered, e.added)
    decreases |Response(batch)| - i
  {
    var headers := batch.headersSyncBatch.value;
    var response := headers.response.value;
    var e := LoopF(t, s, batch, i, fuel);
    if i < |response| && i < headers.requestSize && response[i].Some? {
      var header := response[i].value;
      if !(i != 0 && header.parentHash != response[i - 1].value.hash)
         && !(i == 0 && header.number != headers.startNumber)
      {
        var suggested := SuggestHeaderF(t, s, header, fuel);
        var s1 := suggested.state;
        if !(suggested.result == UnknownParent && i == 0)
           && !(suggested.result == InvalidBlock || suggested.result == UnknownParent)
        {
          var s2 := if header.number == s1.bestRequestedHeader
                    then s1.(totalDifficultyOfBestHeaderProvider :=
                               Max(s1.totalDifficultyOfBestHeaderProvider, batch.assignedPeer.value.totalDifficulty))
                    else s1;
          SuggestHeaderAccepts(t, s, header, fuel);
          CountedAcceptedGrows(t, batch, s.offered, s2.offered, i);
          assert CountedAccepted(t, batch, s2.offered, i + 1);
          assert e == LoopF(t, s2, batch, i + 1, fuel);
          LoopCountsAccepted(t, s2, batch, i + 1, fuel);
          return;
        }
      }
    }
    assert e.added == i;
    CountedAcceptedGrows(t, batch, s.offered, e.state.offered, i);
  }

  /** The count SuggestBatch returns never exceeds the response length nor the request
      size, and covers only headers that are present, chained by parent hash, the first at
      the start number, and that the tree accepted. */
  lemma SuggestBatchCount(t: BlockTreeOracle, s: FeedState, batch: BlockSyncBatch, fuel: nat)
    requires Wf(s) && Handleable(batch)
    ensures var r := SuggestBatchF(t, s, batch, fuel);
            var headers := batch.headersSyncBatch.value;
            && 0 <= r.added
            && (headers.response.Some? ==>
                  && r.added <= |headers.response.value|
                  && (r.added == 0 || r.added <= headers.requestSize)
                  && AcceptedPrefix(batch, r.added)
                  && CountedAccepted(t, batch, r.state.offered, r.added))
  {
    var headers := batch.headersSyncBatch.value;
    if headers.response.Some? {
      var e := LoopF(t, s, batch, 0, fuel);
      var r := SuggestBatchF(t, s, batch, fuel);
      LoopStops(t, s, batch, 0, fuel);
      LoopCountsAccepted(t, s, batch, 0, fuel);
      assert r.added == e.added || r.added == e.added - 1;
      assert r.state.offered == e.state.offered;
    }
  }

  /** After the loop: a parked batch queues nothing and reports nobody; otherwise a batch
      that delivered fewer headers than requested queues a remainder that re-requests the
      last accepted header (the count drops by one) and ends where the batch ended, and a
      batch that ends with a count of zero reports the peer for making no progress. */
  lemma SuggestBatchRemainder(t: BlockTreeOracle, s: FeedState, batch: BlockSyncBatch, fuel: nat)
    requires Wf(s) && Handleable(batch) && batch.headersSyncBatch.value.response.Some?
    ensures var e := LoopF(t, s, batch, 0, fuel);
            var r := SuggestBatchF(t, s, batch, fuel);
            var headers := batch.headersSyncBatch.value;
            && r.stop == e.stop
            && (e.stop == Parked ==>
                  r.added == 0 && r.state == e.state.(sentBatches := e.state.sentBatches - {batch.id}))
            && (e.stop != Parked && e.added < headers.requestSize ==>
                  var remainder := Remainder(e.state.nextBatchId, headers, r.added);
                  && r.added == Max(0, e.added - 1)
                  && r.state.pendingBatches == e.state.pendingBatches + [remainder]
                  && remainder.headersSyncBatch.value.startNumber == headers.startNumber + r.added
                  && EndNumber(remainder.headersSyncBatch.value) == EndNumber(headers)
                  && r.state.nextBatchId == e.state.nextBatchId + 1)
            && (e.stop != Parked && e.added >= headers.requestSize ==>
                  r.added == e.added && r.state.pendingBatches == e.state.pendingBatches)
            && (e.stop != Parked && r.added == 0 ==>
                  r.state.reports == e.state.reports + [ReportNoSyncProgress(batch.assignedPeer)])
            && (e.stop == Parked || r.added != 0 ==> r.state.reports == e.state.reports)
  {
    LoopStops(t, s, batch, 0, fuel);
  }

  // ---------------------------------------------------------------------------
  // PrepareRequest

  /** The largest total difficulty advertised by a peer. */
  function MaxTotalDifficulty(peers: seq<PeerInfo>): (m: nat)
    requires |peers| > 0
    ensures forall p :: p in peers ==> p.totalDifficulty <= m
    ensures exists p :: p in peers && p.totalDifficulty == m
  {
    if |peers| == 1 then peers[0].totalDifficulty
    else
      var rest := MaxTotalDifficulty(peers[1..]);
      assert forall p :: p in peers[1..] ==> p in peers;
      if peers[0].totalDifficulty >= rest then peers[0].totalDifficulty else rest
  }

  /** The highest head number advertised by a peer. */
  function MaxHeadNumber(peers: seq<PeerInfo>): (m: int)
    requires |peers| > 0
    ensures forall p :: p in peers ==> p.headNumber <= m
    ensures exists p :: p in peers && p.headNumber == m
  {
    if |peers| == 1 then peers[0].headNumber
    else
      var rest := MaxHeadNumber(peers[1..]);
      assert forall p :: p in peers[1..] ==> p in peers;
      if peers[0].headNumber >= rest then peers[0].headNumber else rest
  }

  /** The best suggested header's total difficulty, 0 when there is none or it is unknown. */
  function BestTotalDifficulty(t: BlockTreeOracle, s: FeedState): nat {
    match t.bestSuggested(s.offered)
    case None => 0
    case Some(best) => best.totalDifficulty.GetOr(0)
  }

  /** The best suggested header's number, 0 when there is none. */
  function BestNumber(t: BlockTreeOracle, s: FeedState): int {
    match t.bestSuggested(s.offered)
    case None => 0
    case Some(best) => best.number
  }

  /** The number the feed aims at: the best head a peer advertises, less the threshold. */
  function Target(peers: seq<PeerInfo>, threshold: int): (r: int)
    requires |peers| > 0
    ensures forall p :: p in peers ==> p.headNumber - threshold <= r
    ensures exists p :: p in peers && p.headNumber - threshold == r
  {
    MaxHeadNumber(peers) - threshold
  }

  /** The target is the best suggested header and some peer has more difficulty than the
      best header provider seen so far. */
  predicate IsReorg(t: BlockTreeOracle, s: FeedState, peers: seq<PeerInfo>, threshold: int)
    requires |peers| > 0
  {
    Target(peers, threshold) == BestNumber(t, s)
    && MaxTotalDifficulty(peers) > s.totalDifficultyOfBestHeaderProvider
  }
  /** The reorg test in terms of the peers: no peer's head, less the threshold, is beyond the
      best suggested number, some peer's is exactly there, and some peer advertises more total
      difficulty than the best header provider seen so far. */
  lemma IsReorgRule(t: BlockTreeOracle, s: FeedState, peers: seq<PeerInfo>, threshold: int)
    requires |peers| > 0
    ensures IsReorg(t, s, peers, threshold)
        <==> && (forall p :: p in peers ==> p.headNumber - threshold <= BestNumber(t, s))
             && (exists p :: p in peers && p.headNumber - threshold == BestNumber(t, s))
             && (exists p :: p in peers && p.totalDifficulty > s.totalDifficultyOfBestHeaderProvider)
  {
    var m := MaxTotalDifficulty(peers);
    if exists p :: p in peers && p.totalDifficulty > s.totalDifficultyOfBestHeaderProvider {
      var p :| p in peers && p.totalDifficulty > s.totalDifficultyOfBestHeaderProvider;
      assert p.totalDifficulty <= m;
    }
  }


  lemma NonEmptyHasElement(keys: set<int>)
    requires keys != {}
    ensures exists x :: x in keys
  {
    if forall x :: x !in keys {
    }
  }

  ghost function MinKey(keys: set<int>): (m: int)
    requires keys != {}
    ensures m in keys && forall k :: k in keys ==> m <= k
    decreases keys
  {
    NonEmptyHasElement(keys);
    var x :| x in keys;
    var rest := keys - {x};
    assert forall k :: k in keys ==> k in rest || k == x;
    if rest == {} then x
    else
      var y := MinKey(rest);
      if x <= y then x else y
  }

  /** The keys in ascending order (the source's OrderBy over the dependency map). */
  ghost function SortedKeys(keys: set<int>): seq<int>
    decreases keys
  {
    if keys == {} then []
    else
      var m := MinKey(keys);
      [m] + SortedKeys(keys - {m})
  }

  /** SortedKeys lists exactly the keys... */
  lemma {:induction false} SortedKeysMembers(keys: set<int>)
    ensures forall k :: k in keys <==> k in SortedKeys(keys)
    decreases keys
  {
    if keys != {} {
      var m := MinKey(keys);
      SortedKeysMembers(keys - {m});
    }
  }

  /** ...in strictly ascending order. */
  lemma {:induction false} SortedKeysAscending(keys: set<int>)
    ensures forall i, j :: 0 <= i < j < |SortedKeys(keys)| ==> SortedKeys(keys)[i] < SortedKeys(keys)[j]
    decreases keys
  {
    if keys != {} {
      var m := MinKey(keys);
      var rest := SortedKeys(keys - {m});
      SortedKeysAscending(keys - {m});
      SortedKeysMembers(keys - {m});
      var r := [m] + rest;
      forall i, j | 0 <= i < j < |r|
        ensures r[i] < r[j]
      {
        assert r[j] == rest[j - 1] && rest[j - 1] in keys - {m};
        assert r[j] in keys && r[j] != m;
        if i > 0 {
          assert r[i] == rest[i - 1];
          assert rest[i - 1] < rest[j - 1];
        } else {
          assert r[i] == m;
          assert m <= r[j];
        }
      }
    }
  }

  /** Any least element is the one SortedKeys puts first. */
  lemma SortedKeysFirst(keys: set<int>, k: int)
    requires k in keys && forall j :: j in keys ==> k <= j
    ensures SortedKeys(keys) == [k] + SortedKeys(keys - {k})
  {
    assert MinKey(keys) == k;
  }

  /** The batch asking for the 256 headers (fewer near genesis) that end at a parked
      batch's missing parent. */
  /** A reorg batch ends exactly at its key, asks for at most 256 headers and never starts
      below genesis; it is an unanswered reorg batch demanding more than `totalDifficulty`. */
  function ReorgBatch(id: BatchId, key: int, totalDifficulty: nat): (r: BlockSyncBatch)
    ensures r.headersSyncBatch.Some?
    ensures var headers := r.headersSyncBatch.value;
            && EndNumber(headers) == key
            && headers.requestSize <= RequestSize
            && headers.startNumber >= 0
            && (key >= 0 ==> headers.requestSize >= 1)
            && headers.response.None?
    ensures r.id == id && r.isReorgBatch && r.assignedPeer.None? && r.minTotalDifficulty == Some(totalDifficulty + 1)
  {
    BlockSyncBatch(id, Some(HeadersSyncBatch(Max(0, key - RequestSize + 1), Min(key + 1, RequestSize), None)),
                   None, true, Some(totalDifficulty + 1))
  }

  /** The reorg batches for `keys`, in order, numbered from `firstId`. */
  function ReorgBatches(firstId: BatchId, keys: seq<int>, totalDifficulty: nat): (r: seq<BlockSyncBatch>)
    ensures |r| == |keys|
    decreases |keys|
  {
    if keys == [] then []
    else ReorgBatches(firstId, keys[..|keys| - 1], totalDifficulty)
         + [ReorgBatch(firstId + |keys| - 1, keys[|keys| - 1], totalDifficulty)]
  }

  /** The i-th reorg batch is for the i-th key and has the i-th id. */
  lemma {:induction false} ReorgBatchesElements(firstId: BatchId, keys: seq<int>, totalDifficulty: nat)
    ensures forall i :: 0 <= i < |keys| ==>
              ReorgBatches(firstId, keys, totalDifficulty)[i] == ReorgBatch(firstId + i, keys[i], totalDifficulty)
    decreases |keys|
  {
    if keys != [] {
      var init := keys[..|keys| - 1];
      ReorgBatchesElements(firstId, init, totalDifficulty);
      assert forall i :: 0 <= i < |init| ==> init[i] == keys[i];
    }
  }

  /** Queues one reorg batch per key, in the order given, with fresh ids. */
  function EnqueueReorgBatches(s: FeedState, keys: seq<int>, totalDifficulty: nat): FeedState {
    s.(pendingBatches := s.pendingBatches + ReorgBatches(s.nextBatchId, keys, totalDifficulty),
       nextBatchId := s.nextBatchId + |keys|)
  }

  /** The feed state after PrepareRequest and the batch it returns (None for null). */
  datatype Prepared = Prepared(state: FeedState, batch: Option<BlockSyncBatch>)

  /** TryDequeue on a non-empty queue: the head is returned and the rest stays queued. */
  function Dequeue(s: FeedState): (r: Prepared)
    requires |s.pendingBatches| > 0
    ensures r.batch.Some? && [r.batch.value] + r.state.pendingBatches == s.pendingBatches
    ensures r.state == s.(pendingBatches := r.state.pendingBatches)
  {
    assert [s.pendingBatches[0]] + s.pendingBatches[1..] == s.pendingBatches;
    Prepared(s.(pendingBatches := s.pendingBatches[1..]), Some(s.pendingBatches[0]))
  }

  /** The queue is first in, first out: a batch queued behind others comes out after them,
      and into an empty queue it comes straight out again. */
  lemma QueueIsFifo(s: FeedState, batch: BlockSyncBatch)
    ensures |s.pendingBatches| == 0 ==> Dequeue(Enqueue(s, batch)) == Prepared(s, Some(batch))
    ensures |s.pendingBatches| > 0 ==>
              Dequeue(Enqueue(s, batch)) == Prepared(Enqueue(Dequeue(s).state, batch), Dequeue(s).batch)
  {
    if |s.pendingBatches| > 0 {
      assert (s.pendingBatches + [batch])[1..] == s.pendingBatches[1..] + [batch];
    }
  }

  /** The batch sent when nothing is queued: from the best requested header (from 255
      below the target on a reorg) up to the target, at most RequestSize headers. */
  function NewBatch(s: FeedState, start: int, target: int, isReorg: bool): (r: Prepared)
    ensures r.batch.Some? && r.state.sentBatches == s.sentBatches + {r.batch.value.id}
    ensures r.state.bestRequestedHeader >= s.bestRequestedHeader
  {
    var size := if 1 + target - start < RequestSize then 1 + target - start else RequestSize;
    var headers := HeadersSyncBatch(start, size, None);
    var td := s.totalDifficultyOfBestHeaderProvider;
    var batch := BlockSyncBatch(s.nextBatchId, Some(headers), None, isReorg, if isReorg then Some(td + 1) else None);
    Prepared(s.(bestRequestedHeader := Max(EndNumber(headers), s.bestRequestedHeader),
                sentBatches := s.sentBatches + {batch.id},
                nextBatchId := s.nextBatchId + 1),
             Some(batch))
  }

  /** The part of PrepareRequest after the idle checks: on a reorg, one reorg batch per
      parked key is queued; then a queued batch is returned, or a new one sent. */
  ghost function IssueF(t: BlockTreeOracle, s: FeedState, peers: seq<PeerInfo>, threshold: int): (r: Prepared)
    requires |peers| > 0
    ensures r.batch.Some?
    ensures r.state.bestRequestedHeader >= s.bestRequestedHeader
    ensures r.state.totalDifficultyOfBestHeaderProvider == s.totalDifficultyOfBestHeaderProvider
    ensures r.state.headerDependencies == s.headerDependencies
    ensures r.state.reports == s.reports && r.state.offered == s.offered
    ensures r.state.sentBatches == s.sentBatches || r.state.sentBatches == s.sentBatches + {r.batch.value.id}
  {
    var isReorg := IsReorg(t, s, peers, threshold);
    var target := Target(peers, threshold);
    var keys := SortedKeys(s.headerDependencies.Keys);
    var s1 := if isReorg then EnqueueReorgBatches(s, keys, s.totalDifficultyOfBestHeaderProvider) else s;
    if |s1.pendingBatches| > 0 then Dequeue(s1)
    else NewBatch(s1, if isReorg then target - RequestSize + 1 else s.bestRequestedHeader, target, isReorg)
  }

  /** PrepareRequest: idle when no peer is ahead of the best suggested header; else a queued
      batch; else idle when caught up; else a batch is issued. */
  ghost function PrepareF(t: BlockTreeOracle, s: FeedState, peers: seq<PeerInfo>, threshold: int): (r: Prepared)
    requires |peers| > 0
    ensures r.state.bestRequestedHeader >= s.bestRequestedHeader
    ensures r.state.totalDifficultyOfBestHeaderProvider == s.totalDifficultyOfBestHeaderProvider
    ensures r.state.headerDependencies == s.headerDependencies
    ensures r.state.reports == s.reports && r.state.offered == s.offered
    ensures r.state.sentBatches == s.sentBatches
            || (r.batch.Some? && r.state.sentBatches == s.sentBatches + {r.batch.value.id})
    ensures r.batch.None? ==> r.state == s
  {
    var maxDifficulty := MaxTotalDifficulty(peers);
    if maxDifficulty <= BestTotalDifficulty(t, s) then Prepared(s, None)
    else if |s.pendingBatches| > 0 then Dequeue(s)
    else if Target(peers, threshold) <= s.bestRequestedHeader && |s.pendingBatches| == 0
            && maxDifficulty <= s.totalDifficultyOfBestHeaderProvider
    then Prepared(s, None)
    else IssueF(t, s, peers, threshold)
  }

  /** PrepareRequest returns null exactly when no peer is ahead of the best suggested
      header, or nothing is queued, the target is already requested and no peer has more
      difficulty than the best header provider; returning null changes nothing. */
  lemma PrepareIdle(t: BlockTreeOracle, s: FeedState, peers: seq<PeerInfo>, threshold: int)
    requires |peers| > 0
    ensures var r := PrepareF(t, s, peers, threshold);
            r.batch.None?
            <==> (forall p :: p in peers ==> p.totalDifficulty <= BestTotalDifficulty(t, s))
                 || (&& |s.pendingBatches| == 0
                     && Target(peers, threshold) <= s.bestRequestedHeader
                     && forall p :: p in peers ==> p.totalDifficulty <= s.totalDifficultyOfBestHeaderProvider)
  {
  }

  /** When some peer is ahead and a batch is queued, the head of the queue is returned and
      nothing else changes. */
  lemma PrepareDequeues(t: BlockTreeOracle, s: FeedState, peers: seq<PeerInfo>, threshold: int)
    requires |peers| > 0
    requires exists p :: p in peers && p.totalDifficulty > BestTotalDifficulty(t, s)
    requires |s.pendingBatches| > 0
    ensures PrepareF(t, s, peers, threshold)
         == Prepared(s.(pendingBatches := s.pendingBatches[1..]), Some(s.pendingBatches[0]))
  {
  }

  /** Not idle, nothing queued, and no reorg (or a reorg with nothing parked): a new batch
      is sent, starting at the best requested header (or 255 below the target on a reorg)
      and running to the target, at most 256 headers; the best requested header moves to
      the batch's end when that is further. */
  lemma PrepareNewBatch(t: BlockTreeOracle, s: FeedState, peers: seq<PeerInfo>, threshold: int)
    requires |peers| > 0
    requires PrepareF(t, s, peers, threshold).batch.Some? && |s.pendingBatches| == 0
    requires !IsReorg(t, s, peers, threshold) || s.headerDependencies == map[]
    ensures var r := PrepareF(t, s, peers, threshold);
            var batch := r.batch.value;
            var headers := batch.headersSyncBatch.value;
            var isReorg := IsReorg(t, s, peers, threshold);
            && batch.id == s.nextBatchId
            && headers.startNumber
               == (if isReorg then Target(peers, threshold) - RequestSize + 1 else s.bestRequestedHeader)
            && headers.requestSize == Min(RequestSize, 1 + Target(peers, threshold) - headers.startNumber)
            && headers.response.None? && batch.assignedPeer.None?
            && batch.isReorgBatch == isReorg
            && batch.minTotalDifficulty == (if isReorg then Some(s.totalDifficultyOfBestHeaderProvider + 1) else None)
            && (headers.requestSize > 0 ==> EndNumber(headers) <= Target(peers, threshold))
            && (1 + Target(peers, threshold) - headers.startNumber <= RequestSize ==> EndNumber(headers) == Target(peers, threshold))
            && r.state.bestRequestedHeader == Max(EndNumber(headers), s.bestRequestedHeader)
            && r.state.sentBatches == s.sentBatches + {batch.id}
            && r.state.pendingBatches == []
  {
    assert PrepareF(t, s, peers, threshold) == IssueF(t, s, peers, threshold);
    if IsReorg(t, s, peers, threshold) {
      assert SortedKeys(s.headerDependencies.Keys) == [];
    }
  }

  /** On a reorg with parked batches, one reorg batch per parked key is made, in ascending
      key order; the first is returned and the rest are queued. Nothing is sent. */
  lemma PrepareReorgBatches(t: BlockTreeOracle, s: FeedState, peers: seq<PeerInfo>, threshold: int)
    requires |peers| > 0
    requires exists p :: p in peers && p.totalDifficulty > BestTotalDifficulty(t, s)
    requires |s.pendingBatches| == 0 && IsReorg(t, s, peers, threshold) && s.headerDependencies != map[]
    ensures var r := PrepareF(t, s, peers, threshold);
            var keys := SortedKeys(s.headerDependencies.Keys);
            var td := s.totalDifficultyOfBestHeaderProvider;
            var batches := ReorgBatches(s.nextBatchId, keys, td);
            && |keys| > 0
            && r.batch == Some(batches[0])
            && r.state.pendingBatches == batches[1..]
            && r.state.sentBatches == s.sentBatches
            && r.state.bestRequestedHeader == s.bestRequestedHeader
            && r.state.nextBatchId == s.nextBatchId + |keys|
  {
    var keys := SortedKeys(s.headerDependencies.Keys);
    var td := s.totalDifficultyOfBestHeaderProvider;
    var s1 := EnqueueReorgBatches(s, keys, td);
    assert |keys| > 0 by {
      assert s.headerDependencies.Keys != {} by {
        var k :| k in s.headerDependencies;
        assert k in s.headerDependencies.Keys;
      }
    }
    assert PrepareF(t, s, peers, threshold) == IssueF(t, s, peers, threshold) by {
      assert MaxTotalDifficulty(peers) > BestTotalDifficulty(t, s);
    }
    assert IssueF(t, s, peers, threshold) == Dequeue(s1);
  }
}
