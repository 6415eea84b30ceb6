/** What the counters and the disk of a followed upload say about each other, and what a client
    that trusts the counter may rely on. */
module UploadTheorems {
  import opened Wrappers
  import opened Bytes
  import opened Reassembly
  import opened Transfers
  import opened TransferInvariants
  import opened StoredFiles
  import opened UploadRuns

  /** The offer the bridge makes for `job`. */
  predicate Offers(offer: Offer, job: Job, sha256: Data -> Digest) {
    && job.Proper() && offer.Complete()
    && offer.filesize == |job.source| <= MAX_FILE_SIZE
    && offer.chunkSize == job.size && offer.totalChunks == job.Total() && offer.checksum == sha256(job.source)
  }

  lemma InitStartsTracking(s: State, job: Job, offer: Offer, path: Path, now: int, sha256: Data -> Digest)
    requires Inv(s) && path !in s.disk && Offers(offer, job, sha256) && job.id == s.nextTransfer
    ensures var (after, reply) := UploadInit(s, offer, job.userId, path, now);
            && reply == UploadReady(job.id, 0)
            && Inv(after) && Tracks(after, job, []) && Announced(after, job, sha256)
  {
    InitKeeps(s, Init(offer, job.userId, path, now), sha256);
    hide Inv;
    FreshlyTracked(s, job, offer, path, now, sha256);
  }

  lemma FreshlyTracked(s: State, job: Job, offer: Offer, path: Path, now: int, sha256: Data -> Digest)
    requires Inv(s) && path !in s.disk && Offers(offer, job, sha256) && job.id == s.nextTransfer
    ensures var after := UploadInit(s, offer, job.userId, path, now).0;
            Tracks(after, job, []) && Announced(after, job, sha256)
  {
    hide Owned;
  }

  ghost predicate Announced(s: State, job: Job, sha256: Data -> Digest) {
    && Running(s, job)
    && FileOf(s, job.id).checksum == sha256(job.source) && FileOf(s, job.id).totalChunks == job.Total()
  }

  predicate Covers(job: Job, sent: seq<nat>)
    requires job.Proper()
  {
    Below(job.Total()) <= Indices(sent)
  }

  lemma CoveredIsSource(s: State, job: Job, sent: seq<nat>)
    requires Tracks(s, job, sent)
    ensures Stored(s, job) == job.source <==> Suffices(job.source, job.size, Indices(sent))
    ensures Covers(job, sent) ==> Stored(s, job) == job.source
  {
    ImageIsSource(Stored(s, job), job.source, job.size, Indices(sent));
    LastChunkEnds(|job.source|, job.size);
  }

  /** Any order, any repeats, anything else in between: once every index was acknowledged, the
      finish request succeeds and publishes exactly the source. */
  lemma CoveredUploadSucceeds(s: State, job: Job, sent: seq<nat>, sha256: Data -> Digest)
    requires Inv(s) && Tracks(s, job, sent) && Announced(s, job, sha256)
    requires Covers(job, sent)
    ensures var (after, reply) := UploadFinish(s, job.id, sha256);
            && reply == UploadSuccess(job.id)
            && Inv(after)
            && FileOf(after, job.id).status == Available
            && after.disk[FileOf(after, job.id).path] == job.source
            && job.id !in after.progress
  {
    CoveredIsSource(s, job, sent);
    FinishKeeps(s, job.id, sha256);
  }

  /** Without a hash collision the request succeeds exactly when nothing that matters is missing. */
  lemma FinishSucceedsIff(s: State, job: Job, sent: seq<nat>, sha256: Data -> Digest)
    requires Inv(s) && Tracks(s, job, sent) && Announced(s, job, sha256) && CollisionFree(sha256)
    ensures UploadFinish(s, job.id, sha256).1 ==
            if Suffices(job.source, job.size, Indices(sent)) then UploadSuccess(job.id) else Error(ChecksumFailed)
  {
    CoveredIsSource(s, job, sent);
  }

  /** A refused finish request leaves the upload where it was, to be resumed and finished later. */
  lemma RefusedFinishTracks(s: State, job: Job, sent: seq<nat>, sha256: Data -> Digest)
    requires Inv(s) && Tracks(s, job, sent) && Announced(s, job, sha256)
    requires !Suffices(job.source, job.size, Indices(sent)) && CollisionFree(sha256)
    ensures var (after, reply) := UploadFinish(s, job.id, sha256);
            && reply == Error(ChecksumFailed)
            && Inv(after) && Tracks(after, job, sent) && Announced(after, job, sha256)
  {
    FinishSucceedsIff(s, job, sent, sha256);
    HappenTracks(s, job, sent, Elsewhere(Finish(job.id)), sha256);
  }

  /** The counter is the size of the written set exactly when no chunk was acknowledged twice. */
  lemma CounterIsWrittenSet(s: State, job: Job, sent: seq<nat>)
    requires Tracks(s, job, sent)
    ensures Counted(s, job.id) == |Indices(sent)| <==> Distinct(sent)
    ensures Distinct(sent) ==> Counted(s, job.id) <= job.Total()
    ensures Distinct(sent) ==> (Counted(s, job.id) == job.Total() <==> Covers(job, sent))
  {
    DistinctSize(sent);
    IndicesInFile(sent, job);
    FullSet(Indices(sent), job.Total());
  }

  lemma IndicesInFile(sent: seq<nat>, job: Job)
    requires job.Proper() && InFile(sent, |job.source|, job.size)
    ensures Indices(sent) <= Below(job.Total())
  {
    forall i | i in Indices(sent)
      ensures i in Below(job.Total())
    {
      var k :| 0 <= k < |sent| && sent[k] == i;
    }
  }

  /** What a client is told when it asks to go on with its upload. */
  lemma ResumeTellsCount(s: State, job: Job, sent: seq<nat>, start: int)
    requires Inv(s) && Tracks(s, job, sent)
    ensures ResumeTransfer(s, job.id, Some(job.userId), Some(Upload), start).1 ==
            if s.transfers[job.id].status == InProgress then UploadReady(job.id, |sent|) else Error(InvalidPacket)
  {
    FlushKeeps(s, job.id);
    var flushed := Flush(s, job.id);
    if job.id in s.progress {
      assert Coherent(flushed.transfers[job.id], FileOf(flushed, job.id), flushed.progress[job.id]);
    }
  }

  ghost predicate NoZeroChunk(job: Job)
    requires job.Proper()
  {
    forall i :: 0 <= i < job.Total() ==> !AllZero(job.Chunk(i))
  }

  /** A client that sends everything from chunk `from` on loses nothing: what it leaves out was
      `written` or is all zeros, and the file is written to its end. */
  ghost predicate SkipsNothing(job: Job, from: nat, written: seq<nat>)
    requires job.Proper()
  {
    && (forall i :: 0 <= i < Min(from, job.Total()) && i !in written ==> AllZero(job.Chunk(i)))
    && (job.Total() <= from ==> job.Total() - 1 in written)
  }

  /** Once everything from `from` on is there, in whatever order and however often it was sent. */
  lemma CompleteIff(s: State, job: Job, from: nat, sent: seq<nat>)
    requires Tracks(s, job, sent) && Below(job.Total()) - Below(from) <= Indices(sent)
    ensures Stored(s, job) == job.source <==> SkipsNothing(job, from, sent)
  {
    var total := job.Total();
    CoveredIsSource(s, job, sent);
    LastChunkEnds(|job.source|, job.size);
    assert forall i :: from <= i < total ==> i in Below(total) - Below(from);
    assert from < total ==> total - 1 in Below(total) - Below(from);
  }

  /** Uploading in parallel and then resuming at the counter, in any order and with repeats: the file
      is complete exactly when the resume skipped nothing. For a source without a chunk of zeros that
      is when the chunks below the counter, or all of them, had been written. */
  lemma ResumeCompletesIff(end: State, job: Job, before: seq<nat>, more: seq<nat>)
    requires Tracks(end, job, before + more)
    requires Indices(more) == Below(job.Total()) - Below(|before|)
    ensures Stored(end, job) == job.source <==> SkipsNothing(job, |before|, before)
    ensures NoZeroChunk(job) ==>
              (Stored(end, job) == job.source <==> Below(Min(|before|, job.Total())) <= Indices(before))
    ensures NoZeroChunk(job) && |before| <= job.Total() ==>
              (Stored(end, job) == job.source <==> Indices(before) == Below(|before|))
  {
    assert job.Proper();
    hide Tracks, Suffices, SkipsNothing;
    var wanted := Below(job.Total()) - Below(|before|);
    hide Below;
    assert forall i <- wanted :: i in before + more by {
      assert forall i <- wanted :: i in Indices(more);
    }
    CompleteIff(end, job, |before|, before + more);
    assert forall i <- more :: |before| <= i by {
      SentAbove(job, |before|, more);
    }
    SkipsSame(job, |before|, before, more);
    GapFree(job, before);
  }

  lemma SentAbove(job: Job, from: nat, more: seq<nat>)
    requires job.Proper() && Indices(more) == Below(job.Total()) - Below(from)
    ensures forall i <- more :: from <= i
  {
    forall i | i in more
      ensures from <= i
    {
      assert i in Indices(more);
    }
  }

  lemma GapFree(job: Job, before: seq<nat>)
    requires job.Proper()
    ensures NoZeroChunk(job) ==>
              (SkipsNothing(job, |before|, before) <==> Below(Min(|before|, job.Total())) <= Indices(before))
    ensures NoZeroChunk(job) && |before| <= job.Total() ==>
              (SkipsNothing(job, |before|, before) <==> Indices(before) == Below(|before|))
  {
    if NoZeroChunk(job) {
      NoGapMeans(job, |before|, before);
      Pigeonhole(before);
    }
  }

  lemma SkipsSame(job: Job, from: nat, before: seq<nat>, more: seq<nat>)
    requires job.Proper() && forall i <- more :: from <= i
    ensures SkipsNothing(job, from, before + more) <==> SkipsNothing(job, from, before)
  {
    assert forall i: nat :: i < from ==> (i in before + more <==> i in before);
  }

  lemma NoGapMeans(job: Job, from: nat, written: seq<nat>)
    requires job.Proper() && NoZeroChunk(job)
    ensures SkipsNothing(job, from, written) <==> Below(Min(from, job.Total())) <= Indices(written)
  {
    LastChunkEnds(|job.source|, job.size);
    hide ChunkCount, Slice;
    var low := Below(Min(from, job.Total()));
    if low <= Indices(written) {
      forall i | 0 <= i < Min(from, job.Total())
        ensures i in written
      {
        assert i in low;
      }
    } else {
      var i :| i in low && i !in Indices(written);
      assert !AllZero(job.Chunk(i));
    }
  }

  lemma Pigeonhole(before: seq<nat>)
    ensures Below(|before|) <= Indices(before) <==> Indices(before) == Below(|before|)
  {
    DistinctSize(before);
    BelowSize(|before|);
    if Below(|before|) <= Indices(before) {
      Subset(Below(|before|), Indices(before));
    }
  }

  /** What the server does with a four-chunk upload whose second chunk never arrives. */
  function GapRun(job: Job, now: int): seq<Happening> {
    [Deliver(0, now), Deliver(2, now), Deliver(3, now), Elsewhere(Cleanup),
     Elsewhere(Resume(job.id, Some(job.userId), Some(Upload), 0)), Deliver(3, now)]
  }

  ghost predicate Loaded(s: State, job: Job, sent: seq<nat>) {
    Inv(s) && Tracks(s, job, sent) && job.id in s.progress
  }

  lemma AcceptedIsAcked(s: State, id: nat, index: int, data: Data, now: int)
    requires Accepts(s, id) && index * Entry(s, id, now).chunkSize >= 0
    ensures var (after, reply) := UploadChunk(s, id, index, data, now); reply.ChunkAck? && id in after.progress
  {}

  lemma JobChunkIsAcked(s: State, job: Job, index: nat, now: int)
    requires Inv(s) && Running(s, job) && Accepts(s, job.id)
    ensures var (after, reply) := UploadChunk(s, job.id, index, job.Chunk(index), now);
            reply.ChunkAck? && job.id in after.progress
  {
    EntryMatches(s, job.id, now);
    hide Inv, UploadChunk;
    AcceptedIsAcked(s, job.id, index, job.Chunk(index), now);
  }

  lemma DeliverIsAcked(s: State, job: Job, sent: seq<nat>, index: nat, more: seq<nat>, now: int, sha256: Data -> Digest)
    returns (after: State)
    requires Inv(s) && Tracks(s, job, sent) && index < job.Total() && Accepts(s, job.id)
    requires more == sent + [index]
    ensures Loaded(after, job, more)
    ensures Happen(s, job, sent, Deliver(index, now), sha256) == (after, more)
  {
    assert Running(s, job);
    hide UploadChunk, Inv, Tracks, Accepts, Running;
    HappenTracks(s, job, sent, Deliver(index, now), sha256);
    JobChunkIsAcked(s, job, index, now);
    after := Happen(s, job, sent, Deliver(index, now), sha256).0;
  }

  /** Dropping connections and asking to resume leave the entry in the cache. */
  lemma EntrySurvives(s: State, job: Job, sent: seq<nat>, e: Event, sha256: Data -> Digest) returns (after: State)
    requires Loaded(s, job, sent) && (e.Cleanup? || e.Resume?)
    ensures Loaded(after, job, sent)
    ensures Happen(s, job, sent, Elsewhere(e), sha256) == (after, sent)
  {
    hide Inv, IsImage;
    after := Step(s, e, sha256).0;
    HappenTracks(s, job, sent, Elsewhere(e), sha256);
  }

  lemma FollowUnfolds(s: State, job: Job, sent: seq<nat>, run: seq<Happening>, k: nat, sha256: Data -> Digest)
    requires job.Proper() && k < |run|
    ensures var (after, more) := Happen(s, job, sent, run[k], sha256);
            Follow(s, job, sent, run[k..], sha256) == Follow(after, job, more, run[k + 1..], sha256)
  {
    assert run[k..][1..] == run[k + 1..];
  }

  /** The resume request answers 3, so the client sends chunk 3 again and chunk 1 stays missing,
      although the counter now equals the number of chunks. */
  lemma GapSurvivesResume(s: State, job: Job, now: int, sha256: Data -> Digest) returns (end: State)
    requires Inv(s) && Tracks(s, job, []) && s.transfers[job.id].status == InProgress
    requires job.Total() == 4 && NoZeroChunk(job)
    ensures Follow(s, job, [], GapRun(job, now), sha256) == (end, [0, 2, 3, 3])
    ensures Loaded(end, job, [0, 2, 3, 3])
    ensures Counted(end, job.id) == job.Total() && Stored(end, job) != job.source
  {
    hide Inv, Happen, Follow, IsImage;
    var run := GapRun(job, now);
    var s1 := DeliverIsAcked(s, job, [], 0, [0], now, sha256);
    var s2 := DeliverIsAcked(s1, job, [0], 2, [0, 2], now, sha256);
    var s3 := DeliverIsAcked(s2, job, [0, 2], 3, [0, 2, 3], now, sha256);
    var s4 := EntrySurvives(s3, job, [0, 2, 3], Cleanup, sha256);
    var s5 := EntrySurvives(s4, job, [0, 2, 3], run[4].event, sha256);
    end := DeliverIsAcked(s5, job, [0, 2, 3], 3, [0, 2, 3, 3], now, sha256);
    GapRunFollowed(s, s1, s2, s3, s4, s5, end, job, now, sha256);
    GapLeavesHole(end, job);
  }

  lemma GapLeavesHole(end: State, job: Job)
    requires job.Proper() && job.Total() == 4 && NoZeroChunk(job)
    requires Tracks(end, job, [0, 2, 3, 3])
    ensures Stored(end, job) != job.source
  {
    assert [0, 2, 3] + [3] == [0, 2, 3, 3];
    assert Indices([3]) == Below(4) - Below(3);
    assert 1 in Below(3) && 1 !in Indices([0, 2, 3]);
    ResumeCompletesIff(end, job, [0, 2, 3], [3]);
  }

  lemma GapRunFollowed(s0: State, s1: State, s2: State, s3: State, s4: State, s5: State, end: State,
                       job: Job, now: int, sha256: Data -> Digest)
    requires job.Proper()
    requires Happen(s0, job, [], GapRun(job, now)[0], sha256) == (s1, [0])
    requires Happen(s1, job, [0], GapRun(job, now)[1], sha256) == (s2, [0, 2])
    requires Happen(s2, job, [0, 2], GapRun(job, now)[2], sha256) == (s3, [0, 2, 3])
    requires Happen(s3, job, [0, 2, 3], GapRun(job, now)[3], sha256) == (s4, [0, 2, 3])
    requires Happen(s4, job, [0, 2, 3], GapRun(job, now)[4], sha256) == (s5, [0, 2, 3])
    requires Happen(s5, job, [0, 2, 3], GapRun(job, now)[5], sha256) == (end, [0, 2, 3, 3])
    ensures Follow(s0, job, [], GapRun(job, now), sha256) == (end, [0, 2, 3, 3])
  {
    var run := GapRun(job, now);
    FollowUnfolds(s0, job, [], run, 0, sha256);
    FollowUnfolds(s1, job, [0], run, 1, sha256);
    FollowUnfolds(s2, job, [0, 2], run, 2, sha256);
    FollowUnfolds(s3, job, [0, 2, 3], run, 3, sha256);
    FollowUnfolds(s4, job, [0, 2, 3], run, 4, sha256);
    FollowUnfolds(s5, job, [0, 2, 3], run, 5, sha256);
    assert run[0..] == run && run[6..] == [];
  }
}
