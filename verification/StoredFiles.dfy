/** Over whole runs: stored files stay verified, and exactly when a chunk endangers that. */
module StoredFiles {
  import opened Bytes
  import opened Transfers
  import opened TransferInvariants

  lemma {:induction false} RunKeepsInv(s: State, events: seq<Event>, sha256: Data -> Digest)
    requires Inv(s) && FreshPaths(s, events, sha256)
    ensures Inv(Run(s, events, sha256))
    decreases |events|
  {
    if events != [] {
      StepKeepsInv(s, events[0], sha256);
      RunKeepsInv(Step(s, events[0], sha256).0, events[1..], sha256);
    }
  }

  /** The bytes an accepted chunk leaves in its file. */
  function After(s: State, id: nat, index: int, data: Data): Data
    requires Joined(s, id) && FileOf(s, id).path in s.disk && index * FileOf(s, id).chunkSize >= 0
  {
    WriteAt(s.disk[FileOf(s, id).path], index * FileOf(s, id).chunkSize, data)
  }

  /** The entry a chunk is handled with is about the file of its transfer. */
  lemma EntryMatches(s: State, id: nat, now: int)
    requires Inv(s) && Accepts(s, id)
    ensures Joined(s, id) && s.transfers[id].status != Completed && FileOf(s, id).path in s.disk
    ensures Entry(s, id, now).path == FileOf(s, id).path && Entry(s, id, now).chunkSize == FileOf(s, id).chunkSize
  {
    assert id in s.progress ==> Coherent(s.transfers[id], FileOf(s, id), s.progress[id]);
  }

  /** An accepted chunk touches the bytes of one file and the counters of one transfer. */
  lemma ChunkEffect(s: State, id: nat, index: int, data: Data, now: int)
    requires Inv(s) && Accepts(s, id)
    ensures Joined(s, id) && s.transfers[id].status != Completed && FileOf(s, id).path in s.disk
    ensures var after := UploadChunk(s, id, index, data, now).0;
            && after.files == s.files
            && after.disk == if index * FileOf(s, id).chunkSize < 0 then s.disk
                             else s.disk[FileOf(s, id).path := After(s, id, index, data)]
  {
    EntryMatches(s, id, now);
    hide Inv;
  }

  lemma ChunkKeepsVerified(s: State, id: nat, index: int, data: Data, now: int, sha256: Data -> Digest)
    requires Inv(s) && Verified(s, sha256)
    requires id in s.transfers ==> s.transfers[id].direction == Upload
    ensures Inv(UploadChunk(s, id, index, data, now).0)
    ensures Verified(UploadChunk(s, id, index, data, now).0, sha256)
  {
    ChunkKeeps(s, id, index, data, now);
    if Accepts(s, id) {
      ChunkEffect(s, id, index, data, now);
      assert Settled(s.transfers[id], FileOf(s, id));
    }
  }

  lemma FinishKeepsVerified(s: State, id: nat, sha256: Data -> Digest)
    requires Inv(s) && Verified(s, sha256)
    ensures Inv(UploadFinish(s, id, sha256).0)
    ensures Verified(UploadFinish(s, id, sha256).0, sha256)
  {
    FinishKeeps(s, id, sha256);
    hide Inv, Coherent, Cached, Owned;
  }

  lemma StepKeepsVerified(s: State, e: Event, sha256: Data -> Digest)
    requires Inv(s) && Verified(s, sha256) && FreshPath(s, e) && UploadsOnly(s, e)
    ensures Inv(Step(s, e, sha256).0)
    ensures Verified(Step(s, e, sha256).0, sha256)
  {
    hide Cached, Owned, UploadChunk, UploadFinish;
    StepKeepsInv(s, e, sha256);
    match e
    case Chunk(id, index, data, now) => ChunkKeepsVerified(s, id, index, data, now, sha256);
    case Finish(id) => FinishKeepsVerified(s, id, sha256);
    case _ =>
  }

  /** No chunk of the run names a transfer that was opened for a download. */
  predicate UploadRun(s: State, events: seq<Event>, sha256: Data -> Digest)
    decreases |events|
  {
    events == [] ||
    (&& FreshPath(s, events[0]) && UploadsOnly(s, events[0])
     && UploadRun(Step(s, events[0], sha256).0, events[1..], sha256))
  }

  lemma {:induction false} StoredFilesStayVerified(s: State, events: seq<Event>, sha256: Data -> Digest)
    requires Inv(s) && Verified(s, sha256) && UploadRun(s, events, sha256)
    ensures Inv(Run(s, events, sha256))
    ensures Verified(Run(s, events, sha256), sha256)
    decreases |events|
  {
    if events != [] {
      StepKeepsVerified(s, events[0], sha256);
      StoredFilesStayVerified(Step(s, events[0], sha256).0, events[1..], sha256);
    }
  }

  ghost predicate CollisionFree(sha256: Data -> Digest) {
    forall a, b :: sha256(a) == sha256(b) ==> a == b
  }

  /** A chunk the server takes for a file that is already available. */
  predicate RewritesAvailable(s: State, id: nat, index: int, data: Data)
    requires Inv(s)
  {
    && Accepts(s, id) && FileOf(s, id).status == Available
    && index * FileOf(s, id).chunkSize >= 0
    && After(s, id, index, data) != s.disk[FileOf(s, id).path]
  }

  /** Without a hash collision, a chunk breaks the promise exactly when it changes an available file. */
  lemma ChunkKeepsVerifiedIff(s: State, id: nat, index: int, data: Data, now: int, sha256: Data -> Digest)
    requires Inv(s) && Verified(s, sha256) && CollisionFree(sha256)
    ensures Inv(UploadChunk(s, id, index, data, now).0)
    ensures Verified(UploadChunk(s, id, index, data, now).0, sha256) <==> !RewritesAvailable(s, id, index, data)
  {
    ChunkKeeps(s, id, index, data, now);
    if Accepts(s, id) {
      ChunkEffect(s, id, index, data, now);
      var after := UploadChunk(s, id, index, data, now).0;
      var f := s.transfers[id].fileId;
      if RewritesAvailable(s, id, index, data) {
        assert sha256(after.disk[after.files[f].path]) != after.files[f].checksum;
      }
    }
  }

  /** Such a chunk can only name a download. */
  lemma RewriteNamesDownload(s: State, id: nat, index: int, data: Data)
    requires Inv(s) && RewritesAvailable(s, id, index, data)
    ensures s.transfers[id].direction == Download
  {
    assert Settled(s.transfers[id], FileOf(s, id));
  }

  /** One byte uploaded, published and fetched again. */
  function FetchRun(sha256: Data -> Digest): seq<Event> {
    [Init(Offer(1, "", "a", 1, 1, 1, sha256([1])), 7, "p", 0), Chunk(1, 0, [1], 0), Finish(1), Fetch(1, 7, 0)]
  }

  function AfterFetch(digest: Digest): State {
    State(map["p" := [1]],
          map[1 := FileRow("p", digest, 1, 1, Available, 1, 7, 1)],
          map[1 := TransferRow(1, 1, 7, Upload, Completed, 1, 1, 1, 0),
              2 := TransferRow(1, 1, 7, Download, InProgress, 1, 0, 0, 0)],
          map[], 2, 3)
  }

  lemma RunUnfolds(s: State, run: seq<Event>, k: nat, sha256: Data -> Digest)
    requires k < |run|
    ensures Run(s, run[k..], sha256) == Run(Step(s, run[k], sha256).0, run[k + 1..], sha256)
  {
    assert run[k..][1..] == run[k + 1..];
  }

  lemma FetchRunEnds(sha256: Data -> Digest)
    requires sha256([1]) != ""
    ensures Run(EMPTY, FetchRun(sha256), sha256) == AfterFetch(sha256([1]))
  {
    var run := FetchRun(sha256);
    var s1 := Step(EMPTY, run[0], sha256).0;
    var s2 := Step(s1, run[1], sha256).0;
    var s3 := Step(s2, run[2], sha256).0;
    RunUnfolds(EMPTY, run, 0, sha256);
    RunUnfolds(s1, run, 1, sha256);
    RunUnfolds(s2, run, 2, sha256);
    RunUnfolds(s3, run, 3, sha256);
    assert run[0..] == run && run[4..] == [];
    assert s2.disk["p"] == [1];
    assert Step(s3, run[3], sha256).0 == AfterFetch(sha256([1]));
  }

  lemma AfterFetchSound(sha256: Data -> Digest)
    ensures Inv(AfterFetch(sha256([1]))) && Verified(AfterFetch(sha256([1])), sha256)
  {}

  /** A chunk sent under the identifier of that fetch breaks the promise the run had kept so far. */
  lemma DownloadChunkRewrites(sha256: Data -> Digest)
    requires CollisionFree(sha256) && sha256([1]) != ""
    ensures var s := Run(EMPTY, FetchRun(sha256), sha256);
            && Inv(s) && Verified(s, sha256)
            && Linked(UploadChunk(s, 2, 0, [2], 0).0) && !Verified(UploadChunk(s, 2, 0, [2], 0).0, sha256)
  {
    FetchRunEnds(sha256);
    AfterFetchSound(sha256);
    hide Inv;
    var s := AfterFetch(sha256([1]));
    assert RewritesAvailable(s, 2, 0, [2]) by {
      assert After(s, 2, 0, [2])[0] == 2;
    }
    ChunkKeepsVerifiedIff(s, 2, 0, [2], 0, sha256);
  }
}
