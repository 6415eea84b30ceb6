/** From the uploading browser to the downloading one. */
module EndToEnd {
  import opened Wrappers
  import opened Bytes
  import opened Reassembly
  import opened Transfers
  import opened TransferInvariants
  import opened UploadRuns
  import opened StoredFiles
  import opened PublishedFiles
  import opened UploadTheorems
  import opened InOrderClient
  import opened Download
  import opened HttpChunked
  import opened PooledUpload
  import opened DownloadResume

  /** What a browser decodes from a download answered with `reply`, if nothing breaks. */
  function Delivered(file: Data, reply: Reply): Option<(Data, Data)>
    requires reply.DownloadReady? && reply.chunkSize > 0
  {
    Decode(Body(Bodies(Pushed(file, reply.chunkSize, reply.totalChunks, 0)), []))
  }

  /** Once the finish request of a covered upload was answered, and whatever happens to other
      uploads after that, whoever may still download the file gets the bytes that were uploaded. */
  lemma UploadThenDownload(s: State, job: Job, sent: seq<nat>, later: seq<Event>, reader: int, now: int,
                           sha256: Data -> Digest)
    requires Inv(s) && Tracks(s, job, sent) && Announced(s, job, sha256) && Covers(job, sent)
    requires UploadRun(UploadFinish(s, job.id, sha256).0, later, sha256)
    ensures var end := Run(UploadFinish(s, job.id, sha256).0, later, sha256);
            var f := s.transfers[job.id].fileId;
            && f in end.files && end.files[f].path in end.disk
            && (end.files[f].status == Available ==>
                  var reply := DownloadRequest(end, f, reader, now).1;
                  && reply.DownloadReady? && reply.chunkSize > 0
                  && Delivered(end.disk[end.files[f].path], reply) == Some((job.source, [])))
  {
    PublishedIsIntact(s, job, sent, later, sha256);
    assert job.size > 0;
    hide UploadFinish, Run, Inv, Tracks, Announced, Covers;
    WholePushDecodes(job.source, job.size);
  }

  /** The file after a covered upload and whatever else: as it was announced, and intact. */
  lemma PublishedIsIntact(s: State, job: Job, sent: seq<nat>, later: seq<Event>, sha256: Data -> Digest)
    requires Inv(s) && Tracks(s, job, sent) && Announced(s, job, sha256) && Covers(job, sent)
    requires UploadRun(UploadFinish(s, job.id, sha256).0, later, sha256)
    ensures var end := Run(UploadFinish(s, job.id, sha256).0, later, sha256);
            var f := s.transfers[job.id].fileId;
            && Inv(end) && Intact(end, f, sha256) && end.disk[end.files[f].path] == job.source
            && end.files[f].chunkSize == job.size && end.files[f].totalChunks == job.Total()
  {
    var published := UploadFinish(s, job.id, sha256).0;
    var f := s.transfers[job.id].fileId;
    CoveredUploadSucceeds(s, job, sent, sha256);
    FinishKeepsFileRow(s, job.id, sha256);
    AvailableIsClosed(published, f);
    PublishedBytesNeverChange(published, later, f, sha256);
    ClosedStaysClosed(published, later, f, sha256);
  }

  lemma {:induction false} ClosedStaysClosed(s: State, events: seq<Event>, f: nat, sha256: Data -> Digest)
    requires Inv(s) && Closed(s, f) && UploadRun(s, events, sha256)
    ensures Inv(Run(s, events, sha256)) && Closed(Run(s, events, sha256), f)
    decreases |events|
  {
    if events != [] {
      StepKeepsInv(s, events[0], sha256);
      StepKeepsClosed(s, events[0], f, sha256);
      ClosedStaysClosed(Step(s, events[0], sha256).0, events[1..], f, sha256);
    }
  }

  /** What a reader has who got the first `k` chunks of one push and then all of another. */
  function Received(before: seq<DownloadChunk>, k: nat, after: seq<DownloadChunk>): Data
    requires k <= |before|
  {
    Concat(Bodies(before[..k] + after))
  }

  /** `reader` fetches file `f`, gets `k` chunks, and after `later` `asker` asks to go on with that download
      at chunk `k`: an asker who is the reader, while the download lives, gets with the rest what makes
      the first chunks `source`, going by what the two replies say; anybody else is refused. */
  ghost predicate Resumes(found: State, f: nat, source: Data, reader: int, now: int, later: seq<Event>, asker: int,
                          k: nat, sha256: Data -> Digest)
  {
    var (begun, ready) := DownloadRequest(found, f, reader, now);
    var end := Run(begun, later, sha256);
    && f in found.files && found.files[f].path in found.disk && found.files[f].path in end.disk
    && ready.DownloadReady? && ready.chunkSize > 0
    && var path, reply := found.files[f].path,
         ResumeTransfer(end, ready.transferId, Some(asker), Some(Download), k).1;
       if asker == reader && Lives(later, Fetching(ready.transferId, f, reader, ready.totalChunks, now)) then
         && reply.DownloadReady? && reply.transferId == ready.transferId && reply.chunkSize > 0
         && var first := Pushed(found.disk[path], ready.chunkSize, ready.totalChunks, 0);
            var second := Pushed(end.disk[path], reply.chunkSize, reply.totalChunks, reply.startChunk);
            k <= |first| && Received(first, k, second) == source
       else
         reply == Error(InvalidPacket)
  }

  lemma FetchedThenResumed(found: State, f: nat, source: Data, size: nat, reader: int, now: int, later: seq<Event>,
                           asker: int, k: nat, sha256: Data -> Digest)
    requires Inv(found) && Intact(found, f, sha256) && found.files[f].status == Available
    requires size > 0 && found.files[f].chunkSize == size && found.files[f].totalChunks == ChunkCount(|source|, size)
    requires found.disk[found.files[f].path] == source && k <= ChunkCount(|source|, size)
    requires UploadRun(DownloadRequest(found, f, reader, now).0, later, sha256)
    ensures Resumes(found, f, source, reader, now, later, asker, k, sha256)
  {
    DownloadCanBeResumed(found, f, reader, now, later, Some(asker), Some(Download), k, sha256);
    hide Inv, DownloadRequest, Run, UploadRun, Closed, ResumeTransfer, Bodies, Concat, ChunkCount, Slice, Lives;
    BrokenThenResumed(source, size, 0, k);
  }

  /** A download that broke off after `k` chunks and was resumed there, possibly much later, of a file
      that a covered upload had published: what the two pushes bring is the uploaded file. */
  lemma UploadThenResumedDownload(
    s: State, job: Job, sent: seq<nat>, earlier: seq<Event>, reader: int, now: int, later: seq<Event>,
    asker: int, k: nat, sha256: Data -> Digest)
    requires Inv(s) && Tracks(s, job, sent) && Announced(s, job, sha256) && Covers(job, sent)
    requires UploadRun(UploadFinish(s, job.id, sha256).0, earlier, sha256) && k <= job.Total()
    requires var f := s.transfers[job.id].fileId;
             var found := Run(UploadFinish(s, job.id, sha256).0, earlier, sha256);
             && f in found.files && found.files[f].status == Available
             && UploadRun(DownloadRequest(found, f, reader, now).0, later, sha256)
    ensures var f := s.transfers[job.id].fileId;
            var found := Run(UploadFinish(s, job.id, sha256).0, earlier, sha256);
            Resumes(found, f, job.source, reader, now, later, asker, k, sha256)
  {
    PublishedIsIntact(s, job, sent, earlier, sha256);
    var f := s.transfers[job.id].fileId;
    var found := Run(UploadFinish(s, job.id, sha256).0, earlier, sha256);
    assert job.size > 0;
    hide Inv, Tracks, Announced, Covers, UploadFinish, Run, UploadRun, DownloadRequest, Resumes, Closed;
    FetchedThenResumed(found, f, job.source, job.size, reader, now, later, asker, k, sha256);
  }

  lemma FinishKeepsFileRow(s: State, id: nat, sha256: Data -> Digest)
    requires Joined(s, id)
    ensures Joined(UploadFinish(s, id, sha256).0, id)
    ensures FileOf(UploadFinish(s, id, sha256).0, id).(status := FileOf(s, id).status) == FileOf(s, id)
  {
    FinishOnly(s, id, sha256);
  }

  lemma WholePushDecodes(source: Data, size: nat)
    requires size > 0
    ensures Decode(Body(Bodies(Pushed(source, size, ChunkCount(|source|, size), 0)), [])) == Some((source, []))
  {
    var total := ChunkCount(|source|, size);
    var whole := Pushed(source, size, total, 0);
    assert whole[..total] == whole;
    StreamedDownload(source, size, total, []);
  }

  /** A client that lost its connection any number of times has covered its file once the counter
      it trusts says so. */
  lemma InOrderClientCovers(s: State, job: Job, client: Client)
    requires InStep(s, job, client) && Counted(s, job.id) == job.Total()
    ensures exists sent :: Tracks(s, job, sent) && Covers(job, sent)
  {
    hide Inv, IsImage;
    RestBelow(job.Total());
    assert Covers(job, Rest(0, job.Total()));
  }

  /** A worker pool that went on from chunk `from` asks to finish with the whole file acknowledged by
      the server, provided everything below `from` had been, whatever happened in between. */
  lemma PoolCovers(s: State, job: Job, before: seq<nat>, from: nat, moves: seq<PooledUpload.Move>,
                   sha256: Data -> Digest)
    requires Inv(s) && Tracks(s, job, before) && Announced(s, job, sha256)
    requires Ends(s, job, before, from, moves, sha256) && Below(from) <= Indices(before)
    ensures var end := Play(Begin(s, job, before, from), job, moves, sha256);
            && Inv(end.server) && Tracks(end.server, job, end.sent) && Announced(end.server, job, sha256)
            && Covers(job, end.sent)
  {
    hide Inv, Tracks, PooledUpload.AllPossible, Play;
    EndOfPool(s, job, before, from, moves, sha256);
    var sent := Play(Begin(s, job, before, from), job, moves, sha256).sent;
    forall i | i in Below(job.Total())
      ensures i in Indices(sent)
    {
      if i < from {
        assert i in Below(from) && i in before;
        assert i in sent[..|before|];
      }
    }
  }
}
