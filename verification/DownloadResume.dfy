/** A download that is broken off and resumed, while everything else on the server goes on. */
module DownloadResume {
  import opened Wrappers
  import opened Bytes
  import opened Transfers
  import opened TransferInvariants
  import opened StoredFiles
  import opened UploadRuns
  import opened PublishedFiles

  /** Who fetches which file since when, under which identifier. */
  datatype Fetching = Fetching(id: nat, fileId: nat, reader: int, total: int, since: int)

  /** The row of the download, which no chunk has touched; `live` says that it can still be resumed. */
  ghost predicate RowOf(s: State, d: Fetching, live: bool) {
    && d.id in s.transfers && d.id !in s.progress
    && var row := s.transfers[d.id];
    && row.fileId == d.fileId && row.userId == d.reader && row.direction == Download
    && row.totalChunks == d.total && row.completedChunks == 0 && row.lastActivity == d.since
    && (row.status == InProgress <==> live)
  }

  /** The file is there and still what was announced. */
  ghost predicate Intact(s: State, f: nat, sha256: Data -> Digest) {
    && Closed(s, f) && s.files[f].path in s.disk
    && sha256(s.disk[s.files[f].path]) == s.files[f].checksum
  }

  /** What makes a download impossible to resume: somebody asks to finish it, or a sweep finds it too old. */
  predicate Closes(e: Event, d: Fetching) {
    (e.Finish? && e.id == d.id) || (e.Expire? && d.since < e.threshold)
  }

  predicate Lives(events: seq<Event>, d: Fetching) {
    forall k :: 0 <= k < |events| ==> !Closes(events[k], d)
  }

  lemma FinishEndsDownload(s: State, d: Fetching, live: bool, sha256: Data -> Digest)
    requires Inv(s) && RowOf(s, d, live) && Intact(s, d.fileId, sha256)
    ensures RowOf(UploadFinish(s, d.id, sha256).0, d, false)
  {
    assert Close(s, d.id) == s && Flush(s, d.id) == s;
  }

  lemma OtherChunkKeepsRow(s: State, id: nat, index: int, data: Data, now: int, d: Fetching, live: bool)
    requires RowOf(s, d, live) && id != d.id
    ensures RowOf(UploadChunk(s, id, index, data, now).0, d, live)
  {
    if Accepts(s, id) {
      ChunkOnly(s, id, index, data, now);
      hide UploadChunk;
    }
  }

  lemma OtherFinishKeepsRow(s: State, id: nat, d: Fetching, live: bool, sha256: Data -> Digest)
    requires RowOf(s, d, live) && id != d.id
    ensures RowOf(UploadFinish(s, id, sha256).0, d, live)
  {
    FinishOnly(s, id, sha256);
    hide UploadFinish;
  }

  lemma RestKeepsRow(s: State, e: Event, d: Fetching, live: bool, sha256: Data -> Digest)
    requires Linked(s) && RowOf(s, d, live) && !e.Chunk? && !e.Finish?
    ensures RowOf(Step(s, e, sha256).0, d, live && !Closes(e, d))
  {
    hide UploadInit, DownloadRequest, Flush, FlushAll, ExpireTransfers, Linked, RowOf;
    match e
    case FlushOne(id) => FlushKeepsRow(s, id, d, live);
    case Resume(id, _, _, _) => FlushKeepsRow(s, id, d, live);
    case Init(_, _, _, _) => NewRowsKeepRow(s, e, d, live, sha256);
    case Fetch(_, _, _) => NewRowsKeepRow(s, e, d, live, sha256);
    case _ => SweepsKeepRow(s, e, d, live, sha256);
  }

  lemma FlushKeepsRow(s: State, id: nat, d: Fetching, live: bool)
    requires RowOf(s, d, live)
    ensures RowOf(Flush(s, id), d, live)
  {}

  lemma NewRowsKeepRow(s: State, e: Event, d: Fetching, live: bool, sha256: Data -> Digest)
    requires Linked(s) && RowOf(s, d, live) && (e.Init? || e.Fetch?)
    ensures RowOf(Step(s, e, sha256).0, d, live)
  {}

  lemma SweepsKeepRow(s: State, e: Event, d: Fetching, live: bool, sha256: Data -> Digest)
    requires RowOf(s, d, live) && (e.Cleanup? || e.Expire? || e.Delete?)
    ensures RowOf(Step(s, e, sha256).0, d, live && !Closes(e, d))
  {}

  lemma StepKeepsRow(s: State, e: Event, d: Fetching, live: bool, sha256: Data -> Digest)
    requires Inv(s) && UploadsOnly(s, e) && RowOf(s, d, live) && Intact(s, d.fileId, sha256)
    ensures RowOf(Step(s, e, sha256).0, d, live && !Closes(e, d))
  {
    hide UploadChunk, UploadFinish;
    match e
    case Chunk(id, index, data, now) => OtherChunkKeepsRow(s, id, index, data, now, d, live);
    case Finish(id) =>
      if id == d.id {
        FinishEndsDownload(s, d, live, sha256);
      } else {
        OtherFinishKeepsRow(s, id, d, live, sha256);
      }
    case _ => RestKeepsRow(s, e, d, live, sha256);
  }

  lemma {:induction false} RunKeepsRow(s: State, events: seq<Event>, d: Fetching, live: bool, sha256: Data -> Digest)
    requires Inv(s) && UploadRun(s, events, sha256) && RowOf(s, d, live) && Intact(s, d.fileId, sha256)
    ensures RowOf(Run(s, events, sha256), d, live && Lives(events, d))
    decreases |events|
  {
    if events != [] {
      var e := events[0];
      StepKeepsInv(s, e, sha256);
      StepKeepsClosed(s, e, d.fileId, sha256);
      StepKeepsBytes(s, e, d.fileId, sha256);
      StepKeepsRow(s, e, d, live, sha256);
      var next := Step(s, e, sha256).0;
      hide Inv, Step, RowOf, Closed;
      RunKeepsRow(next, events[1..], d, live && !Closes(e, d), sha256);
      assert Lives(events, d) <==> !Closes(e, d) && Lives(events[1..], d);
    }
  }

  /** A resume request for this download, whoever sends it and whatever it says: only its own reader is
      served, only while it lives, and from the chunk the reader asks for. */
  function Served(d: Fetching, file: FileRow, live: bool, user: Option<int>, direction: Option<Direction>, start: int)
    : Reply
  {
    if user.None? then Error(InvalidToken)
    else if user.value != d.reader || !live then Error(InvalidPacket)
    else match direction
      case Some(Download) => DownloadReady(d.id, start, d.total, file.chunkSize, file.checksum)
      case Some(Upload) => UploadReady(d.id, 0)
      case None => Silence
  }

  lemma ResumeServes(s: State, d: Fetching, live: bool, user: Option<int>, direction: Option<Direction>, start: int,
                     sha256: Data -> Digest)
    requires RowOf(s, d, live) && d.fileId in s.files
    ensures ResumeTransfer(s, d.id, user, direction, start) ==
            (s, Served(d, s.files[d.fileId], live, user, direction, start))
  {
    assert Flush(s, d.id) == s;
  }

  /** Over every later run: what a download request opens can be resumed by its reader, at any chunk it
      names, on the same bytes, until somebody finishes it or a sweep finds it too old. */
  lemma DownloadCanBeResumed(s: State, f: nat, reader: int, now: int, later: seq<Event>, user: Option<int>,
                             direction: Option<Direction>, start: int, sha256: Data -> Digest)
    requires Inv(s) && Intact(s, f, sha256) && s.files[f].status == Available
    requires UploadRun(DownloadRequest(s, f, reader, now).0, later, sha256)
    ensures var (begun, ready) := DownloadRequest(s, f, reader, now);
            var file, id := s.files[f], s.nextTransfer;
            var end := Run(begun, later, sha256);
            var d := Fetching(id, f, reader, file.totalChunks, now);
            && ready == DownloadReady(id, 0, file.totalChunks, file.chunkSize, file.checksum)
            && ResumeTransfer(end, id, user, direction, start).1 ==
               Served(d, file, Lives(later, d), user, direction, start)
            && file.path in end.disk && end.disk[file.path] == s.disk[file.path]
  {
    FetchKeeps(s, f, reader, now);
    var after := DownloadRequest(s, f, reader, now).0;
    var d := Fetching(s.nextTransfer, f, reader, s.files[f].totalChunks, now);
    assert RowOf(after, d, true) && Closed(after, f);
    hide Inv, RowOf;
    RunKeepsRow(after, later, d, true, sha256);
    PublishedBytesNeverChange(after, later, f, sha256);
    ResumeServes(Run(after, later, sha256), d, Lives(later, d), user, direction, start, sha256);
  }
}
