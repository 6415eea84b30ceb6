/** Once an upload was published, its bytes are out of reach of every later request. */
module PublishedFiles {
  import opened Bytes
  import opened Transfers
  import opened TransferInvariants
  import opened StoredFiles
  import opened UploadRuns

  /** Rows keep their links, completed transfers stay completed, and a new upload has a new file. */
  ghost predicate RowsKept(s: State, after: State) {
    && (forall t <- s.transfers :: && t in after.transfers && after.transfers[t].fileId == s.transfers[t].fileId
                                   && after.transfers[t].direction == s.transfers[t].direction
                                   && (s.transfers[t].status == Completed ==> after.transfers[t].status == Completed))
    && (forall t <- after.transfers :: t !in s.transfers && after.transfers[t].direction == Upload ==>
                                         after.transfers[t].fileId == s.nextFile)
    && (forall f <- s.files :: f in after.files && after.files[f].(status := s.files[f].status) == s.files[f])
  }

  lemma FlushRows(s: State, id: nat)
    ensures RowsKept(s, Flush(s, id))
  {}

  lemma ChunkRows(s: State, id: nat, index: int, data: Data, now: int)
    requires Inv(s)
    ensures RowsKept(s, UploadChunk(s, id, index, data, now).0)
  {
    if Accepts(s, id) {
      EntryMatches(s, id, now);
      hide Inv;
      var loaded := OpenEntry(s, id, now);
      var offset := index * loaded.progress[id].chunkSize;
      if offset >= 0 {
        var stored := StoreChunk(loaded, id, offset, data, now);
        FlushRows(stored, id);
        hide Flush;
      }
    }
  }

  lemma FinishRows(s: State, id: nat, sha256: Data -> Digest)
    ensures RowsKept(s, UploadFinish(s, id, sha256).0)
  {
    FinishOnly(s, id, sha256);
  }

  lemma SweepRows(s: State, e: Event, sha256: Data -> Digest)
    requires e.Expire? || e.Cleanup? || e.Delete?
    ensures RowsKept(s, Step(s, e, sha256).0)
  {}

  lemma NewRows(s: State, e: Event, sha256: Data -> Digest)
    requires Linked(s) && (e.Init? || e.Fetch?)
    ensures RowsKept(s, Step(s, e, sha256).0)
  {}

  lemma StepKeepsRows(s: State, e: Event, sha256: Data -> Digest)
    requires Inv(s)
    ensures RowsKept(s, Step(s, e, sha256).0)
  {
    hide UploadChunk, UploadFinish, Flush, Linked, Cached, Owned, RowsKept;
    assert Linked(s);
    match e
    case Chunk(id, index, data, now) => ChunkRows(s, id, index, data, now);
    case Finish(id) => FinishRows(s, id, sha256);
    case FlushOne(id) => FlushRows(s, id);
    case Resume(id, _, _, _) => FlushRows(s, id);
    case Init(_, _, _, _) => NewRows(s, e, sha256);
    case Fetch(_, _, _) => NewRows(s, e, sha256);
    case _ => SweepRows(s, e, sha256);
  }

  /** Whoever uploaded the file is through. */
  ghost predicate Closed(s: State, f: nat) {
    f in s.files && forall t <- s.transfers :: s.transfers[t].direction == Upload && s.transfers[t].fileId == f ==>
                                                 s.transfers[t].status == Completed
  }

  ghost predicate SameBytes(s: State, after: State, f: nat) {
    && f in s.files && s.files[f].path in s.disk
    && f in after.files && after.files[f].(status := s.files[f].status) == s.files[f]
    && s.files[f].path in after.disk && after.disk[s.files[f].path] == s.disk[s.files[f].path]
  }

  lemma ChunkMissesClosed(s: State, id: nat, index: int, data: Data, now: int, f: nat)
    requires Inv(s) && Closed(s, f)
    requires id in s.transfers ==> s.transfers[id].direction == Upload
    ensures SameBytes(s, UploadChunk(s, id, index, data, now).0, f)
  {
    if Accepts(s, id) {
      ChunkEffect(s, id, index, data, now);
      assert s.transfers[id].fileId != f;
    }
  }

  lemma SweepsKeepFiles(s: State, id: nat, threshold: int)
    ensures Flush(s, id).disk == s.disk && Flush(s, id).files == s.files
    ensures FlushAll(s).disk == s.disk && FlushAll(s).files == s.files
    ensures ExpireTransfers(s, threshold).disk == s.disk && ExpireTransfers(s, threshold).files == s.files
  {}

  lemma StepKeepsBytes(s: State, e: Event, f: nat, sha256: Data -> Digest)
    requires Inv(s) && Closed(s, f) && FreshPath(s, e) && UploadsOnly(s, e)
    ensures SameBytes(s, Step(s, e, sha256).0, f)
  {
    hide UploadChunk, UploadFinish, Cached, Owned, Flush, FlushAll, ExpireTransfers;
    match e
    case Chunk(id, index, data, now) => ChunkMissesClosed(s, id, index, data, now, f);
    case Finish(id) => FinishOnly(s, id, sha256);
    case FlushOne(id) => SweepsKeepFiles(s, id, 0);
    case Resume(id, _, _, _) => SweepsKeepFiles(s, id, 0);
    case Expire(threshold) => SweepsKeepFiles(s, 0, threshold);
    case Cleanup => SweepsKeepFiles(s, 0, 0);
    case _ =>
  }

  lemma StepKeepsClosed(s: State, e: Event, f: nat, sha256: Data -> Digest)
    requires Inv(s) && Closed(s, f)
    ensures Closed(Step(s, e, sha256).0, f)
  {
    StepKeepsRows(s, e, sha256);
  }

  /** Over every run in which chunks name uploads, the bytes of a published file never change,
      whether or not the hash has collisions. */
  lemma {:induction false} PublishedBytesNeverChange(s: State, events: seq<Event>, f: nat, sha256: Data -> Digest)
    requires Inv(s) && Closed(s, f) && UploadRun(s, events, sha256)
    ensures SameBytes(s, Run(s, events, sha256), f)
    decreases |events|
  {
    if events == [] {
      assert s.files[f].path in s.disk;
    } else {
      var next := Step(s, events[0], sha256).0;
      StepKeepsInv(s, events[0], sha256);
      StepKeepsClosed(s, events[0], f, sha256);
      StepKeepsBytes(s, events[0], f, sha256);
      hide Inv, Step;
      PublishedBytesNeverChange(next, events[1..], f, sha256);
    }
  }

  /** A file that can be downloaded is closed. */
  lemma AvailableIsClosed(s: State, f: nat)
    requires Inv(s) && f in s.files && s.files[f].status == Available
    ensures Closed(s, f)
  {
    forall t | t in s.transfers && s.transfers[t].direction == Upload && s.transfers[t].fileId == f
      ensures s.transfers[t].status == Completed
    {
      assert Settled(s.transfers[t], FileOf(s, t));
    }
  }

  // ---- who may download ----

  /** Only deleting the file and finishing one of its transfers with success touch its status. */
  function StatusAfter(s: State, e: Event, f: nat, status: FileStatus, sha256: Data -> Digest): FileStatus {
    match e
    case Delete(g) => if g == f then Deleted else status
    case Finish(id) =>
      if UploadFinish(s, id, sha256).1.UploadSuccess? && id in s.transfers && s.transfers[id].fileId == f
      then Available
      else status
    case _ => status
  }

  function StatusStory(s: State, events: seq<Event>, f: nat, status: FileStatus, sha256: Data -> Digest): FileStatus
    decreases |events|
  {
    if events == [] then status
    else
      StatusStory(Step(s, events[0], sha256).0, events[1..], f, StatusAfter(s, events[0], f, status, sha256), sha256)
  }

  lemma ChunkKeepsFiles(s: State, id: nat, index: int, data: Data, now: int)
    ensures UploadChunk(s, id, index, data, now).0.files == s.files
  {}

  lemma StepKeepsStatus(s: State, e: Event, f: nat, sha256: Data -> Digest)
    requires Linked(s) && f in s.files
    ensures var after := Step(s, e, sha256).0;
            f in after.files && after.files[f].status == StatusAfter(s, e, f, s.files[f].status, sha256)
  {
    hide UploadChunk, Flush, FlushAll, ExpireTransfers;
    match e
    case Chunk(id, index, data, now) => ChunkKeepsFiles(s, id, index, data, now);
    case Finish(id) => FinishStatus(s, id, f, sha256);
    case FlushOne(id) => SweepsKeepFiles(s, id, 0);
    case Resume(id, _, _, _) => SweepsKeepFiles(s, id, 0);
    case Expire(threshold) => SweepsKeepFiles(s, 0, threshold);
    case Cleanup => SweepsKeepFiles(s, 0, 0);
    case _ =>
  }

  lemma FinishStatus(s: State, id: nat, f: nat, sha256: Data -> Digest)
    requires f in s.files
    ensures var after := UploadFinish(s, id, sha256).0;
            f in after.files && after.files[f].status == StatusAfter(s, Finish(id), f, s.files[f].status, sha256)
  {
    assert Flush(Close(s, id), id).files == s.files;
    assert id in s.transfers <==> id in Flush(Close(s, id), id).transfers;
  }

  lemma {:induction false} StatusIsItsStory(s: State, events: seq<Event>, f: nat, sha256: Data -> Digest)
    requires Inv(s) && FreshPaths(s, events, sha256) && f in s.files
    ensures var end := Run(s, events, sha256);
            f in end.files && end.files[f].status == StatusStory(s, events, f, s.files[f].status, sha256)
    decreases |events|
  {
    if events != [] {
      StepKeepsInv(s, events[0], sha256);
      StepKeepsStatus(s, events[0], f, sha256);
      hide Inv, Step, StatusAfter;
      StatusIsItsStory(Step(s, events[0], sha256).0, events[1..], f, sha256);
    }
  }

  /** After every run, a file can be downloaded if and only if it was published and not deleted since; a
      success of any of its transfers counts as publishing it. */
  lemma DownloadableIff(s: State, events: seq<Event>, f: nat, reader: int, now: int, sha256: Data -> Digest)
    requires Inv(s) && FreshPaths(s, events, sha256) && f in s.files
    ensures var (_, reply) := DownloadRequest(Run(s, events, sha256), f, reader, now);
            if StatusStory(s, events, f, s.files[f].status, sha256) == Available
            then reply.DownloadReady?
            else reply == Error(FileNotFound)
  {
    StatusIsItsStory(s, events, f, sha256);
  }

  /** A finish request that names a download of a deleted file makes the file available again. */
  lemma DeletedComesBack(s: State, id: nat, sha256: Data -> Digest)
    requires Inv(s) && Joined(s, id) && sha256(s.disk[FileOf(s, id).path]) == FileOf(s, id).checksum
    ensures var f := s.transfers[id].fileId;
            && StatusStory(s, [Delete(f)], f, s.files[f].status, sha256) == Deleted
            && StatusStory(s, [Delete(f), Finish(id)], f, s.files[f].status, sha256) == Available
  {
    var f := s.transfers[id].fileId;
    var deleted := DeleteFile(s, f);
    var run := [Delete(f), Finish(id)];
    assert run[1..] == [Finish(id)];
    assert StatusStory(deleted, [Finish(id)], f, Deleted, sha256)
           == StatusAfter(deleted, Finish(id), f, Deleted, sha256);
    assert UploadFinish(deleted, id, sha256).1.UploadSuccess? by {
      assert Flush(Close(deleted, id), id).disk == s.disk;
    }
  }

  // ---- requests that name nothing, or a place before the file ----

  lemma FinishOfUnknown(s: State, id: nat, sha256: Data -> Digest)
    requires Inv(s) && id !in s.transfers
    ensures UploadFinish(s, id, sha256) == (s, Silence)
  {}

  /** A file that somebody removed from the disk is an error of the server, and is not published. */
  lemma FinishOfLostFile(s: State, id: nat, sha256: Data -> Digest)
    requires Joined(s, id) && FileOf(s, id).path !in s.disk
    ensures UploadFinish(s, id, sha256).1 == Error(InternalError)
    ensures UploadFinish(s, id, sha256).0.files == s.files
  {
    assert FileOf(Flush(Close(s, id), id), id) == FileOf(s, id);
  }

  /** A chunk at a negative offset is refused after the file was opened: nothing is written and nothing is
      counted. */
  lemma NegativeOffset(s: State, id: nat, index: int, data: Data, now: int)
    requires Inv(s) && Accepts(s, id) && index * FileOf(s, id).chunkSize < 0
    ensures var (after, reply) := UploadChunk(s, id, index, data, now);
            && reply == Error(InternalError) && after.disk == s.disk && after.files == s.files
            && after.transfers == s.transfers && Counted(after, id) == Counted(s, id)
            && id in after.progress && after.progress[id].open
  {
    EntryMatches(s, id, now);
  }

  /** No run at all reopens a completed transfer: every later chunk for it is refused. */
  lemma {:induction false} CompletedRefusesChunks(
    s: State, events: seq<Event>, id: nat, index: int, data: Data, now: int, sha256: Data -> Digest)
    requires Inv(s) && FreshPaths(s, events, sha256)
    requires id in s.transfers && s.transfers[id].status == Completed
    ensures UploadChunk(Run(s, events, sha256), id, index, data, now) == (Run(s, events, sha256), Error(InvalidPacket))
    decreases |events|
  {
    if events != [] {
      StepKeepsInv(s, events[0], sha256);
      StepKeepsRows(s, events[0], sha256);
      hide Inv, Step;
      CompletedRefusesChunks(Step(s, events[0], sha256).0, events[1..], id, index, data, now, sha256);
    }
  }

  // ---- what an offer leaves in the files table ----

  lemma {:induction false} FileRowStays(s: State, events: seq<Event>, f: nat, sha256: Data -> Digest)
    requires Inv(s) && FreshPaths(s, events, sha256) && f in s.files
    ensures var end := Run(s, events, sha256);
            f in end.files && end.files[f].(status := s.files[f].status) == s.files[f]
    decreases |events|
  {
    if events != [] {
      StepKeepsInv(s, events[0], sha256);
      StepKeepsRows(s, events[0], sha256);
      hide Inv, Step;
      FileRowStays(Step(s, events[0], sha256).0, events[1..], f, sha256);
    }
  }

  /** The room an offer is for: the one it names by number, or else by a name that the table knows. */
  function RoomOf(offer: Offer, rooms: map<string, int>): int {
    if offer.roomId != 0 then offer.roomId
    else if offer.roomName in rooms && offer.roomName != "" then rooms[offer.roomName]
    else 0
  }

  /** An offer is refused for a missing field or its size alone; otherwise the row of its file carries
      what it announced, with the room it is for, and keeps all of it but the status for ever. */
  lemma AnnouncedRowStays(s: State, packet: Offer, rooms: map<string, int>, userId: int, path: Path, now: int,
                          events: seq<Event>, sha256: Data -> Digest)
    requires Inv(s) && path !in s.disk
    requires FreshPaths(UploadInit(s, packet.Located(rooms), userId, path, now).0, events, sha256)
    ensures var (after, reply) := UploadInit(s, packet.Located(rooms), userId, path, now);
            var missing := RoomOf(packet, rooms) == 0 || packet.filename == "" || packet.filesize == 0
                           || packet.chunkSize == 0 || packet.totalChunks == 0 || packet.checksum == "";
            && (reply == Error(MissingField) <==> missing)
            && (reply == Error(FileTooLarge) <==> !missing && packet.filesize > 1024 * 1024 * 1024)
            && (reply.Error? ==> after == s)
            && (!reply.Error? ==>
                  && reply == UploadReady(s.nextTransfer, 0)
                  && var end := Run(after, events, sha256);
                     && s.nextFile in end.files
                     && end.files[s.nextFile] ==
                        FileRow(path, packet.checksum, packet.chunkSize, packet.totalChunks,
                                end.files[s.nextFile].status, RoomOf(packet, rooms), userId, packet.filesize))
  {
    var offer := packet.Located(rooms);
    var (after, reply) := UploadInit(s, offer, userId, path, now);
    InitKeeps(s, Init(offer, userId, path, now), sha256);
    if !reply.Error? {
      FileRowStays(after, events, s.nextFile, sha256);
    }
    hide Inv, Run;
  }
}
