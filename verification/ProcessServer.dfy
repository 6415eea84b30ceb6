/** The transfer handlers of a process server, updating its tables, disk and cache in place. */
module ProcessServer {
  import opened Wrappers
  import opened Bytes
  import opened Transfers
  import opened TransferInvariants

  const HASH_BLOCK := 65536

  class TransferEngine {
    const sha256: Data -> Digest
    var disk: map<Path, Data>
    var files: map<nat, FileRow>
    var transfers: map<nat, TransferRow>
    var progress: map<nat, Progress>
    var nextFile: nat
    var nextTransfer: nat

    ghost function Snapshot(): State
      reads this
    {
      State(disk, files, transfers, progress, nextFile, nextTransfer)
    }

    constructor (sha256: Data -> Digest)
      ensures this.sha256 == sha256
      ensures Snapshot() == EMPTY && Inv(Snapshot()) && Verified(Snapshot(), sha256)
    {
      this.sha256 := sha256;
      disk, files, transfers, progress := map[], map[], map[], map[];
      nextFile, nextTransfer := 1, 1;
    }

    /** `rooms` is the part of the rooms table that the lookup by name reads. */
    method HandleUploadInit(packet: Offer, rooms: map<string, int>, userId: int, path: Path, now: int)
      returns (reply: Reply)
      modifies this
      ensures (Snapshot(), reply) == UploadInit(old(Snapshot()), packet.Located(rooms), userId, path, now)
    {
      var offer := packet;
      if offer.roomId == 0 && offer.roomName != "" {
        if offer.roomName in rooms {
          offer := offer.(roomId := rooms[offer.roomName]);
        }
      }
      if !offer.Complete() {
        return Error(MissingField);
      }
      if offer.filesize > MAX_FILE_SIZE {
        return Error(FileTooLarge);
      }
      disk := disk[path := []];
      var file := FileRow(path, offer.checksum, offer.chunkSize, offer.totalChunks, Uploading,
                          offer.roomId, userId, offer.filesize);
      files := files[nextFile := file];
      var transfer := TransferRow(
        nextFile, offer.roomId, userId, Upload, InProgress, offer.totalChunks, 0, 0, now);
      transfers := transfers[nextTransfer := transfer];
      reply := UploadReady(nextTransfer, 0);
      nextFile, nextTransfer := nextFile + 1, nextTransfer + 1;
    }

    method FlushTransferProgress(id: nat)
      modifies this`transfers, this`progress
      ensures Snapshot() == Flush(old(Snapshot()), id)
    {
      if id !in progress || !progress[id].dirty {
        return;
      }
      var entry := progress[id];
      if id in transfers {
        transfers := transfers[id := Recorded(transfers[id], entry)];
      }
      progress := progress[id := progress[id].(dirty := false)];
    }

    /** Load the entry on a first chunk, and hold its file open for update. */
    method OpenTransfer(id: nat, now: int)
      requires Accepts(Snapshot(), id)
      modifies this`progress, this`disk
      ensures Snapshot() == OpenEntry(old(Snapshot()), id, now)
    {
      if id !in progress {
        var row := transfers[id];
        var file := files[row.fileId];
        progress := progress[id := Progress(file.path, file.chunkSize, row.totalChunks, row.completedChunks,
                                            row.bytesTransferred, now, false, false)];
      }
      var path := progress[id].path;
      if path !in disk {
        disk := disk[path := []];
      }
      if !progress[id].open {
        progress := progress[id := progress[id].(open := true)];
      }
    }

    method HandleUploadChunk(id: nat, index: int, data: Data, now: int) returns (reply: Reply)
      modifies this
      ensures (Snapshot(), reply) == UploadChunk(old(Snapshot()), id, index, data, now)
    {
      if id !in progress {
        if id !in transfers || transfers[id].fileId !in files || transfers[id].status != InProgress {
          return Error(InvalidPacket);
        }
      }
      OpenTransfer(id, now);
      var offset := index * progress[id].chunkSize;
      if offset < 0 {
        return Error(InternalError);
      }
      var path := progress[id].path;
      disk := disk[path := WriteAt(disk[path], offset, data)];

      var entry := progress[id];
      entry := entry.(completedChunks := entry.completedChunks + 1);
      entry := entry.(bytesTransferred := entry.bytesTransferred + |data|);
      entry := entry.(lastActivity := now, dirty := true);
      progress := progress[id := entry];
      if index == 0 || entry.completedChunks % 20 == 0 || index + 1 == entry.totalChunks {
        FlushTransferProgress(id);
      }
      reply := ChunkAck(id, index);
    }

    /** Feed the file to the hash block by block. */
    method HashFile(path: Path) returns (digest: Digest)
      requires path in disk
      ensures digest == sha256(disk[path])
    {
      var bytes := disk[path];
      var position, fed: Data := 0, [];
      while position < |bytes|
        invariant position <= |bytes|
        invariant fed == bytes[..position]
      {
        var block := bytes[position..Min(position + HASH_BLOCK, |bytes|)];
        fed := fed + block;
        position := position + |block|;
      }
      digest := sha256(fed);
      assert fed == bytes;
    }

    method HandleUploadFinish(id: nat) returns (reply: Reply)
      modifies this
      ensures (Snapshot(), reply) == UploadFinish(old(Snapshot()), id, sha256)
    {
      if id in progress {
        progress := progress[id := progress[id].(open := false)];
      }
      FlushTransferProgress(id);
      if id !in transfers || transfers[id].fileId !in files {
        return Silence;
      }
      var fileId := transfers[id].fileId;
      if files[fileId].path !in disk {
        return Error(InternalError);
      }
      var digest := HashFile(files[fileId].path);
      if digest != files[fileId].checksum {
        return Error(ChecksumFailed);
      }
      files := files[fileId := files[fileId].(status := Available)];
      transfers := transfers[id := transfers[id].(status := Completed)];
      progress := progress - {id};
      reply := UploadSuccess(id);
    }

    method HandleDownloadRequest(fileId: nat, userId: int, now: int) returns (reply: Reply)
      modifies this`transfers, this`nextTransfer
      ensures (Snapshot(), reply) == DownloadRequest(old(Snapshot()), fileId, userId, now)
    {
      if fileId !in files || files[fileId].status != Available {
        return Error(FileNotFound);
      }
      var file := files[fileId];
      var transfer := TransferRow(fileId, file.roomId, userId, Download, InProgress, file.totalChunks, 0, 0, now);
      transfers := transfers[nextTransfer := transfer];
      reply := DownloadReady(nextTransfer, 0, file.totalChunks, file.chunkSize, file.checksum);
      nextTransfer := nextTransfer + 1;
    }

    method HandleResumeTransfer(id: nat, user: Option<int>, direction: Option<Direction>, start: int)
      returns (reply: Reply)
      modifies this`transfers, this`progress
      ensures (Snapshot(), reply) == ResumeTransfer(old(Snapshot()), id, user, direction, start)
    {
      FlushTransferProgress(id);
      if user.None? {
        return Error(InvalidToken);
      }
      if id !in transfers || transfers[id].fileId !in files || transfers[id].userId != user.value {
        return Error(InvalidPacket);
      }
      if transfers[id].status != InProgress {
        return Error(InvalidPacket);
      }
      match direction
      case Some(Upload) =>
        reply := UploadReady(id, transfers[id].completedChunks);
      case Some(Download) =>
        var file := files[transfers[id].fileId];
        reply := DownloadReady(id, start, transfers[id].totalChunks, file.chunkSize, file.checksum);
      case None =>
        reply := Silence;
    }

    /** The update of every stale row, one row after another. */
    method CheckTransferTimeouts(threshold: int)
      modifies this`transfers
      ensures Snapshot() == ExpireTransfers(old(Snapshot()), threshold)
    {
      ghost var before := Snapshot();
      var unseen := transfers.Keys;
      while unseen != {}
        invariant unseen <= before.transfers.Keys == transfers.Keys
        invariant Snapshot() == before.(transfers := transfers)
        invariant forall t <- unseen :: transfers[t] == before.transfers[t]
        invariant forall t <- before.transfers.Keys - unseen ::
                    transfers[t] == ExpireTransfers(before, threshold).transfers[t]
      {
        var t :| t in unseen;
        var row := transfers[t];
        if row.status == InProgress && row.lastActivity < threshold {
          transfers := transfers[t := row.(status := Failed)];
        }
        unseen := unseen - {t};
      }
      assert transfers == ExpireTransfers(before, threshold).transfers;
    }

    /** One entry after another, in whatever order the dictionary lists them. */
    method FlushAllDirtyTransfers()
      modifies this`transfers, this`progress
      ensures Snapshot() == FlushAll(old(Snapshot()))
    {
      ghost var before := Snapshot();
      var pending := progress.Keys;
      ghost var done: set<nat> := {};
      while pending != {}
        invariant done + pending == before.progress.Keys
        invariant done !! pending
        invariant Snapshot() == FlushEach(before, done)
      {
        var id :| id in pending;
        FlushTransferProgress(id);
        progress := progress[id := progress[id].(open := false)];
        FlushOneMore(before, done, id);
        pending, done := pending - {id}, done + {id};
      }
      assert done == before.progress.Keys;
    }
  }

  lemma FlushOneMore(s: State, done: set<nat>, id: nat)
    requires id in s.progress && id !in done
    ensures Close(Flush(FlushEach(s, done), id), id) == FlushEach(s, done + {id})
  {
    var left, right := Close(Flush(FlushEach(s, done), id), id), FlushEach(s, done + {id});
    assert left.transfers == right.transfers;
    assert left.progress == right.progress;
  }
}
