/** What every handler keeps true of the tables, the disk and the progress cache. */
module TransferInvariants {
  import opened Bytes
  import opened Transfers

  /** Rows point at rows, every file has bytes of its own, and identifiers are still fresh. */
  ghost predicate Linked(s: State) {
    && (forall t <- s.transfers :: t < s.nextTransfer && s.transfers[t].fileId in s.files)
    && (forall f <- s.files :: f < s.nextFile && s.files[f].path in s.disk)
    && (forall f, g :: f in s.files && g in s.files && f != g ==> s.files[f].path != s.files[g].path)
  }

  /** A cache entry agrees with its row on everything but the counters. The counters of the row
      never run ahead, equal the cached ones when the entry is clean, and lag by less than 20 chunks. */
  ghost predicate Coherent(row: TransferRow, file: FileRow, entry: Progress) {
    && entry.path == file.path && entry.chunkSize == file.chunkSize && entry.totalChunks == row.totalChunks
    && row.completedChunks <= entry.completedChunks
    && row.bytesTransferred <= entry.bytesTransferred
    && entry.completedChunks / 20 * 20 <= row.completedChunks
    && (!entry.dirty ==> row.completedChunks == entry.completedChunks && row.bytesTransferred == entry.bytesTransferred)
  }

  ghost predicate Cached(s: State)
    requires Linked(s)
  {
    forall t <- s.progress :: t in s.transfers && s.transfers[t].status != Completed
                              && Coherent(s.transfers[t], FileOf(s, t), s.progress[t])
  }

  /** Another transfer of a file that has an upload is a download, made after that upload was over. */
  ghost predicate Follows(upload: TransferRow, other: TransferRow) {
    upload.direction == Upload && upload.fileId == other.fileId ==>
      other.direction == Download && upload.status == Completed
  }

  ghost predicate Settled(row: TransferRow, file: FileRow) {
    row.direction == Upload && file.status == Available ==> row.status == Completed
  }

  /** A file has one upload, which is over before the file is available or anyone fetches it. */
  ghost predicate Owned(s: State)
    requires Linked(s)
  {
    && (forall t, u :: t in s.transfers && u in s.transfers && t != u ==> Follows(s.transfers[t], s.transfers[u]))
    && (forall t <- s.transfers :: Settled(s.transfers[t], FileOf(s, t)))
  }

  ghost predicate Inv(s: State) {
    Linked(s) && Cached(s) && Owned(s)
  }

  /** The promise the checksum makes: what can be downloaded hashes to what was announced. */
  ghost predicate Verified(s: State, sha256: Data -> Digest)
    requires Linked(s)
  {
    forall f <- s.files :: s.files[f].status == Available ==> sha256(s.disk[s.files[f].path]) == s.files[f].checksum
  }

  /** The transfer that `id` names, if any, is an upload. */
  predicate UploadsOnly(s: State, e: Event) {
    e.Chunk? && e.id in s.transfers ==> s.transfers[e.id].direction == Upload
  }

  /** Steps that keep the rows' links and directions, and never reopen a completed transfer. */
  lemma SameRowsKeepOwned(s: State, after: State)
    requires Linked(s) && Owned(s) && Linked(after)
    requires after.transfers.Keys == s.transfers.Keys
    requires forall t <- s.transfers :: && after.transfers[t].fileId == s.transfers[t].fileId
                                        && after.transfers[t].direction == s.transfers[t].direction
                                        && (s.transfers[t].status == Completed ==>
                                              after.transfers[t].status == Completed)
    requires forall t <- s.transfers :: Settled(after.transfers[t], FileOf(after, t))
    ensures Owned(after)
  {
    forall t, u | t in after.transfers && u in after.transfers && t != u
      ensures Follows(after.transfers[t], after.transfers[u])
    {
      assert Follows(s.transfers[t], s.transfers[u]);
    }
  }

  /** A state with one more row, which nothing in the cache is about. */
  lemma NewRowKeepsCached(s: State, after: State)
    requires Linked(s) && Cached(s) && Linked(after) && after.progress == s.progress
    requires forall f <- s.files :: f in after.files && after.files[f] == s.files[f]
    requires forall t <- s.transfers :: t in after.transfers && after.transfers[t] == s.transfers[t]
    ensures Cached(after)
  {
    hide Coherent;
    forall t | t in after.progress
      ensures after.transfers[t].status != Completed
      ensures Coherent(after.transfers[t], FileOf(after, t), after.progress[t])
    {
      assert FileOf(after, t) == FileOf(s, t);
    }
  }

  lemma NewRowKeepsOwned(s: State, after: State, row: TransferRow)
    requires Linked(s) && Owned(s) && Linked(after) && after.transfers == s.transfers[s.nextTransfer := row]
    requires forall f <- s.files :: f in after.files && after.files[f] == s.files[f]
    requires forall t <- s.transfers :: Follows(s.transfers[t], row) && Follows(row, s.transfers[t])
    requires row.fileId in after.files && Settled(row, after.files[row.fileId])
    ensures Owned(after)
  {
    hide Follows, Settled;
    forall t | t in after.transfers
      ensures Settled(after.transfers[t], FileOf(after, t))
    {
      if t in s.transfers && t != s.nextTransfer {
        assert FileOf(after, t) == FileOf(s, t);
      }
    }
  }

  lemma InitKeepsLinked(s: State, e: Event, sha256: Data -> Digest)
    requires e.Init? && Linked(s) && FreshPath(s, e)
    ensures Linked(Step(s, e, sha256).0)
  {}

  lemma InitKeeps(s: State, e: Event, sha256: Data -> Digest)
    requires e.Init? && Inv(s) && FreshPath(s, e)
    ensures Inv(Step(s, e, sha256).0)
  {
    var after := Step(s, e, sha256).0;
    if e.offer.Complete() && e.offer.filesize <= MAX_FILE_SIZE {
      hide Coherent;
      InitKeepsLinked(s, e, sha256);
      assert forall t <- s.transfers :: s.transfers[t].fileId != s.nextFile;
      hide Cached, Owned;
      NewRowKeepsCached(s, after);
      NewRowKeepsOwned(s, after, after.transfers[s.nextTransfer]);
    }
  }

  lemma OpenKeeps(s: State, id: nat, now: int)
    requires Inv(s) && Accepts(s, id)
    ensures Inv(OpenEntry(s, id, now))
    ensures OpenEntry(s, id, now).disk == s.disk
  {
    var after := OpenEntry(s, id, now);
    assert Coherent(s.transfers[id], FileOf(s, id), after.progress[id]);
    hide Coherent, Follows, Settled;
    assert Cached(after);
    assert Owned(after);
  }

  /** The twentieth chunk is the one that must not stay in the cache only. */
  lemma CountKeepsLag(row: TransferRow, file: FileRow, before: Progress, after: Progress)
    requires Coherent(row, file, before)
    requires after.path == before.path && after.chunkSize == before.chunkSize && after.totalChunks == before.totalChunks
    requires after.completedChunks == before.completedChunks + 1 && after.bytesTransferred >= before.bytesTransferred
    requires after.dirty
    ensures after.completedChunks % 20 != 0 ==> Coherent(row, file, after)
    ensures Coherent(Recorded(row, after), file, after.(dirty := false))
  {}

  function Update(s: State, id: nat, row: TransferRow, entry: Progress, disk: map<Path, Data>): State {
    s.(disk := disk, transfers := s.transfers[id := row], progress := s.progress[id := entry])
  }

  lemma UpdateKeepsCached(s: State, id: nat, row: TransferRow, entry: Progress, disk: map<Path, Data>)
    requires Linked(s) && Cached(s) && id in s.progress
    requires row.fileId == s.transfers[id].fileId && row.status == s.transfers[id].status
    requires Coherent(row, FileOf(s, id), entry)
    requires disk.Keys == s.disk.Keys
    ensures Linked(Update(s, id, row, entry, disk)) && Cached(Update(s, id, row, entry, disk))
  {}

  /** Replacing one entry and its row by a coherent pair, and overwriting bytes, keeps the invariant. */
  lemma UpdateKeeps(s: State, id: nat, row: TransferRow, entry: Progress, disk: map<Path, Data>)
    requires Inv(s) && id in s.progress
    requires row.fileId == s.transfers[id].fileId && row.direction == s.transfers[id].direction
    requires row.status == s.transfers[id].status
    requires Coherent(row, FileOf(s, id), entry)
    requires disk.Keys == s.disk.Keys
    ensures Inv(Update(s, id, row, entry, disk))
  {
    hide Coherent;
    UpdateKeepsCached(s, id, row, entry, disk);
    SameRowsKeepOwned(s, Update(s, id, row, entry, disk));
  }

  lemma FlushKeeps(s: State, id: nat)
    requires Inv(s)
    ensures Inv(Flush(s, id))
    ensures id in s.progress ==> !Flush(s, id).progress[id].dirty
  {
    if id in s.progress && s.progress[id].dirty {
      var row, entry := s.transfers[id], s.progress[id];
      assert Coherent(row, FileOf(s, id), entry);
      UpdateKeeps(s, id, Recorded(row, entry), entry.(dirty := false), s.disk);
    }
  }

  lemma StoreIsUpdate(s: State, id: nat, offset: nat, data: Data, now: int)
    requires id in s.progress && s.progress[id].path in s.disk && id in s.transfers
    ensures var stored := StoreChunk(s, id, offset, data, now);
            && stored.disk.Keys == s.disk.Keys
            && stored == Update(s, id, s.transfers[id], stored.progress[id], stored.disk)
            && Flush(stored, id) == Update(s, id, Recorded(s.transfers[id], stored.progress[id]),
                                           stored.progress[id].(dirty := false), stored.disk)
  {}

  lemma RecordKeeps(s: State, id: nat, index: int, offset: nat, data: Data, now: int)
    requires Inv(s) && id in s.progress
    ensures id in s.transfers && s.progress[id].path in s.disk
    ensures Inv(RecordChunk(s, id, index, offset, data, now))
  {
    var row := s.transfers[id];
    assert Coherent(row, FileOf(s, id), s.progress[id]);
    StoreIsUpdate(s, id, offset, data, now);
    var stored := StoreChunk(s, id, offset, data, now);
    var entry := stored.progress[id];
    CountKeepsLag(row, FileOf(s, id), s.progress[id], entry);
    if ShouldFlush(index, entry) {
      UpdateKeeps(s, id, Recorded(row, entry), entry.(dirty := false), stored.disk);
    } else {
      UpdateKeeps(s, id, row, entry, stored.disk);
    }
  }

  lemma ChunkKeeps(s: State, id: nat, index: int, data: Data, now: int)
    requires Inv(s)
    ensures Inv(UploadChunk(s, id, index, data, now).0)
  {
    if Accepts(s, id) {
      OpenKeeps(s, id, now);
      var loaded := OpenEntry(s, id, now);
      var offset := index * loaded.progress[id].chunkSize;
      if offset >= 0 {
        RecordKeeps(loaded, id, index, offset, data, now);
      }
    }
  }

  lemma CloseKeeps(s: State, id: nat)
    requires Inv(s)
    ensures Inv(Close(s, id))
  {}

  lemma PublishKeepsCached(s: State, id: nat)
    requires Linked(s) && Cached(s) && Joined(s, id)
    ensures Linked(Publish(s, id)) && Cached(Publish(s, id))
  {
    var after := Publish(s, id);
    forall t | t in after.progress
      ensures after.transfers[t].status != Completed
      ensures Coherent(after.transfers[t], FileOf(after, t), after.progress[t])
    {
      assert Coherent(s.transfers[t], FileOf(s, t), s.progress[t]);
    }
  }

  lemma PublishKeeps(s: State, id: nat)
    requires Inv(s) && Joined(s, id)
    ensures Inv(Publish(s, id))
  {
    hide Coherent;
    PublishKeepsCached(s, id);
    var after := Publish(s, id);
    forall t | t in s.transfers
      ensures Settled(after.transfers[t], FileOf(after, t))
    {
      if t != id {
        assert Follows(s.transfers[t], s.transfers[id]);
      }
    }
    SameRowsKeepOwned(s, after);
  }

  lemma FinishKeeps(s: State, id: nat, sha256: Data -> Digest)
    requires Inv(s)
    ensures Inv(UploadFinish(s, id, sha256).0)
  {
    CloseKeeps(s, id);
    FlushKeeps(Close(s, id), id);
    var flushed := Flush(Close(s, id), id);
    if Joined(flushed, id) {
      PublishKeeps(flushed, id);
    }
  }

  lemma FetchKeeps(s: State, fileId: nat, userId: int, now: int)
    requires Inv(s)
    ensures Inv(DownloadRequest(s, fileId, userId, now).0)
  {
    if fileId in s.files && s.files[fileId].status == Available {
      hide Coherent;
      var after := DownloadRequest(s, fileId, userId, now).0;
      assert Linked(after);
      NewRowKeepsCached(s, after);
      NewRowKeepsOwned(s, after, after.transfers[s.nextTransfer]);
    }
  }

  lemma ExpireKeepsCached(s: State, threshold: int)
    requires Linked(s) && Cached(s)
    ensures Linked(ExpireTransfers(s, threshold)) && Cached(ExpireTransfers(s, threshold))
  {
    var after := ExpireTransfers(s, threshold);
    forall t | t in s.progress
      ensures after.transfers[t].status != Completed
      ensures Coherent(after.transfers[t], FileOf(after, t), after.progress[t])
    {
      assert Coherent(s.transfers[t], FileOf(s, t), s.progress[t]);
    }
  }

  lemma ExpireKeeps(s: State, threshold: int)
    requires Inv(s)
    ensures Inv(ExpireTransfers(s, threshold))
  {
    hide Coherent;
    ExpireKeepsCached(s, threshold);
    SameRowsKeepOwned(s, ExpireTransfers(s, threshold));
  }

  lemma CleanupKeepsCached(s: State)
    requires Linked(s) && Cached(s)
    ensures Linked(FlushAll(s)) && Cached(FlushAll(s))
  {
    var after := FlushAll(s);
    forall t | t in s.progress
      ensures after.transfers[t].status != Completed
      ensures Coherent(after.transfers[t], FileOf(after, t), after.progress[t])
    {
      assert Coherent(s.transfers[t], FileOf(s, t), s.progress[t]);
    }
  }

  lemma CleanupKeeps(s: State)
    requires Inv(s)
    ensures Inv(FlushAll(s))
  {
    hide Coherent;
    CleanupKeepsCached(s);
    SameRowsKeepOwned(s, FlushAll(s));
  }

  lemma DeleteKeeps(s: State, fileId: nat)
    requires Inv(s)
    ensures Inv(DeleteFile(s, fileId))
  {
    hide Follows;
  }

  lemma StepKeepsInv(s: State, e: Event, sha256: Data -> Digest)
    requires Inv(s) && FreshPath(s, e)
    ensures Inv(Step(s, e, sha256).0)
  {
    hide Inv, UploadInit, UploadChunk, Flush, UploadFinish, DownloadRequest, ExpireTransfers, FlushAll, DeleteFile;
    match e
    case Init(_, _, _, _) => InitKeeps(s, e, sha256);
    case Chunk(id, index, data, now) => ChunkKeeps(s, id, index, data, now);
    case FlushOne(id) => FlushKeeps(s, id);
    case Finish(id) => FinishKeeps(s, id, sha256);
    case Fetch(fileId, userId, now) => FetchKeeps(s, fileId, userId, now);
    case Resume(id, _, _, _) => FlushKeeps(s, id);
    case Expire(threshold) => ExpireKeeps(s, threshold);
    case Cleanup => CleanupKeeps(s);
    case Delete(fileId) => DeleteKeeps(s, fileId);
  }
}
