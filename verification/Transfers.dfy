/** The upload and download handlers of a process server as steps on its tables, disk and
    progress cache. The class `ProcessServer.TransferEngine` performs exactly these steps. */
module Transfers {
  import opened Wrappers
  import opened Bytes

  type Digest = string
  type Path = string

  datatype FileStatus = Uploading | Available | Deleted

  datatype FileRow = FileRow(
    path: Path, checksum: Digest, chunkSize: int, totalChunks: int, status: FileStatus,
    roomId: int, uploaderId: int, size: int)

  datatype TransferStatus = InProgress | Completed | Failed

  datatype Direction = Upload | Download

  datatype TransferRow = TransferRow(
    fileId: nat, roomId: int, userId: int, direction: Direction, status: TransferStatus,
    totalChunks: int, completedChunks: nat, bytesTransferred: nat, lastActivity: int)

  /** A write-back cache entry in front of one `file_transfers` row. `open` is the file handle. */
  datatype Progress = Progress(
    path: Path, chunkSize: int, totalChunks: int, completedChunks: nat, bytesTransferred: nat,
    lastActivity: int, dirty: bool, open: bool)

  datatype State = State(
    disk: map<Path, Data>, files: map<nat, FileRow>, transfers: map<nat, TransferRow>,
    progress: map<nat, Progress>, nextFile: nat, nextTransfer: nat)

  const EMPTY := State(map[], map[], map[], map[], 1, 1)

  const MAX_FILE_SIZE := 1024 * 1024 * 1024

  datatype ErrorCode = 
    MissingField | FileTooLarge | InvalidPacket | InvalidToken | InternalError | ChecksumFailed | FileNotFound

  datatype Reply =
    | UploadReady(transferId: nat, startChunk: int)
    | ChunkAck(transferId: nat, chunkIndex: int)
    | UploadSuccess(transferId: nat)
    | DownloadReady(transferId: nat, startChunk: int, totalChunks: int, chunkSize: int, checksum: Digest)
    | Error(code: ErrorCode)
    | Silence

  /** What an `UPLOAD_INIT` packet carries. A zero or empty field counts as missing. */
  datatype Offer = Offer(
    roomId: int, roomName: string, filename: string, filesize: int, chunkSize: int, totalChunks: int,
    checksum: Digest)
  {
    /** A room given by name only is looked up in the rooms table. */
    function Located(rooms: map<string, int>): Offer {
      if roomId == 0 && roomName != "" then
        this.(roomId := if roomName in rooms then rooms[roomName] else 0)
      else
        this
    }

    predicate Complete() {
      roomId != 0 && filename != "" && filesize != 0 && chunkSize != 0 && totalChunks != 0 && checksum != ""
    }
  }

  /** `path` is the fresh path the server drew for the file; the offer names its room by identifier. */
  function UploadInit(s: State, offer: Offer, userId: int, path: Path, now: int): (State, Reply) {
    if !offer.Complete() then
      (s, Error(MissingField))
    else if offer.filesize > MAX_FILE_SIZE then
      (s, Error(FileTooLarge))
    else
      var file := FileRow(path, offer.checksum, offer.chunkSize, offer.totalChunks, Uploading,
                          offer.roomId, userId, offer.filesize);
      var transfer := TransferRow(
        s.nextFile, offer.roomId, userId, Upload, InProgress, offer.totalChunks, 0, 0, now);
      (s.(disk := s.disk[path := []],
          files := s.files[s.nextFile := file],
          transfers := s.transfers[s.nextTransfer := transfer],
          nextFile := s.nextFile + 1,
          nextTransfer := s.nextTransfer + 1),
       UploadReady(s.nextTransfer, 0))
  }

  /** The join of a transfer with its file has a row. */
  predicate Joined(s: State, id: nat) {
    id in s.transfers && s.transfers[id].fileId in s.files
  }

  function FileOf(s: State, id: nat): FileRow
    requires Joined(s, id)
  {
    s.files[s.transfers[id].fileId]
  }

  /** An `UPLOAD_CHUNK` for this transfer gets past the lookup. */
  predicate Accepts(s: State, id: nat) {
    id in s.progress || (Joined(s, id) && s.transfers[id].status == InProgress)
  }

  /** The cache entry the handler works with: the cached one, or a fresh copy of the row. */
  function Entry(s: State, id: nat, now: int): Progress
    requires Accepts(s, id)
  {
    if id in s.progress then
      s.progress[id]
    else
      var row, file := s.transfers[id], FileOf(s, id);
      Progress(file.path, file.chunkSize, row.totalChunks, row.completedChunks, row.bytesTransferred, now, false, false)
  }

  predicate ShouldFlush(index: int, entry: Progress) {
    index == 0 || entry.completedChunks % 20 == 0 || index + 1 == entry.totalChunks
  }

  /** The handle is loaded for update, which keeps what the file already holds. */
  function OpenEntry(s: State, id: nat, now: int): State
    requires Accepts(s, id)
  {
    var entry := Entry(s, id, now).(open := true);
    s.(disk := if entry.path in s.disk then s.disk else s.disk[entry.path := []],
       progress := s.progress[id := entry])
  }

  function StoreChunk(s: State, id: nat, offset: nat, data: Data, now: int): State
    requires id in s.progress && s.progress[id].path in s.disk
  {
    var entry := s.progress[id];
    s.(disk := s.disk[entry.path := WriteAt(s.disk[entry.path], offset, data)],
       progress := s.progress[id := entry.(
                     completedChunks := entry.completedChunks + 1,
                     bytesTransferred := entry.bytesTransferred + |data|,
                     lastActivity := now,
                     dirty := true)])
  }

  /** Write, count, and on the first, the last and every twentieth chunk bring the row up to date. */
  function RecordChunk(s: State, id: nat, index: int, offset: nat, data: Data, now: int): State
    requires id in s.progress && s.progress[id].path in s.disk
  {
    var stored := StoreChunk(s, id, offset, data, now);
    if ShouldFlush(index, stored.progress[id]) then Flush(stored, id) else stored
  }

  function UploadChunk(s: State, id: nat, index: int, data: Data, now: int): (State, Reply) {
    if !Accepts(s, id) then
      (s, Error(InvalidPacket))
    else
      var loaded := OpenEntry(s, id, now);
      var offset := index * loaded.progress[id].chunkSize;
      if offset < 0 then
        (loaded, Error(InternalError))
      else
        (RecordChunk(loaded, id, index, offset, data, now), ChunkAck(id, index))
  }

  function Recorded(row: TransferRow, entry: Progress): TransferRow {
    row.(completedChunks := entry.completedChunks,
         bytesTransferred := entry.bytesTransferred,
         lastActivity := entry.lastActivity)
  }

  /** Write one dirty cache entry back to its row. */
  function Flush(s: State, id: nat): State {
    if id !in s.progress || !s.progress[id].dirty then
      s
    else
      s.(transfers := if id in s.transfers
                      then s.transfers[id := Recorded(s.transfers[id], s.progress[id])]
                      else s.transfers,
         progress := s.progress[id := s.progress[id].(dirty := false)])
  }

  function Close(s: State, id: nat): State {
    if id in s.progress then s.(progress := s.progress[id := s.progress[id].(open := false)]) else s
  }

  /** Flush and close the entries of `ids`, which is all of them when a client goes away. */
  function FlushEach(s: State, ids: set<nat>): State {
    s.(transfers := map t | t in s.transfers :: if t in ids && t in s.progress && s.progress[t].dirty
                                                then Recorded(s.transfers[t], s.progress[t])
                                                else s.transfers[t],
       progress := map t | t in s.progress :: if t in ids then s.progress[t].(dirty := false, open := false)
                                              else s.progress[t])
  }

  function FlushAll(s: State): State {
    FlushEach(s, s.progress.Keys)
  }

  function UploadFinish(s: State, id: nat, sha256: Data -> Digest): (State, Reply) {
    var flushed := Flush(Close(s, id), id);
    if !Joined(flushed, id) then
      (flushed, Silence)
    else if FileOf(flushed, id).path !in flushed.disk then
      (flushed, Error(InternalError))
    else if sha256(flushed.disk[FileOf(flushed, id).path]) != FileOf(flushed, id).checksum then
      (flushed, Error(ChecksumFailed))
    else
      (Publish(flushed, id), UploadSuccess(id))
  }

  /** The hash matched: the file becomes available and the transfer leaves the cache. */
  function Publish(s: State, id: nat): State
    requires Joined(s, id)
  {
    var fileId := s.transfers[id].fileId;
    s.(files := s.files[fileId := s.files[fileId].(status := Available)],
       transfers := s.transfers[id := s.transfers[id].(status := Completed)],
       progress := s.progress - {id})
  }

  function DownloadRequest(s: State, fileId: nat, userId: int, now: int): (State, Reply) {
    if fileId !in s.files || s.files[fileId].status != Available then
      (s, Error(FileNotFound))
    else
      var file := s.files[fileId];
      var transfer := TransferRow(fileId, file.roomId, userId, Download, InProgress, file.totalChunks, 0, 0, now);
      (s.(transfers := s.transfers[s.nextTransfer := transfer], nextTransfer := s.nextTransfer + 1),
       DownloadReady(s.nextTransfer, 0, file.totalChunks, file.chunkSize, file.checksum))
  }

  /** `user` is who the connection belongs to, if it is still known. `direction` is what the packet
      says, not what the row says, and absent when it says neither; `start` only matters to downloads. */
  function ResumeTransfer(s: State, id: nat, user: Option<int>, direction: Option<Direction>, start: int)
    : (State, Reply)
  {
    var flushed := Flush(s, id);
    if user.None? then
      (flushed, Error(InvalidToken))
    else if !Resumable(flushed, id, user.value) then
      (flushed, Error(InvalidPacket))
    else
      match direction
      case Some(Upload) => (flushed, UploadReady(id, flushed.transfers[id].completedChunks))
      case Some(Download) =>
        var row, file := flushed.transfers[id], FileOf(flushed, id);
        (flushed, DownloadReady(id, start, row.totalChunks, file.chunkSize, file.checksum))
      case None => (flushed, Silence)
  }

  /** The query finds an unfinished transfer of this user. */
  predicate Resumable(s: State, id: nat, userId: int) {
    Joined(s, id) && s.transfers[id].userId == userId && s.transfers[id].status == InProgress
  }

  /** Rows that saw no activity since `threshold` are marked failed; the cache is not consulted. */
  function ExpireTransfers(s: State, threshold: int): State {
    s.(transfers := map t | t in s.transfers ::
         if s.transfers[t].status == InProgress && s.transfers[t].lastActivity < threshold
         then s.transfers[t].(status := Failed)
         else s.transfers[t])
  }

  /** The row update behind deleting a file; the bytes stay on disk. */
  function DeleteFile(s: State, fileId: nat): State {
    if fileId in s.files then s.(files := s.files[fileId := s.files[fileId].(status := Deleted)]) else s
  }

  datatype Event =
    | Init(offer: Offer, userId: int, path: Path, now: int)
    | Chunk(id: nat, index: int, data: Data, now: int)
    | FlushOne(id: nat)
    | Finish(id: nat)
    | Fetch(fileId: nat, userId: int, now: int)
    | Resume(id: nat, user: Option<int>, direction: Option<Direction>, start: int)
    | Expire(threshold: int)
    | Cleanup
    | Delete(fileId: nat)

  function Step(s: State, e: Event, sha256: Data -> Digest): (State, Reply) {
    match e
    case Init(offer, userId, path, now) => UploadInit(s, offer, userId, path, now)
    case Chunk(id, index, data, now) => UploadChunk(s, id, index, data, now)
    case FlushOne(id) => (Flush(s, id), Silence)
    case Finish(id) => UploadFinish(s, id, sha256)
    case Fetch(fileId, userId, now) => DownloadRequest(s, fileId, userId, now)
    case Resume(id, user, direction, start) => ResumeTransfer(s, id, user, direction, start)
    case Expire(threshold) => (ExpireTransfers(s, threshold), Silence)
    case Cleanup => (FlushAll(s), Silence)
    case Delete(fileId) => (DeleteFile(s, fileId), Silence)
  }

  /** Paths are drawn at random: an accepted offer never reuses one. */
  predicate FreshPath(s: State, e: Event) {
    e.Init? ==> e.path !in s.disk
  }

  function Run(s: State, events: seq<Event>, sha256: Data -> Digest): State
    decreases |events|
  {
    if events == [] then s else Run(Step(s, events[0], sha256).0, events[1..], sha256)
  }

  predicate FreshPaths(s: State, events: seq<Event>, sha256: Data -> Digest)
    decreases |events|
  {
    events == [] || (FreshPath(s, events[0]) && FreshPaths(Step(s, events[0], sha256).0, events[1..], sha256))
  }
}
