/** One upload, told from the events alone: which of its chunks the server takes, what its row says
    and when it counts as stale. */
module UploadHistory {
  import opened Wrappers
  import opened Bytes
  import opened Reassembly
  import opened Transfers
  import opened TransferInvariants
  import opened StoredFiles
  import opened UploadRuns
  import opened UploadTheorems

  /** `sent` are the chunks taken, the first `kept` of which the row counts; `heard` is when the last one
      came, `noted` the time the row has for it; `loaded` says that a chunk brought the transfer into the
      cache, `open` that the server holds the file open, and `failed` that a sweep gave it up. */
  datatype Chronicle = Chronicle(
    sent: seq<nat>, kept: nat, heard: int, noted: int, loaded: bool, open: bool, failed: bool)

  /** The row catches up with what was taken. */
  function CaughtUp(c: Chronicle): Chronicle {
    c.(kept := |c.sent|, noted := c.heard)
  }

  /** A sweep looks at the row alone, and a transfer it gave up takes no chunk unless it is in the cache.
      The first and the last chunk and every twentieth bring the row up to date, and so does every
      request that flushes. */
  function Record(c: Chronicle, job: Job, h: Happening): Chronicle
    requires job.Proper()
  {
    match h
    case Deliver(i, now) =>
      if c.failed && !c.loaded then
        c
      else
        var more := c.(sent := c.sent + [i], heard := now, loaded := true, open := true);
        if i == 0 || i == job.Total() - 1 || |more.sent| % 20 == 0 then CaughtUp(more) else more
    case Elsewhere(e) =>
      match e
      case FlushOne(id) => if id == job.id then CaughtUp(c) else c
      case Resume(id, _, _, _) => if id == job.id then CaughtUp(c) else c
      case Finish(id) => if id == job.id then CaughtUp(c).(open := false) else c
      case Cleanup => CaughtUp(c).(open := false)
      case Expire(threshold) => if c.noted < threshold then c.(failed := true) else c
      case _ => c
  }

  function Story(c: Chronicle, job: Job, run: seq<Happening>): Chronicle
    requires job.Proper()
    decreases |run|
  {
    if run == [] then c else Story(Record(c, job, run[0]), job, run[1..])
  }

  /** The state holds what the chronicle says, in row, cache and file. */
  ghost predicate Holds(s: State, job: Job, c: Chronicle) {
    && Tracks(s, job, c.sent) && c.kept <= |c.sent|
    && RowHolds(s.transfers[job.id], job, c)
    && (job.id in s.progress <==> c.loaded)
    && (if c.loaded then
          && s.progress[job.id].lastActivity == c.heard && s.progress[job.id].open == c.open
          && (!s.progress[job.id].dirty ==> c == CaughtUp(c))
        else
          c == CaughtUp(c) && !c.open)
  }

  ghost predicate RowHolds(row: TransferRow, job: Job, c: Chronicle)
    requires job.Proper() && c.kept <= |c.sent|
  {
    && row.completedChunks == c.kept
    && row.bytesTransferred == TotalLength(job, c.sent[..c.kept])
    && row.lastActivity == c.noted
    && row.status == if c.failed then Failed else InProgress
  }

  lemma FlushHolds(s: State, job: Job, c: Chronicle)
    requires Inv(s) && Holds(s, job, c)
    ensures Holds(Flush(s, job.id), job, CaughtUp(c))
  {
    FlushUndisturbed(s, job, job.id);
    assert c.sent[..|c.sent|] == c.sent;
  }

  lemma CleanupHolds(s: State, job: Job, c: Chronicle)
    requires Inv(s) && Holds(s, job, c)
    ensures Holds(FlushAll(s), job, CaughtUp(c).(open := false))
  {
    SweepUndisturbed(s, job);
    assert c.sent[..|c.sent|] == c.sent;
  }

  lemma ExpireHolds(s: State, job: Job, c: Chronicle, threshold: int)
    requires Inv(s) && Holds(s, job, c)
    ensures Holds(ExpireTransfers(s, threshold), job, if c.noted < threshold then c.(failed := true) else c)
  {
    SweepUndisturbed(s, job);
  }

  /** Row and cache entry of this upload are not touched. */
  ghost predicate Aside(s: State, after: State, id: nat) {
    && id in s.transfers && id in after.transfers && after.transfers[id] == s.transfers[id]
    && (id in after.progress <==> id in s.progress)
    && (id in s.progress ==> after.progress[id] == s.progress[id])
  }

  lemma AsideHolds(s: State, after: State, job: Job, c: Chronicle)
    requires Holds(s, job, c) && Aside(s, after, job.id) && Tracks(after, job, c.sent)
    ensures Holds(after, job, c)
  {}

  predicate Concerns(e: Event, id: nat) {
    e.Cleanup? || e.Expire? || ((e.FlushOne? || e.Resume? || e.Finish? || e.Chunk?) && e.id == id)
  }

  lemma FlushAside(s: State, other: nat, id: nat)
    requires id in s.transfers && id != other
    ensures Aside(s, Flush(s, other), id)
  {}

  lemma NewRowsAside(s: State, e: Event, id: nat, sha256: Data -> Digest)
    requires Linked(s) && id in s.transfers && (e.Init? || e.Fetch?)
    ensures Aside(s, Step(s, e, sha256).0, id)
  {}

  lemma ChunkAside(s: State, other: nat, index: int, data: Data, now: int, id: nat)
    requires id in s.transfers && id != other
    ensures Aside(s, UploadChunk(s, other, index, data, now).0, id)
  {
    if Accepts(s, other) {
      ChunkOnly(s, other, index, data, now);
    }
  }

  lemma OthersStayAside(s: State, e: Event, id: nat, sha256: Data -> Digest)
    requires Linked(s) && id in s.transfers && !Concerns(e, id)
    ensures Aside(s, Step(s, e, sha256).0, id)
  {
    hide UploadChunk, UploadFinish, Flush, Linked, UploadInit, DownloadRequest;
    match e
    case Chunk(t, index, data, now) => ChunkAside(s, t, index, data, now, id);
    case Finish(t) => FinishOnly(s, t, sha256);
    case FlushOne(t) => FlushAside(s, t, id);
    case Resume(t, _, _, _) => FlushAside(s, t, id);
    case Init(_, _, _, _) => NewRowsAside(s, e, id, sha256);
    case Fetch(_, _, _) => NewRowsAside(s, e, id, sha256);
    case _ =>
  }

  lemma CloseHolds(s: State, job: Job, c: Chronicle)
    requires Inv(s) && Holds(s, job, c)
    ensures Holds(Close(s, job.id), job, c.(open := false))
  {
    hide Inv, IsImage;
  }

  lemma RefusedIsFlush(s: State, id: nat, sha256: Data -> Digest)
    requires UploadFinish(s, id, sha256).1.Error?
    ensures UploadFinish(s, id, sha256).0 == Flush(Close(s, id), id)
  {}

  lemma FinishHolds(s: State, job: Job, c: Chronicle, sha256: Data -> Digest)
    requires Inv(s) && Holds(s, job, c) && UploadFinish(s, job.id, sha256).1.Error?
    ensures Holds(UploadFinish(s, job.id, sha256).0, job, CaughtUp(c).(open := false))
  {
    hide Inv, Holds, UploadFinish, Close, Flush;
    CloseKeeps(s, job.id);
    CloseHolds(s, job, c);
    FlushHolds(Close(s, job.id), job, c.(open := false));
    RefusedIsFlush(s, job.id, sha256);
  }

  lemma TakenIff(s: State, job: Job, c: Chronicle)
    requires Holds(s, job, c)
    ensures Accepts(s, job.id) <==> !c.failed || c.loaded
  {}

  lemma ConcernHolds(s: State, job: Job, c: Chronicle, e: Event, sha256: Data -> Digest)
    requires Inv(s) && Holds(s, job, c) && Concerns(e, job.id) && !e.Chunk?
    requires e.Finish? ==> UploadFinish(s, job.id, sha256).1.Error?
    ensures Holds(Step(s, e, sha256).0, job, Record(c, job, Elsewhere(e)))
  {
    hide Inv, Holds, Flush, UploadFinish, ExpireTransfers, FlushAll, CaughtUp;
    match e
    case FlushOne(_) => FlushHolds(s, job, c);
    case Resume(_, _, _, _) => FlushHolds(s, job, c);
    case Finish(_) => FinishHolds(s, job, c, sha256);
    case Cleanup => CleanupHolds(s, job, c);
    case Expire(threshold) => ExpireHolds(s, job, c, threshold);
  }

  lemma OthersHold(s: State, job: Job, c: Chronicle, e: Event, sha256: Data -> Digest)
    requires Inv(s) && Holds(s, job, c) && Allowed(s, job, Elsewhere(e), sha256) && !Concerns(e, job.id)
    ensures Holds(Step(s, e, sha256).0, job, c)
  {
    assert Linked(s) && job.id in s.transfers && Tracks(s, job, c.sent);
    hide Holds, Tracks, Inv, Linked, Step;
    OthersStayAside(s, e, job.id, sha256);
    HappenTracks(s, job, c.sent, Elsewhere(e), sha256);
    hide Aside, Allowed;
    AsideHolds(s, Step(s, e, sha256).0, job, c);
  }

  lemma ElsewhereHolds(s: State, job: Job, c: Chronicle, e: Event, sha256: Data -> Digest)
    requires Inv(s) && Holds(s, job, c) && Allowed(s, job, Elsewhere(e), sha256)
    ensures Holds(Step(s, e, sha256).0, job, Record(c, job, Elsewhere(e)))
  {
    hide Inv, Holds, Step, UploadFinish;
    if Concerns(e, job.id) {
      ConcernHolds(s, job, c, e, sha256);
    } else {
      OthersHold(s, job, c, e, sha256);
    }
  }

  /** The row and the entry after an accepted chunk. */
  lemma DeliverWrites(s: State, job: Job, c: Chronicle, index: nat, now: int)
    requires Inv(s) && Holds(s, job, c) && Accepts(s, job.id) && index < job.Total()
    ensures var after := UploadChunk(s, job.id, index, job.Chunk(index), now).0;
            var flushed := index == 0 || index == job.Total() - 1 || (|c.sent| + 1) % 20 == 0;
            && job.id in after.progress && job.id in after.transfers
            && after.progress[job.id].lastActivity == now && after.progress[job.id].open
            && after.progress[job.id].dirty == !flushed
            && after.transfers[job.id] == if flushed then Recorded(s.transfers[job.id], after.progress[job.id])
                                          else s.transfers[job.id]
  {
    EntryMatches(s, job.id, now);
    assert job.id in s.progress ==> Coherent(s.transfers[job.id], FileOf(s, job.id), s.progress[job.id]);
    assert Counted(s, job.id) == |c.sent| && s.transfers[job.id].totalChunks == job.Total();
    hide Inv, Holds, IsImage, Joined;
  }

  predicate BringsUpToDate(job: Job, c: Chronicle, index: nat)
    requires job.Proper()
  {
    index == 0 || index == job.Total() - 1 || (|c.sent| + 1) % 20 == 0
  }

  lemma TakenHolds(s: State, after: State, job: Job, c: Chronicle, index: nat, now: int)
    requires Holds(s, job, c) && Tracks(after, job, c.sent + [index]) && !(c.failed && !c.loaded)
    requires job.id in after.progress && after.progress[job.id].lastActivity == now && after.progress[job.id].open
    requires after.progress[job.id].dirty == !BringsUpToDate(job, c, index)
    requires after.transfers[job.id] == if BringsUpToDate(job, c, index)
                                        then Recorded(s.transfers[job.id], after.progress[job.id])
                                        else s.transfers[job.id]
    ensures Holds(after, job, Record(c, job, Deliver(index, now)))
  {
    hide IsImage, InFile;
    var more := c.sent + [index];
    assert more[..c.kept] == c.sent[..c.kept] && more[..|more|] == more;
  }

  lemma DeliverAnswer(s: State, job: Job, c: Chronicle, index: nat, now: int)
    requires Inv(s) && Holds(s, job, c) && index < job.Total()
    ensures var (after, reply) := UploadChunk(s, job.id, index, job.Chunk(index), now);
            if c.failed && !c.loaded then after == s && reply == Error(InvalidPacket)
            else reply == ChunkAck(job.id, index) && Tracks(after, job, c.sent + [index])
  {
    TakenIff(s, job, c);
    if Accepts(s, job.id) {
      assert Tracks(s, job, c.sent);
      hide UploadChunk, Inv, Holds, IsImage;
      ChunkCounts(s, job.id, index, job.Chunk(index), now);
      DeliverTracks(s, job, c.sent, index, now);
    }
  }

  lemma DeliverHolds(s: State, job: Job, c: Chronicle, index: nat, now: int)
    requires Inv(s) && Holds(s, job, c) && index < job.Total()
    ensures var after := UploadChunk(s, job.id, index, job.Chunk(index), now).0;
            Holds(after, job, Record(c, job, Deliver(index, now)))
  {
    DeliverAnswer(s, job, c, index, now);
    TakenIff(s, job, c);
    if Accepts(s, job.id) {
      DeliverWrites(s, job, c, index, now);
      hide UploadChunk, Inv, Tracks, Holds, Accepts, Record;
      TakenHolds(s, UploadChunk(s, job.id, index, job.Chunk(index), now).0, job, c, index, now);
    }
  }

  /** The next state and the chunks taken, after one happening. */
  ghost predicate Told(s: State, job: Job, c: Chronicle, h: Happening, sha256: Data -> Digest)
    requires job.Proper()
  {
    var (after, sent) := Happen(s, job, c.sent, h, sha256);
    Holds(after, job, Record(c, job, h)) && sent == Record(c, job, h).sent
  }

  lemma DeliverTold(s: State, job: Job, c: Chronicle, index: nat, now: int, sha256: Data -> Digest)
    requires Inv(s) && Holds(s, job, c) && index < job.Total()
    ensures Told(s, job, c, Deliver(index, now), sha256)
  {
    DeliverHolds(s, job, c, index, now);
    DeliverAnswer(s, job, c, index, now);
    hide Inv, Holds, UploadChunk, Tracks;
  }

  lemma ElsewhereTold(s: State, job: Job, c: Chronicle, e: Event, sha256: Data -> Digest)
    requires Inv(s) && Holds(s, job, c) && Allowed(s, job, Elsewhere(e), sha256)
    ensures Told(s, job, c, Elsewhere(e), sha256)
  {
    hide Inv, Holds, Step;
    ElsewhereHolds(s, job, c, e, sha256);
  }

  lemma HappenTold(s: State, job: Job, c: Chronicle, h: Happening, sha256: Data -> Digest)
    requires Inv(s) && Holds(s, job, c) && Allowed(s, job, h, sha256)
    ensures Told(s, job, c, h, sha256)
  {
    hide Inv, Holds, Told;
    match h
    case Deliver(index, now) => DeliverTold(s, job, c, index, now, sha256);
    case Elsewhere(e) => ElsewhereTold(s, job, c, e, sha256);
  }

  /** Over every run of anything else, the upload is exactly what its own events make of it. */
  lemma {:induction false} UploadIsItsStory(s: State, job: Job, c: Chronicle, run: seq<Happening>,
                                            sha256: Data -> Digest)
    requires Inv(s) && Holds(s, job, c) && AllAllowed(s, job, run, sha256)
    ensures var (end, sent) := Follow(s, job, c.sent, run, sha256);
            Inv(end) && Holds(end, job, Story(c, job, run)) && sent == Story(c, job, run).sent
    decreases |run|
  {
    if run != [] {
      HappenTracks(s, job, c.sent, run[0], sha256);
      HappenTold(s, job, c, run[0], sha256);
      HappenIsBlind(s, job, c.sent, run[0], sha256);
      hide Happen, Inv, Holds, Record, Tracks;
      var after := Happen(s, job, c.sent, run[0], sha256).0;
      UploadIsItsStory(after, job, Record(c, job, run[0]), run[1..], sha256);
    }
  }

  /** How the story begins. */
  lemma InitHolds(s: State, job: Job, offer: Offer, path: Path, now: int, sha256: Data -> Digest)
    requires Inv(s) && path !in s.disk && Offers(offer, job, sha256) && job.id == s.nextTransfer
    ensures var after := UploadInit(s, offer, job.userId, path, now).0;
            Inv(after) && Holds(after, job, Chronicle([], 0, now, now, false, false, false))
  {
    InitStartsTracking(s, job, offer, path, now, sha256);
  }

  lemma HappenIsBlind(s: State, job: Job, sent: seq<nat>, h: Happening, sha256: Data -> Digest)
    requires job.Proper()
    ensures Happen(s, job, sent, h, sha256).0 == Happen(s, job, [], h, sha256).0
  {}

  /** What a request to go on is told. */
  lemma ResumeTellsStory(s: State, job: Job, c: Chronicle, start: int)
    requires Inv(s) && Holds(s, job, c)
    ensures ResumeTransfer(s, job.id, Some(job.userId), Some(Upload), start).1 ==
            if c.failed then Error(InvalidPacket) else UploadReady(job.id, |c.sent|)
  {
    ResumeTellsCount(s, job, c.sent, start);
  }

  /** The server comes back with its tables and its disk, but with an empty cache. */
  function Restarted(s: State): State {
    s.(progress := map[])
  }

  /** A server that was stopped properly knows the upload again as it was. */
  lemma StopAndRestart(s: State, job: Job, c: Chronicle)
    requires Inv(s) && Holds(s, job, c)
    ensures var restarted := Restarted(FlushAll(s));
            Inv(restarted) && Holds(restarted, job, CaughtUp(c).(loaded := false, open := false))
  {
    CleanupKeeps(s);
    CleanupHolds(s, job, c);
    EmptyCacheKeeps(FlushAll(s));
    hide FlushAll;
    CaughtUpRestarts(FlushAll(s), job, CaughtUp(c).(open := false));
  }

  lemma CaughtUpRestarts(s: State, job: Job, c: Chronicle)
    requires Inv(s) && Holds(s, job, c) && c == CaughtUp(c)
    ensures Holds(Restarted(s), job, c.(loaded := false, open := false))
  {
    hide Inv;
    assert c.sent[..|c.sent|] == c.sent;
  }

  lemma EmptyCacheKeeps(s: State)
    requires Inv(s)
    ensures Inv(Restarted(s))
  {}

  /** Without that, the count survives exactly when the row had caught up; the bytes on disk are the same
      either way. */
  lemma RestartKeepsCountIff(s: State, job: Job, c: Chronicle)
    requires Inv(s) && Holds(s, job, c)
    ensures Tracks(Restarted(s), job, c.sent) <==> c.kept == |c.sent|
    ensures Running(Restarted(s), job) && Stored(Restarted(s), job) == Stored(s, job)
    ensures Counted(Restarted(s), job.id) == c.kept
  {
    assert c.sent[..|c.sent|] == c.sent;
  }

  /** A sweep fails an upload exactly when the row is too old, which an upload may be that is sending: here
      a chunk has come at 200, the row still says 0, and a sweep for everything before 100 gives it up. */
  lemma ActiveUploadExpires(job: Job)
    requires job.Proper() && job.Total() >= 3
    ensures var c := Story(Chronicle([], 0, 0, 0, false, false, false), job,
                           [Deliver(0, 0), Deliver(1, 200), Elsewhere(Expire(100))]);
            c.failed && c.heard == 200
  {
    var run := [Deliver(0, 0), Deliver(1, 200), Elsewhere(Expire(100))];
    assert run[1..] == [Deliver(1, 200), Elsewhere(Expire(100))];
    assert run[1..][1..] == [Elsewhere(Expire(100))];
    var c := Chronicle([0, 1], 1, 200, 0, true, true, false);
    assert Story(c, job, [Elsewhere(Expire(100))]) == Record(c, job, Elsewhere(Expire(100)));
    assert Record(Chronicle([0], 1, 0, 0, true, true, false), job, Deliver(1, 200)) == c;
  }
}
