/** One upload followed through runs in which everything else on the server goes on. */
module UploadRuns {
  import opened Bytes
  import opened Reassembly
  import opened Transfers
  import opened TransferInvariants
  import opened StoredFiles

  /** The client that announced `source` in chunks of `size`, as the bridge does. */
  datatype Job = Job(id: nat, userId: int, source: Data, size: nat) {
    predicate Proper() {
      size > 0 && source != []
    }

    function Total(): nat
      requires Proper()
    {
      ChunkCount(|source|, size)
    }

    function Chunk(i: nat): Data
      requires Proper()
    {
      Slice(source, size, i)
    }
  }

  /** Chunks of this upload that the server acknowledged so far, according to the server. */
  function Counted(s: State, id: nat): nat
    requires id in s.transfers
  {
    if id in s.progress then s.progress[id].completedChunks else s.transfers[id].completedChunks
  }

  function CountedBytes(s: State, id: nat): nat
    requires id in s.transfers
  {
    if id in s.progress then s.progress[id].bytesTransferred else s.transfers[id].bytesTransferred
  }

  function TotalLength(job: Job, sent: seq<nat>): nat
    requires job.Proper()
  {
    if sent == [] then 0 else TotalLength(job, sent[..|sent| - 1]) + |job.Chunk(sent[|sent| - 1])|
  }

  /** The row of this upload, still unfinished, and the file that goes with it. */
  ghost predicate Running(s: State, job: Job) {
    && job.Proper() && Joined(s, job.id)
    && s.transfers[job.id].direction == Upload && s.transfers[job.id].status != Completed
    && s.transfers[job.id].userId == job.userId && s.transfers[job.id].totalChunks == job.Total()
    && FileOf(s, job.id).chunkSize == job.size
    && FileOf(s, job.id).path in s.disk
  }

  function Stored(s: State, job: Job): Data
    requires Running(s, job)
  {
    s.disk[FileOf(s, job.id).path]
  }

  /** What the upload announced about its file. */
  function Terms(s: State, job: Job): (Digest, int)
    requires Running(s, job)
  {
    (FileOf(s, job.id).checksum, FileOf(s, job.id).totalChunks)
  }

  /** Disk and counters are those of the acknowledged chunks `sent`, whatever their order. */
  ghost predicate Tracks(s: State, job: Job, sent: seq<nat>) {
    && Running(s, job)
    && InFile(sent, |job.source|, job.size)
    && IsImage(Stored(s, job), job.source, job.size, Indices(sent))
    && Counted(s, job.id) == |sent|
    && CountedBytes(s, job.id) == TotalLength(job, sent)
  }

  datatype Happening =
    | Deliver(index: nat, now: int)
    | Elsewhere(event: Event)

  /** Deliveries stay within the file. Everything else leaves this upload's chunks alone, and does not
      publish it; a finish request that is refused may come at any time. */
  predicate Allowed(s: State, job: Job, h: Happening, sha256: Data -> Digest) {
    match h
    case Deliver(index, _) => job.Proper() && index < job.Total()
    case Elsewhere(e) =>
      && FreshPath(s, e) && !(e.Chunk? && e.id == job.id)
      && (e.Finish? && e.id == job.id ==> UploadFinish(s, job.id, sha256).1.Error?)
  }

  /** The next state, and the acknowledged chunks after it. */
  function Happen(s: State, job: Job, sent: seq<nat>, h: Happening, sha256: Data -> Digest): (State, seq<nat>)
    requires job.Proper()
  {
    match h
    case Deliver(index, now) =>
      var (after, reply) := UploadChunk(s, job.id, index, job.Chunk(index), now);
      (after, if reply.ChunkAck? then sent + [index] else sent)
    case Elsewhere(e) => (Step(s, e, sha256).0, sent)
  }

  function Follow(s: State, job: Job, sent: seq<nat>, run: seq<Happening>, sha256: Data -> Digest): (State, seq<nat>)
    requires job.Proper()
    decreases |run|
  {
    if run == [] then
      (s, sent)
    else
      var (after, more) := Happen(s, job, sent, run[0], sha256);
      Follow(after, job, more, run[1..], sha256)
  }

  predicate AllAllowed(s: State, job: Job, run: seq<Happening>, sha256: Data -> Digest)
    requires job.Proper()
    decreases |run|
  {
    run == [] ||
    (&& Allowed(s, job, run[0], sha256)
     && AllAllowed(Happen(s, job, [], run[0], sha256).0, job, run[1..], sha256))
  }

  lemma AcceptedChunkLands(s: State, job: Job, index: nat, now: int)
    requires Inv(s) && Running(s, job) && Accepts(s, job.id)
    ensures var after := UploadChunk(s, job.id, index, job.Chunk(index), now).0;
            && Running(after, job) && Terms(after, job) == Terms(s, job)
            && Stored(after, job) == WriteAt(Stored(s, job), index * job.size, job.Chunk(index))
  {
    ChunkEffect(s, job.id, index, job.Chunk(index), now);
    ChunkCounts(s, job.id, index, job.Chunk(index), now);
  }

  /** One more acknowledged chunk, seen from the disk and from the byte count alone. */
  lemma OneMore(file: Data, job: Job, sent: seq<nat>, index: nat)
    requires job.Proper() && index < job.Total() && InFile(sent, |job.source|, job.size)
    requires IsImage(file, job.source, job.size, Indices(sent))
    ensures InFile(sent + [index], |job.source|, job.size)
    ensures IsImage(WriteAt(file, index * job.size, job.Chunk(index)), job.source, job.size, Indices(sent + [index]))
    ensures TotalLength(job, sent + [index]) == TotalLength(job, sent) + |job.Chunk(index)|
  {
    var more := sent + [index];
    assert more[..|more| - 1] == sent;
    assert Indices(more) == Indices(sent) + {index};
    WriteExtendsImage(file, job.source, job.size, Indices(sent), index);
  }

  lemma DeliverTracks(s: State, job: Job, sent: seq<nat>, index: nat, now: int)
    requires Inv(s) && Tracks(s, job, sent) && index < job.Total()
    ensures var (after, reply) := UploadChunk(s, job.id, index, job.Chunk(index), now);
            && Tracks(after, job, if reply.ChunkAck? then sent + [index] else sent)
            && Terms(after, job) == Terms(s, job)
  {
    if Accepts(s, job.id) {
      AcceptedChunkLands(s, job, index, now);
      ChunkCounts(s, job.id, index, job.Chunk(index), now);
      OneMore(Stored(s, job), job, sent, index);
    }
  }

  lemma ChunkCounts(s: State, id: nat, index: int, data: Data, now: int)
    requires Inv(s) && Accepts(s, id) && Joined(s, id) && index * FileOf(s, id).chunkSize >= 0
    ensures var (after, reply) := UploadChunk(s, id, index, data, now);
            && reply == ChunkAck(id, index)
            && after.transfers.Keys == s.transfers.Keys
            && Counted(after, id) == Counted(s, id) + 1
            && CountedBytes(after, id) == CountedBytes(s, id) + |data|
            && after.transfers[id] == s.transfers[id].(completedChunks := after.transfers[id].completedChunks,
                                                       bytesTransferred := after.transfers[id].bytesTransferred,
                                                       lastActivity := after.transfers[id].lastActivity)
  {
    assert id in s.progress ==> Coherent(s.transfers[id], FileOf(s, id), s.progress[id]);
  }

  /** The part of the state that `Tracks` looks at. */
  ghost predicate Undisturbed(s: State, after: State, job: Job)
    requires Running(s, job)
  {
    && Running(after, job)
    && Stored(after, job) == Stored(s, job)
    && Counted(after, job.id) == Counted(s, job.id)
    && CountedBytes(after, job.id) == CountedBytes(s, job.id)
    && Terms(after, job) == Terms(s, job)
  }

  lemma FlushUndisturbed(s: State, job: Job, id: nat)
    requires Running(s, job)
    ensures Undisturbed(s, Flush(s, id), job)
  {}

  /** While this upload runs, every other transfer is about another file. */
  lemma OtherFile(s: State, job: Job, id: nat)
    requires Inv(s) && Running(s, job) && id != job.id && Joined(s, id)
    ensures s.transfers[id].fileId != s.transfers[job.id].fileId
    ensures FileOf(s, id).path != FileOf(s, job.id).path
  {
    assert Follows(s.transfers[job.id], s.transfers[id]);
  }

  lemma ChunkOnly(s: State, id: nat, index: int, data: Data, now: int)
    requires Accepts(s, id)
    ensures var after := UploadChunk(s, id, index, data, now).0;
            && (forall t <- s.transfers :: t in after.transfers && (t != id ==> after.transfers[t] == s.transfers[t]))
            && (forall t :: t != id ==> (t in after.progress <==> t in s.progress))
            && (forall t <- s.progress :: t != id ==> after.progress[t] == s.progress[t])
  {}

  lemma OtherChunkUndisturbed(s: State, job: Job, id: nat, index: int, data: Data, now: int)
    requires Inv(s) && Running(s, job) && id != job.id
    ensures Undisturbed(s, UploadChunk(s, id, index, data, now).0, job)
  {
    if Accepts(s, id) {
      ChunkEffect(s, id, index, data, now);
      OtherFile(s, job, id);
      ChunkOnly(s, id, index, data, now);
      hide Inv, UploadChunk;
    }
  }

  /** Only transfer `id`, its cache entry and the status of its file may differ. */
  ghost predicate Only(s: State, after: State, id: nat) {
    && after.disk == s.disk && after.files.Keys == s.files.Keys && after.transfers.Keys == s.transfers.Keys
    && (forall f <- s.files :: after.files[f].(status := s.files[f].status) == s.files[f])
    && (forall t <- s.transfers :: t != id ==> after.transfers[t] == s.transfers[t])
    && (forall t :: t != id ==> (t in after.progress <==> t in s.progress))
    && (forall t <- s.progress :: t != id ==> after.progress[t] == s.progress[t])
  }

  lemma FlushOnly(s: State, id: nat)
    ensures Only(s, Flush(Close(s, id), id), id)
  {}

  lemma PublishOnly(s: State, after: State, id: nat)
    requires Only(s, after, id) && Joined(after, id)
    ensures Only(s, Publish(after, id), id)
  {}

  lemma FinishOnly(s: State, id: nat, sha256: Data -> Digest)
    ensures Only(s, UploadFinish(s, id, sha256).0, id)
  {
    FlushOnly(s, id);
    var flushed := Flush(Close(s, id), id);
    if Joined(flushed, id) {
      PublishOnly(s, flushed, id);
    }
  }

  /** A finish request that is refused only closes the file and flushes. */
  lemma RefusedFinishUndisturbed(s: State, job: Job, sha256: Data -> Digest)
    requires Running(s, job) && UploadFinish(s, job.id, sha256).1.Error?
    ensures Undisturbed(s, UploadFinish(s, job.id, sha256).0, job)
  {}

  lemma OtherFinishUndisturbed(s: State, job: Job, id: nat, sha256: Data -> Digest)
    requires Running(s, job) && id != job.id
    ensures Undisturbed(s, UploadFinish(s, id, sha256).0, job)
  {
    FinishOnly(s, id, sha256);
  }

  lemma SweepUndisturbed(s: State, job: Job)
    requires Running(s, job)
    ensures Undisturbed(s, FlushAll(s), job)
    ensures forall threshold :: Undisturbed(s, ExpireTransfers(s, threshold), job)
    ensures forall fileId :: Undisturbed(s, DeleteFile(s, fileId), job)
  {}

  lemma NewRowsUndisturbed(s: State, job: Job, e: Event, sha256: Data -> Digest)
    requires Inv(s) && Running(s, job) && FreshPath(s, e) && (e.Init? || e.Fetch?)
    ensures Undisturbed(s, Step(s, e, sha256).0, job)
  {}

  lemma ElsewhereUndisturbed(s: State, job: Job, e: Event, sha256: Data -> Digest)
    requires Inv(s) && Running(s, job) && Allowed(s, job, Elsewhere(e), sha256)
    ensures Undisturbed(s, Step(s, e, sha256).0, job)
  {
    match e
    case Chunk(id, index, data, now) => OtherChunkUndisturbed(s, job, id, index, data, now);
    case Finish(id) =>
      if id == job.id {
        RefusedFinishUndisturbed(s, job, sha256);
      } else {
        OtherFinishUndisturbed(s, job, id, sha256);
      }
    case FlushOne(id) => FlushUndisturbed(s, job, id);
    case Resume(id, _, _, _) => FlushUndisturbed(s, job, id);
    case Init(_, _, _, _) => NewRowsUndisturbed(s, job, e, sha256);
    case Fetch(_, _, _) => NewRowsUndisturbed(s, job, e, sha256);
    case _ => SweepUndisturbed(s, job);
  }

  lemma HappenTracks(s: State, job: Job, sent: seq<nat>, h: Happening, sha256: Data -> Digest)
    requires Inv(s) && Tracks(s, job, sent) && Allowed(s, job, h, sha256)
    ensures var (after, more) := Happen(s, job, sent, h, sha256);
            Inv(after) && Tracks(after, job, more) && Terms(after, job) == Terms(s, job)
  {
    match h
    case Deliver(index, now) =>
      ChunkKeeps(s, job.id, index, job.Chunk(index), now);
      DeliverTracks(s, job, sent, index, now);
    case Elsewhere(e) =>
      StepKeepsInv(s, e, sha256);
      ElsewhereUndisturbed(s, job, e, sha256);
  }

  lemma {:induction false} FollowTracks(s: State, job: Job, sent: seq<nat>, run: seq<Happening>, sha256: Data -> Digest)
    requires Inv(s) && Tracks(s, job, sent) && AllAllowed(s, job, run, sha256)
    ensures var (end, acked) := Follow(s, job, sent, run, sha256);
            Inv(end) && Tracks(end, job, acked) && Terms(end, job) == Terms(s, job)
    decreases |run|
  {
    if run != [] {
      HappenTracks(s, job, sent, run[0], sha256);
      var (after, more) := Happen(s, job, sent, run[0], sha256);
      FollowTracks(after, job, more, run[1..], sha256);
    }
  }
}
