/** The browser's worker pool and the server it uploads to, side by side: requests take their time to
    arrive, answers may get lost, and everything else on the server goes on. */
module PooledUpload {
  import opened Wrappers
  import opened Bytes
  import opened Reassembly
  import opened Transfers
  import opened TransferInvariants
  import opened StoredFiles
  import opened UploadRuns
  import opened UploadTheorems
  import WorkerPool

  /** `sent` are the chunks the server acknowledged, in order; `answers` says for each request of this
      pool that has reached the server whether it was acknowledged. */
  datatype Site = Site(server: State, sent: seq<nat>, pool: WorkerPool.Pool, answers: map<nat, bool>)

  datatype Move =
    | Browser(turn: WorkerPool.Event)
    | Arrive(index: nat, now: int)      // a request of this pool reaches the server
    | Straggle(index: nat, now: int)    // so does one that an earlier call had sent
    | Meanwhile(event: Event)

  /** A request arrives once, after it was sent, and also when its worker has given up by then. A
      success that a worker sees is an acknowledgement of the server; an error may be anything. */
  predicate Possible(x: Site, job: Job, m: Move, sha256: Data -> Digest)
    requires job.Proper()
  {
    match m
    case Browser(e) =>
      && WorkerPool.Allowed(x.pool, e)
      && (e.Respond? && e.ok ==>
            var i := x.pool.workers[e.worker].index; i in x.answers && x.answers[i])
    case Arrive(i, _) => x.pool.start <= i < x.pool.start + |x.pool.sent| && i !in x.answers && i < job.Total()
    case Straggle(i, _) => i < job.Total()
    case Meanwhile(e) => Allowed(x.server, job, Elsewhere(e), sha256)
  }

  function Make(x: Site, job: Job, m: Move, sha256: Data -> Digest): Site
    requires job.Proper() && Possible(x, job, m, sha256)
  {
    match m
    case Browser(e) => x.(pool := WorkerPool.Step(x.pool, e))
    case Arrive(i, now) =>
      var (after, more) := Happen(x.server, job, x.sent, Deliver(i, now), sha256);
      x.(server := after, sent := more, answers := x.answers[i := |more| > |x.sent|])
    case Straggle(i, now) =>
      var (after, more) := Happen(x.server, job, x.sent, Deliver(i, now), sha256);
      x.(server := after, sent := more)
    case Meanwhile(e) =>
      x.(server := Happen(x.server, job, x.sent, Elsewhere(e), sha256).0)
  }

  predicate AllPossible(x: Site, job: Job, moves: seq<Move>, sha256: Data -> Digest)
    requires job.Proper()
    decreases |moves|
  {
    moves == [] ||
    (&& Possible(x, job, moves[0], sha256)
     && AllPossible(Make(x, job, moves[0], sha256), job, moves[1..], sha256))
  }

  function Play(x: Site, job: Job, moves: seq<Move>, sha256: Data -> Digest): Site
    requires job.Proper() && AllPossible(x, job, moves, sha256)
    decreases |moves|
  {
    if moves == [] then x else Play(Make(x, job, moves[0], sha256), job, moves[1..], sha256)
  }

  /** What a success stands for: the chunk is among those the server acknowledged. */
  ghost predicate Coupled(x: Site, job: Job) {
    && Inv(x.server) && Tracks(x.server, job, x.sent)
    && WorkerPool.Inv(x.pool) && x.pool.total == job.Total()
    && (forall i <- x.answers :: x.answers[i] ==> i in x.sent)
    && (forall i <- x.pool.acked :: i in x.sent)
  }

  /** The parts of the two sites that a move leaves alone. */
  ghost predicate SameTerms(x: Site, y: Site, job: Job)
    requires Running(x.server, job)
  {
    && Running(y.server, job) && Terms(y.server, job) == Terms(x.server, job)
    && y.pool.start == x.pool.start && |x.sent| <= |y.sent| && y.sent[..|x.sent|] == x.sent
  }

  lemma BrowserKeepsCoupled(x: Site, job: Job, e: WorkerPool.Event, sha256: Data -> Digest)
    requires Coupled(x, job) && Possible(x, job, Browser(e), sha256)
    ensures Coupled(x.(pool := WorkerPool.Step(x.pool, e)), job)
    ensures SameTerms(x, x.(pool := WorkerPool.Step(x.pool, e)), job)
  {
    assert Running(x.server, job);
    hide Inv, Tracks;
    WorkerPool.StepKeepsInv(x.pool, e);
    hide WorkerPool.Inv;
  }

  lemma ServerKeepsCoupled(x: Site, job: Job, h: Happening, sha256: Data -> Digest)
    requires Coupled(x, job) && Allowed(x.server, job, h, sha256)
    ensures var (after, more) := Happen(x.server, job, x.sent, h, sha256);
            && Coupled(x.(server := after, sent := more), job)
            && SameTerms(x, x.(server := after, sent := more), job)
            && (|more| <= |x.sent| ==> more == x.sent)
            && (|more| > |x.sent| ==> h.Deliver? && more == x.sent + [h.index])
  {
    hide Inv, UploadChunk, IsImage, WorkerPool.Inv, Allowed;
    HappenTracks(x.server, job, x.sent, h, sha256);
  }

  lemma AnswerKeepsCoupled(x: Site, job: Job, i: nat, acked: bool)
    requires Coupled(x, job) && (acked ==> i in x.sent)
    ensures Coupled(x.(answers := x.answers[i := acked]), job)
    ensures SameTerms(x, x.(answers := x.answers[i := acked]), job)
  {
    assert Running(x.server, job);
    hide Inv, Tracks, WorkerPool.Inv;
  }

  lemma ArriveKeepsCoupled(x: Site, job: Job, i: nat, now: int, sha256: Data -> Digest)
    requires Coupled(x, job) && Possible(x, job, Arrive(i, now), sha256)
    ensures Coupled(Make(x, job, Arrive(i, now), sha256), job)
    ensures SameTerms(x, Make(x, job, Arrive(i, now), sha256), job)
  {
    assert job.Proper();
    ServerKeepsCoupled(x, job, Deliver(i, now), sha256);
    hide Inv, Tracks, WorkerPool.Inv, Happen, Coupled, Running;
    var (after, more) := Happen(x.server, job, x.sent, Deliver(i, now), sha256);
    AnswerKeepsCoupled(x.(server := after, sent := more), job, i, |more| > |x.sent|);
  }

  lemma MoveKeepsCoupled(x: Site, job: Job, m: Move, sha256: Data -> Digest)
    requires Coupled(x, job) && Possible(x, job, m, sha256)
    ensures Coupled(Make(x, job, m, sha256), job)
    ensures SameTerms(x, Make(x, job, m, sha256), job)
  {
    assert job.Proper();
    hide Inv, Tracks, WorkerPool.Inv, WorkerPool.Step, Happen, Coupled, Running;
    match m
    case Browser(e) => BrowserKeepsCoupled(x, job, e, sha256);
    case Arrive(i, now) => ArriveKeepsCoupled(x, job, i, now, sha256);
    case Straggle(i, now) => ServerKeepsCoupled(x, job, Deliver(i, now), sha256);
    case Meanwhile(e) => ServerKeepsCoupled(x, job, Elsewhere(e), sha256);
  }

  lemma {:induction false} PlayKeepsCoupled(x: Site, job: Job, moves: seq<Move>, sha256: Data -> Digest)
    requires Coupled(x, job) && AllPossible(x, job, moves, sha256)
    ensures Coupled(Play(x, job, moves, sha256), job)
    ensures SameTerms(x, Play(x, job, moves, sha256), job)
    decreases |moves|
  {
    if moves != [] {
      MoveKeepsCoupled(x, job, moves[0], sha256);
      PlayKeepsCoupled(Make(x, job, moves[0], sha256), job, moves[1..], sha256);
    }
  }

  /** A pool that was told to go on from chunk `from`. */
  function Begin(s: State, job: Job, sent: seq<nat>, from: nat): Site
    requires job.Proper()
  {
    Site(s, sent, WorkerPool.Open(from, job.Total()), map[])
  }

  predicate Ends(s: State, job: Job, sent: seq<nat>, from: nat, moves: seq<Move>, sha256: Data -> Digest)
    requires job.Proper()
  {
    && AllPossible(Begin(s, job, sent, from), job, moves, sha256)
    && WorkerPool.AllDone(Play(Begin(s, job, sent, from), job, moves, sha256).pool)
  }

  lemma EndOfPool(s: State, job: Job, sent: seq<nat>, from: nat, moves: seq<Move>, sha256: Data -> Digest)
    requires Inv(s) && Tracks(s, job, sent) && Announced(s, job, sha256) && Ends(s, job, sent, from, moves, sha256)
    ensures var end := Play(Begin(s, job, sent, from), job, moves, sha256);
            && Inv(end.server) && Tracks(end.server, job, end.sent) && Announced(end.server, job, sha256)
            && |sent| <= |end.sent| && end.sent[..|sent|] == sent
            && Below(job.Total()) - Below(from) <= Indices(end.sent)
  {
    var x := Begin(s, job, sent, from);
    hide Inv, IsImage, WorkerPool.Inv;
    WorkerPool.OpenIsSound(from, job.Total());
    PlayKeepsCoupled(x, job, moves, sha256);
    WorkerPool.FinishMeansAllAcked(Play(x, job, moves, sha256).pool);
  }

  /** When all workers are done, the finish request succeeds exactly when the pool left nothing out
      that the server does not have; otherwise it is refused as a checksum error. */
  lemma PoolFinishesIff(s: State, job: Job, sent: seq<nat>, from: nat, moves: seq<Move>, sha256: Data -> Digest)
    requires Inv(s) && Tracks(s, job, sent) && Announced(s, job, sha256) && Ends(s, job, sent, from, moves, sha256)
    requires CollisionFree(sha256)
    ensures var end := Play(Begin(s, job, sent, from), job, moves, sha256);
            && Running(end.server, job)
            && (Stored(end.server, job) == job.source <==> SkipsNothing(job, from, end.sent))
            && UploadFinish(end.server, job.id, sha256).1 ==
               if SkipsNothing(job, from, end.sent) then UploadSuccess(job.id) else Error(ChecksumFailed)
  {
    hide Inv, IsImage, AllPossible, Play, UploadFinish, SkipsNothing;
    EndOfPool(s, job, sent, from, moves, sha256);
    var end := Play(Begin(s, job, sent, from), job, moves, sha256);
    CompleteIff(end.server, job, from, end.sent);
    CoveredIsSource(end.server, job, end.sent);
    FinishSucceedsIff(end.server, job, end.sent, sha256);
  }

  /** A first call, which starts at chunk 0, ends with the file published. */
  lemma FirstPoolSucceeds(s: State, job: Job, moves: seq<Move>, sha256: Data -> Digest)
    requires Inv(s) && Tracks(s, job, []) && Announced(s, job, sha256) && Ends(s, job, [], 0, moves, sha256)
    ensures var end := Play(Begin(s, job, [], 0), job, moves, sha256);
            var (after, reply) := UploadFinish(end.server, job.id, sha256);
            && reply == UploadSuccess(job.id)
            && Inv(after) && FileOf(after, job.id).status == Available
            && after.disk[FileOf(after, job.id).path] == job.source
  {
    hide Inv, IsImage, AllPossible, Play, UploadFinish;
    EndOfPool(s, job, [], 0, moves, sha256);
    var end := Play(Begin(s, job, [], 0), job, moves, sha256);
    assert Covers(job, end.sent);
    CoveredUploadSucceeds(end.server, job, end.sent, sha256);
  }

  /** No request of an earlier call for a chunk below `from` is still on its way. */
  predicate NoneBelow(moves: seq<Move>, from: nat) {
    forall k :: 0 <= k < |moves| && moves[k].Straggle? ==> from <= moves[k].index
  }

  lemma {:induction false} NothingBelow(x: Site, job: Job, moves: seq<Move>, n: nat, sha256: Data -> Digest)
    requires Coupled(x, job) && AllPossible(x, job, moves, sha256) && NoneBelow(moves, x.pool.start)
    requires n <= |x.sent| && forall k :: n <= k < |x.sent| ==> x.pool.start <= x.sent[k]
    ensures var end := Play(x, job, moves, sha256);
            n <= |end.sent| && forall k :: n <= k < |end.sent| ==> x.pool.start <= end.sent[k]
    decreases |moves|
  {
    if moves != [] {
      MoveKeepsCoupled(x, job, moves[0], sha256);
      NothingBelow(Make(x, job, moves[0], sha256), job, moves[1..], n, sha256);
    }
  }

  /** A parallel upload that stopped, was resumed at the counter the server named, and went on with a
      new pool: the finish request succeeds exactly when the chunks before the resume had no gap below
      the counter. `before` may be out of order and may hold repeats. */
  lemma ResumedPoolFinishesIff(s: State, job: Job, before: seq<nat>, moves: seq<Move>, sha256: Data -> Digest)
    requires Inv(s) && Tracks(s, job, before) && Announced(s, job, sha256) && CollisionFree(sha256)
    requires s.transfers[job.id].status == InProgress && NoneBelow(moves, |before|)
    requires Ends(Resumed(s, job).0, job, before, |before|, moves, sha256)
    ensures Resumed(s, job).1 == UploadReady(job.id, |before|)
    ensures var end := Play(Begin(Resumed(s, job).0, job, before, |before|), job, moves, sha256);
            && Running(end.server, job)
            && (Stored(end.server, job) == job.source <==> SkipsNothing(job, |before|, before))
            && UploadFinish(end.server, job.id, sha256).1 ==
               if SkipsNothing(job, |before|, before) then UploadSuccess(job.id) else Error(ChecksumFailed)
  {
    hide Inv, IsImage, UploadFinish, Play, AllPossible, SkipsNothing, UploadChunk, WorkerPool.Inv;
    ResumeTellsCount(s, job, before, 0);
    HappenTracks(s, job, before, Elsewhere(Resume(job.id, Some(job.userId), Some(Upload), 0)), sha256);
    var (resumed, _) := Resumed(s, job);
    var x := Begin(resumed, job, before, |before|);
    PoolFinishesIff(resumed, job, before, |before|, moves, sha256);
    WorkerPool.OpenIsSound(|before|, job.Total());
    EndOfPool(resumed, job, before, |before|, moves, sha256);
    NothingBelow(x, job, moves, |before|, sha256);
    var sent := Play(x, job, moves, sha256).sent;
    assert sent == before + sent[|before|..];
    SkipsSame(job, |before|, before, sent[|before|..]);
  }

  function Resumed(s: State, job: Job): (State, Reply) {
    ResumeTransfer(s, job.id, Some(job.userId), Some(Upload), 0)
  }
}
