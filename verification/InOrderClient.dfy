/** A client that sends its chunks one after another and trusts the server's counter after every
    lost connection. */
module InOrderClient {
  import opened Wrappers
  import opened Bytes
  import opened Reassembly
  import opened Transfers
  import opened TransferInvariants
  import opened UploadRuns
  import opened UploadTheorems

  datatype Client = Offline | Sending(next: nat)

  /** `Meanwhile` is whatever else happens on the server, including other connections that drop. */
  datatype Move = Send(now: int) | Drop | Reconnect | Meanwhile(event: Event)

  predicate Possible(s: State, job: Job, m: Move, sha256: Data -> Digest) {
    m.Meanwhile? ==> Allowed(s, job, Elsewhere(m.event), sha256)
  }

  function Act(s: State, job: Job, client: Client, m: Move, sha256: Data -> Digest): (State, Client)
    requires job.Proper()
  {
    match m
    case Send(now) =>
      if client.Sending? && client.next < job.Total() then
        var (after, reply) := UploadChunk(s, job.id, client.next, job.Chunk(client.next), now);
        (after, if reply.ChunkAck? then Sending(client.next + 1) else Offline)
      else
        (s, client)
    case Drop => (FlushAll(s), Offline)
    case Reconnect =>
      var (after, reply) := ResumeTransfer(s, job.id, Some(job.userId), Some(Upload), 0);
      (after, if reply.UploadReady? && reply.startChunk >= 0 then Sending(reply.startChunk) else Offline)
    case Meanwhile(e) => (Step(s, e, sha256).0, client)
  }

  function Live(s: State, job: Job, client: Client, moves: seq<Move>, sha256: Data -> Digest): (State, Client)
    requires job.Proper()
    decreases |moves|
  {
    if moves == [] then
      (s, client)
    else
      var (after, then_) := Act(s, job, client, moves[0], sha256);
      Live(after, job, then_, moves[1..], sha256)
  }

  predicate AllPossible(s: State, job: Job, client: Client, moves: seq<Move>, sha256: Data -> Digest)
    requires job.Proper()
    decreases |moves|
  {
    moves == [] ||
    (Possible(s, job, moves[0], sha256) &&
     var (after, then_) := Act(s, job, client, moves[0], sha256);
     AllPossible(after, job, then_, moves[1..], sha256))
  }

  function Rest(from: nat, to: nat): (r: seq<nat>)
    ensures |r| == if from < to then to - from else 0
    ensures forall k :: 0 <= k < |r| ==> r[k] == from + k
  {
    if from < to then seq(to - from, k requires 0 <= k => from + k) else []
  }

  /** The written chunks are exactly the first `Counted` ones, and a connected client sends the next. */
  ghost predicate InStep(s: State, job: Job, client: Client) {
    && Inv(s) && Running(s, job)
    && Tracks(s, job, Rest(0, Counted(s, job.id)))
    && Counted(s, job.id) <= job.Total()
    && (client.Sending? ==> client.next == Counted(s, job.id))
  }

  lemma ActKeepsInStep(s: State, job: Job, client: Client, m: Move, sha256: Data -> Digest)
    requires InStep(s, job, client) && Possible(s, job, m, sha256)
    ensures var (after, then_) := Act(s, job, client, m, sha256); InStep(after, job, then_)
  {
    hide Inv, IsImage, FlushAll, UploadChunk;
    var k := Counted(s, job.id);
    match m
    case Send(now) =>
      if client.Sending? && client.next < job.Total() {
        HappenTracks(s, job, Rest(0, k), Deliver(k, now), sha256);
        assert Rest(0, k) + [k] == Rest(0, k + 1);
      }
    case Drop => HappenTracks(s, job, Rest(0, k), Elsewhere(Cleanup), sha256);
    case Reconnect =>
      HappenTracks(s, job, Rest(0, k), Elsewhere(Resume(job.id, Some(job.userId), Some(Upload), 0)), sha256);
      ResumeTellsCount(s, job, Rest(0, k), 0);
    case Meanwhile(e) => HappenTracks(s, job, Rest(0, k), Elsewhere(e), sha256);
  }

  lemma {:induction false} LiveKeepsInStep(s: State, job: Job, client: Client, moves: seq<Move>, sha256: Data -> Digest)
    requires InStep(s, job, client) && AllPossible(s, job, client, moves, sha256)
    ensures var (end, last) := Live(s, job, client, moves, sha256); InStep(end, job, last)
    decreases |moves|
  {
    if moves != [] {
      ActKeepsInStep(s, job, client, moves[0], sha256);
      var (after, then_) := Act(s, job, client, moves[0], sha256);
      LiveKeepsInStep(after, job, then_, moves[1..], sha256);
    }
  }

  /** Written chunks without a gap are a prefix of the source. */
  lemma PrefixImage(file: Data, source: Data, size: nat, k: nat)
    requires size > 0 && IsImage(file, source, size, Below(k))
    ensures file == source[..Offset(|source|, size, k)]
  {
    PrefixReach(file, source, size, k);
    forall p | 0 <= p < |file|
      ensures file[p] == source[p]
    {
      ChunkBelow(p, k, size);
    }
  }

  lemma PrefixReach(file: Data, source: Data, size: nat, k: nat)
    requires size > 0 && IsImage(file, source, size, Below(k))
    ensures |file| == Offset(|source|, size, k)
  {
    if k > 0 {
      assert k - 1 in Below(k);
      assert (k - 1) * size + size == k * size;
      if file != [] {
        var i :| i in Below(k) && |file| == ChunkEnd(|source|, size, i);
        Multiples(i, k, size);
      }
    }
  }

  lemma ChunkBelow(p: nat, k: nat, size: nat)
    requires size > 0 && p < k * size
    ensures p / size < k
  {
    Quotient(p, size, p / size);
    if k < p / size {
      Multiples(k, p / size, size);
    }
  }

  lemma NextChunkLength(job: Job, k: nat)
    requires job.Proper() && k < job.Total()
    ensures Offset(|job.source|, job.size, k) + |job.Chunk(k)| == Offset(|job.source|, job.size, k + 1)
  {
    InRange(|job.source|, job.size, k);
    assert (k + 1) * job.size == k * job.size + job.size;
  }

  lemma {:induction false} PrefixLength(job: Job, k: nat)
    requires job.Proper() && k <= job.Total()
    ensures TotalLength(job, Rest(0, k)) == Offset(|job.source|, job.size, k)
  {
    if k > 0 {
      PrefixLength(job, k - 1);
      assert Rest(0, k)[..k - 1] == Rest(0, k - 1);
      NextChunkLength(job, k - 1);
    }
  }

  lemma RestBelow(k: nat)
    ensures Indices(Rest(0, k)) == Below(k)
  {
    forall i | i in Below(k)
      ensures i in Rest(0, k)
    {
      assert Rest(0, k)[i] == i;
    }
  }

  /** The disk holds the first `Counted` chunks and nothing else, the byte counter is their length,
      a connected client sends the next one, and a resume names the first missing one. */
  ghost predicate Exact(s: State, job: Job, client: Client) {
    && Running(s, job)
    && var k := Counted(s, job.id);
    && k <= job.Total()
    && Stored(s, job) == job.source[..Offset(|job.source|, job.size, k)]
    && CountedBytes(s, job.id) == Offset(|job.source|, job.size, k)
    && (client.Sending? ==> client.next == k)
    && ResumeTransfer(s, job.id, Some(job.userId), Some(Upload), 0).1 ==
       if s.transfers[job.id].status == InProgress then UploadReady(job.id, k) else Error(InvalidPacket)
  }

  lemma InStepIsExact(s: State, job: Job, client: Client)
    requires InStep(s, job, client)
    ensures Exact(s, job, client)
  {
    hide Inv, IsImage;
    var k := Counted(s, job.id);
    RestBelow(k);
    PrefixImage(Stored(s, job), job.source, job.size, k);
    PrefixLength(job, k);
    ResumeTellsCount(s, job, Rest(0, k), 0);
  }

  /** Through any number of lost connections, resumes and foreign requests. */
  lemma InOrderResumeIsExact(s: State, job: Job, client: Client, moves: seq<Move>, sha256: Data -> Digest)
    requires Inv(s) && Tracks(s, job, [])
    requires client.Sending? ==> client.next == 0
    requires AllPossible(s, job, client, moves, sha256)
    ensures var (end, last) := Live(s, job, client, moves, sha256); Inv(end) && Exact(end, job, last)
  {
    assert Rest(0, 0) == [];
    LiveKeepsInStep(s, job, client, moves, sha256);
    var (end, last) := Live(s, job, client, moves, sha256);
    InStepIsExact(end, job, last);
  }
}
