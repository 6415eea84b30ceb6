/** Pushing a stored file to a client chunk by chunk, from the start or from where it left off. */
module Download {
  import opened Bytes

  datatype DownloadChunk = DownloadChunk(index: int, data: Data)

  function Max(a: int, b: int): int {
    if a < b then b else a
  }

  /** The packets of a push that nobody interrupts. */
  function Pushed(file: Data, size: nat, total: int, start: int): (r: seq<DownloadChunk>)
    requires size > 0
    ensures |r| == Max(total - start, 0)
    ensures forall k :: 0 <= k < |r| ==> r[k] == DownloadChunk(start + k, Slice(file, size, Max(start, 0) + k))
  {
    seq(Max(total - start, 0), k requires k >= 0 => DownloadChunk(start + k, Slice(file, size, Max(start, 0) + k)))
  }

  /** Where `count` reads of `size` bytes leave a handle that began at chunk `first`. */
  function Position(file: Data, size: nat, first: nat, count: nat): nat {
    if first * size > |file| then first * size else Min((first + count) * size, |file|)
  }

  /** `read(size)` at position `at`; a negative size asks for everything. */
  function Read(file: Data, at: nat, size: int): Data {
    if at >= |file| then [] else if size < 0 then file[at..] else file[at..Min(at + size, |file|)]
  }

  /** The packets when the chunk size is not positive, which nothing keeps an offer from announcing: a
      seek before the start of the file fails; otherwise a negative size reads it all at once. */
  function PushedWhole(file: Data, size: int, total: int, start: int): seq<DownloadChunk>
    requires size <= 0
  {
    if size < 0 < start then []
    else seq(Max(total - start, 0), k requires k >= 0 =>
               DownloadChunk(start + k, if size < 0 && k == 0 then file else []))
  }

  function Push(file: Data, size: int, total: int, start: int): seq<DownloadChunk> {
    if size > 0 then Pushed(file, size, total, start) else PushedWhole(file, size, total, start)
  }

  lemma ReadIsSlice(file: Data, size: nat, first: nat, count: nat)
    requires size > 0
    ensures var at := Position(file, size, first, count);
            && Read(file, at, size) == Slice(file, size, first + count)
            && at + |Read(file, at, size)| == Position(file, size, first, count + 1)
  {
    assert (first + count) * size == first * size + count * size;
    assert (first + count + 1) * size == (first + count) * size + size;
  }

  /** Where the handle stands after `count` reads. */
  function Cursor(file: Data, size: int, start: int, count: nat): int {
    if size > 0 then Position(file, size, Max(start, 0), count)
    else if size < 0 && count > 0 then |file|
    else 0
  }

  lemma ReadIsNext(file: Data, size: int, total: int, start: int, k: nat)
    requires !(size < 0 < start) && k < Max(total - start, 0)
    ensures var at := Cursor(file, size, start, k);
            && at >= 0
            && DownloadChunk(start + k, Read(file, at, size)) == Push(file, size, total, start)[k]
            && at + |Read(file, at, size)| == Cursor(file, size, start, k + 1)
  {
    if size > 0 {
      ReadIsSlice(file, size, Max(start, 0), k);
    }
  }

  /** `budget` is how many packets get out before the connection breaks. The reads are sequential:
      only a resumed push seeks, once. */
  method PushDownloadChunks(file: Data, size: int, total: int, start: int, budget: nat)
    returns (sent: seq<DownloadChunk>)
    ensures sent == Push(file, size, total, start)[..Min(budget, |Push(file, size, total, start)|)]
  {
    var position := if start > 0 then start * size else 0;
    if position < 0 {
      assert size < 0 < start;
      return [];
    }
    ghost var whole := Push(file, size, total, start);
    assert |whole| == Max(total - start, 0);
    hide Read, Push;
    sent := [];
    var i := start;
    while i < total && |sent| < budget
      invariant i == start + |sent|
      invariant position == Cursor(file, size, start, |sent|)
      invariant |sent| <= Min(budget, |whole|)
      invariant sent == whole[..|sent|]
    {
      ReadIsNext(file, size, total, start, |sent|);
      var data := Read(file, position, size);
      assert DownloadChunk(i, data) == whole[|sent|];
      position := position + |data|;
      sent := sent + [DownloadChunk(i, data)];
      i := i + 1;
    }
  }

  function Bodies(chunks: seq<DownloadChunk>): (r: seq<Data>)
    ensures |r| == |chunks|
    ensures forall k :: 0 <= k < |r| ==> r[k] == chunks[k].data
  {
    seq(|chunks|, k requires 0 <= k < |chunks| => chunks[k].data)
  }

  lemma {:induction false} SlicesJoin(file: Data, size: nat, from: nat, to: nat, bodies: seq<Data>)
    requires size > 0 && from <= to && |bodies| == to - from
    requires forall k :: 0 <= k < |bodies| ==> bodies[k] == Slice(file, size, from + k)
    ensures Offset(|file|, size, from) <= Offset(|file|, size, to)
    ensures Concat(bodies) == file[Offset(|file|, size, from)..Offset(|file|, size, to)]
    decreases |bodies|
  {
    hide Offset, Slice;
    if from < to {
      SliceBetween(file, size, from);
      SlicesJoin(file, size, from + 1, to, bodies[1..]);
    }
  }

  lemma SliceLength(source: Data, size: nat, i: nat)
    requires size > 0 && i < ChunkCount(|source|, size)
    ensures 0 < |Slice(source, size, i)| <= size
  {
    InRange(|source|, size, i);
  }

  lemma PiecesNonempty(source: Data, size: nat, start: nat)
    requires size > 0
    ensures var chunks := Pushed(source, size, ChunkCount(|source|, size), start);
            forall k :: 0 <= k < |chunks| ==> chunks[k].index == start + k && 0 < |chunks[k].data| <= size
  {
    var chunks := Pushed(source, size, ChunkCount(|source|, size), start);
    forall k | 0 <= k < |chunks|
      ensures 0 < |chunks[k].data| <= size
    {
      SliceLength(source, size, start + k);
    }
  }

  /** From any chunk on, the push delivers the rest of the file, in nonempty numbered pieces. */
  lemma PushDeliversRest(source: Data, size: nat, start: nat)
    requires size > 0 && start <= ChunkCount(|source|, size)
    ensures var chunks := Pushed(source, size, ChunkCount(|source|, size), start);
            && |chunks| == ChunkCount(|source|, size) - start
            && Concat(Bodies(chunks)) == source[Offset(|source|, size, start)..]
            && forall k :: 0 <= k < |chunks| ==> chunks[k].index == start + k && 0 < |chunks[k].data| <= size
  {
    hide Offset, Slice, ChunkCount;
    var total := ChunkCount(|source|, size);
    PiecesNonempty(source, size, start);
    EndOffset(|source|, size);
    SlicesJoin(source, size, start, total, Bodies(Pushed(source, size, total, start)));
  }

  /** With a chunk size that is not positive the pieces do not join to the rest of the file, except that
      a push from the start with a negative one brings all of it in its first piece. */
  lemma OddSizes(file: Data, size: int, total: int, start: int)
    requires size <= 0
    ensures var pieces := Push(file, size, total, start);
            && Concat(Bodies(pieces)) == (if size < 0 && start <= 0 && start < total then file else [])
            && |pieces| == (if size < 0 < start then 0 else Max(total - start, 0))
            && forall k :: 0 <= k < |pieces| ==> pieces[k].index == start + k
  {
    var bodies := Bodies(Push(file, size, total, start));
    if bodies != [] {
      OnlyEmpty(bodies[1..]);
    }
  }

  lemma {:induction false} OnlyEmpty(parts: seq<Data>)
    requires forall k :: 0 <= k < |parts| ==> parts[k] == []
    ensures Concat(parts) == []
  {
    if parts != [] {
      OnlyEmpty(parts[1..]);
    }
  }

  /** Whatever arrived before the connection broke, followed by a push resumed behind it, is the file. */
  lemma BrokenThenResumed(source: Data, size: nat, start: nat, received: nat)
    requires size > 0 && start + received <= ChunkCount(|source|, size)
    ensures var total := ChunkCount(|source|, size);
            var before := Pushed(source, size, total, start)[..received];
            var after := Pushed(source, size, total, start + received);
            && Concat(Bodies(before + after)) == source[Offset(|source|, size, start)..]
            && (start == 0 ==> Concat(Bodies(before + after)) == source)
  {
    hide Slice;
    EndOffset(|source|, size);
    hide Offset;
    var total := ChunkCount(|source|, size);
    var whole := Pushed(source, size, total, start);
    var after := Pushed(source, size, total, start + received);
    assert whole == whole[..received] + after by {
      assert forall k :: 0 <= k < |after| ==> after[k] == whole[received + k];
    }
    PushDeliversRest(source, size, start);
  }
}
