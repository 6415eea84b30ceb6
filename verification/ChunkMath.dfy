/** The chunk size and chunk count formulas of the bridge and of the browser, and the bridge's
    slicing loop. */
module ChunkMath {
  import opened Bytes
  import opened Download

  const MIB := 1024 * 1024
  const STEP := 100 * MIB
  const PAYLOAD_LIMIT := 20 * MIB

  /** Rounding up, as `math.ceil` and `Math.ceil` do. */
  function Ceil(x: real): int {
    -(-x).Floor
  }

  /** `min(16, ceil(size / 100 MiB))` mebibytes above 100 MiB, and one below; both sides compute this. */
  function ChunkSize(size: nat): (r: nat)
    ensures 0 < r <= 16 * MIB < PAYLOAD_LIMIT
  {
    if size > STEP then
      CeilIsCount(size, STEP);
      LastChunkEnds(size, STEP);
      Min(16, Ceil(size as real / STEP as real)) * MIB
    else
      MIB
  }

  function BridgeCount(size: nat): nat {
    if size > 0 then (size + ChunkSize(size) - 1) / ChunkSize(size) else 0
  }

  function BrowserCount(size: nat): int {
    Ceil(size as real / ChunkSize(size) as real)
  }

  lemma Scale(a: int, n: int, d: int)
    requires d > 0
    ensures a as real <= n as real / d as real <==> a * d <= n
    ensures a as real >= n as real / d as real <==> a * d >= n
  {
    var q := n as real / d as real;
    assert q * d as real == n as real;
    assert (a * d) as real == a as real * d as real;
    if a as real <= q {
      assert a as real * d as real <= q * d as real;
    } else {
      assert a as real * d as real > q * d as real;
    }
    if a as real >= q {
      assert a as real * d as real >= q * d as real;
    } else {
      assert a as real * d as real < q * d as real;
    }
  }

  lemma CeilIsCount(n: nat, d: nat)
    requires d > 0
    ensures Ceil(n as real / d as real) == ChunkCount(n, d)
  {
    var c, q := ChunkCount(n, d), n as real / d as real;
    CountBounds(n, d);
    Scale(c, n, d);
    Scale(c - 1, n, d);
    assert (c - 1) * d == c * d - d;
    assert (c - 1) as real < q <= c as real;
  }

  /** Browser and bridge split every file into the same number of chunks. */
  lemma CountsAgree(size: nat)
    ensures BrowserCount(size) == BridgeCount(size) == ChunkCount(size, ChunkSize(size))
  {
    CeilIsCount(size, ChunkSize(size));
    Quotient(ChunkSize(size) - 1, ChunkSize(size), 0);
  }

  /** A file has at most 100 chunks exactly up to 1600 MiB, so every file the server accepts does. */
  lemma AtMostHundredChunks(size: nat)
    ensures BridgeCount(size) <= 100 <==> size <= 16 * STEP
  {
    CountsAgree(size);
    var chunk := ChunkSize(size);
    InRange(size, chunk, 100);
    if size > STEP {
      CeilIsCount(size, STEP);
      CountBounds(size, STEP);
    }
  }

  /** The bridge's loop over a request body, including its own way of counting the slices. */
  method SliceBody(body: Data, size: nat, startChunk: nat) returns (sent: seq<DownloadChunk>)
    requires size > 0
    ensures |sent| == ChunkCount(|body|, size)
    ensures forall k :: 0 <= k < |sent| ==> sent[k].index == startChunk + k && 0 < |sent[k].data| <= size
    ensures Concat(Bodies(sent)) == body
  {
    var count := |body| / size + if |body| % size > 0 then 1 else 0;
    SliceCount(|body|, size);
    sent := [];
    for i := 0 to count
      invariant |sent| == i
      invariant forall k :: 0 <= k < i ==> sent[k] == DownloadChunk(startChunk + k, Slice(body, size, k))
    {
      sent := sent + [DownloadChunk(startChunk + i, Slice(body, size, i))];
    }
    forall k | 0 <= k < count
      ensures 0 < |sent[k].data| <= size
    {
      SliceLength(body, size, k);
    }
    EndOffset(|body|, size);
    hide Offset;
    SlicesJoin(body, size, 0, count, Bodies(sent));
  }

  lemma SliceCount(n: nat, size: nat)
    requires size > 0
    ensures n / size + (if n % size > 0 then 1 else 0) == ChunkCount(n, size)
  {
    var q, r := n / size, n % size;
    assert n == q * size + r;
    if r > 0 {
      assert (q + 1) * size == q * size + size;
      Quotient(n + size - 1, size, q + 1);
    } else {
      Quotient(n + size - 1, size, q);
    }
  }
}
