/** Byte strings, files as byte strings, and the division facts chunking rests on. */
module Bytes {

  type Byte = b: int | 0 <= b < 256

  type Data = seq<Byte>

  function Min(a: int, b: int): int {
    if a < b then a else b
  }

  function Concat(parts: seq<Data>): Data {
    if parts == [] then [] else parts[0] + Concat(parts[1..])
  }

  lemma {:induction false} ConcatSplit(left: seq<Data>, right: seq<Data>)
    ensures Concat(left + right) == Concat(left) + Concat(right)
  {
    if left == [] {
      assert left + right == right;
    } else {
      assert (left + right)[1..] == left[1..] + right;
      ConcatSplit(left[1..], right);
    }
  }

  /** `seek(offset)` followed by `write(data)`: a gap past the end reads back as zeros,
      and writing nothing changes nothing. */
  function WriteAt(file: Data, offset: nat, data: Data): (r: Data)
    ensures |r| == if data == [] then |file| else if |file| < offset + |data| then offset + |data| else |file|
    ensures forall p :: 0 <= p < |r| ==>
              r[p] == if offset <= p < offset + |data| then data[p - offset]
                      else if p < |file| then file[p] else 0
  {
    if data == [] then
      file
    else
      var padded := if |file| < offset then file + seq(offset - |file|, _ => 0) else file;
      padded[..offset] + data + if offset + |data| < |padded| then padded[offset + |data|..] else []
  }

  /** The number of chunks of `size` bytes a file of `n` bytes needs: the ceiling quotient. */
  function ChunkCount(n: nat, size: nat): nat
    requires size > 0
  {
    (n + size - 1) / size
  }

  /** Chunk `i` of `source`: at most `size` bytes, clipped at the end of the file. */
  function Slice(source: Data, size: nat, i: nat): Data
    requires size > 0
  {
    source[Min(i * size, |source|)..Min(i * size + size, |source|)]
  }

  /** Where chunk `i` starts in a file of `n` bytes, if it does. */
  function Offset(n: nat, size: nat, i: nat): (r: nat)
    ensures r <= n
  {
    Min(i * size, n)
  }

  lemma SliceBetween(source: Data, size: nat, i: nat)
    requires size > 0
    ensures Offset(|source|, size, i) <= Offset(|source|, size, i + 1)
    ensures Slice(source, size, i) == source[Offset(|source|, size, i)..Offset(|source|, size, i + 1)]
  {
    assert (i + 1) * size == i * size + size;
  }

  lemma Multiples(i: nat, j: nat, size: nat)
    requires i < j
    ensures i * size + size <= j * size
  {
    assert (j - i - 1) * size >= 0;
    assert j * size == i * size + size + (j - i - 1) * size;
  }

  lemma Quotient(p: nat, size: nat, i: nat)
    requires size > 0
    ensures p / size == i <==> i * size <= p < i * size + size
  {
    var q, r := p / size, p % size;
    assert p == q * size + r;
    if q < i {
      Multiples(q, i, size);
    } else if i < q {
      Multiples(i, q, size);
    }
  }

  lemma CountBounds(n: nat, size: nat)
    requires size > 0
    ensures n <= ChunkCount(n, size) * size < n + size
  {
    Quotient(n + size - 1, size, ChunkCount(n, size));
  }

  lemma InRange(n: nat, size: nat, i: nat)
    requires size > 0
    ensures i < ChunkCount(n, size) <==> i * size < n
  {
    var c := ChunkCount(n, size);
    CountBounds(n, size);
    if i < c {
      Multiples(i, c, size);
    } else if c < i {
      Multiples(c, i, size);
    }
  }

  lemma LastChunkEnds(n: nat, size: nat)
    requires size > 0 && n > 0
    ensures var c := ChunkCount(n, size); c > 0 && (c - 1) * size < n <= c * size
  {
    var c := ChunkCount(n, size);
    InRange(n, size, 0);
    InRange(n, size, c - 1);
    InRange(n, size, c);
  }

  lemma EndOffset(n: nat, size: nat)
    requires size > 0
    ensures Offset(n, size, 0) == 0 && Offset(n, size, ChunkCount(n, size)) == n
  {
    CountBounds(n, size);
  }
}
