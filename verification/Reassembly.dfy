/** What a file holds after some of its chunks were written at their offsets, in any order. */
module Reassembly {
  import opened Bytes

  function ChunkEnd(n: nat, size: nat, i: nat): nat {
    Min(i * size + size, n)
  }

  /** `file` is what is on disk once exactly the chunks of `written` were stored: it ends where
      the furthest written chunk ends, and the chunks that were skipped over read as zeros. */
  ghost predicate IsImage(file: Data, source: Data, size: nat, written: set<nat>)
    requires size > 0
  {
    && (forall i <- written :: i * size < |source| && ChunkEnd(|source|, size, i) <= |file|)
    && (file != [] ==> exists i <- written :: |file| == ChunkEnd(|source|, size, i))
    && forall p :: 0 <= p < |file| ==>
         p < |source| && file[p] == if p / size in written then source[p] else 0
  }

  lemma WriteExtendsImage(file: Data, source: Data, size: nat, written: set<nat>, i: nat)
    requires size > 0 && i < ChunkCount(|source|, size)
    requires IsImage(file, source, size, written)
    ensures IsImage(WriteAt(file, i * size, Slice(source, size, i)), source, size, written + {i})
  {
    InRange(|source|, size, i);
    var offset, chunk := i * size, Slice(source, size, i);
    var after := WriteAt(file, offset, chunk);
    assert offset + |chunk| == Min(offset + size, |source|);
    assert after != [] ==> exists j <- written + {i} :: |after| == ChunkEnd(|source|, size, j) by {
      if |after| == offset + |chunk| {
        assert i in written + {i};
      } else {
        var j :| j in written && |file| == ChunkEnd(|source|, size, j);
        assert j in written + {i};
      }
    }
    forall p | 0 <= p < |after|
      ensures p < |source| && after[p] == if p / size in written + {i} then source[p] else 0
    {
      Quotient(p, size, i);
      Quotient(p, size, p / size);
      assert p / size in written ==> p < ChunkEnd(|source|, size, p / size) || p >= |source|;
    }
  }

  /** Storing the chunks named by `order`, one packet after another, on top of `file`. */
  function Replay(file: Data, source: Data, size: nat, order: seq<nat>): Data
    requires size > 0
  {
    if order == [] then
      file
    else
      var i := order[|order| - 1];
      WriteAt(Replay(file, source, size, order[..|order| - 1]), i * size, Slice(source, size, i))
  }

  predicate InFile(order: seq<nat>, n: nat, size: nat)
    requires size > 0
  {
    forall k :: 0 <= k < |order| ==> order[k] < ChunkCount(n, size)
  }

  function Indices(order: seq<nat>): set<nat> {
    set i <- order
  }

  lemma {:induction false} ReplayIsImage(source: Data, size: nat, order: seq<nat>)
    requires size > 0
    requires InFile(order, |source|, size)
    ensures IsImage(Replay([], source, size, order), source, size, Indices(order))
  {
    if order != [] {
      var last := |order| - 1;
      ReplayIsImage(source, size, order[..last]);
      WriteExtendsImage(Replay([], source, size, order[..last]), source, size, Indices(order[..last]), order[last]);
      assert Indices(order) == Indices(order[..last]) + {order[last]};
    }
  }

  predicate AllZero(data: Data) {
    forall k :: 0 <= k < |data| ==> data[k] == 0
  }

  /** Every chunk that was never written is all zeros, and the last chunk was written. */
  predicate Suffices(source: Data, size: nat, written: set<nat>)
    requires size > 0
  {
    && (source != [] ==> ChunkCount(|source|, size) - 1 in written)
    && forall i :: 0 <= i < ChunkCount(|source|, size) && i !in written ==> AllZero(Slice(source, size, i))
  }

  /** The exact condition for the disk to hold the source. */
  lemma ImageIsSource(file: Data, source: Data, size: nat, written: set<nat>)
    requires size > 0 && IsImage(file, source, size, written)
    ensures file == source <==> Suffices(source, size, written)
  {
    if Suffices(source, size, written) {
      SufficientImage(file, source, size, written);
    }
    if file == source {
      CompleteImageSuffices(file, source, size, written);
    }
  }

  lemma SufficientImage(file: Data, source: Data, size: nat, written: set<nat>)
    requires size > 0 && IsImage(file, source, size, written)
    requires Suffices(source, size, written)
    ensures file == source
  {
    if source != [] {
      LastChunkEnds(|source|, size);
    }
    assert |file| == |source|;
    forall p | 0 <= p < |file|
      ensures file[p] == source[p]
    {
      SufficientByte(source, size, written, p);
    }
  }

  lemma SufficientByte(source: Data, size: nat, written: set<nat>, p: nat)
    requires size > 0 && Suffices(source, size, written) && p < |source|
    ensures p / size in written || source[p] == 0
  {
    var i := p / size;
    Quotient(p, size, i);
    InRange(|source|, size, i);
    if i !in written {
      assert AllZero(Slice(source, size, i));
      assert Slice(source, size, i)[p - i * size] == source[p];
    }
  }

  lemma CompleteImageSuffices(file: Data, source: Data, size: nat, written: set<nat>)
    requires size > 0 && IsImage(file, source, size, written)
    requires file == source
    ensures Suffices(source, size, written)
  {
    if source != [] {
      var i :| i in written && |file| == ChunkEnd(|source|, size, i);
      EndsInLastChunk(|source|, size, i);
    }
    forall i | 0 <= i < ChunkCount(|source|, size) && i !in written
      ensures AllZero(Slice(source, size, i))
    {
      UnwrittenIsZero(source, size, written, i);
    }
  }

  lemma EndsInLastChunk(n: nat, size: nat, i: nat)
    requires size > 0 && i * size < n <= i * size + size
    ensures i == ChunkCount(n, size) - 1
  {
    InRange(n, size, i);
    InRange(n, size, i + 1);
  }

  lemma UnwrittenIsZero(source: Data, size: nat, written: set<nat>, i: nat)
    requires size > 0 && i !in written && IsImage(source, source, size, written)
    ensures AllZero(Slice(source, size, i))
  {
    forall k | 0 <= k < |Slice(source, size, i)|
      ensures Slice(source, size, i)[k] == 0
    {
      Quotient(i * size + k, size, i);
      assert source[i * size + k] == 0;
    }
  }

  /** Chunk packets in any order, with repeats, that cover every index leave exactly the source. */
  lemma OutOfOrderReassembly(source: Data, size: nat, order: seq<nat>)
    requires size > 0
    requires InFile(order, |source|, size)
    ensures (forall i :: 0 <= i < ChunkCount(|source|, size) ==> i in order) ==>
              Replay([], source, size, order) == source
    ensures Replay([], source, size, order) == source <==> Suffices(source, size, Indices(order))
  {
    ReplayIsImage(source, size, order);
    ImageIsSource(Replay([], source, size, order), source, size, Indices(order));
    if forall i :: 0 <= i < ChunkCount(|source|, size) ==> i in order {
      if source != [] {
        LastChunkEnds(|source|, size);
      }
    }
  }

  function Below(k: nat): (r: set<nat>)
    ensures forall i: nat :: i in r <==> i < k
  {
    if k == 0 then {} else Below(k - 1) + {k - 1}
  }

  lemma {:induction false} BelowSize(k: nat)
    ensures |Below(k)| == k
  {
    if k > 0 {
      BelowSize(k - 1);
      assert k - 1 !in Below(k - 1);
    }
  }

  /** Pigeonhole: a set of indices below `total` that has `total` elements is all of them. */
  lemma FullSet(written: set<nat>, total: nat)
    requires written <= Below(total)
    ensures |written| <= total
    ensures |written| == total <==> written == Below(total)
  {
    BelowSize(total);
    Subset(written, Below(total));
  }

  lemma Subset(a: set<nat>, b: set<nat>)
    requires a <= b
    ensures |a| <= |b|
    ensures |a| == |b| ==> a == b
  {
    assert b == a + (b - a);
  }

  /** Repeat-free sequences have as many elements as indices. */
  predicate Distinct(order: seq<nat>) {
    forall i, j :: 0 <= i < j < |order| ==> order[i] != order[j]
  }

  lemma {:induction false} DistinctSize(order: seq<nat>)
    ensures |Indices(order)| <= |order|
    ensures |Indices(order)| == |order| <==> Distinct(order)
  {
    if order != [] {
      var last := |order| - 1;
      DistinctSize(order[..last]);
      assert Indices(order) == Indices(order[..last]) + {order[last]};
      if order[last] in order[..last] {
        assert Indices(order) == Indices(order[..last]);
        var i :| 0 <= i < last && order[i] == order[last];
        assert !Distinct(order);
      } else if Distinct(order[..last]) {
        forall i, j | 0 <= i < j < |order|
          ensures order[i] != order[j]
        {
          assert order[i] == order[..last][i];
        }
      }
    }
  }

  /** Resuming at the count `|written|` finishes the index set exactly when `written` has no gaps. */
  lemma ResumeFillsIffInitial(written: set<nat>, total: nat)
    requires written <= Below(total)
    ensures written + (Below(total) - Below(|written|)) == Below(total) <==> written == Below(|written|)
  {
    FullSet(written, total);
    BelowSize(|written|);
    if written + (Below(total) - Below(|written|)) == Below(total) {
      assert Below(|written|) <= written by {
        forall i | i in Below(|written|) ensures i in written {
          assert i in Below(total);
        }
      }
      Subset(Below(|written|), written);
    }
  }
}
