/** How many bytes are done (`completed_bytes` in `metadata.rs`). */
module Accounting {
  import opened Basics
  import opened ChunkLayout
  import opened Bitmap
  import opened Metadata

  /** The sizes of the complete chunks among the first `n`, added up. */
  ghost function BytesBelow(m: PartMetadata, n: nat): nat
    requires m.bitmap.Sized() && n <= m.bitmap.chunkCount
    decreases n
  {
    if n == 0 then 0
    else BytesBelow(m, n - 1) + if m.bitmap.BitSet(n - 1) then Max(m.Plan().Hi(n - 1) - m.Plan().Lo(n - 1), 0) else 0
  }

  /** The bytes of the file below `p` that lie in complete chunks. */
  ghost function DoneBelow(m: PartMetadata, p: nat): set<nat>
    requires m.Consistent()
  {
    set q: nat | q < p && q < m.contentLen && ChunkOf(q, m.chunkSize) in m.Complete()
  }

  predicate Between(a: nat, q: nat, b: nat) {
    a <= q < b
  }

  ghost function Range(a: nat, b: nat): set<nat> {
    set q: nat | q < b && Between(a, q, b)
  }

  lemma {:induction false} RangeSize(a: nat, b: nat)
    requires a <= b
    ensures |Range(a, b)| == b - a
    decreases b - a
  {
    if a < b {
      RangeSize(a, b - 1);
      assert Range(a, b) == Range(a, b - 1) + {b - 1};
    }
  }

  lemma DoneInChunk(m: PartMetadata, i: nat)
    requires m.Consistent() && i < m.chunkCount
    ensures m.Plan().Lo(i) < m.Plan().Hi(i) <= m.contentLen
    ensures DoneBelow(m, m.Plan().Hi(i))
            == DoneBelow(m, m.Plan().Lo(i)) + if m.bitmap.BitSet(i) then Range(m.Plan().Lo(i), m.Plan().Hi(i)) else {}
  {
    var plan := m.Plan();
    ChunkInPlan(plan, i);
    forall q: nat | plan.Lo(i) <= q < plan.Hi(i)
      ensures ChunkOf(q, m.chunkSize) == i
    {
      ChunksCover(plan, q);
      ChunksUnique(plan, q, i, ChunkOf(q, m.chunkSize));
    }
  }

  /** Adding up chunk sizes counts exactly the bytes that are done. */
  lemma {:induction false} BytesAreCounted(m: PartMetadata, n: nat)
    requires m.Consistent() && n <= m.chunkCount
    ensures n < m.chunkCount ==> BytesBelow(m, n) == |DoneBelow(m, m.Plan().Lo(n))|
    ensures n == m.chunkCount ==> BytesBelow(m, n) == |DoneBelow(m, m.contentLen)|
    decreases n
  {
    hide ChunkPlan.Hi, Bits.BitSet;
    var plan := m.Plan();
    if n == 0 {
      assert DoneBelow(m, 0) == {};
      if m.chunkCount == 0 {
        NoChunksNoBytes(plan);
      }
    } else {
      BytesAreCounted(m, n - 1);
      DoneSize(m, n - 1);
      ChunksContiguous(plan, n - 1);
    }
  }

  lemma DoneSize(m: PartMetadata, i: nat)
    requires m.Consistent() && i < m.chunkCount
    ensures m.Plan().Lo(i) < m.Plan().Hi(i)
    ensures |DoneBelow(m, m.Plan().Hi(i))|
            == |DoneBelow(m, m.Plan().Lo(i))| + if m.bitmap.BitSet(i) then m.Plan().Hi(i) - m.Plan().Lo(i) else 0
  {
    hide ChunkPlan.Lo, ChunkPlan.Hi, Bits.BitSet;
    DoneInChunk(m, i);
    RangeSize(m.Plan().Lo(i), m.Plan().Hi(i));
    assert DoneBelow(m, m.Plan().Lo(i)) !! Range(m.Plan().Lo(i), m.Plan().Hi(i));
  }

  lemma NoChunksNoBytes(plan: ChunkPlan)
    requires plan.Valid() && plan.chunkCount == 0
    ensures plan.contentLen == 0
  {
    if plan.contentLen > 0 {
      ChunksCover(plan, 0);
    }
  }

  lemma SubsetSize(a: set<nat>, b: set<nat>)
    requires a <= b
    ensures |a| <= |b|
    ensures |a| == |b| ==> a == b
  {
    assert b == a + (b - a);
  }

  /** Never more than the file, and all of it exactly when every chunk is done. */
  lemma AllBytesWhenComplete(m: PartMetadata)
    requires m.Consistent()
    ensures BytesBelow(m, m.chunkCount) <= m.contentLen
    ensures BytesBelow(m, m.chunkCount) == m.contentLen <==> m.bitmap.AllComplete()
  {
    BytesAreCounted(m, m.chunkCount);
    RangeSize(0, m.contentLen);
    var done, all := DoneBelow(m, m.contentLen), Range(0, m.contentLen);
    SubsetSize(done, all);
    AllCompleteIsFull(m.bitmap);
    if m.bitmap.AllComplete() {
      forall q | q in all
        ensures q in done
      {
        ChunksCover(m.Plan(), q);
      }
      assert done == all;
    } else {
      var i: nat :| i < m.chunkCount && !m.bitmap.BitSet(i);
      ChunkInPlan(m.Plan(), i);
      var q := m.Plan().Lo(i);
      assert q in all;
      ChunksCover(m.Plan(), q);
      ChunksUnique(m.Plan(), q, i, ChunkOf(q, m.chunkSize));
      assert q !in done;
    }
  }

  lemma OneMoreFull(m: PartMetadata, i: nat)
    requires m.Consistent() && i + 1 < m.chunkCount
    ensures BytesBelow(m, i + 1) == BytesBelow(m, i) + if m.bitmap.Has(i) then m.chunkSize else 0
    ensures BytesBelow(m, i + 1) <= BytesBelow(m, m.chunkCount)
  {
    hide PartMetadata.Consistent, ChunkPlan.Lo, ChunkPlan.Hi;
    FullChunk(m, i);
    SameCounts(m);
    BytesBelowMonotone(m, i + 1, m.chunkCount);
  }

  lemma SameCounts(m: PartMetadata)
    requires m.Consistent()
    ensures m.bitmap.Sized() && m.bitmap.chunkCount == m.chunkCount
  {
  }

  lemma LastChunk(m: PartMetadata)
    requires m.Consistent() && m.chunkCount > 0
    ensures var i := m.chunkCount - 1;
            i * m.chunkSize < m.contentLen
            && BytesBelow(m, m.chunkCount)
               == BytesBelow(m, i) + if m.bitmap.Has(i) then m.contentLen - i * m.chunkSize else 0
  {
    ChunkInPlan(m.Plan(), m.chunkCount - 1);
    ChunksContiguous(m.Plan(), m.chunkCount - 1);
  }

  /** The sum, as the program forms it: full chunks first, then the last one.
      No addition exceeds 64 bits. */
  method CompletedBytes(m: PartMetadata) returns (bytes: u64)
    requires m.Consistent()
    ensures bytes == |DoneBelow(m, m.contentLen)|
    ensures bytes <= m.contentLen
    ensures bytes == m.contentLen <==> m.bitmap.AllComplete()
  {
    hide DoneBelow, BytesBelow, PartMetadata.Consistent, Bits.AllComplete;
    SameCounts(m);
    AllBytesWhenComplete(m);
    BytesAreCounted(m, m.chunkCount);
    NoBytesYet(m);
    if m.chunkCount == 0 {
      return 0;
    }
    var full := m.chunkCount - 1;
    bytes := 0;
    var index := 0;
    while index < full
      invariant 0 <= index <= full
      invariant bytes == BytesBelow(m, index)
    {
      OneMoreFull(m, index);
      if m.bitmap.Has(index) {
        bytes := bytes + m.chunkSize;
      }
      index := index + 1;
    }
    LastChunk(m);
    if m.bitmap.Has(full) {
      bytes := bytes + (m.contentLen - full * m.chunkSize);
    }
  }

  lemma NoBytesYet(m: PartMetadata)
    requires m.bitmap.Sized()
    ensures BytesBelow(m, 0) == 0
  {
  }

  lemma FullChunk(m: PartMetadata, i: nat)
    requires m.Consistent() && i + 1 < m.chunkCount
    ensures m.Plan().Hi(i) - m.Plan().Lo(i) == m.chunkSize
  {
    ChunksContiguous(m.Plan(), i);
    assert (i + 1) * m.chunkSize == i * m.chunkSize + m.chunkSize;
  }

  lemma {:induction false} BytesBelowMonotone(m: PartMetadata, a: nat, b: nat)
    requires m.bitmap.Sized() && a <= b <= m.bitmap.chunkCount
    ensures BytesBelow(m, a) <= BytesBelow(m, b)
    decreases b
  {
    if a < b {
      BytesBelowMonotone(m, a, b - 1);
    }
  }
}
