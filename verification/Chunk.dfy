/** The chunk layout of a download (`chunk.rs`). */
module ChunkLayout {
  import opened Basics

  const DEFAULT_CHUNK_SIZE: nat := 64 * 1024 * 1024
  const I64_MAX: nat := 0x7fff_ffff_ffff_ffff

  datatype Chunk = Chunk(index: u64, start: u64, end: u64, len: u64)

  function NormalizeChunkSize(chunkSize: u64): Result<u64> {
    if chunkSize == 0 then Success(DEFAULT_CHUNK_SIZE)
    else if chunkSize > I64_MAX then Failure(InvalidConfig)
    else Success(chunkSize)
  }

  function ChunkCountFor(contentLen: u64, chunkSize: u64): u64
    requires chunkSize > 0
  {
    if contentLen == 0 then 0
    else DivCeilBound(contentLen, chunkSize); DivCeil(contentLen, chunkSize)
  }

  datatype ChunkPlan = ChunkPlan(contentLen: u64, chunkSize: u64, chunkCount: u64) {

    /** What `New` establishes; every plan in the program comes from `New`. */
    predicate Valid() {
      0 < chunkSize <= I64_MAX && chunkCount == ChunkCountFor(contentLen, chunkSize)
    }

    static function New(contentLen: u64, chunkSize: u64): (r: Result<ChunkPlan>)
      ensures r.Success? ==> r.value.Valid() && r.value.contentLen == contentLen
                             && r.value.chunkSize == if chunkSize == 0 then DEFAULT_CHUNK_SIZE else chunkSize
      ensures r.Failure? <==> chunkSize > I64_MAX
      ensures r.Failure? ==> r == Failure(InvalidConfig)
    {
      var size :- NormalizeChunkSize(chunkSize);
      Success(ChunkPlan(contentLen, size, ChunkCountFor(contentLen, size)))
    }

    /** The checked multiplication is modelled as in the source; `ChunkInPlan`
        shows that it never fails for an index inside the plan. */
    function ChunkAt(index: u64): Result<Chunk>
      requires Valid()
    {
      if index >= chunkCount then Failure(InvalidConfig)
      else if index * chunkSize >= U64_LIMIT then Failure(InvalidConfig)
      else
        IndexBelowCount(contentLen, chunkSize, index);
        var start := index * chunkSize;
        var remaining := contentLen - start;
        var len := Min(remaining, chunkSize);
        Success(Chunk(index, start, start + len - 1, len))
    }

    /** First byte of chunk `index`. */
    ghost function Lo(index: nat): nat {
      index * chunkSize
    }

    /** One past the last byte of chunk `index`. */
    ghost function Hi(index: nat): nat {
      Min((index + 1) * chunkSize, contentLen)
    }
  }

  lemma MulMonotone(a: nat, b: nat, k: nat)
    requires a <= b
    ensures a * k <= b * k
  {
    assert b * k == a * k + (b - a) * k;
  }

  lemma MulCancel(a: nat, b: nat, k: nat)
    requires a * k < b * k
    ensures a < b
  {
    if b <= a {
      MulMonotone(b, a, k);
    }
  }

  /** `DivCeil(a, b)` is the least count of `b`-sized pieces that reach `a`. */
  lemma DivCeilBound(a: nat, b: nat)
    requires b > 0
    ensures DivCeil(a, b) <= a
    ensures a <= DivCeil(a, b) * b < a + b
  {
    var q, r := (a + b - 1) / b, (a + b - 1) % b;
    assert a + b - 1 == q * b + r;
    CeilSmall(a, b);
    MulCancel(q, a + 1, b);
  }

  lemma CeilSmall(a: nat, b: nat)
    requires b > 0
    ensures a + b - 1 < (a + 1) * b
  {
    MulMonotone(1, b, a);
    assert (a + 1) * b == a * b + b;
  }

  lemma IndexBelowCount(contentLen: u64, chunkSize: u64, index: nat)
    requires chunkSize > 0 && index < ChunkCountFor(contentLen, chunkSize)
    ensures index * chunkSize < contentLen
  {
    var count := DivCeil(contentLen, chunkSize);
    DivCeilBound(contentLen, chunkSize);
    MulMonotone(index + 1, count, chunkSize);
    assert (index + 1) * chunkSize == index * chunkSize + chunkSize;
  }

  /** Every index inside the plan yields a non-empty chunk that lies inside the
      file, so neither the overflow check nor the subtraction can fail. */
  lemma ChunkInPlan(plan: ChunkPlan, index: u64)
    requires plan.Valid() && index < plan.chunkCount
    ensures plan.ChunkAt(index).Success?
    ensures plan.Lo(index) < plan.Hi(index) <= plan.contentLen
    ensures var c := plan.ChunkAt(index).value;
            c.index == index && c.start == plan.Lo(index) && c.end == plan.Hi(index) - 1
            && c.len == plan.Hi(index) - plan.Lo(index)
  {
    IndexBelowCount(plan.contentLen, plan.chunkSize, index);
    assert (index + 1) * plan.chunkSize == index * plan.chunkSize + plan.chunkSize;
  }

  /** Chunks are laid end to end: the first starts at 0, each starts where the
      previous one stops, and the last one stops at the end of the file. */
  lemma ChunksContiguous(plan: ChunkPlan, index: u64)
    requires plan.Valid() && index < plan.chunkCount
    ensures plan.Lo(0) == 0
    ensures index + 1 < plan.chunkCount ==> plan.Hi(index) == plan.Lo(index + 1)
    ensures index + 1 == plan.chunkCount ==> plan.Hi(index) == plan.contentLen
  {
    if index + 1 < plan.chunkCount {
      IndexBelowCount(plan.contentLen, plan.chunkSize, index + 1);
    } else {
      DivCeilBound(plan.contentLen, plan.chunkSize);
    }
  }

  /** Different chunks do not overlap. */
  lemma ChunksDisjoint(plan: ChunkPlan, i: u64, j: u64)
    requires plan.Valid() && i < j < plan.chunkCount
    ensures plan.Hi(i) <= plan.Lo(j)
  {
    MulMonotone(i + 1, j, plan.chunkSize);
  }

  /** The index of the chunk that holds byte `p`. */
  ghost function ChunkOf(p: nat, chunkSize: nat): nat
    requires chunkSize > 0
  {
    p / chunkSize
  }

  /** Every byte of the file belongs to a chunk, */
  lemma ChunksCover(plan: ChunkPlan, p: nat)
    requires plan.Valid() && p < plan.contentLen
    ensures ChunkOf(p, plan.chunkSize) < plan.chunkCount
    ensures plan.Lo(ChunkOf(p, plan.chunkSize)) <= p < plan.Hi(ChunkOf(p, plan.chunkSize))
  {
    var k, size := p / plan.chunkSize, plan.chunkSize;
    assert p == k * size + p % size;
    assert (k + 1) * size == k * size + size;
    DivCeilBound(plan.contentLen, size);
    MulCancel(k, plan.chunkCount, size);
  }

  /** and to no other one. */
  lemma ChunksUnique(plan: ChunkPlan, p: nat, i: u64, j: u64)
    requires plan.Valid() && i < plan.chunkCount && j < plan.chunkCount
    requires plan.Lo(i) <= p < plan.Hi(i) && plan.Lo(j) <= p < plan.Hi(j)
    ensures i == j
  {
    if i < j {
      ChunksDisjoint(plan, i, j);
    } else if j < i {
      ChunksDisjoint(plan, j, i);
    }
  }
}
