/** The completion bitmap (`bitmap.rs`): packed bits on one side, a set of
    chunk indices on the other. */
module Bitmap {
  import opened Bytes
  import opened Basics

  function BitmapLen(chunkCount: u64): nat {
    DivCeil(chunkCount, 8)
  }

  /** `1u8 << bit` */
  function Mask(bit: nat): byte
    requires bit < 8
  {
    if bit == 0 then 1 else if bit == 1 then 2 else if bit == 2 then 4 else if bit == 3 then 8
    else if bit == 4 then 16 else if bit == 5 then 32 else if bit == 6 then 64 else 128
  }

  /** The value of a bitmap: what is serialized, compared and cloned. */
  datatype Bits = Bits(chunkCount: u64, bytes: seq<byte>) {

    predicate Sized() {
      |bytes| == BitmapLen(chunkCount)
    }

    predicate BitSet(index: nat)
      requires index / 8 < |bytes|
    {
      bytes[index / 8] & Mask(index % 8) != 0
    }

    /** Sized, and every bit past the last chunk is clear. */
    ghost predicate Canonical() {
      Sized() && forall i: nat | chunkCount <= i < 8 * |bytes| :: !BitSet(i)
    }

    function IsComplete(index: u64): Result<bool>
      requires Sized()
    {
      if index >= chunkCount then Failure(InvalidConfig) else Success(BitSet(index))
    }

    function Marked(index: nat): Bits
      requires index / 8 < |bytes|
    {
      Bits(chunkCount, bytes[index / 8 := bytes[index / 8] | Mask(index % 8)])
    }

    predicate Has(index: nat)
      requires Sized()
    {
      index < chunkCount && BitSet(index)
    }

    /** The abstract value: the indices of the complete chunks. */
    ghost function Members(): set<nat>
      requires Sized()
    {
      MembersBelow(chunkCount)
    }

    ghost function MembersBelow(n: nat): set<nat>
      requires Sized() && n <= chunkCount
    {
      set i: nat | i < n && BitSet(i)
    }

    function CountBelow(n: u64): nat
      requires Sized() && n <= chunkCount
      decreases n
    {
      if n == 0 then 0 else CountBelow(n - 1) + if BitSet(n - 1) then 1 else 0
    }

    function CompleteCount(): nat
      requires Sized()
    {
      CountBelow(chunkCount)
    }

    predicate AllComplete()
      requires Sized()
    {
      CompleteCount() == chunkCount
    }

    function IncompleteFrom(n: u64): seq<u64>
      requires Sized() && n <= chunkCount
      decreases chunkCount - n
    {
      if n == chunkCount then []
      else if BitSet(n) then IncompleteFrom(n + 1)
      else [n] + IncompleteFrom(n + 1)
    }

    function IncompleteIndices(): seq<u64>
      requires Sized()
    {
      IncompleteFrom(0)
    }

    function ValidateUnusedBits(): Result<()>
      requires Sized()
    {
      if chunkCount == 0 then Success(())
      else
        var usedBits := chunkCount % 8;
        if usedBits == 0 then Success(())
        else
          var last := bytes[|bytes| - 1];
          var validMask := Mask(usedBits) - 1;
          if last & !validMask != 0 then Failure(PartCorrupt) else Success(())
    }
  }

  function Empty(chunkCount: u64): (b: Bits)
    ensures b.Sized()
  {
    Bits(chunkCount, Zeros(BitmapLen(chunkCount)))
  }

  function FromBytes(chunkCount: u64, bytes: seq<byte>): (r: Result<Bits>)
    ensures r.Success? ==> r.value == Bits(chunkCount, bytes) && r.value.Sized()
  {
    if |bytes| != BitmapLen(chunkCount) then Failure(PartCorrupt)
    else
      var bits := Bits(chunkCount, bytes);
      var _ :- bits.ValidateUnusedBits();
      Success(bits)
  }

  // ---- one byte ----

  lemma OrTouchesOneBit(b: byte, i: nat, j: nat)
    requires i < 8 && j < 8
    ensures (b | Mask(i)) & Mask(j) != 0 <==> i == j || b & Mask(j) != 0
  {
  }

  lemma EqualBits(a: byte, b: byte)
    requires forall i: nat | i < 8 :: a & Mask(i) != 0 <==> b & Mask(i) != 0
    ensures a == b
  {
    assert a & Mask(0) != 0 <==> b & Mask(0) != 0;
    assert a & Mask(1) != 0 <==> b & Mask(1) != 0;
    assert a & Mask(2) != 0 <==> b & Mask(2) != 0;
    assert a & Mask(3) != 0 <==> b & Mask(3) != 0;
    assert a & Mask(4) != 0 <==> b & Mask(4) != 0;
    assert a & Mask(5) != 0 <==> b & Mask(5) != 0;
    assert a & Mask(6) != 0 <==> b & Mask(6) != 0;
    assert a & Mask(7) != 0 <==> b & Mask(7) != 0;
  }

  predicate ClearFrom(b: byte, used: nat) {
    forall i: nat | used <= i < 8 :: b & Mask(i) == 0
  }

  lemma UnusedMask(b: byte, used: nat)
    requires 0 < used < 8
    ensures b & !(Mask(used) - 1) == 0 <==> ClearFrom(b, used)
  {
    if ClearFrom(b, used) {
      var clear := (i: nat) requires i < 8 => b & Mask(i) == 0;
      assert used <= 1 ==> clear(1);
      assert used <= 2 ==> clear(2);
      assert used <= 3 ==> clear(3);
      assert used <= 4 ==> clear(4);
      assert used <= 5 ==> clear(5);
      assert used <= 6 ==> clear(6);
      assert clear(7);
    }
  }

  // ---- the bitmap as a set ----

  lemma EmptyHasNothing(chunkCount: u64)
    ensures Empty(chunkCount).Canonical() && Empty(chunkCount).Members() == {}
  {
    var b := Empty(chunkCount);
    forall i: nat | i < 8 * |b.bytes|
      ensures !b.BitSet(i)
    {
    }
  }

  lemma MarkedBit(b: Bits, index: nat, i: nat)
    requires index / 8 < |b.bytes| && i / 8 < |b.bytes|
    ensures b.Marked(index).BitSet(i) <==> i == index || b.BitSet(i)
  {
    if i / 8 == index / 8 {
      OrTouchesOneBit(b.bytes[index / 8], index % 8, i % 8);
    }
  }

  /** Marking adds exactly one index and leaves the unused bits clear. */
  lemma MarkedAddsOne(b: Bits, index: nat)
    requires b.Canonical() && index < b.chunkCount
    ensures b.Marked(index).Canonical()
    ensures b.Marked(index).Members() == b.Members() + {index}
  {
    forall i: nat | i / 8 < |b.bytes|
      ensures b.Marked(index).BitSet(i) <==> i == index || b.BitSet(i)
    {
      MarkedBit(b, index, i);
    }
  }

  lemma BitIffMember(b: Bits, k: nat, bit: nat)
    requires b.Canonical() && k < |b.bytes| && bit < 8
    ensures b.bytes[k] & Mask(bit) != 0 <==> 8 * k + bit in b.Members()
  {
    var p := 8 * k + bit;
    assert p / 8 == k && p % 8 == bit;
    assert b.BitSet(p) <==> b.bytes[k] & Mask(bit) != 0;
  }

  /** Equal sets have equal bytes: the serialized form is a canonical name. */
  lemma CanonicalUnique(a: Bits, b: Bits)
    requires a.Canonical() && b.Canonical() && a.chunkCount == b.chunkCount
    requires a.Members() == b.Members()
    ensures a == b
  {
    forall k | 0 <= k < |a.bytes|
      ensures a.bytes[k] == b.bytes[k]
    {
      forall i: nat | i < 8
        ensures a.bytes[k] & Mask(i) != 0 <==> b.bytes[k] & Mask(i) != 0
      {
        BitIffMember(a, k, i);
        BitIffMember(b, k, i);
      }
      EqualBits(a.bytes[k], b.bytes[k]);
    }
  }

  /** The bits past the last chunk all sit in the last byte. */
  lemma UnusedBitsInLastByte(chunkCount: u64, i: nat)
    requires chunkCount % 8 != 0
    ensures BitmapLen(chunkCount) == chunkCount / 8 + 1
    ensures chunkCount <= i < 8 * BitmapLen(chunkCount) <==> i / 8 == chunkCount / 8 && chunkCount % 8 <= i % 8
  {
  }

  lemma CanonicalClearsLastByte(b: Bits)
    requires b.Canonical() && b.chunkCount % 8 != 0
    ensures |b.bytes| == b.chunkCount / 8 + 1
    ensures ClearFrom(b.bytes[b.chunkCount / 8], b.chunkCount % 8)
  {
    var used, k := b.chunkCount % 8, b.chunkCount / 8;
    UnusedBitsInLastByte(b.chunkCount, 0);
    forall bit: nat | used <= bit < 8
      ensures b.bytes[k] & Mask(bit) == 0
    {
      BitIffMember(b, k, bit);
    }
  }

  lemma ClearLastByteIsCanonical(b: Bits)
    requires b.Sized() && b.chunkCount % 8 != 0 && |b.bytes| == b.chunkCount / 8 + 1
    requires ClearFrom(b.bytes[b.chunkCount / 8], b.chunkCount % 8)
    ensures b.Canonical()
  {
    forall i: nat | b.chunkCount <= i < 8 * |b.bytes|
      ensures !b.BitSet(i)
    {
      UnusedBitsInLastByte(b.chunkCount, i);
    }
  }

  /** The mask test on the last byte finds exactly the stray bits. */
  lemma ValidateFindsStrayBits(b: Bits)
    requires b.Sized() && b.chunkCount % 8 != 0
    ensures b.ValidateUnusedBits().Success? <==> b.Canonical()
  {
    UnusedBitsInLastByte(b.chunkCount, 0);
    var used, last := b.chunkCount % 8, b.bytes[b.chunkCount / 8];
    UnusedMask(last, used);
    if ClearFrom(last, used) {
      ClearLastByteIsCanonical(b);
    } else if b.Canonical() {
      CanonicalClearsLastByte(b);
    }
  }

  /** `FromBytes` accepts exactly the canonical encodings. */
  lemma FromBytesAcceptsCanonical(chunkCount: u64, bytes: seq<byte>)
    ensures FromBytes(chunkCount, bytes).Success? <==> Bits(chunkCount, bytes).Canonical()
  {
    var b := Bits(chunkCount, bytes);
    if b.Sized() {
      if chunkCount % 8 == 0 {
        assert 8 * |bytes| == chunkCount;
      } else {
        ValidateFindsStrayBits(b);
      }
    }
  }

  lemma MembersStep(b: Bits, n: nat)
    requires b.Sized() && 0 < n <= b.chunkCount
    ensures b.MembersBelow(n) == b.MembersBelow(n - 1) + if b.BitSet(n - 1) then {n - 1} else {}
  {
  }

  lemma {:induction false} CountIsCardinality(b: Bits, n: u64)
    requires b.Sized() && n <= b.chunkCount
    ensures b.CountBelow(n) == |b.MembersBelow(n)|
    decreases n
  {
    if n > 0 {
      CountIsCardinality(b, n - 1);
      MembersStep(b, n);
    }
  }

  /** The count is the cardinality, so all chunks are complete exactly when the
      set is full. */
  lemma AllCompleteIsFull(b: Bits)
    requires b.Sized()
    ensures b.CompleteCount() == |b.Members()|
    ensures b.AllComplete() <==> forall i: nat | i < b.chunkCount :: b.BitSet(i)
  {
    CountIsCardinality(b, b.chunkCount);
    CountBounded(b, b.chunkCount);
  }

  lemma {:induction false} CountBounded(b: Bits, n: u64)
    requires b.Sized() && n <= b.chunkCount
    ensures b.CountBelow(n) <= n
    ensures b.CountBelow(n) == n <==> forall i: nat | i < n :: b.BitSet(i)
    decreases n
  {
    if n > 0 {
      CountBounded(b, n - 1);
    }
  }

  /** The incomplete list is the strictly increasing complement of the set. */
  lemma {:induction false} IncompleteIsComplement(b: Bits, n: u64)
    requires b.Sized() && n <= b.chunkCount
    ensures forall i: nat :: i in b.IncompleteFrom(n) <==> n <= i < b.chunkCount && !b.BitSet(i)
    ensures forall x, y | 0 <= x < y < |b.IncompleteFrom(n)| :: b.IncompleteFrom(n)[x] < b.IncompleteFrom(n)[y]
    decreases b.chunkCount - n
  {
    if n < b.chunkCount {
      IncompleteIsComplement(b, n + 1);
      var rest := b.IncompleteFrom(n + 1);
      assert forall k | 0 <= k < |rest| :: rest[k] in rest;
    }
  }

  // ---- the mutable bitmap ----

  class ChunkBitmap {
    const chunkCount: u64
    var bytes: seq<byte>

    ghost function Value(): Bits
      reads this
    {
      Bits(chunkCount, bytes)
    }

    ghost predicate Valid()
      reads this
    {
      Value().Canonical()
    }

    constructor (value: Bits)
      requires value.Canonical()
      ensures Valid() && Value() == value
    {
      chunkCount := value.chunkCount;
      bytes := value.bytes;
    }

    /** Sets one bit in place; an index past the end changes nothing. */
    method MarkComplete(index: u64) returns (r: Result<()>)
      requires Valid()
      modifies this
      ensures Valid()
      ensures r == if index < chunkCount then Success(()) else Failure(InvalidConfig)
      ensures Value().Members() == old(Value().Members()) + if index < chunkCount then {index} else {}
      ensures index < chunkCount ==> Value() == old(Value()).Marked(index)
    {
      if index >= chunkCount {
        return Failure(InvalidConfig);
      }
      MarkedAddsOne(Value(), index);
      bytes := bytes[index / 8 := bytes[index / 8] | Mask(index % 8)];
      return Success(());
    }

    method IsComplete(index: u64) returns (r: Result<bool>)
      requires Valid()
      ensures r == if index < chunkCount then Success(index in Value().Members()) else Failure(InvalidConfig)
    {
      if index >= chunkCount {
        return Failure(InvalidConfig);
      }
      return Success(bytes[index / 8] & Mask(index % 8) != 0);
    }
  }
}
