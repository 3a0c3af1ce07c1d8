/** Which byte sequences a reader accepts as a slot, whoever wrote them, and what
    it takes them to say. Everything is stated by offset and value, without the
    decoder. */
module SlotReading {
  import opened Bytes
  import opened Basics
  import opened ChunkLayout
  import opened Bitmap
  import opened Utf8
  import opened Metadata

  // ---- numbers in a slot, least significant byte first ----

  function U16(s: seq<byte>, at: nat): (v: nat)
    requires at + 2 <= |s|
    ensures v < 0x1_0000
  {
    ByteValue(s[at]) + 0x100 * ByteValue(s[at + 1])
  }

  function U32(s: seq<byte>, at: nat): (v: u32)
    requires at + 4 <= |s|
  {
    U16(s, at) + 0x1_0000 * U16(s, at + 2)
  }

  function U64(s: seq<byte>, at: nat): (v: u64)
    requires at + 8 <= |s|
  {
    U32(s, at) + 0x1_0000_0000 * U32(s, at + 4)
  }

  lemma FromTwo(s: seq<byte>)
    requires |s| >= 2
    ensures FromLittleEndian(s) == U16(s, 0) + 0x1_0000 * FromLittleEndian(s[2..])
  {
    hide ByteValue;
    assert s[1..][1..] == s[2..];
    assert FromLittleEndian(s[1..]) == ByteValue(s[1]) + 0x100 * FromLittleEndian(s[2..]);
  }

  lemma FromFour(s: seq<byte>)
    requires |s| >= 4
    ensures FromLittleEndian(s) == U32(s, 0) + 0x1_0000_0000 * FromLittleEndian(s[4..])
  {
    hide U16, FromLittleEndian;
    FromTwo(s);
    FromTwo(s[2..]);
    Shift(s, 2, 0);
    assert s[2..][2..] == s[4..];
  }

  lemma Shift(s: seq<byte>, k: nat, at: nat)
    requires k + at + 2 <= |s|
    ensures U16(s[k..], at) == U16(s, k + at)
  {
  }

  lemma Window16(s: seq<byte>, at: nat, k: nat, len: nat)
    requires k + 2 <= len && at + len <= |s|
    ensures U16(s[at..at + len], k) == U16(s, at + k)
  {
  }

  lemma Read2(s: seq<byte>, at: nat)
    requires at + 2 <= |s|
    ensures ReadUInt(s, at, 2) == Success(U16(s, at))
  {
    hide U16;
    FromTwo(s[at..at + 2]);
    Window16(s, at, 0, 2);
  }

  lemma Read4(s: seq<byte>, at: nat)
    requires at + 4 <= |s|
    ensures ReadUInt(s, at, 4) == Success(U32(s, at))
  {
    hide U16;
    FromFour(s[at..at + 4]);
    Window16(s, at, 0, 4);
    Window16(s, at, 2, 4);
  }

  lemma Read8(s: seq<byte>, at: nat)
    requires at + 8 <= |s|
    ensures ReadU64(s, at) == Success(U64(s, at))
  {
    hide U16;
    var w := s[at..at + 8];
    FromFour(w);
    FromFour(w[4..]);
    assert w[4..][4..] == [];
    Window16(s, at, 0, 8);
    Window16(s, at, 2, 8);
    Window16(s, at, 4, 8);
    Window16(s, at, 6, 8);
    Shift(w, 4, 0);
    Shift(w, 4, 2);
    FixedWidths();
  }

  // ---- how long a slot is ----

  /** `q` is the least number of `b`-sized pieces that hold `a`. */
  predicate Pieces(q: nat, a: nat, b: nat) {
    a <= q * b < a + b
  }

  /** The length of a slot, from the content length and the chunk size: the header,
      one bit a chunk and the two strings, rounded up to whole pages. */
  lemma SlotSizeExactly(contentLen: u64, chunkSize: u64)
    ensures chunkSize > 0x7fff_ffff_ffff_ffff <==> SlotSizeFor(contentLen, chunkSize).Failure?
    ensures SlotSizeFor(contentLen, chunkSize).Failure? ==> SlotSizeFor(contentLen, chunkSize) == Failure(InvalidConfig)
    ensures SlotSizeFor(contentLen, chunkSize).Success? ==>
              var size := if chunkSize == 0 then 64 * 1024 * 1024 else chunkSize;
              exists count: nat, bitmapLen: nat, pages: nat ::
                SlotFits(contentLen, size, count, bitmapLen, pages)
                && SlotSizeFor(contentLen, chunkSize).value == pages * 4096
  {
    var size := NormalizeChunkSize(chunkSize);
    if size.Success? {
      var count := ChunkCountFor(contentLen, size.value);
      var bitmapLen := BitmapLen(count);
      var pages := DivCeil(256 + bitmapLen + 640, 4096);
      DivCeilBound(contentLen, size.value);
      DivCeilBound(count, 8);
      DivCeilBound(256 + bitmapLen + 640, 4096);
      assert SlotFits(contentLen, size.value, count, bitmapLen, pages);
    }
  }

  predicate SlotFits(contentLen: nat, chunkSize: nat, count: nat, bitmapLen: nat, pages: nat) {
    Pieces(count, contentLen, chunkSize) && Pieces(bitmapLen, count, 8) && Pieces(pages, 256 + bitmapLen + 640, 4096)
  }

  // ---- what a slot says ----

  /** Version 1 had shorter digests, and the fields behind them came earlier. */
  function Back(slot: seq<byte>): nat
    requires |slot| >= 256
  {
    if U16(slot, 8) == 1 then 32 else 0
  }

  /** The header: the magic number, a known version, its own length, the checksum
      over everything but itself, and sizes that agree. */
  ghost predicate GoodHeader(crc: Crc, slot: seq<byte>) {
    |slot| >= 256
    && slot[..8] == [0x54, 0x4b, 0x4e, 0x57, 0x50, 0x52, 0x54, 0x31]
    && (U16(slot, 8) == 1 || U16(slot, 8) == 2) && U16(slot, 10) == 256
    && U32(slot, 12) == crc(slot[..12] + [0, 0, 0, 0] + slot[16..])
    && Pieces(U64(slot, 48), U64(slot, 40), 8)
    && U64(slot, 160 - Back(slot)) == |slot|
    && SlotSizeFor(U64(slot, 24), U64(slot, 32)) == Success(|slot|)
  }

  /** The expected digest: a known kind, and the length that this kind has. */
  predicate GoodHash(slot: seq<byte>)
    requires |slot| >= 256
  {
    var kind, len := ByteValue(slot[88]), ByteValue(slot[89]);
    kind < 6 && len == [0, 32, 20, 64, 16, 4][kind] && len <= 64 - Back(slot)
  }

  /** The bitmap and the two strings behind the header. */
  ghost predicate GoodBody(slot: seq<byte>)
    requires |slot| >= 256
  {
    var n, etagLen, modifiedLen := U64(slot, 48), U16(slot, 156 - Back(slot)), U16(slot, 158 - Back(slot));
    etagLen <= 512 && modifiedLen <= 128 && 256 + n + 640 <= |slot|
    && Bits(U64(slot, 40), slot[256..256 + n]).Canonical()
    && ValidUtf8(slot[256 + n..256 + n + etagLen]) && ValidUtf8(slot[768 + n..768 + n + modifiedLen])
  }

  /** A string of length zero is read as an absent one. */
  predicate Says(field: Option<Text>, bytes: seq<byte>) {
    if bytes == [] then field == None else field.Some? && field.value == bytes
  }

  /** The record that a slot stands for, field by field. */
  predicate Means(slot: seq<byte>, m: PartMetadata)
    requires |slot| >= 256 && 256 + U64(slot, 48) + 640 <= |slot|
    requires U16(slot, 156 - Back(slot)) <= 512 && U16(slot, 158 - Back(slot)) <= 128
  {
    var n := U64(slot, 48);
    m.generation == U64(slot, 16) && m.contentLen == U64(slot, 24) && m.chunkSize == U64(slot, 32)
    && m.chunkCount == U64(slot, 40) && m.urlHash == slot[56..88]
    && m.bitmap.chunkCount == U64(slot, 40) && m.bitmap.bytes == slot[256..256 + n]
    && m.hash.kind == [KindNone, KindSha256, KindSha1, KindSha512, KindMd5, KindCrc32][Min(ByteValue(slot[88]), 5)]
    && |m.hash.expected| <= 64 && m.hash.expected == slot[92..92 + |m.hash.expected|]
    && |m.hash.expected| == ByteValue(slot[89])
    && Says(m.etag, slot[256 + n..256 + n + U16(slot, 156 - Back(slot))])
    && Says(m.lastModified, slot[768 + n..768 + n + U16(slot, 158 - Back(slot))])
  }

  /** The header is accepted exactly if it is good. */
  lemma HeaderExactly(crc: Crc, slot: seq<byte>)
    ensures DecodeSlotHeader(crc, slot).Success? <==> GoodHeader(crc, slot)
    ensures DecodeSlotHeader(crc, slot).Success? ==>
              var h := DecodeSlotHeader(crc, slot).value;
              h.generation == U64(slot, 16) && h.contentLen == U64(slot, 24) && h.chunkSize == U64(slot, 32)
              && h.chunkCount == U64(slot, 40) && h.bitmapLen == U64(slot, 48)
              && h.offsets.etagLen == 156 - Back(slot) && h.offsets.lastModifiedLen == 158 - Back(slot)
              && h.offsets.expectedHashCapacity == 64 - Back(slot)
    ensures DecodeSlotHeader(crc, slot).Failure? ==>
              DecodeSlotHeader(crc, slot).error == PartCorrupt || DecodeSlotHeader(crc, slot).error == InvalidConfig
  {
    hide U16, U32, U64, ReadUInt, ReadU64, SlotSizeFor;
    if |slot| >= 256 {
      Read2(slot, 8);
      Read2(slot, 10);
      Read4(slot, 12);
      Read8(slot, 16);
      Read8(slot, 24);
      Read8(slot, 32);
      Read8(slot, 40);
      Read8(slot, 48);
      Read8(slot, 160 - Back(slot));
      SlotSizeExactly(U64(slot, 24), U64(slot, 32));
      DivCeilBound(U64(slot, 40), 8);
      assert Zeros(4) == [0, 0, 0, 0];
    }
  }

  lemma HashExactly(slot: seq<byte>, offsets: MetadataOffsets)
    requires |slot| >= 256 && offsets.expectedHashCapacity == 64 - Back(slot)
    ensures DecodeHash(slot, offsets).Success? <==> GoodHash(slot)
    ensures DecodeHash(slot, offsets).Success? ==>
              var h := DecodeHash(slot, offsets).value;
              h.kind == [KindNone, KindSha256, KindSha1, KindSha512, KindMd5, KindCrc32][ByteValue(slot[88])]
              && |h.expected| == ByteValue(slot[89]) && h.expected == slot[92..92 + |h.expected|]
    ensures DecodeHash(slot, offsets).Failure? ==> DecodeHash(slot, offsets) == Failure(PartCorrupt)
  {
    hide ByteValue;
  }

  lemma StringExactly(bytes: seq<byte>, len: nat)
    requires len <= |bytes|
    ensures DecodeOptionalString(bytes, len).Success? <==> ValidUtf8(bytes[..len])
    ensures DecodeOptionalString(bytes, len).Success? ==> Says(DecodeOptionalString(bytes, len).value, bytes[..len])
    ensures DecodeOptionalString(bytes, len).Failure? ==> DecodeOptionalString(bytes, len) == Failure(PartCorrupt)
  {
  }

  lemma BodyExactly(slot: seq<byte>, h: SlotHeader)
    requires |slot| >= 256 && h.chunkCount == U64(slot, 40) && h.bitmapLen == U64(slot, 48)
    requires Pieces(h.bitmapLen, h.chunkCount, 8)
    requires U16(slot, 156 - Back(slot)) <= 512 && U16(slot, 158 - Back(slot)) <= 128
    ensures var r := DecodeBody(slot, h, U16(slot, 156 - Back(slot)), U16(slot, 158 - Back(slot)));
            (r.Success? <==> GoodBody(slot))
            && (r.Failure? ==> r.error == PartCorrupt || (r.error == Panic && 256 + U64(slot, 48) + 640 > |slot|))
            && (r.Success? ==>
                  var n := U64(slot, 48);
                  r.value.0.chunkCount == U64(slot, 40) && r.value.0.bytes == slot[256..256 + n]
                  && Says(r.value.1, slot[256 + n..256 + n + U16(slot, 156 - Back(slot))])
                  && Says(r.value.2, slot[768 + n..768 + n + U16(slot, 158 - Back(slot))]))
  {
    hide U16, U64, Bits.Canonical, FromBytes, ValidUtf8, DecodeOptionalString, Says;
    var n, etagLen, modifiedLen := U64(slot, 48), U16(slot, 156 - Back(slot)), U16(slot, 158 - Back(slot));
    if 256 + n <= |slot| {
      FromBytesAcceptsCanonical(h.chunkCount, slot[256..256 + n]);
      OnlyCorrupt(h.chunkCount, slot[256..256 + n]);
    }
    if 256 + n + 512 <= |slot| {
      StringExactly(slot[256 + n..256 + n + 512], etagLen);
      assert slot[256 + n..256 + n + 512][..etagLen] == slot[256 + n..256 + n + etagLen];
    }
    if 256 + n + 640 <= |slot| {
      StringExactly(slot[768 + n..768 + n + 128], modifiedLen);
      assert slot[768 + n..768 + n + 128][..modifiedLen] == slot[768 + n..768 + n + modifiedLen];
    }
  }

  lemma OnlyCorrupt(chunkCount: u64, bytes: seq<byte>)
    ensures FromBytes(chunkCount, bytes).Failure? ==> FromBytes(chunkCount, bytes) == Failure(PartCorrupt)
  {
  }

  /** Acceptance, exactly, for every byte sequence: a good header, a good digest
      and a good body. What is accepted means what the bytes say, and what is not
      is corrupt; a bitmap that reaches past the slot panics. */
  lemma AcceptsExactly(crc: Crc, slot: seq<byte>)
    ensures DecodeSlot(crc, slot).Success? <==> GoodHeader(crc, slot) && GoodHash(slot) && GoodBody(slot)
    ensures DecodeSlot(crc, slot).Success? ==> Means(slot, DecodeSlot(crc, slot).value)
    ensures DecodeSlot(crc, slot) == Failure(Panic) ==>
              GoodHeader(crc, slot) && 256 + U64(slot, 48) + 640 > |slot|
    ensures DecodeSlot(crc, slot).Failure? ==>
              var e := DecodeSlot(crc, slot).error;
              e == PartCorrupt || e == InvalidConfig || e == Panic
  {
    hide U16, U64, GoodHeader, GoodHash, GoodBody, DecodeSlotHeader, DecodeHash, DecodeBody, ReadUInt, Says;
    HeaderExactly(crc, slot);
    if DecodeSlotHeader(crc, slot).Success? {
      var h := DecodeSlotHeader(crc, slot).value;
      HeaderSizes(crc, slot);
      HashExactly(slot, h.offsets);
      KindKnown(slot);
      Read2(slot, 156 - Back(slot));
      Read2(slot, 158 - Back(slot));
      LengthsOfBody(slot);
      if U16(slot, 156 - Back(slot)) <= 512 && U16(slot, 158 - Back(slot)) <= 128 {
        BodyExactly(slot, h);
      }
    }
  }

  lemma HeaderSizes(crc: Crc, slot: seq<byte>)
    requires GoodHeader(crc, slot)
    ensures |slot| >= 256 && Pieces(U64(slot, 48), U64(slot, 40), 8)
  {
  }

  lemma KindKnown(slot: seq<byte>)
    requires |slot| >= 256
    ensures GoodHash(slot) ==> ByteValue(slot[88]) < 6 && ByteValue(slot[89]) <= 64
  {
  }

  lemma LengthsOfBody(slot: seq<byte>)
    requires |slot| >= 256
    ensures GoodBody(slot) ==> U16(slot, 156 - Back(slot)) <= 512 && U16(slot, 158 - Back(slot)) <= 128
                               && 256 + U64(slot, 48) + 640 <= |slot|
  {
  }

  /** The bytes leave no choice. */
  lemma MeansOne(slot: seq<byte>, a: PartMetadata, b: PartMetadata)
    requires |slot| >= 256 && 256 + U64(slot, 48) + 640 <= |slot|
    requires U16(slot, 156 - Back(slot)) <= 512 && U16(slot, 158 - Back(slot)) <= 128
    requires Means(slot, a) && Means(slot, b)
    ensures a == b
  {
    hide U16, U64;
  }
}
