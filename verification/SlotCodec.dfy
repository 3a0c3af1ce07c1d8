/** The slot codec is a round trip: what `EncodeSlot` writes, `DecodeSlot` reads. */
module SlotCodec {
  import opened Bytes
  import opened Basics
  import opened ChunkLayout
  import opened Bitmap
  import opened Utf8
  import opened Metadata

  /** What survives storage: a header of length 0 is read back as absent. */
  function Stored(m: PartMetadata): PartMetadata {
    m.(etag := StoredHeader(m.etag), lastModified := StoredHeader(m.lastModified))
  }

  function StoredHeader(value: Option<Text>): Option<Text> {
    if HeaderLen(value) == 0 then None else value
  }

  /** `field` sits in `slot` at `offset`. */
  predicate At(slot: seq<byte>, offset: nat, field: seq<byte>) {
    offset + |field| <= |slot| && slot[offset..offset + |field|] == field
  }

  lemma AtFront(a: seq<byte>, b: seq<byte>)
    ensures At(a + b, 0, a) && At(a + b, |a|, b)
  {
  }

  lemma AtWithin(slot: seq<byte>, offset: nat, outer: seq<byte>, inner: nat, field: seq<byte>)
    requires At(slot, offset, outer) && At(outer, inner, field)
    ensures At(slot, offset + inner, field)
  {
    var window := slot[offset + inner..offset + inner + |field|];
    forall i | 0 <= i < |field|
      ensures window[i] == field[i]
    {
      assert slot[offset..offset + |outer|][inner + i] == outer[inner..inner + |field|][i];
    }
  }

  lemma FourFields(a: seq<byte>, b: seq<byte>, c: seq<byte>, d: seq<byte>)
    ensures var s := a + b + c + d;
            At(s, 0, a) && At(s, |a|, b) && At(s, |a| + |b|, c) && At(s, |a| + |b| + |c|, d)
  {
    AtFront(a + b + c, d);
    AtFront(a + b, c);
    AtFront(a, b);
  }

  lemma FiveFields(a: seq<byte>, b: seq<byte>, c: seq<byte>, d: seq<byte>, e: seq<byte>)
    ensures var s := a + b + c + d + e;
            At(s, 0, a) && At(s, |a|, b) && At(s, |a| + |b|, c) && At(s, |a| + |b| + |c|, d)
            && At(s, |a| + |b| + |c| + |d|, e)
  {
    var s, f := a + b + c + d + e, a + b + c + d;
    AtFront(f, e);
    FourFields(a, b, c, d);
    AtWithin(s, 0, f, 0, a);
    AtWithin(s, 0, f, |a|, b);
    AtWithin(s, 0, f, |a| + |b|, c);
    AtWithin(s, 0, f, |a| + |b| + |c|, d);
  }

  lemma SlotSizeHolds(m: PartMetadata)
    requires m.Consistent()
    ensures SlotSizeFor(m.contentLen, m.chunkSize).Success?
    ensures var size := SlotSizeFor(m.contentLen, m.chunkSize).value;
            FitsSlot(m, size) && EncodeErrors(m, size) == Success(())
  {
    var raw := HEADER_LEN + BitmapLen(m.chunkCount) + ETAG_CAPACITY + LAST_MODIFIED_CAPACITY;
    DivCeilBound(raw, ALIGNMENT);
  }

  /** A new record is made exactly if both headers fit and the chunk size is a file
      offset; it has the generation zero and no chunk is complete. */
  lemma NewRecordExactly(urlHash: UrlHash, remote: RemoteInfo, chunkSize: u64, hash: HashConfig)
    ensures var r := NewMetadata(urlHash, remote, chunkSize, hash);
            (r.Success? <==> (remote.etag.None? || |remote.etag.value| <= 512)
                             && (remote.lastModified.None? || |remote.lastModified.value| <= 128)
                             && chunkSize <= 0x7fff_ffff_ffff_ffff)
            && (r.Failure? ==> r == Failure(InvalidConfig))
            && (r.Success? ==>
                  var m := r.value;
                  m.Consistent() && m.generation == 0 && m.Complete() == {} && m.urlHash == urlHash && m.hash == hash
                  && m.contentLen == remote.contentLen && m.etag == remote.etag
                  && m.lastModified == remote.lastModified
                  && m.chunkSize == if chunkSize == 0 then 64 * 1024 * 1024 else chunkSize)
  {
    if NewMetadata(urlHash, remote, chunkSize, hash).Success? {
      EmptyHasNothing(NewMetadata(urlHash, remote, chunkSize, hash).value.chunkCount);
    }
  }

  /** A record is encoded exactly if its parts fit the slot and the slot has the
      size that belongs to the record. */
  lemma EncodesExactly(crc: Crc, m: PartMetadata, slotSize: u64)
    ensures var r := Encoded(crc, m, slotSize);
            (r.Success? <==> SlotSizeFor(m.contentLen, m.chunkSize) == Success(slotSize)
                             && (m.etag.None? || |m.etag.value| <= 512)
                             && (m.lastModified.None? || |m.lastModified.value| <= 128)
                             && m.chunkCount <= 8 * |m.bitmap.bytes| < m.chunkCount + 8
                             && 256 + |m.bitmap.bytes| + 640 <= slotSize)
            && (r.Success? ==> |r.value| == slotSize)
            && (r.Failure? ==> r.error == InvalidConfig || r.error == Panic)
  {
    hide Layout, SlotSizeFor;
    DivCeilBound(m.chunkCount, 8);
    if SlotSizeFor(m.contentLen, m.chunkSize).Success? {
      SlotSizePositive(m.contentLen, m.chunkSize);
    } else {
      OnlyInvalid(m.contentLen, m.chunkSize);
    }
  }

  lemma OnlyInvalid(contentLen: u64, chunkSize: u64)
    ensures SlotSizeFor(contentLen, chunkSize).Failure? ==> SlotSizeFor(contentLen, chunkSize) == Failure(InvalidConfig)
  {
  }

  // ---- where the fields are ----

  lemma PreambleFields(crcField: seq<byte>)
    requires |crcField| == 4
    ensures |Preamble(crcField)| == 16
    ensures At(Preamble(crcField), 0, MAGIC)
    ensures At(Preamble(crcField), VERSION_OFFSET, LittleEndian(METADATA_VERSION, 2))
    ensures At(Preamble(crcField), HEADER_LEN_OFFSET, LittleEndian(HEADER_LEN, 2))
    ensures At(Preamble(crcField), CRC_OFFSET, crcField)
  {
    var version, headerLen := LittleEndian(METADATA_VERSION, 2), LittleEndian(HEADER_LEN, 2);
    FourFields(MAGIC, version, headerLen, crcField);
  }

  lemma CountersFields(m: PartMetadata)
    ensures |Counters(m)| == 40
    ensures At(Counters(m), 0, LittleEndian(m.generation, 8))
    ensures At(Counters(m), 8, LittleEndian(m.contentLen, 8))
    ensures At(Counters(m), 16, LittleEndian(m.chunkSize, 8))
    ensures At(Counters(m), 24, LittleEndian(m.chunkCount, 8))
    ensures At(Counters(m), 32, LittleEndian(BitmapLen(m.chunkCount), 8))
  {
    FiveFields(LittleEndian(m.generation, 8), LittleEndian(m.contentLen, 8), LittleEndian(m.chunkSize, 8),
               LittleEndian(m.chunkCount, 8), LittleEndian(BitmapLen(m.chunkCount), 8));
  }

  lemma HashesFields(m: PartMetadata)
    ensures |Hashes(m)| == 100
    ensures At(Hashes(m), 0, m.urlHash)
    ensures At(Hashes(m), 32, HashCodes(m.hash))
    ensures At(Hashes(m), 36, m.hash.expected)
  {
    var padded := PadTo(m.hash.expected, EXPECTED_HASH_CAPACITY);
    FourFields(m.urlHash, HashCodes(m.hash), Zeros(2), padded);
    AtFront(m.hash.expected, Zeros(EXPECTED_HASH_CAPACITY - |m.hash.expected|));
    AtWithin(Hashes(m), 36, padded, 0, m.hash.expected);
  }

  lemma LengthsFields(m: PartMetadata, slotSize: u64)
    ensures |Lengths(m, slotSize)| == 100
    ensures At(Lengths(m, slotSize), 0, LittleEndian(HeaderLen(m.etag), 2))
    ensures At(Lengths(m, slotSize), 2, LittleEndian(HeaderLen(m.lastModified), 2))
    ensures At(Lengths(m, slotSize), 4, LittleEndian(slotSize, 8))
  {
    FourFields(LittleEndian(HeaderLen(m.etag), 2), LittleEndian(HeaderLen(m.lastModified), 2),
               LittleEndian(slotSize, 8), Zeros(88));
  }

  lemma BodyFields(m: PartMetadata)
    requires HeaderFits(m.etag, ETAG_CAPACITY) && HeaderFits(m.lastModified, LAST_MODIFIED_CAPACITY)
    ensures |Body(m)| == |m.bitmap.bytes| + ETAG_CAPACITY + LAST_MODIFIED_CAPACITY
    ensures At(Body(m), 0, m.bitmap.bytes)
    ensures At(Body(m), |m.bitmap.bytes|, PadTo(HeaderBytes(m.etag), ETAG_CAPACITY))
    ensures At(Body(m), |m.bitmap.bytes| + ETAG_CAPACITY, PadTo(HeaderBytes(m.lastModified), LAST_MODIFIED_CAPACITY))
  {
    var etag, lastModified := PadTo(HeaderBytes(m.etag), ETAG_CAPACITY),
                              PadTo(HeaderBytes(m.lastModified), LAST_MODIFIED_CAPACITY);
    AtFront(m.bitmap.bytes + etag, lastModified);
    AtFront(m.bitmap.bytes, etag);
  }

  /** The five parts of a slot, by offset. */
  predicate HasParts(slot: seq<byte>, m: PartMetadata, slotSize: u64, crcField: seq<byte>)
    requires HeaderFits(m.etag, ETAG_CAPACITY) && HeaderFits(m.lastModified, LAST_MODIFIED_CAPACITY)
  {
    At(slot, 0, Preamble(crcField)) && At(slot, 16, Counters(m)) && At(slot, 56, Hashes(m))
    && At(slot, 156, Lengths(m, slotSize)) && At(slot, HEADER_LEN, Body(m))
  }

  lemma SixFields(a: seq<byte>, b: seq<byte>, c: seq<byte>, d: seq<byte>, e: seq<byte>, f: seq<byte>)
    ensures var s := (a + b + c + d) + e + f;
            At(s, 0, a) && At(s, |a|, b) && At(s, |a| + |b|, c) && At(s, |a| + |b| + |c|, d)
            && At(s, |a| + |b| + |c| + |d|, e)
  {
    var five := a + b + c + d + e;
    var s := five + f;
    AtFront(five, f);
    FiveFields(a, b, c, d, e);
    AtWithin(s, 0, five, 0, a);
    AtWithin(s, 0, five, |a|, b);
    AtWithin(s, 0, five, |a| + |b|, c);
    AtWithin(s, 0, five, |a| + |b| + |c|, d);
    AtWithin(s, 0, five, |a| + |b| + |c| + |d|, e);
  }

  lemma PartLengths(m: PartMetadata, slotSize: u64, crcField: seq<byte>)
    requires |crcField| == 4
    ensures |Front()| == 12 && |Preamble(crcField)| == 16
    ensures |Counters(m)| == 40 && |Hashes(m)| == 100 && |Lengths(m, slotSize)| == 100
  {
  }

  lemma LayoutParts(m: PartMetadata, slotSize: u64, crcField: seq<byte>)
    requires |crcField| == 4 && FitsSlot(m, slotSize)
    requires HeaderFits(m.etag, ETAG_CAPACITY) && HeaderFits(m.lastModified, LAST_MODIFIED_CAPACITY)
    ensures HasParts(Layout(m, slotSize, crcField), m, slotSize, crcField)
  {
    PartLengths(m, slotSize, crcField);
    var fields := Header(m, slotSize, crcField) + Body(m);
    SixFields(Preamble(crcField), Counters(m), Hashes(m), Lengths(m, slotSize), Body(m), Zeros(slotSize - |fields|));
  }

  /** Everything behind the checksum field. */
  function Rest(m: PartMetadata, slotSize: u64): (r: seq<byte>)
    requires FitsSlot(m, slotSize)
    requires HeaderFits(m.etag, ETAG_CAPACITY) && HeaderFits(m.lastModified, LAST_MODIFIED_CAPACITY)
    ensures |r| == slotSize - 16
  {
    PadTo(Counters(m) + Hashes(m) + Lengths(m, slotSize) + Body(m), slotSize - 16)
  }

  lemma Regroup(x: seq<byte>, f: seq<byte>, c: seq<byte>, h: seq<byte>, l: seq<byte>, b: seq<byte>, z: seq<byte>)
    ensures (x + f + c + h + l) + b + z == x + f + ((c + h + l + b) + z)
  {
  }

  lemma SplitLayout(m: PartMetadata, slotSize: u64, crcField: seq<byte>)
    requires |crcField| == 4 && FitsSlot(m, slotSize)
    requires HeaderFits(m.etag, ETAG_CAPACITY) && HeaderFits(m.lastModified, LAST_MODIFIED_CAPACITY)
    ensures |Front()| == 12
    ensures Layout(m, slotSize, crcField) == Front() + crcField + Rest(m, slotSize)
  {
    PartLengths(m, slotSize, crcField);
    Regroup(Front(), crcField, Counters(m), Hashes(m), Lengths(m, slotSize), Body(m),
            Zeros(slotSize - HEADER_LEN - |Body(m)|));
  }

  lemma CutMiddle(a: seq<byte>, b: seq<byte>, c: seq<byte>)
    ensures (a + b + c)[..|a|] == a && (a + b + c)[|a| + |b|..] == c
  {
  }

  /** The checksum covers everything but its own field. */
  lemma ChecksumIgnoresItself(crc: Crc, m: PartMetadata, slotSize: u64, crcField: seq<byte>)
    requires |crcField| == 4 && FitsSlot(m, slotSize)
    requires HeaderFits(m.etag, ETAG_CAPACITY) && HeaderFits(m.lastModified, LAST_MODIFIED_CAPACITY)
    ensures ChecksumSlot(crc, Layout(m, slotSize, crcField)) == crc(Layout(m, slotSize, Zeros(4)))
  {
    SplitLayout(m, slotSize, crcField);
    SplitLayout(m, slotSize, Zeros(4));
    CutMiddle(Front(), crcField, Rest(m, slotSize));
  }

  // ---- reading a field back ----

  lemma ReadField(slot: seq<byte>, offset: nat, part: seq<byte>, inner: nat, field: seq<byte>)
    requires At(slot, offset, part) && At(part, inner, field)
    ensures ReadUInt(slot, offset + inner, |field|) == Success(FromLittleEndian(field))
  {
    AtWithin(slot, offset, part, inner, field);
  }

  lemma ReadPart(slot: seq<byte>, offset: nat, part: seq<byte>, inner: nat, v: nat, width: nat)
    requires At(slot, offset, part) && At(part, inner, LittleEndian(v, width)) && v < Pow256(width)
    ensures ReadUInt(slot, offset + inner, width) == Success(v)
  {
    ReadField(slot, offset, part, inner, LittleEndian(v, width));
    LittleEndianRoundTrip(v, width);
  }

  lemma ReadTwo(slot: seq<byte>, offset: nat, part: seq<byte>, i: nat, v: nat, m: nat, j: nat, w: nat, n: nat)
    requires At(slot, offset, part)
    requires At(part, i, LittleEndian(v, m)) && v < Pow256(m)
    requires At(part, j, LittleEndian(w, n)) && w < Pow256(n)
    ensures ReadUInt(slot, offset + i, m) == Success(v)
    ensures ReadUInt(slot, offset + j, n) == Success(w)
  {
    ReadPart(slot, offset, part, i, v, m);
    ReadPart(slot, offset, part, j, w, n);
  }

  lemma MagicDecodes(slot: seq<byte>, crcField: seq<byte>)
    requires |crcField| == 4 && At(slot, 0, Preamble(crcField))
    ensures |slot| >= 8 && slot[0..8] == MAGIC
  {
    PreambleFields(crcField);
    AtWithin(slot, 0, Preamble(crcField), 0, MAGIC);
  }

  lemma PreambleReads(slot: seq<byte>, preamble: seq<byte>, version: nat, headerLen: nat, sum: nat)
    requires At(slot, 0, preamble)
    requires version < Pow256(2) && At(preamble, VERSION_OFFSET, LittleEndian(version, 2))
    requires headerLen < Pow256(2) && At(preamble, HEADER_LEN_OFFSET, LittleEndian(headerLen, 2))
    requires sum < Pow256(4) && At(preamble, CRC_OFFSET, LittleEndian(sum, 4))
    ensures ReadUInt(slot, VERSION_OFFSET, 2) == Success(version)
    ensures ReadUInt(slot, HEADER_LEN_OFFSET, 2) == Success(headerLen)
    ensures ReadUInt(slot, CRC_OFFSET, 4) == Success(sum)
  {
    assert ReadUInt(slot, VERSION_OFFSET, 2) == Success(version) by {
      ReadPart(slot, 0, preamble, VERSION_OFFSET, version, 2);
    }
    assert ReadUInt(slot, HEADER_LEN_OFFSET, 2) == Success(headerLen) by {
      ReadPart(slot, 0, preamble, HEADER_LEN_OFFSET, headerLen, 2);
    }
    ReadPart(slot, 0, preamble, CRC_OFFSET, sum, 4);
  }

  lemma PreambleDecodes(slot: seq<byte>, sum: u32)
    requires At(slot, 0, Preamble(LittleEndian(sum, 4)))
    ensures ReadUInt(slot, VERSION_OFFSET, 2) == Success(METADATA_VERSION)
    ensures ReadUInt(slot, HEADER_LEN_OFFSET, 2) == Success(HEADER_LEN)
    ensures ReadUInt(slot, CRC_OFFSET, 4) == Success(sum)
  {
    FixedWidths();
    PreambleFields(LittleEndian(sum, 4));
    PreambleReads(slot, Preamble(LittleEndian(sum, 4)), METADATA_VERSION, HEADER_LEN, sum);
  }

  lemma CountersDecode(m: PartMetadata, slot: seq<byte>)
    requires At(slot, 16, Counters(m))
    ensures ReadU64(slot, GENERATION_OFFSET) == Success(m.generation)
    ensures ReadU64(slot, CONTENT_LEN_OFFSET) == Success(m.contentLen)
    ensures ReadU64(slot, CHUNK_SIZE_OFFSET) == Success(m.chunkSize)
    ensures ReadU64(slot, CHUNK_COUNT_OFFSET) == Success(m.chunkCount)
    ensures ReadU64(slot, BITMAP_LEN_OFFSET) == Success(BitmapLen(m.chunkCount))
  {
    FixedWidths();
    CountersFields(m);
    DivCeilBound(m.chunkCount, 8);
    ReadTwo(slot, 16, Counters(m), 0, m.generation, 8, 8, m.contentLen, 8);
    ReadTwo(slot, 16, Counters(m), 16, m.chunkSize, 8, 24, m.chunkCount, 8);
    ReadPart(slot, 16, Counters(m), 32, BitmapLen(m.chunkCount), 8);
  }

  lemma LengthsDecode(m: PartMetadata, slotSize: u64, slot: seq<byte>)
    requires At(slot, 156, Lengths(m, slotSize))
    requires HeaderFits(m.etag, ETAG_CAPACITY) && HeaderFits(m.lastModified, LAST_MODIFIED_CAPACITY)
    ensures ReadUInt(slot, ETAG_LEN_OFFSET, 2) == Success(HeaderLen(m.etag))
    ensures ReadUInt(slot, LAST_MODIFIED_LEN_OFFSET, 2) == Success(HeaderLen(m.lastModified))
    ensures ReadU64(slot, SLOT_SIZE_OFFSET) == Success(slotSize)
  {
    FixedWidths();
    LengthsFields(m, slotSize);
    ReadPart(slot, 156, Lengths(m, slotSize), 0, HeaderLen(m.etag), 2);
    ReadPart(slot, 156, Lengths(m, slotSize), 2, HeaderLen(m.lastModified), 2);
    ReadPart(slot, 156, Lengths(m, slotSize), 4, slotSize, 8);
  }

  lemma HeaderDecodes(crc: Crc, m: PartMetadata, slotSize: u64, slot: seq<byte>, sum: u32)
    requires m.Consistent() && SlotSizeFor(m.contentLen, m.chunkSize) == Success(slotSize)
    requires |slot| == slotSize >= HEADER_LEN && HasParts(slot, m, slotSize, LittleEndian(sum, 4))
    requires ChecksumSlot(crc, slot) == sum
    ensures DecodeSlotHeader(crc, slot)
            == Success(SlotHeader(OffsetsForVersion(METADATA_VERSION), m.generation, m.contentLen, m.chunkSize,
                                  m.chunkCount, BitmapLen(m.chunkCount)))
  {
    MagicDecodes(slot, LittleEndian(sum, 4));
    PreambleDecodes(slot, sum);
    CountersDecode(m, slot);
    LengthsDecode(m, slotSize, slot);
    AssembleHeader(crc, m, slotSize, slot);
  }

  lemma AssembleHeader(crc: Crc, m: PartMetadata, slotSize: u64, slot: seq<byte>)
    requires |slot| == slotSize >= HEADER_LEN && SlotSizeFor(m.contentLen, m.chunkSize) == Success(slotSize)
    requires slot[0..8] == MAGIC
    requires ReadUInt(slot, VERSION_OFFSET, 2) == Success(METADATA_VERSION)
    requires ReadUInt(slot, HEADER_LEN_OFFSET, 2) == Success(HEADER_LEN)
    requires ReadUInt(slot, CRC_OFFSET, 4) == Success(ChecksumSlot(crc, slot))
    requires ReadU64(slot, GENERATION_OFFSET) == Success(m.generation)
    requires ReadU64(slot, CONTENT_LEN_OFFSET) == Success(m.contentLen)
    requires ReadU64(slot, CHUNK_SIZE_OFFSET) == Success(m.chunkSize)
    requires ReadU64(slot, CHUNK_COUNT_OFFSET) == Success(m.chunkCount)
    requires ReadU64(slot, BITMAP_LEN_OFFSET) == Success(BitmapLen(m.chunkCount))
    requires ReadU64(slot, SLOT_SIZE_OFFSET) == Success(slotSize)
    ensures DecodeSlotHeader(crc, slot)
            == Success(SlotHeader(OffsetsForVersion(METADATA_VERSION), m.generation, m.contentLen, m.chunkSize,
                                  m.chunkCount, BitmapLen(m.chunkCount)))
  {
  }

  lemma HashDecodes(m: PartMetadata, slot: seq<byte>)
    requires |slot| >= HEADER_LEN && At(slot, 56, Hashes(m))
    ensures slot[URL_HASH_OFFSET..URL_HASH_OFFSET + 32] == m.urlHash
    ensures DecodeHash(slot, OffsetsForVersion(METADATA_VERSION)) == Success(m.hash)
  {
    HashesFields(m);
    AtWithin(slot, 56, Hashes(m), 0, m.urlHash);
    AtWithin(slot, 56, Hashes(m), 32, HashCodes(m.hash));
    AtWithin(slot, 56, Hashes(m), 36, m.hash.expected);
    assert slot[HASH_KIND_OFFSET] == slot[88..90][0] && slot[HASH_LEN_OFFSET] == slot[88..90][1];
    ByteRoundTrip(KindCode(m.hash.kind));
    ByteRoundTrip(|m.hash.expected|);
  }

  lemma StringDecodes(value: Option<Text>, capacity: nat)
    requires HeaderFits(value, capacity)
    ensures DecodeOptionalString(PadTo(HeaderBytes(value), capacity), HeaderLen(value)) == Success(StoredHeader(value))
  {
    assert PadTo(HeaderBytes(value), capacity)[..HeaderLen(value)] == HeaderBytes(value);
  }

  lemma BodyDecodes(m: PartMetadata, slot: seq<byte>, header: SlotHeader)
    requires m.Consistent() && At(slot, HEADER_LEN, Body(m))
    requires header.chunkCount == m.chunkCount && header.bitmapLen == BitmapLen(m.chunkCount)
    ensures DecodeBody(slot, header, HeaderLen(m.etag), HeaderLen(m.lastModified))
            == Success((m.bitmap, StoredHeader(m.etag), StoredHeader(m.lastModified)))
  {
    BodyFields(m);
    var n := |m.bitmap.bytes|;
    AtWithin(slot, HEADER_LEN, Body(m), 0, m.bitmap.bytes);
    AtWithin(slot, HEADER_LEN, Body(m), n, PadTo(HeaderBytes(m.etag), ETAG_CAPACITY));
    AtWithin(slot, HEADER_LEN, Body(m), n + ETAG_CAPACITY, PadTo(HeaderBytes(m.lastModified), LAST_MODIFIED_CAPACITY));
    FromBytesAcceptsCanonical(m.chunkCount, m.bitmap.bytes);
    StringDecodes(m.etag, ETAG_CAPACITY);
    StringDecodes(m.lastModified, LAST_MODIFIED_CAPACITY);
  }

  /** Every consistent record survives encoding and decoding, whatever the
      checksum function is; only empty header strings turn into absent ones. */
  lemma SlotRoundTrip(crc: Crc, m: PartMetadata)
    requires m.Consistent()
    ensures SlotSizeFor(m.contentLen, m.chunkSize).Success?
    ensures var size := SlotSizeFor(m.contentLen, m.chunkSize).value;
            Encoded(crc, m, size).Success?
            && |Encoded(crc, m, size).value| == size
            && DecodeSlot(crc, Encoded(crc, m, size).value) == Success(Stored(m))
  {
    SlotSizeHolds(m);
    var size := SlotSizeFor(m.contentLen, m.chunkSize).value;
    var sum := crc(Layout(m, size, Zeros(4)));
    var field := LittleEndian(sum, 4);
    LayoutParts(m, size, field);
    ChecksumIgnoresItself(crc, m, size, field);
    PartsDecode(crc, m, size, Encoded(crc, m, size).value, sum);
  }

  lemma PartsDecode(crc: Crc, m: PartMetadata, slotSize: u64, slot: seq<byte>, sum: u32)
    requires m.Consistent() && SlotSizeFor(m.contentLen, m.chunkSize) == Success(slotSize)
    requires |slot| == slotSize >= HEADER_LEN && HasParts(slot, m, slotSize, LittleEndian(sum, 4))
    requires ChecksumSlot(crc, slot) == sum
    ensures DecodeSlot(crc, slot) == Success(Stored(m))
  {
    HeaderDecodes(crc, m, slotSize, slot, sum);
    HashDecodes(m, slot);
    LengthsDecode(m, slotSize, slot);
    var header := SlotHeader(OffsetsForVersion(METADATA_VERSION), m.generation, m.contentLen, m.chunkSize,
                             m.chunkCount, BitmapLen(m.chunkCount));
    BodyDecodes(m, slot, header);
    Assemble(crc, m, slot, header);
  }

  /** The decoder is the sequence of its parts. */
  lemma Assemble(crc: Crc, m: PartMetadata, slot: seq<byte>, header: SlotHeader)
    requires DecodeSlotHeader(crc, slot) == Success(header)
    requires header == SlotHeader(OffsetsForVersion(METADATA_VERSION), m.generation, m.contentLen, m.chunkSize,
                                  m.chunkCount, BitmapLen(m.chunkCount))
    requires slot[URL_HASH_OFFSET..URL_HASH_OFFSET + 32] == m.urlHash
    requires DecodeHash(slot, header.offsets) == Success(m.hash)
    requires HeaderFits(m.etag, ETAG_CAPACITY) && HeaderFits(m.lastModified, LAST_MODIFIED_CAPACITY)
    requires ReadUInt(slot, ETAG_LEN_OFFSET, 2) == Success(HeaderLen(m.etag))
    requires ReadUInt(slot, LAST_MODIFIED_LEN_OFFSET, 2) == Success(HeaderLen(m.lastModified))
    requires DecodeBody(slot, header, HeaderLen(m.etag), HeaderLen(m.lastModified))
             == Success((m.bitmap, StoredHeader(m.etag), StoredHeader(m.lastModified)))
    ensures DecodeSlot(crc, slot) == Success(Stored(m))
  {
  }

  /** A slot is never empty, so a part file is longer than its content. */
  lemma SlotSizePositive(contentLen: u64, chunkSize: u64)
    requires SlotSizeFor(contentLen, chunkSize).Success?
    ensures SlotSizeFor(contentLen, chunkSize).value >= HEADER_LEN
  {
    var count := ChunkCountFor(contentLen, NormalizeChunkSize(chunkSize).value);
    DivCeilBound(HEADER_LEN + BitmapLen(count) + ETAG_CAPACITY + LAST_MODIFIED_CAPACITY, ALIGNMENT);
  }

  // ---- the in-place encoder ----

  /** `prefix` has been written at the front of the zeroed buffer; put `field`
      at `offset`, at or past the end of the prefix. */
  method Put(slot: array<byte>, ghost prefix: seq<byte>, offset: nat,
             field: seq<byte>) returns (ghost longer: seq<byte>)
    requires |prefix| <= offset && offset + |field| <= slot.Length
    requires slot[..] == prefix + Zeros(slot.Length - |prefix|)
    modifies slot
    ensures longer == PadTo(prefix, offset) + field
    ensures offset == |prefix| ==> longer == prefix + field
    ensures slot[..] == longer + Zeros(slot.Length - |longer|)
  {
    longer := PadTo(prefix, offset) + field;
    forall i | 0 <= i < |field| {
      slot[offset + i] := field[i];
    }
  }

  method PutCounters(slot: array<byte>, m: PartMetadata) returns (ghost longer: seq<byte>)
    requires slot.Length >= HEADER_LEN && slot[..] == Zeros(slot.Length)
    modifies slot
    ensures longer == Preamble(Zeros(4)) + Counters(m)
    ensures slot[..] == longer + Zeros(slot.Length - |longer|)
  {
    var version, headerLen := LittleEndian(METADATA_VERSION, 2), LittleEndian(HEADER_LEN, 2);
    ghost var p := Put(slot, [], 0, MAGIC);
    p := Put(slot, p, VERSION_OFFSET, version);
    p := Put(slot, p, HEADER_LEN_OFFSET, headerLen);
    ghost var preamble := PadTo(p, GENERATION_OFFSET);
    assert preamble == Preamble(Zeros(4));
    var generation, contentLen := LittleEndian(m.generation, 8), LittleEndian(m.contentLen, 8);
    var chunkSize, chunkCount := LittleEndian(m.chunkSize, 8), LittleEndian(m.chunkCount, 8);
    var bitmapLen := LittleEndian(BitmapLen(m.chunkCount), 8);
    p := Put(slot, p, GENERATION_OFFSET, generation);
    p := Put(slot, p, CONTENT_LEN_OFFSET, contentLen);
    p := Put(slot, p, CHUNK_SIZE_OFFSET, chunkSize);
    p := Put(slot, p, CHUNK_COUNT_OFFSET, chunkCount);
    p := Put(slot, p, BITMAP_LEN_OFFSET, bitmapLen);
    Append5(preamble, generation, contentLen, chunkSize, chunkCount, bitmapLen);
    return p;
  }

  lemma Append5(p: seq<byte>, a: seq<byte>, b: seq<byte>, c: seq<byte>, d: seq<byte>, e: seq<byte>)
    ensures p + a + b + c + d + e == p + (a + b + c + d + e)
  {
  }

  lemma Append4(p: seq<byte>, a: seq<byte>, b: seq<byte>, c: seq<byte>, d: seq<byte>)
    ensures p + a + b + c + d == p + (a + b + c + d)
  {
  }

  method PutHashes(slot: array<byte>, ghost prefix: seq<byte>, m: PartMetadata) returns (ghost longer: seq<byte>)
    requires |prefix| == 56 && slot.Length >= HEADER_LEN && slot[..] == prefix + Zeros(slot.Length - 56)
    modifies slot
    ensures |longer| <= 156 && PadTo(longer, 156) == prefix + Hashes(m)
    ensures slot[..] == longer + Zeros(slot.Length - |longer|)
  {
    ghost var p := Put(slot, prefix, URL_HASH_OFFSET, m.urlHash);
    p := Put(slot, p, HASH_KIND_OFFSET, HashCodes(m.hash)[..1]);
    p := Put(slot, p, HASH_LEN_OFFSET, HashCodes(m.hash)[1..]);
    assert p == prefix + (m.urlHash + HashCodes(m.hash));
    ghost var codes := p;
    if m.hash.kind != KindNone {
      p := Put(slot, p, EXPECTED_HASH_OFFSET, m.hash.expected);
      assert p == PadTo(codes, EXPECTED_HASH_OFFSET) + m.hash.expected;
    }
    assert PadTo(p, 156) == PadTo(codes, EXPECTED_HASH_OFFSET) + PadTo(m.hash.expected, EXPECTED_HASH_CAPACITY);
    assert PadTo(codes, EXPECTED_HASH_OFFSET) == codes + Zeros(2);
    return p;
  }

  method PutLengths(slot: array<byte>, ghost prefix: seq<byte>, m: PartMetadata,
                    slotSize: u64) returns (ghost longer: seq<byte>)
    requires |prefix| <= 156 && slot.Length >= HEADER_LEN && slot[..] == prefix + Zeros(slot.Length - |prefix|)
    modifies slot
    ensures |longer| <= HEADER_LEN && PadTo(longer, HEADER_LEN) == PadTo(prefix, 156) + Lengths(m, slotSize)
    ensures slot[..] == longer + Zeros(slot.Length - |longer|)
  {
    var etagLen, lastModifiedLen := LittleEndian(HeaderLen(m.etag), 2), LittleEndian(HeaderLen(m.lastModified), 2);
    var size := LittleEndian(slotSize, 8);
    ghost var p := Put(slot, prefix, ETAG_LEN_OFFSET, etagLen);
    p := Put(slot, p, LAST_MODIFIED_LEN_OFFSET, lastModifiedLen);
    p := Put(slot, p, SLOT_SIZE_OFFSET, size);
    Append4(PadTo(prefix, 156), etagLen, lastModifiedLen, size, Zeros(88));
    return p;
  }

  method PutBody(slot: array<byte>, ghost prefix: seq<byte>, m: PartMetadata)
    requires |prefix| <= HEADER_LEN && slot.Length < U64_LIMIT && FitsSlot(m, slot.Length)
    requires HeaderFits(m.etag, ETAG_CAPACITY) && HeaderFits(m.lastModified, LAST_MODIFIED_CAPACITY)
    requires slot[..] == prefix + Zeros(slot.Length - |prefix|)
    modifies slot
    ensures |Body(m)| <= slot.Length - HEADER_LEN
    ensures slot[..] == PadTo(PadTo(prefix, HEADER_LEN) + Body(m), slot.Length)
  {
    BodyFields(m);
    var cursor := HEADER_LEN;
    ghost var p := Put(slot, prefix, cursor, m.bitmap.bytes);
    cursor := cursor + |m.bitmap.bytes|;
    p := Put(slot, p, cursor, HeaderBytes(m.etag));
    cursor := cursor + ETAG_CAPACITY;
    ghost var q := PadTo(p, cursor);
    p := Put(slot, p, cursor, HeaderBytes(m.lastModified));
    ghost var etag, lastModified := PadTo(HeaderBytes(m.etag), ETAG_CAPACITY),
                                    PadTo(HeaderBytes(m.lastModified), LAST_MODIFIED_CAPACITY);
    assert q == PadTo(prefix, HEADER_LEN) + m.bitmap.bytes + etag;
    assert q + lastModified == PadTo(prefix, HEADER_LEN) + Body(m);
    assert PadTo(p, slot.Length) == PadTo(q + lastModified, slot.Length);
  }

  /** Fills a zeroed buffer field by field. */
  method FillSlot(slot: array<byte>, m: PartMetadata)
    requires slot.Length < U64_LIMIT && FitsSlot(m, slot.Length) && slot[..] == Zeros(slot.Length)
    requires HeaderFits(m.etag, ETAG_CAPACITY) && HeaderFits(m.lastModified, LAST_MODIFIED_CAPACITY)
    modifies slot
    ensures slot[..] == Layout(m, slot.Length, Zeros(4))
  {
    PartLengths(m, slot.Length, Zeros(4));
    ghost var p := PutCounters(slot, m);
    ghost var q := PutHashes(slot, p, m);
    ghost var r := PutLengths(slot, q, m, slot.Length);
    assert PadTo(r, HEADER_LEN) == Header(m, slot.Length, Zeros(4));
    PutBody(slot, r, m);
  }

  /** Fills a zeroed buffer in place, then stores the checksum over it. */
  method EncodeSlot(crc: Crc, m: PartMetadata, slotSize: u64) returns (r: Result<seq<byte>>)
    ensures r == Encoded(crc, m, slotSize)
  {
    var errors := EncodeErrors(m, slotSize);
    if errors.Failure? {
      return Failure(errors.error);
    }
    var slot := new byte[slotSize](_ => 0);
    FillSlot(slot, m);
    ChecksumIgnoresItself(crc, m, slotSize, Zeros(4));
    var sum := ChecksumSlot(crc, slot[..]);
    StoreCrc(slot, LittleEndian(sum, 4));
    ReplaceCrc(m, slotSize, LittleEndian(sum, 4));
    return Success(slot[..]);
  }

  method StoreCrc(slot: array<byte>, field: seq<byte>)
    requires |field| == 4 && slot.Length >= HEADER_LEN
    modifies slot
    ensures slot[..] == old(slot[..CRC_OFFSET]) + field + old(slot[CRC_OFFSET + 4..])
  {
    forall i | 0 <= i < 4 {
      slot[CRC_OFFSET + i] := field[i];
    }
  }

  lemma ReplaceCrc(m: PartMetadata, slotSize: u64, field: seq<byte>)
    requires |field| == 4 && FitsSlot(m, slotSize)
    requires HeaderFits(m.etag, ETAG_CAPACITY) && HeaderFits(m.lastModified, LAST_MODIFIED_CAPACITY)
    ensures Layout(m, slotSize, field)
            == Layout(m, slotSize, Zeros(4))[..CRC_OFFSET] + field + Layout(m, slotSize, Zeros(4))[CRC_OFFSET + 4..]
  {
    SplitLayout(m, slotSize, Zeros(4));
    SplitLayout(m, slotSize, field);
    CutMiddle(Front(), Zeros(4), Rest(m, slotSize));
  }
}
