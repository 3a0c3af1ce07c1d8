/** The metadata slot (`metadata.rs`): a fixed-size, checksummed record of which
    chunks of which resource are complete.

    `Layout` is the on-disk format written down as a concatenation of fields.
    `EncodeSlot` fills a zeroed buffer in place and is proved to produce it;
    `DecodeSlot` reads fields back by offset. */
module Metadata {
  import opened Bytes
  import opened Basics
  import opened ChunkLayout
  import opened Bitmap
  import opened Utf8

  /** CRC-32 comes from another crate: any function of the bytes. */
  type Crc = seq<byte> -> u32

  const METADATA_VERSION: nat := 2
  const HEADER_LEN: nat := 256
  const ALIGNMENT: nat := 4096
  const ETAG_CAPACITY: nat := 512
  const LAST_MODIFIED_CAPACITY: nat := 128
  const VERSION_OFFSET: nat := 8
  const HEADER_LEN_OFFSET: nat := 10
  const CRC_OFFSET: nat := 12
  const GENERATION_OFFSET: nat := 16
  const CONTENT_LEN_OFFSET: nat := 24
  const CHUNK_SIZE_OFFSET: nat := 32
  const CHUNK_COUNT_OFFSET: nat := 40
  const BITMAP_LEN_OFFSET: nat := 48
  const URL_HASH_OFFSET: nat := 56
  const HASH_KIND_OFFSET: nat := 88
  const HASH_LEN_OFFSET: nat := 89
  const EXPECTED_HASH_OFFSET: nat := 92
  const EXPECTED_HASH_CAPACITY: nat := 64
  const ETAG_LEN_OFFSET: nat := 156
  const LAST_MODIFIED_LEN_OFFSET: nat := 158
  const SLOT_SIZE_OFFSET: nat := 160
  const V1_ETAG_LEN_OFFSET: nat := 124
  const V1_LAST_MODIFIED_LEN_OFFSET: nat := 126
  const V1_SLOT_SIZE_OFFSET: nat := 128
  const V1_EXPECTED_HASH_CAPACITY: nat := 32

  /** "TKNWPRT1" */
  const MAGIC: seq<byte> := [0x54, 0x4b, 0x4e, 0x57, 0x50, 0x52, 0x54, 0x31]

  // ---- the record ----

  datatype HashKind = KindNone | KindSha256 | KindSha1 | KindSha512 | KindMd5 | KindCrc32

  function KindCode(kind: HashKind): nat {
    match kind
    case KindNone => 0
    case KindSha256 => 1
    case KindSha1 => 2
    case KindSha512 => 3
    case KindMd5 => 4
    case KindCrc32 => 5
  }

  function KindFromCode(code: nat): Option<HashKind> {
    match code
    case 0 => Some(KindNone)
    case 1 => Some(KindSha256)
    case 2 => Some(KindSha1)
    case 3 => Some(KindSha512)
    case 4 => Some(KindMd5)
    case 5 => Some(KindCrc32)
    case _ => None
  }

  function DigestLen(kind: HashKind): nat {
    match kind
    case KindNone => 0
    case KindSha1 => 20
    case KindSha256 => 32
    case KindSha512 => 64
    case KindMd5 => 16
    case KindCrc32 => 4
  }

  /** `HashConfig`: a kind and an expected digest of that kind's length. */
  type HashConfig = h: HashConfigFields | |h.expected| == DigestLen(h.kind) witness HashConfigFields(KindNone, [])

  datatype HashConfigFields = HashConfigFields(kind: HashKind, expected: seq<byte>)

  function HashFromExpected(kind: HashKind, expected: seq<byte>): Option<HashConfig> {
    if |expected| == DigestLen(kind) then Some(HashConfigFields(kind, expected)) else None
  }

  datatype RemoteInfo = RemoteInfo(contentLen: u64, etag: Option<Text>, lastModified: Option<Text>)

  type UrlHash = h: seq<byte> | |h| == 32 witness Zeros(32)

  datatype PartMetadata = PartMetadata(
    generation: u64,
    urlHash: UrlHash,
    contentLen: u64,
    chunkSize: u64,
    chunkCount: u64,
    bitmap: Bits,
    etag: Option<Text>,
    lastModified: Option<Text>,
    hash: HashConfig)
  {
    /** The chunk count and the bitmap belong to the content length and chunk
        size; every record made by `NewMetadata` has this. */
    ghost predicate Consistent() {
      0 < chunkSize <= I64_MAX
      && chunkCount == ChunkCountFor(contentLen, chunkSize)
      && bitmap.chunkCount == chunkCount && bitmap.Canonical()
      && HeaderFits(etag, ETAG_CAPACITY) && HeaderFits(lastModified, LAST_MODIFIED_CAPACITY)
    }

    function Plan(): ChunkPlan {
      ChunkPlan(contentLen, chunkSize, chunkCount)
    }

    ghost function Complete(): set<nat>
      requires bitmap.Sized()
    {
      bitmap.Members()
    }
  }

  function HeaderLen(value: Option<Text>): nat {
    if value.None? then 0 else |value.value|
  }

  predicate HeaderFits(value: Option<Text>, capacity: nat) {
    HeaderLen(value) <= capacity
  }

  function HeaderBytes(value: Option<Text>): seq<byte> {
    if value.None? then [] else value.value
  }

  function NewMetadata(urlHash: UrlHash, remote: RemoteInfo, chunkSize: u64, hash: HashConfig): Result<PartMetadata> {
    if !HeaderFits(remote.etag, ETAG_CAPACITY) then Failure(InvalidConfig)
    else if !HeaderFits(remote.lastModified, LAST_MODIFIED_CAPACITY) then Failure(InvalidConfig)
    else
      var size :- NormalizeChunkSize(chunkSize);
      var count := ChunkCountFor(remote.contentLen, size);
      Success(PartMetadata(0, urlHash, remote.contentLen, size, count, Empty(count),
                           remote.etag, remote.lastModified, hash))
  }

  /** Rejects a part file that belongs to another resource or configuration. A
      validator is compared only when both sides have it. */
  function EnsureCompatible(m: PartMetadata, urlHash: UrlHash, remote: RemoteInfo, chunkSize: u64,
                            hash: HashConfig): Result<()> {
    var size :- NormalizeChunkSize(chunkSize);
    if m.urlHash != urlHash then Failure(RemoteChanged)
    else if m.contentLen != remote.contentLen then Failure(RemoteChanged)
    else if m.etag.Some? && remote.etag.Some? && m.etag != remote.etag then Failure(RemoteChanged)
    else if m.lastModified.Some? && remote.lastModified.Some? && m.lastModified != remote.lastModified
      then Failure(RemoteChanged)
    else if m.chunkSize != size then Failure(RemoteChanged)
    else if m.hash != hash then Failure(RemoteChanged)
    else Success(())
  }

  // ---- slot size ----

  function AlignUp(value: nat, alignment: nat): nat
    requires alignment > 0
  {
    DivCeil(value, alignment) * alignment
  }

  function SlotSizeFor(contentLen: u64, chunkSize: u64): Result<u64> {
    var size :- NormalizeChunkSize(chunkSize);
    var count := ChunkCountFor(contentLen, size);
    var raw := HEADER_LEN + BitmapLen(count) + ETAG_CAPACITY + LAST_MODIFIED_CAPACITY;
    Success(AlignUp(raw, ALIGNMENT))
  }

  // ---- the format ----

  function PadTo(s: seq<byte>, n: nat): (r: seq<byte>)
    requires |s| <= n
    ensures |r| == n
  {
    s + Zeros(n - |s|)
  }

  function Front(): seq<byte> {
    MAGIC + LittleEndian(METADATA_VERSION, 2) + LittleEndian(HEADER_LEN, 2)
  }

  function Preamble(crcField: seq<byte>): seq<byte> {
    Front() + crcField
  }

  function Counters(m: PartMetadata): seq<byte> {
    LittleEndian(m.generation, 8) + LittleEndian(m.contentLen, 8) + LittleEndian(m.chunkSize, 8)
    + LittleEndian(m.chunkCount, 8) + LittleEndian(BitmapLen(m.chunkCount), 8)
  }

  function HashCodes(hash: HashConfig): (s: seq<byte>)
    ensures |s| == 2
  {
    [KindCode(hash.kind) as byte, |hash.expected| as byte]
  }

  function Hashes(m: PartMetadata): seq<byte> {
    m.urlHash + HashCodes(m.hash) + Zeros(2)
    + PadTo(m.hash.expected, EXPECTED_HASH_CAPACITY)
  }

  function Lengths(m: PartMetadata, slotSize: u64): seq<byte> {
    LittleEndian(HeaderLen(m.etag), 2) + LittleEndian(HeaderLen(m.lastModified), 2) + LittleEndian(slotSize, 8)
      + Zeros(88)
  }

  function Header(m: PartMetadata, slotSize: u64, crcField: seq<byte>): seq<byte> {
    Preamble(crcField) + Counters(m) + Hashes(m) + Lengths(m, slotSize)
  }

  function Body(m: PartMetadata): seq<byte>
    requires HeaderFits(m.etag, ETAG_CAPACITY) && HeaderFits(m.lastModified, LAST_MODIFIED_CAPACITY)
  {
    m.bitmap.bytes + PadTo(HeaderBytes(m.etag), ETAG_CAPACITY)
    + PadTo(HeaderBytes(m.lastModified), LAST_MODIFIED_CAPACITY)
  }

  /** What keeps `encode_slot` from slicing out of range. */
  predicate FitsSlot(m: PartMetadata, slotSize: u64) {
    |m.bitmap.bytes| == BitmapLen(m.chunkCount)
    && HEADER_LEN + BitmapLen(m.chunkCount) + ETAG_CAPACITY + LAST_MODIFIED_CAPACITY <= slotSize
  }

  /** The whole slot: header, bitmap, two fixed-width strings, zero padding. */
  function Layout(m: PartMetadata, slotSize: u64, crcField: seq<byte>): (s: seq<byte>)
    requires |crcField| == 4 && FitsSlot(m, slotSize)
    requires HeaderFits(m.etag, ETAG_CAPACITY) && HeaderFits(m.lastModified, LAST_MODIFIED_CAPACITY)
    ensures |s| == slotSize
  {
    PadTo(Header(m, slotSize, crcField) + Body(m), slotSize)
  }

  function EncodeErrors(m: PartMetadata, slotSize: u64): Result<()> {
    if slotSize < HEADER_LEN then Failure(InvalidConfig)
    else
      var expected :- SlotSizeFor(m.contentLen, m.chunkSize);
      if expected != slotSize then Failure(InvalidConfig)
      else if !HeaderFits(m.etag, ETAG_CAPACITY) then Failure(InvalidConfig)
      else if !HeaderFits(m.lastModified, LAST_MODIFIED_CAPACITY) then Failure(InvalidConfig)
      else if !FitsSlot(m, slotSize) then Failure(Panic)
      else Success(())
  }

  /** The bytes of `encode_slot`: the layout, checksummed over itself with the
      checksum field zeroed. */
  function Encoded(crc: Crc, m: PartMetadata, slotSize: u64): Result<seq<byte>> {
    var _ :- EncodeErrors(m, slotSize);
    Success(Layout(m, slotSize, LittleEndian(crc(Layout(m, slotSize, Zeros(4))), 4)))
  }

  function ChecksumSlot(crc: Crc, slot: seq<byte>): u32
    requires |slot| >= 16
  {
    crc(slot[..CRC_OFFSET] + Zeros(4) + slot[CRC_OFFSET + 4..])
  }

  // ---- decoding ----

  function ReadUInt(slot: seq<byte>, offset: nat, width: nat): Result<nat> {
    if offset + width > |slot| then Failure(PartCorrupt)
    else Success(FromLittleEndian(slot[offset..offset + width]))
  }

  function ReadU64(slot: seq<byte>, offset: nat): (r: Result<u64>) {
    FixedWidths();
    ReadUInt(slot, offset, 8)
  }

  datatype MetadataOffsets = MetadataOffsets(etagLen: nat, lastModifiedLen: nat, slotSize: nat,
                                             expectedHashCapacity: nat)

  function OffsetsForVersion(version: nat): MetadataOffsets {
    if version == 1 then
      MetadataOffsets(V1_ETAG_LEN_OFFSET, V1_LAST_MODIFIED_LEN_OFFSET, V1_SLOT_SIZE_OFFSET, V1_EXPECTED_HASH_CAPACITY)
    else
      MetadataOffsets(ETAG_LEN_OFFSET, LAST_MODIFIED_LEN_OFFSET, SLOT_SIZE_OFFSET, EXPECTED_HASH_CAPACITY)
  }

  datatype SlotHeader = SlotHeader(
    offsets: MetadataOffsets, generation: u64, contentLen: u64, chunkSize: u64, chunkCount: u64, bitmapLen: nat)

  function VerifySlotCrc(crc: Crc, slot: seq<byte>): Result<()>
    requires |slot| >= HEADER_LEN
  {
    var stored :- ReadUInt(slot, CRC_OFFSET, 4);
    if stored != ChecksumSlot(crc, slot) then Failure(PartCorrupt) else Success(())
  }

  function DecodeBitmapLen(slot: seq<byte>, chunkCount: u64): Result<nat> {
    var bitmapLen :- ReadU64(slot, BITMAP_LEN_OFFSET);
    if bitmapLen != BitmapLen(chunkCount) then Failure(PartCorrupt) else Success(bitmapLen)
  }

  function VerifySlotSize(slot: seq<byte>, offsets: MetadataOffsets, contentLen: u64, chunkSize: u64): Result<()> {
    var slotSize :- ReadU64(slot, offsets.slotSize);
    var expected :- SlotSizeFor(contentLen, chunkSize);
    if expected != slotSize then Failure(PartCorrupt)
    else if slotSize != |slot| then Failure(PartCorrupt)
    else Success(())
  }

  function DecodeSlotHeader(crc: Crc, slot: seq<byte>): (r: Result<SlotHeader>)
    ensures r.Success? ==> |slot| >= HEADER_LEN
  {
    if |slot| < HEADER_LEN then Failure(PartCorrupt)
    else if slot[0..8] != MAGIC then Failure(PartCorrupt)
    else
      var version :- ReadUInt(slot, VERSION_OFFSET, 2);
      if version != 1 && version != METADATA_VERSION then Failure(PartCorrupt)
      else
        var offsets := OffsetsForVersion(version);
        var headerLen :- ReadUInt(slot, HEADER_LEN_OFFSET, 2);
        if headerLen != HEADER_LEN then Failure(PartCorrupt)
        else
          var _ :- VerifySlotCrc(crc, slot);
          var generation :- ReadU64(slot, GENERATION_OFFSET);
          var contentLen :- ReadU64(slot, CONTENT_LEN_OFFSET);
          var chunkSize :- ReadU64(slot, CHUNK_SIZE_OFFSET);
          var chunkCount :- ReadU64(slot, CHUNK_COUNT_OFFSET);
          var bitmapLen :- DecodeBitmapLen(slot, chunkCount);
          var _ :- VerifySlotSize(slot, offsets, contentLen, chunkSize);
          Success(SlotHeader(offsets, generation, contentLen, chunkSize, chunkCount, bitmapLen))
  }

  function DecodeHash(slot: seq<byte>, offsets: MetadataOffsets): Result<HashConfig>
    requires |slot| >= HEADER_LEN && offsets.expectedHashCapacity <= EXPECTED_HASH_CAPACITY
  {
    var kind := KindFromCode(ByteValue(slot[HASH_KIND_OFFSET]));
    if kind.None? then Failure(PartCorrupt)
    else
      var hashLen := ByteValue(slot[HASH_LEN_OFFSET]);
      if hashLen > offsets.expectedHashCapacity then Failure(PartCorrupt)
      else
        var config := HashFromExpected(kind.value, slot[EXPECTED_HASH_OFFSET..EXPECTED_HASH_OFFSET + hashLen]);
        if config.None? then Failure(PartCorrupt) else Success(config.value)
  }

  function DecodeOptionalString(bytes: seq<byte>, len: nat): Result<Option<Text>>
    requires len <= |bytes|
  {
    if len == 0 then Success(None)
    else if ValidUtf8(bytes[..len]) then Success(Some(bytes[..len]))
    else Failure(PartCorrupt)
  }

  /** Bounds that the source leaves to slice indexing: out of range is a panic. */
  function Slice(slot: seq<byte>, start: nat, len: nat): (r: Result<seq<byte>>)
    ensures r.Success? ==> |r.value| == len
  {
    if start + len > |slot| then Failure(Panic) else Success(slot[start..start + len])
  }

  function DecodeBody(slot: seq<byte>, header: SlotHeader, etagLen: nat, lastModifiedLen: nat)
    : Result<(Bits, Option<Text>, Option<Text>)>
    requires etagLen <= ETAG_CAPACITY && lastModifiedLen <= LAST_MODIFIED_CAPACITY
  {
    var cursor := HEADER_LEN;
    var bitmapBytes :- Slice(slot, cursor, header.bitmapLen);
    var bitmap :- FromBytes(header.chunkCount, bitmapBytes);
    var cursor := cursor + header.bitmapLen;
    var etagBytes :- Slice(slot, cursor, ETAG_CAPACITY);
    var etag :- DecodeOptionalString(etagBytes, etagLen);
    var cursor := cursor + ETAG_CAPACITY;
    var lastModifiedBytes :- Slice(slot, cursor, LAST_MODIFIED_CAPACITY);
    var lastModified :- DecodeOptionalString(lastModifiedBytes, lastModifiedLen);
    Success((bitmap, etag, lastModified))
  }

  function DecodeSlot(crc: Crc, slot: seq<byte>): Result<PartMetadata> {
    var header :- DecodeSlotHeader(crc, slot);
    var urlHash := slot[URL_HASH_OFFSET..URL_HASH_OFFSET + 32];
    var hash :- DecodeHash(slot, header.offsets);
    var etagLen :- ReadUInt(slot, header.offsets.etagLen, 2);
    var lastModifiedLen :- ReadUInt(slot, header.offsets.lastModifiedLen, 2);
    if etagLen > ETAG_CAPACITY || lastModifiedLen > LAST_MODIFIED_CAPACITY then Failure(PartCorrupt)
    else
      var body :- DecodeBody(slot, header, etagLen, lastModifiedLen);
      Success(PartMetadata(header.generation, urlHash, header.contentLen, header.chunkSize, header.chunkCount,
                           body.0, body.1, body.2, hash))
  }
}
