/** The commit protocol of `part_file.rs` as a step relation over disk states.

    One step is one system call of the program, or a reboot. A state carries
    what the program knows (`pc`, `mem`) and, for stating properties only, what
    the disk is known to guarantee (`cond`, `lo`, `hi`), the content each chunk
    had when it was committed (`ledger`) and the chunks whose commit has
    returned (`acked`). */
module Protocol {
  import opened Bytes
  import opened Basics
  import opened ChunkLayout
  import opened Bitmap
  import opened Metadata
  import opened SlotCodec
  import SlotReading
  import opened Disk
  import opened Verification

  // ---- one download ----

  datatype Job = Job(ext: External, urlHash: UrlHash, remote: RemoteInfo, chunkSize: u64, hash: HashConfig) {

    /** What `open_or_create` checks before it touches the part file, and the two
        header lengths that `PartMetadata::new` checks when it creates one. */
    predicate Valid() {
      0 < chunkSize <= I64_MAX
      && HeaderFits(remote.etag, ETAG_CAPACITY) && HeaderFits(remote.lastModified, LAST_MODIFIED_CAPACITY)
      && SlotSizeFor(remote.contentLen, chunkSize).Success?
      && remote.contentLen + 2 * SlotSizeFor(remote.contentLen, chunkSize).value < U64_LIMIT
    }

    function ContentLen(): nat { remote.contentLen }

    function SlotSize(): u64
      requires Valid()
    {
      SlotSizeFor(remote.contentLen, chunkSize).value
    }

    function FileLen(): nat
      requires Valid()
    {
      ContentLen() + 2 * SlotSize()
    }

    function SlotStart(k: nat): nat
      requires Valid()
    {
      if k == 0 then ContentLen() else ContentLen() + SlotSize()
    }

    function Plan(): ChunkPlan
      requires Valid()
    {
      ChunkPlan(remote.contentLen, chunkSize, ChunkCountFor(remote.contentLen, chunkSize))
    }

    function Fresh(): PartMetadata
      requires Valid()
    {
      PartMetadata(0, urlHash, remote.contentLen, chunkSize, Plan().chunkCount, Empty(Plan().chunkCount),
                   remote.etag, remote.lastModified, hash)
    }
  }

  /** `m` is a record of this download; a stored header may have become absent. */
  ghost predicate BelongsTo(job: Job, m: PartMetadata)
    requires job.Valid()
  {
    m.Consistent() && m.urlHash == job.urlHash && m.contentLen == job.remote.contentLen
    && m.chunkSize == job.chunkSize && m.hash == job.hash
    && (m.etag == job.remote.etag || m.etag == None)
    && (m.lastModified == job.remote.lastModified || m.lastModified == None)
  }

  function SlotBytes(job: Job, m: PartMetadata): seq<byte>
    requires job.Valid()
  {
    var r := Encoded(job.ext.crc32, m, job.SlotSize());
    if r.Success? then r.value else []
  }

  function NextMetadata(m: PartMetadata, i: nat): PartMetadata
    requires m.generation + 1 < U64_LIMIT && i / 8 < |m.bitmap.bytes|
  {
    m.(generation := m.generation + 1, bitmap := m.bitmap.Marked(i))
  }

  predicate Missing(m: PartMetadata, i: nat) {
    m.bitmap.Sized() && !m.bitmap.Has(i)
  }

  // ---- reading a file ----

  function DecodeAt(job: Job, img: seq<byte>, k: nat): Result<PartMetadata>
    requires job.Valid() && k < 2 && |img| == job.FileLen()
  {
    DecodeSlot(job.ext.crc32, img[job.SlotStart(k)..job.SlotStart(k) + job.SlotSize()])
  }

  predicate Unreadable(d: Result<PartMetadata>) {
    d.Failure? && d.error != Panic
  }

  /** The readable slot with the largest generation; the later one on a tie. */
  function BestOf(d0: Result<PartMetadata>, d1: Result<PartMetadata>): Result<(PartMetadata, nat)> {
    if d0 == Failure(Panic) || d1 == Failure(Panic) then Failure(Panic)
    else if d1.Success? && (d0.Failure? || d0.value.generation <= d1.value.generation) then Success((d1.value, 1))
    else if d0.Success? then Success((d0.value, 0))
    else Failure(PartCorrupt)
  }

  function ReadBest(job: Job, img: seq<byte>): Result<(PartMetadata, nat)>
    requires job.Valid() && |img| == job.FileLen()
  {
    BestOf(DecodeAt(job, img, 0), DecodeAt(job, img, 1))
  }

  /** The same for the two slots behind any content. */
  function BestSlot(crc: Crc, img: seq<byte>, contentLen: nat, slotSize: nat): Result<(PartMetadata, nat)>
    requires |img| == contentLen + 2 * slotSize
  {
    BestOf(DecodeSlot(crc, img[contentLen..contentLen + slotSize]),
           DecodeSlot(crc, img[contentLen + slotSize..contentLen + slotSize + slotSize]))
  }

  /** The length of a part file of this download, and of one slot. */
  function ExpectedLen(remote: RemoteInfo, chunkSize: u64): Result<(nat, u64)> {
    var slotSize :- SlotSizeFor(remote.contentLen, chunkSize);
    if remote.contentLen + 2 * slotSize >= U64_LIMIT then Failure(InvalidConfig)
    else Success((remote.contentLen + 2 * slotSize, slotSize))
  }

  /** The length exists exactly if the chunk size is a file offset and the length
      has 64 bits; it is that of the content and two slots. */
  lemma ExpectedLenExactly(remote: RemoteInfo, chunkSize: u64)
    ensures var len := ExpectedLen(remote, chunkSize);
            (len.Success? <==> exists slot: u64 ::
                                 SlotSizeFor(remote.contentLen, chunkSize) == Success(slot)
                                 && remote.contentLen + slot + slot < 0x1_0000_0000_0000_0000)
            && (len.Success? ==> SlotSizeFor(remote.contentLen, chunkSize) == Success(len.value.1)
                                 && len.value.0 - len.value.1 - len.value.1 == remote.contentLen)
            && (len.Failure? ==> len == Failure(InvalidConfig))
  {
    SlotReading.SlotSizeExactly(remote.contentLen, chunkSize);
  }

  /** What the files at hand mean to a program that is asked to continue a
      download: `None` is a download to be started. */
  function Found(crc: Crc, part: Option<File>, target: Option<File>,
                 urlHash: UrlHash, remote: RemoteInfo, chunkSize: u64, hash: HashConfig): Result<Option<PartMetadata>> {
    if target.Some? then Failure(TargetExists)
    else
      var len :- ExpectedLen(remote, chunkSize);
      if part.None? then
        if HeaderFits(remote.etag, ETAG_CAPACITY) && HeaderFits(remote.lastModified, LAST_MODIFIED_CAPACITY)
        then Success(None)
        else Failure(InvalidConfig)
      else if |View(part.value)| != len.0 then Failure(PartSizeMismatch(len.0, |View(part.value)|))
      else
        var best :- BestSlot(crc, View(part.value), remote.contentLen, len.1);
        var _ :- EnsureCompatible(best.0, urlHash, remote, chunkSize, hash);
        Success(Some(best.0))
  }

  // ---- states ----

  /** What the program is doing with the part file. */
  datatype Pc =
    | NoPart
    | Creating
    | Idle
    | Committing(i: nat)
    | SlotWritten(i: nat)
    | Stopped
    | Truncating
    | Truncated
    | Promoted
    | Rejected(error: Error)

  /** What the disk is known to guarantee. While a file is `Unborn`, nothing of it
      is durable yet; a program that starts again can still find its first record
      in the page cache and go on. */
  datatype Condition = Nothing | Unborn | Live | Shrinking | Shrunk | Final | Hopeless

  /** Whether the last change to the directory can still be lost. */
  datatype Entry = Settled | JustCreated | JustRenamed

  datatype State = State(
    part: Option<File>, target: Option<File>, entry: Entry,
    pc: Pc, mem: PartMetadata,
    cond: Condition, lo: PartMetadata, hi: Option<PartMetadata>, ledger: seq<byte>, acked: set<nat>)

  function Content(job: Job, img: seq<byte>): seq<byte>
    requires |img| >= job.ContentLen()
  {
    img[..job.ContentLen()]
  }

  ghost function Init(job: Job): State
    requires job.Valid()
  {
    State(None, None, Settled, NoPart, job.Fresh(), Nothing, job.Fresh(), None, Zeros(job.ContentLen()), {})
  }

  // ---- steps ----

  datatype Action =
    | CreateFile
    | Allocate
    | WriteFirstSlot(count: nat)
    | SyncCreated
    | WriteContent(i: nat, offset: nat, bytes: seq<byte>)
    | SyncData(i: nat)
    | WriteSlot(i: nat, count: nat)
    | SyncSlot
    | Truncate
    | SyncTruncated
    | Rename
    | Reboot(crashed: bool, part: Option<File>, target: Option<File>)

  /** A crash leaves one of the images of every file; a directory change that
      was not yet durable may be undone. */
  ghost predicate CrashOf(f: File, g: File) {
    g.pending == [] && CrashImage(f.durable, f.pending, g.durable)
  }

  ghost predicate CrashOfOption(f: Option<File>, g: Option<File>) {
    f.Some? == g.Some? && (f.Some? ==> CrashOf(f.value, g.value))
  }

  ghost predicate Crash(s: State, part: Option<File>, target: Option<File>) {
    match s.entry
    case Settled => CrashOfOption(s.part, part) && CrashOfOption(s.target, target)
    case JustCreated => (part == None || CrashOfOption(s.part, part)) && CrashOfOption(s.target, target)
    case JustRenamed => (CrashOfOption(s.part, part) && CrashOfOption(s.target, target))
                        || (CrashOfOption(s.target, part) && CrashOfOption(s.part, target))
  }

  /** The slot that the next commit, or the one under way, writes. */
  function WrittenSlot(s: State): nat {
    if s.cond.Unborn? then 0 else 1 - s.lo.generation % 2
  }

  /** The one assumption about the checksum, made for the image at hand: a slot
      caught halfway between its old and its new bytes reads as neither of them
      only by being rejected. */
  ghost predicate TearDetected(job: Job, s: State, img: seq<byte>)
    requires job.Valid() && |img| == job.FileLen()
  {
    var d := DecodeAt(job, img, WrittenSlot(s));
    Unreadable(d)
    || (s.part.Some? && |s.part.value.durable| == job.FileLen()
        && d == DecodeAt(job, s.part.value.durable, WrittenSlot(s)))
    || (s.hi.Some? && d == Success(s.hi.value))
  }

  /** A reboot is a crash, or the program starting again with the page cache
      intact, at any moment. */
  ghost predicate RebootAllowed(job: Job, s: State, crashed: bool, part: Option<File>, target: Option<File>)
    requires job.Valid()
  {
    (if crashed then Crash(s, part, target) else part == s.part && target == s.target)
    && (part.Some? && |View(part.value)| == job.FileLen() ==> TearDetected(job, s, View(part.value)))
  }

  function Lost(f: Option<File>): Option<File> {
    if f.None? then None else Some(File(f.value.durable, []))
  }

  /** The power may go at any moment, and then everything pending may be lost. */
  lemma PowerMayGo(job: Job, s: State)
    requires job.Valid()
    ensures RebootAllowed(job, s, true, Lost(s.part), Lost(s.target))
  {
    hide DecodeAt;
    if s.part.Some? {
      AllMayBeLost(s.part.value.durable, s.part.value.pending);
    }
    if s.target.Some? {
      AllMayBeLost(s.target.value.durable, s.target.value.pending);
    }
  }

  /** A change to the directory that was not synced may be undone: a new file may be
      gone, and a renamed one may be back under its old name. */
  lemma EntriesMayBeUndone(job: Job, s: State)
    requires job.Valid()
    ensures s.entry == JustCreated ==> RebootAllowed(job, s, true, None, Lost(s.target))
    ensures s.entry == JustRenamed && s.target.Some? && |s.target.value.durable| != job.FileLen() ==>
              RebootAllowed(job, s, true, Lost(s.target), Lost(s.part))
  {
    hide DecodeAt;
    if s.part.Some? {
      AllMayBeLost(s.part.value.durable, s.part.value.pending);
    }
    if s.target.Some? {
      AllMayBeLost(s.target.value.durable, s.target.value.pending);
    }
  }

  ghost predicate Enabled(job: Job, s: State, a: Action)
    requires job.Valid()
  {
    match a
    case CreateFile => s.pc == NoPart && s.part == None && s.target == None
    case Allocate => s.pc == Creating && s.part == Some(File([], []))
    case WriteFirstSlot(count) =>
      s.pc == Creating && s.part == Some(File([], [Resize(job.FileLen())])) && count <= |SlotBytes(job, job.Fresh())|
    case SyncCreated =>
      s.pc == Creating
      && s.part == Some(File([], [Resize(job.FileLen()), Write(job.ContentLen(), SlotBytes(job, job.Fresh()))]))
    case WriteContent(i, offset, bytes) =>
      s.pc == Idle && s.part.Some? && i < job.Plan().chunkCount && Missing(s.mem, i)
      && offset + |bytes| <= job.Plan().Hi(i) - job.Plan().Lo(i)
    case SyncData(i) =>
      s.pc == Idle && s.part.Some? && i < job.Plan().chunkCount && Missing(s.mem, i)
    case WriteSlot(i, count) =>
      s.pc == Committing(i) && s.part.Some? && s.mem.generation + 1 < U64_LIMIT && i / 8 < |s.mem.bitmap.bytes|
      && |View(s.part.value)| >= job.ContentLen() == |s.ledger| && i < job.Plan().chunkCount
      && count <= |SlotBytes(job, NextMetadata(s.mem, i))|
    case SyncSlot => s.pc.SlotWritten? && s.part.Some?
    case Truncate =>
      s.pc == Idle && s.part.Some? && s.target == None && s.mem.bitmap.Sized() && s.mem.bitmap.AllComplete()
      && |View(s.part.value)| >= job.ContentLen()
      && Accepts(job.ext, job.hash, Content(job, View(s.part.value)))
    case SyncTruncated => s.pc == Truncating && s.part.Some?
    case Rename => s.pc == Truncated && s.part.Some? && s.target == None
    case Reboot(crashed, part, target) => RebootAllowed(job, s, crashed, part, target)
  }

  /** `content` with chunk `i` as it is in `img`. */
  ghost function WithChunk(job: Job, content: seq<byte>, i: nat, img: seq<byte>): (r: seq<byte>)
    requires job.Valid() && i < job.Plan().chunkCount && |content| == job.ContentLen() <= |img|
    ensures |r| == |content|
  {
    ChunkInPlan(job.Plan(), i);
    content[..job.Plan().Lo(i)] + img[job.Plan().Lo(i)..job.Plan().Hi(i)] + content[job.Plan().Hi(i)..]
  }

  /** What `open_or_create` makes of the files it finds. */
  function OpenResult(job: Job, part: Option<File>, target: Option<File>): Result<Option<PartMetadata>>
    requires job.Valid()
  {
    Found(job.ext.crc32, part, target, job.urlHash, job.remote, job.chunkSize, job.hash)
  }

  /** The condition after a reboot, from what was found. */
  function ConditionAfter(job: Job, s: State, crashed: bool, part: Option<File>, target: Option<File>): Condition
    requires job.Valid()
  {
    if target.Some? then Final
    else if part.None? then Nothing
    else
      match s.cond
      case Unborn =>
        if !crashed then Unborn else if OpenResult(job, part, target).Success? then Live else Hopeless
      case Shrinking => if !crashed then Shrinking else if |View(part.value)| == job.FileLen() then Live else Shrunk
      case Final => Shrunk
      case _ => s.cond
  }

  ghost function AfterReboot(job: Job, s: State, crashed: bool, part: Option<File>, target: Option<File>): State
    requires job.Valid()
  {
    var entry := if crashed then Settled else s.entry;
    var found := OpenResult(job, part, target);
    var r := s.(part := part, target := target, entry := entry, cond := ConditionAfter(job, s, crashed, part, target));
    if found.Failure? then r.(pc := Rejected(found.error))
    else if found.value.None? then r.(pc := NoPart)
    else
      var m := found.value.value;
      if part.value.pending == [] then r.(pc := Idle, mem := m, lo := m, hi := None)
      else if s.hi == Some(m) then r.(pc := Idle, mem := m)
      else r.(pc := Idle, mem := m, hi := None)
  }

  ghost function Next(job: Job, s: State, a: Action): State
    requires job.Valid() && Enabled(job, s, a)
  {
    match a
    case CreateFile =>
      s.(part := Some(File([], [])), entry := JustCreated, pc := Creating, mem := job.Fresh(),
         cond := Unborn, hi := Some(Stored(job.Fresh())))
    case Allocate => s.(part := Some(Submit(s.part.value, Resize(job.FileLen()))))
    case WriteFirstSlot(count) =>
      s.(part := Some(Submit(s.part.value, Write(job.ContentLen(), SlotBytes(job, job.Fresh())[..count]))))
    case SyncCreated =>
      s.(part := Some(Synced(s.part.value)), entry := Settled, pc := Idle, cond := Live, lo := Stored(job.Fresh()),
         hi := None)
    case WriteContent(i, offset, bytes) =>
      s.(part := Some(Submit(s.part.value, Write(job.Plan().Lo(i) + offset, bytes))))
    case SyncData(i) =>
      s.(part := Some(Synced(s.part.value)), entry := Settled, pc := Committing(i), cond := Live,
         lo := Stored(s.mem), hi := None)
    case WriteSlot(i, count) =>
      var m := NextMetadata(s.mem, i);
      s.(part := Some(Submit(s.part.value, Write(job.SlotStart(m.generation % 2), SlotBytes(job, m)[..count]))),
         pc := if count == |SlotBytes(job, m)| then SlotWritten(i) else Stopped,
         mem := m, hi := Some(Stored(m)), ledger := WithChunk(job, s.ledger, i, View(s.part.value)))
    case SyncSlot =>
      s.(part := Some(Synced(s.part.value)), pc := Idle, lo := Stored(s.mem), hi := None, acked := s.acked + {s.pc.i})
    case Truncate =>
      s.(part := Some(Submit(s.part.value, Resize(job.ContentLen()))), pc := Truncating,
         cond := if s.cond == Unborn then Unborn else Shrinking)
    case SyncTruncated =>
      s.(part := Some(Synced(s.part.value)), entry := Settled, pc := Truncated, cond := Shrunk)
    case Rename => s.(part := None, target := s.part, entry := JustRenamed, pc := Promoted, cond := Final)
    case Reboot(crashed, part, target) => AfterReboot(job, s, crashed, part, target)
  }
}
