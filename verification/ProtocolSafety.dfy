/** What every run of the commit protocol keeps. */
module ProtocolSafety {
  import opened Bytes
  import opened Basics
  import opened ChunkLayout
  import opened Bitmap
  import opened Metadata
  import opened SlotCodec
  import opened Disk
  import opened Verification
  import opened Protocol

  // ---- the invariant ----

  /** A record of this download as it is stored. */
  ghost predicate Committed(job: Job, m: PartMetadata)
    requires job.Valid()
  {
    BelongsTo(job, m) && Stored(m) == m
  }

  /** A slot that recovery passes over: unreadable, or older than `lo` and of
      the parity of its position. */
  predicate Outdated(d: Result<PartMetadata>, lo: PartMetadata, k: nat) {
    Unreadable(d) || (d.Success? && d.value.generation < lo.generation && d.value.generation % 2 == k)
  }

  predicate SlotQuiet(job: Job, ops: seq<Op>, k: nat)
    requires job.Valid()
  {
    Quiet(ops, job.SlotStart(k), job.SlotStart(k) + job.SlotSize())
  }

  /** Chunk `c` is the same in both files. */
  ghost predicate SameChunk(job: Job, img: seq<byte>, content: seq<byte>, c: nat)
    requires job.Valid()
  {
    job.Plan().Lo(c) <= job.Plan().Hi(c) <= |img| && job.Plan().Hi(c) <= |content|
    && img[job.Plan().Lo(c)..job.Plan().Hi(c)] == content[job.Plan().Lo(c)..job.Plan().Hi(c)]
  }

  /** The committed content of chunk `c` is durable and nothing pending touches it. */
  ghost predicate ChunkSafe(job: Job, durable: seq<byte>, ops: seq<Op>, ledger: seq<byte>, c: nat)
    requires job.Valid()
  {
    SameChunk(job, durable, ledger, c) && Quiet(ops, job.Plan().Lo(c), job.Plan().Hi(c))
  }

  function Newest(lo: PartMetadata, hi: Option<PartMetadata>): PartMetadata {
    if hi.Some? then hi.value else lo
  }

  /** The heart of the protocol: `lo` is durable in its slot and out of reach of
      every pending write; the other slot is outdated or on its way to `hi`, the
      next generation; every chunk that either of them marks is safe. */
  ghost predicate Guarded(job: Job, durable: seq<byte>, ops: seq<Op>, lo: PartMetadata, hi: Option<PartMetadata>,
                          ledger: seq<byte>, acked: set<nat>)
    requires job.Valid()
  {
    |durable| == job.FileLen() && |ledger| == job.ContentLen() && Within(ops, job.FileLen())
    && Committed(job, lo)
    && (hi.Some? ==>
          Committed(job, hi.value) && hi.value.generation == lo.generation + 1
          && lo.Complete() < hi.value.Complete())
    && SlotQuiet(job, ops, lo.generation % 2)
    && DecodeAt(job, durable, lo.generation % 2) == Success(lo)
    && Outdated(DecodeAt(job, durable, 1 - lo.generation % 2), lo, 1 - lo.generation % 2)
    && (forall c: nat | c in Newest(lo, hi).Complete() :: ChunkSafe(job, durable, ops, ledger, c))
    && acked <= lo.Complete()
  }

  /** Memory agrees with what a read of the slots would give. */
  ghost predicate InStep(job: Job, f: File, mem: PartMetadata, lo: PartMetadata, hi: Option<PartMetadata>)
    requires job.Valid()
  {
    BelongsTo(job, mem) && |View(f)| == job.FileLen()
    && var other := DecodeAt(job, View(f), 1 - lo.generation % 2);
       if hi.None? then Stored(mem) == lo && Outdated(other, lo, 1 - lo.generation % 2)
       else hi.value == Stored(mem) && other == Success(hi.value)
  }

  ghost predicate LiveInv(job: Job, s: State)
    requires job.Valid()
  {
    s.part.Some? && s.target == None && s.entry == Settled
    && Guarded(job, s.part.value.durable, s.part.value.pending, s.lo, s.hi, s.ledger, s.acked)
    && match s.pc
       case Idle => InStep(job, s.part.value, s.mem, s.lo, s.hi)
       case Committing(i) =>
         InStep(job, s.part.value, s.mem, s.lo, s.hi) && s.hi == None && s.part.value.pending == []
         && i < job.Plan().chunkCount && Missing(s.mem, i)
       case SlotWritten(i) =>
         InStep(job, s.part.value, s.mem, s.lo, s.hi) && s.hi.Some? && i in s.mem.Complete()
       case Stopped => true
       case _ => false
  }

  /** An operation that stays below the second slot. */
  predicate Low(job: Job, op: Op)
    requires job.Valid()
  {
    match op
    case Write(offset, bytes) => offset + |bytes| <= job.ContentLen()
    case Resize(len) => len == 0 == job.ContentLen()
  }

  /** What can be pending on a new file: its allocation, its first record whole
      or in part, and then whatever a program did that started again. */
  ghost predicate Started(job: Job, ops: seq<Op>)
    requires job.Valid()
  {
    (|ops| >= 1 ==> ops[0] == Resize(job.FileLen()))
    && (|ops| >= 2 ==> exists k | 0 <= k <= |SlotBytes(job, job.Fresh())| ::
          ops[1] == Write(job.ContentLen(), SlotBytes(job, job.Fresh())[..k]))
    && forall x | 2 <= x < |ops| :: Low(job, ops[x])
  }

  /** Reads see the first record, and nothing in the second slot. */
  ghost predicate FreshRead(job: Job, img: seq<byte>)
    requires job.Valid()
  {
    |img| == job.FileLen() && DecodeAt(job, img, 0) == Success(Stored(job.Fresh())) && Unreadable(DecodeAt(job, img, 1))
  }

  ghost predicate UnbornInv(job: Job, s: State)
    requires job.Valid()
  {
    s.target == None && s.entry == JustCreated && s.hi == Some(Stored(job.Fresh())) && s.acked == {}
    && s.lo == job.Fresh() && |s.ledger| == job.ContentLen()
    && s.part.Some? && s.part.value.durable == [] && Started(job, s.part.value.pending)
    && var ops := s.part.value.pending;
       match s.pc
       case Creating => s.mem == job.Fresh() && |ops| <= 2
       case Idle => s.mem == Stored(job.Fresh()) && |ops| >= 2 && FreshRead(job, View(s.part.value))
       case Truncating =>
         job.ContentLen() == 0 && |ops| > 2 && ops[|ops| - 1] == Resize(0) && Accepts(job.ext, job.hash, [])
       case Rejected(_) => true
       case _ => false
  }

  /** Every chunk is there and committed, and the content passed the configured
      check. */
  ghost predicate Whole(job: Job, s: State, content: seq<byte>)
    requires job.Valid()
  {
    content == s.ledger && |content| == job.ContentLen() && Accepts(job.ext, job.hash, content)
    && Committed(job, Newest(s.lo, s.hi))
    && (forall c: nat | c < job.Plan().chunkCount :: c in Newest(s.lo, s.hi).Complete())
    && forall i | i in s.acked :: i < job.Plan().chunkCount
  }

  /** The final truncation is pending on top of a guarded file. */
  ghost predicate ShrinkingInv(job: Job, s: State)
    requires job.Valid()
  {
    s.part.Some? && s.target == None && s.entry == Settled && (s.pc == Truncating || s.pc.Rejected?)
    && var f := s.part.value;
       |f.pending| > 0 && f.pending[|f.pending| - 1] == Resize(job.ContentLen())
       && var ops := f.pending[..|f.pending| - 1];
          Guarded(job, f.durable, ops, s.lo, s.hi, s.ledger, s.acked)
          && (forall c: nat | c < job.Plan().chunkCount :: c in Newest(s.lo, s.hi).Complete())
          && |View(File(f.durable, ops))| == job.FileLen()
          && Accepts(job.ext, job.hash, Content(job, View(File(f.durable, ops))))
  }

  ghost predicate Inv(job: Job, s: State)
    requires job.Valid()
  {
    match s.cond
    case Nothing =>
      s.part == None && s.target == None && s.entry == Settled && s.acked == {} && s.lo == job.Fresh()
      && (s.hi == None || s.hi == Some(Stored(job.Fresh()))) && |s.ledger| == job.ContentLen() && s.pc == NoPart
    case Unborn => UnbornInv(job, s)
    case Live => LiveInv(job, s)
    case Shrinking => ShrinkingInv(job, s)
    case Shrunk =>
      s.part.Some? && s.part.value.pending == [] && s.target == None && s.entry == Settled
      && Whole(job, s, s.part.value.durable) && (s.pc == Truncated || s.pc.Rejected?)
    case Final =>
      s.part == None && s.target.Some? && s.target.value.pending == []
      && Whole(job, s, s.target.value.durable) && (s.pc == Promoted || s.pc.Rejected?)
    case Hopeless =>
      s.part.Some? && s.part.value.pending == [] && s.target == None && s.entry == Settled
      && OpenResult(job, s.part, None).Failure? && s.acked == {} && s.lo == job.Fresh()
      && (s.hi == None || s.hi == Some(Stored(job.Fresh()))) && |s.ledger| == job.ContentLen() && s.pc.Rejected?
  }

  // ---- slots ----

  lemma SlotsApart(job: Job)
    requires job.Valid()
    ensures job.SlotSize() >= HEADER_LEN
    ensures job.SlotStart(0) == job.ContentLen() && job.SlotStart(0) + job.SlotSize() == job.SlotStart(1)
    ensures job.SlotStart(1) + job.SlotSize() == job.FileLen()
  {
    SlotSizePositive(job.remote.contentLen, job.chunkSize);
  }

  lemma ChunkBounds(job: Job, c: nat)
    requires job.Valid() && c < job.Plan().chunkCount
    ensures job.Plan().Lo(c) < job.Plan().Hi(c) <= job.ContentLen()
  {
    ChunkInPlan(job.Plan(), c);
  }

  lemma CompleteBelowCount(job: Job, m: PartMetadata, c: nat)
    requires job.Valid() && BelongsTo(job, m) && c in m.Complete()
    ensures c < job.Plan().chunkCount
  {
  }

  lemma StoredKeeps(job: Job, m: PartMetadata)
    requires job.Valid() && BelongsTo(job, m)
    ensures Committed(job, Stored(m)) && Stored(m).Complete() == m.Complete()
    ensures Stored(m).generation == m.generation
  {
  }

  lemma FreshBelongs(job: Job)
    requires job.Valid()
    ensures BelongsTo(job, job.Fresh()) && job.Fresh().Complete() == {}
  {
    EmptyHasNothing(job.Plan().chunkCount);
  }

  lemma NextBelongs(job: Job, m: PartMetadata, i: nat)
    requires job.Valid() && BelongsTo(job, m) && m.generation + 1 < U64_LIMIT && i < job.Plan().chunkCount
    ensures i / 8 < |m.bitmap.bytes|
    ensures BelongsTo(job, NextMetadata(m, i))
    ensures NextMetadata(m, i).Complete() == m.Complete() + {i}
  {
    MarkedAddsOne(m.bitmap, i);
  }

  /** The codec theorem, for a record of this download. */
  lemma SlotBytesDecode(job: Job, m: PartMetadata)
    requires job.Valid() && BelongsTo(job, m)
    ensures |SlotBytes(job, m)| == job.SlotSize()
    ensures DecodeSlot(job.ext.crc32, SlotBytes(job, m)) == Success(Stored(m))
  {
    hide DecodeSlot, Encoded;
    SlotRoundTrip(job.ext.crc32, m);
  }

  lemma ZeroSlotUnreadable(job: Job, slot: seq<byte>)
    requires |slot| >= HEADER_LEN && slot == Zeros(|slot|)
    ensures Unreadable(DecodeSlot(job.ext.crc32, slot))
  {
    assert slot[0..8][0] != MAGIC[0];
  }

  lemma OwnRecordCompatible(job: Job, m: PartMetadata)
    requires job.Valid() && BelongsTo(job, m)
    ensures EnsureCompatible(m, job.urlHash, job.remote, job.chunkSize, job.hash) == Success(())
  {
  }

  /** Equal slot bytes decode alike. */
  lemma SameSlot(job: Job, x: seq<byte>, y: seq<byte>, k: nat)
    requires job.Valid() && k < 2 && |x| == |y| == job.FileLen()
    requires x[job.SlotStart(k)..job.SlotStart(k) + job.SlotSize()]
             == y[job.SlotStart(k)..job.SlotStart(k) + job.SlotSize()]
    ensures DecodeAt(job, x, k) == DecodeAt(job, y, k)
  {
    hide DecodeSlot;
  }

  // ---- recovery ----

  /** The other slot reads as nothing, as something old, or as `hi`. */
  ghost predicate TearOk(job: Job, lo: PartMetadata, hi: Option<PartMetadata>, img: seq<byte>)
    requires job.Valid() && |img| == job.FileLen()
  {
    var d := DecodeAt(job, img, 1 - lo.generation % 2);
    Outdated(d, lo, 1 - lo.generation % 2) || (hi.Some? && d == Success(hi.value))
  }

  /** Every image that a crash can leave of a guarded file recovers to `lo` or
      to `hi`, never to anything older, and with all of its chunks. */
  lemma Recovers(job: Job, durable: seq<byte>, ops: seq<Op>, lo: PartMetadata, hi: Option<PartMetadata>,
                 ledger: seq<byte>, acked: set<nat>, img: seq<byte>)
    requires job.Valid() && Guarded(job, durable, ops, lo, hi, ledger, acked)
    requires CrashImage(durable, ops, img)
    requires |img| == job.FileLen() ==> TearOk(job, lo, hi, img)
    ensures |img| == job.FileLen()
    ensures DecodeAt(job, img, lo.generation % 2) == Success(lo)
    ensures ReadBest(job, img).Success?
    ensures var m := ReadBest(job, img).value.0;
            if hi.Some? && DecodeAt(job, img, 1 - lo.generation % 2) == Success(hi.value) then m == hi.value
            else
              m == lo && hi != Some(m)
              && Outdated(DecodeAt(job, img, 1 - lo.generation % 2), lo, 1 - lo.generation % 2)
    ensures forall c: nat | c in Newest(lo, hi).Complete() :: SameChunk(job, img, ledger, c)
  {
    hide DecodeSlot, CrashImage;
    SlotsApart(job);
    var a := lo.generation % 2;
    CrashKeepsLength(durable, ops, img);
    CrashKeepsQuiet(durable, ops, img, job.SlotStart(a), job.SlotStart(a) + job.SlotSize());
    SameSlot(job, durable, img, a);
    forall c: nat | c in Newest(lo, hi).Complete()
      ensures SameChunk(job, img, ledger, c)
    {
      assert ChunkSafe(job, durable, ops, ledger, c);
      CrashKeepsQuiet(durable, ops, img, job.Plan().Lo(c), job.Plan().Hi(c));
    }
  }

  lemma CleanGuarded(job: Job, img: seq<byte>, m: PartMetadata, ledger: seq<byte>, acked: set<nat>)
    requires job.Valid() && |img| == job.FileLen() && |ledger| == job.ContentLen() && Committed(job, m)
    requires DecodeAt(job, img, m.generation % 2) == Success(m)
    requires Outdated(DecodeAt(job, img, 1 - m.generation % 2), m, 1 - m.generation % 2)
    requires forall c: nat | c in m.Complete() :: SameChunk(job, img, ledger, c)
    requires acked <= m.Complete()
    ensures Guarded(job, img, [], m, None, ledger, acked) && InStep(job, File(img, []), m, m, None)
  {
    hide DecodeSlot, DecodeAt, SameChunk, BelongsTo;
    assert View(File(img, [])) == img;
  }

  /** What is recovered is guarded again, so the argument can be repeated. */
  lemma RecoveredIsGuarded(job: Job, durable: seq<byte>, ops: seq<Op>, lo: PartMetadata, hi: Option<PartMetadata>,
                           ledger: seq<byte>, acked: set<nat>, img: seq<byte>)
    requires job.Valid() && Guarded(job, durable, ops, lo, hi, ledger, acked)
    requires CrashImage(durable, ops, img)
    requires |img| == job.FileLen() ==> TearOk(job, lo, hi, img)
    ensures |img| == job.FileLen() && ReadBest(job, img).Success?
    ensures var m := ReadBest(job, img).value.0;
            (m == lo || hi == Some(m)) && Committed(job, m)
            && Guarded(job, img, [], m, None, ledger, acked)
            && InStep(job, File(img, []), m, m, None)
  {
    hide DecodeSlot, DecodeAt, ReadBest, CrashImage, SameChunk, Guarded, InStep, TearOk, BelongsTo;
    Recovers(job, durable, ops, lo, hi, ledger, acked, img);
    GuardedRecords(job, durable, ops, lo, hi, ledger, acked);
    var m := ReadBest(job, img).value.0;
    RecoveredSlots(job, lo, hi, img, m);
    CleanGuarded(job, img, m, ledger, acked);
  }

  /** The two records of a guarded file. */
  lemma GuardedRecords(job: Job, durable: seq<byte>, ops: seq<Op>, lo: PartMetadata, hi: Option<PartMetadata>,
                       ledger: seq<byte>, acked: set<nat>)
    requires job.Valid() && Guarded(job, durable, ops, lo, hi, ledger, acked)
    ensures Committed(job, lo) && acked <= lo.Complete() && |ledger| == job.ContentLen()
    ensures hi.Some? ==> Committed(job, hi.value) && hi.value.generation == lo.generation + 1
                         && lo.Complete() <= hi.value.Complete()
  {
    hide DecodeAt, ChunkSafe, SlotQuiet;
  }

  /** Whichever of the two was read, the other slot is outdated for it. */
  lemma RecoveredSlots(job: Job, lo: PartMetadata, hi: Option<PartMetadata>, img: seq<byte>, m: PartMetadata)
    requires job.Valid() && |img| == job.FileLen() && DecodeAt(job, img, lo.generation % 2) == Success(lo)
    requires hi.Some? ==> hi.value.generation == lo.generation + 1
    requires if hi.Some? && DecodeAt(job, img, 1 - lo.generation % 2) == Success(hi.value) then m == hi.value
             else m == lo && Outdated(DecodeAt(job, img, 1 - lo.generation % 2), lo, 1 - lo.generation % 2)
    ensures DecodeAt(job, img, m.generation % 2) == Success(m)
    ensures Outdated(DecodeAt(job, img, 1 - m.generation % 2), m, 1 - m.generation % 2)
  {
    hide DecodeAt;
    if m != lo {
      assert m.generation % 2 == 1 - lo.generation % 2;
    }
  }

  // ---- one lemma for each step ----

  lemma CreationKeepsInv(job: Job, s: State, a: Action)
    requires job.Valid() && Inv(job, s) && Enabled(job, s, a) && (a.CreateFile? || a.Allocate? || a.WriteFirstSlot?)
    ensures Inv(job, Next(job, s, a))
  {
    hide DecodeSlot, SlotBytes, OpenResult, Accepts;
    match a
    case CreateFile =>
    case Allocate =>
      assert s.cond.Unborn?;
    case WriteFirstSlot(count) =>
      assert s.cond.Unborn?;
  }

  lemma CreatedBytes(zeros: nat, slot: seq<byte>, start: nat)
    requires start + |slot| <= zeros
    ensures Apply(Resized([], zeros), Write(start, slot)) == Zeros(start) + slot + Zeros(zeros - start - |slot|)
  {
  }

  lemma CutThree(a: seq<byte>, b: seq<byte>, c: seq<byte>)
    ensures (a + b + c)[|a|..|a| + |b|] == b
    ensures (a + b + c)[|a| + |b|..|a| + |b| + |c|] == c
  {
  }

  /** The file as the first sync leaves it: no content, a fresh record, a slot
      of zeros. */
  lemma FreshFile(job: Job, durable: seq<byte>)
    requires job.Valid()
    requires durable == Apply(Resized([], job.FileLen()), Write(job.ContentLen(), SlotBytes(job, job.Fresh())))
    ensures |durable| == job.FileLen()
    ensures DecodeAt(job, durable, 0) == Success(Stored(job.Fresh()))
    ensures Unreadable(DecodeAt(job, durable, 1))
  {
    hide DecodeSlot, SlotBytes, Apply;
    SlotsApart(job);
    FreshBelongs(job);
    SlotBytesDecode(job, job.Fresh());
    var slot, size := SlotBytes(job, job.Fresh()), job.SlotSize();
    CreatedBytes(job.FileLen(), slot, job.ContentLen());
    CutThree(Zeros(job.ContentLen()), slot, Zeros(size));
    assert durable == Zeros(job.ContentLen()) + slot + Zeros(size);
    ZeroSlotUnreadable(job, Zeros(size));
  }

  lemma SyncCreatedKeepsInv(job: Job, s: State)
    requires job.Valid() && Inv(job, s) && Enabled(job, s, SyncCreated)
    ensures Inv(job, Next(job, s, SyncCreated))
  {
    hide DecodeSlot, SlotBytes, Accepts;
    var slot := SlotBytes(job, job.Fresh());
    var f := s.part.value;
    var resize, write := Resize(job.FileLen()), Write(job.ContentLen(), slot);
    assert f.pending[..1] == [resize] && [resize][..0] == [];
    assert ApplyAll([], [resize]) == Apply([], resize);
    assert View(f) == Apply(Resized([], job.FileLen()), write);
    FreshFile(job, View(f));
    FreshBelongs(job);
    StoredKeeps(job, job.Fresh());
    assert View(Synced(f)) == View(f);
  }

  /** A write below the slots changes no slot. */
  lemma SlotsUntouched(job: Job, img: seq<byte>, offset: nat, bytes: seq<byte>, k: nat)
    requires job.Valid() && k < 2 && |img| == job.FileLen() && offset + |bytes| <= job.ContentLen()
    ensures |Apply(img, Write(offset, bytes))| == job.FileLen()
    ensures DecodeAt(job, Apply(img, Write(offset, bytes)), k) == DecodeAt(job, img, k)
  {
    hide DecodeSlot;
    SlotsApart(job);
    ApplySpares(img, Write(offset, bytes), job.SlotStart(k), job.SlotStart(k) + job.SlotSize());
    SameSlot(job, img, Apply(img, Write(offset, bytes)), k);
  }

  lemma QuietSubmit(ops: seq<Op>, op: Op, a: nat, b: nat)
    requires Quiet(ops, a, b) && Spares(op, a, b)
    ensures Quiet(ops + [op], a, b)
  {
  }

  /** Writing inside one chunk leaves every other chunk alone. */
  lemma WriteSparesOthers(job: Job, i: nat, c: nat, offset: nat, bytes: seq<byte>)
    requires job.Valid() && i < job.Plan().chunkCount && c < job.Plan().chunkCount && i != c
    requires offset + |bytes| <= job.Plan().Hi(i) - job.Plan().Lo(i)
    ensures Spares(Write(job.Plan().Lo(i) + offset, bytes), job.Plan().Lo(c), job.Plan().Hi(c))
  {
    ChunkBounds(job, i);
    if c < i {
      ChunksDisjoint(job.Plan(), c, i);
    } else {
      ChunksDisjoint(job.Plan(), i, c);
    }
  }

  /** A write that stays clear of `lo` and of every safe chunk is harmless. */
  lemma GuardedSubmit(job: Job, durable: seq<byte>, ops: seq<Op>, lo: PartMetadata, hi: Option<PartMetadata>,
                      ledger: seq<byte>, acked: set<nat>, op: Op)
    requires job.Valid() && Guarded(job, durable, ops, lo, hi, ledger, acked)
    requires op.Write? && op.offset + |op.bytes| <= job.FileLen()
    requires Spares(op, job.SlotStart(lo.generation % 2), job.SlotStart(lo.generation % 2) + job.SlotSize())
    requires forall c: nat | c in Newest(lo, hi).Complete() :: Spares(op, job.Plan().Lo(c), job.Plan().Hi(c))
    ensures Guarded(job, durable, ops + [op], lo, hi, ledger, acked)
  {
    hide DecodeSlot;
    forall c: nat | c in Newest(lo, hi).Complete()
      ensures ChunkSafe(job, durable, ops + [op], ledger, c)
    {
      assert ChunkSafe(job, durable, ops, ledger, c);
      QuietSubmit(ops, op, job.Plan().Lo(c), job.Plan().Hi(c));
    }
  }

  lemma ContentWriteInStep(job: Job, f: File, mem: PartMetadata, lo: PartMetadata, hi: Option<PartMetadata>,
                           offset: nat, bytes: seq<byte>)
    requires job.Valid() && InStep(job, f, mem, lo, hi) && offset + |bytes| <= job.ContentLen()
    ensures InStep(job, Submit(f, Write(offset, bytes)), mem, lo, hi)
  {
    hide DecodeSlot, ApplyAll, DecodeAt;
    ViewAfterSubmit(f, Write(offset, bytes));
    SlotsUntouched(job, View(f), offset, bytes, 1 - lo.generation % 2);
  }

  lemma WriteContentKeepsInv(job: Job, s: State, i: nat, offset: nat, bytes: seq<byte>)
    requires job.Valid() && Inv(job, s) && Enabled(job, s, WriteContent(i, offset, bytes))
    ensures Inv(job, Next(job, s, WriteContent(i, offset, bytes)))
  {
    hide DecodeSlot, DecodeAt, SlotBytes, Accepts, OpenResult, InStep, Guarded, UnbornInv, Whole;
    if s.cond == Unborn {
      UnbornWrite(job, s, i, offset, bytes);
    } else {
      LiveWrite(job, s, i, offset, bytes);
    }
  }

  lemma LiveWrite(job: Job, s: State, i: nat, offset: nat, bytes: seq<byte>)
    requires job.Valid() && LiveInv(job, s) && Enabled(job, s, WriteContent(i, offset, bytes))
    ensures LiveInv(job, Next(job, s, WriteContent(i, offset, bytes)))
  {
    hide DecodeSlot, DecodeAt, SlotBytes, Accepts, OpenResult, InStep, Guarded;
    var f, a := s.part.value, s.lo.generation % 2;
    var op := Write(job.Plan().Lo(i) + offset, bytes);
    ChunkBounds(job, i);
    SlotsApart(job);
    NewestCommitted(job, f.durable, f.pending, s.lo, s.hi, s.ledger, s.acked);
    forall c: nat | c in Newest(s.lo, s.hi).Complete()
      ensures Spares(op, job.Plan().Lo(c), job.Plan().Hi(c))
    {
      NewestIsMemory(job, s, c);
      WriteSparesOthers(job, i, c, offset, bytes);
    }
    GuardedSubmit(job, f.durable, f.pending, s.lo, s.hi, s.ledger, s.acked, op);
    ContentWriteInStep(job, f, s.mem, s.lo, s.hi, op.offset, bytes);
  }

  /** Content can be written before anything is durable: it stays below the
      slots, so reads still see the first record. */
  lemma UnbornWrite(job: Job, s: State, i: nat, offset: nat, bytes: seq<byte>)
    requires job.Valid() && s.cond == Unborn && UnbornInv(job, s) && Enabled(job, s, WriteContent(i, offset, bytes))
    ensures UnbornInv(job, Next(job, s, WriteContent(i, offset, bytes)))
  {
    hide DecodeSlot, DecodeAt, SlotBytes, Accepts, OpenResult, ApplyAll, Apply;
    var f, op := s.part.value, Write(job.Plan().Lo(i) + offset, bytes);
    ChunkBounds(job, i);
    assert Low(job, op);
    StartedSubmit(job, f.pending, op);
    ViewAfterSubmit(f, op);
    SlotsUntouched(job, View(f), op.offset, bytes, 0);
    SlotsUntouched(job, View(f), op.offset, bytes, 1);
  }

  lemma StartedSubmit(job: Job, ops: seq<Op>, op: Op)
    requires job.Valid() && Started(job, ops) && |ops| >= 2 && Low(job, op)
    ensures Started(job, ops + [op])
  {
    hide SlotBytes;
    assert (ops + [op])[1] == ops[1];
  }

  lemma NewestCommitted(job: Job, durable: seq<byte>, ops: seq<Op>, lo: PartMetadata, hi: Option<PartMetadata>,
                        ledger: seq<byte>, acked: set<nat>)
    requires job.Valid() && Guarded(job, durable, ops, lo, hi, ledger, acked)
    ensures Committed(job, Newest(lo, hi)) && acked <= Newest(lo, hi).Complete()
    ensures |durable| == job.FileLen()
  {
  }

  /** While idle, the newest record is the one in memory. */
  lemma NewestIsMemory(job: Job, s: State, c: nat)
    requires job.Valid() && LiveInv(job, s) && s.pc == Idle && c in Newest(s.lo, s.hi).Complete()
    ensures c < job.Plan().chunkCount && !Missing(s.mem, c)
  {
    hide DecodeSlot, DecodeAt;
    CompleteBelowCount(job, Newest(s.lo, s.hi), c);
  }

  /** After a sync, what was in step is durable and nothing is pending. */
  lemma SyncedInStep(job: Job, f: File, mem: PartMetadata, lo: PartMetadata, hi: Option<PartMetadata>,
                     ledger: seq<byte>, acked: set<nat>)
    requires job.Valid() && Guarded(job, f.durable, f.pending, lo, hi, ledger, acked) && InStep(job, f, mem, lo, hi)
    ensures Guarded(job, View(f), [], Stored(mem), None, ledger, acked)
    ensures InStep(job, Synced(f), mem, Stored(mem), None)
  {
    hide DecodeSlot, DecodeAt, SlotBytes, CrashImage, ApplyAll, ReadBest;
    ViewIsCrashImage(f.durable, f.pending);
    Recovers(job, f.durable, f.pending, lo, hi, ledger, acked, View(f));
    RecoveredIsGuarded(job, f.durable, f.pending, lo, hi, ledger, acked, View(f));
    ViewOfSynced(f);
    assert ReadBest(job, View(f)).value.0 == Stored(mem);
    assert InStep(job, File(View(f), []), Stored(mem), Stored(mem), None);
  }

  lemma SyncDataKeepsInv(job: Job, s: State, i: nat)
    requires job.Valid() && Inv(job, s) && Enabled(job, s, SyncData(i))
    ensures Inv(job, Next(job, s, SyncData(i)))
  {
    hide DecodeSlot, DecodeAt, SlotBytes, Accepts, OpenResult, InStep, Guarded, ApplyAll, Whole;
    if s.cond == Unborn {
      UnbornSynced(job, s);
    } else {
      assert LiveInv(job, s);
      SyncedInStep(job, s.part.value, s.mem, s.lo, s.hi, s.ledger, s.acked);
    }
  }

  /** The first sync of a file that was taken up from the page cache. */
  lemma UnbornSynced(job: Job, s: State)
    requires job.Valid() && s.cond == Unborn && UnbornInv(job, s) && s.pc == Idle
    ensures Guarded(job, View(s.part.value), [], Stored(s.mem), None, s.ledger, s.acked)
    ensures InStep(job, Synced(s.part.value), s.mem, Stored(s.mem), None)
    ensures BelongsTo(job, s.mem)
  {
    hide DecodeSlot, DecodeAt, SlotBytes, Accepts, OpenResult, InStep, Guarded, ApplyAll;
    FreshBelongs(job);
    StoredKeeps(job, job.Fresh());
    CleanGuarded(job, View(s.part.value), Stored(job.Fresh()), s.ledger, s.acked);
  }

  lemma SyncSlotKeepsInv(job: Job, s: State)
    requires job.Valid() && Inv(job, s) && Enabled(job, s, SyncSlot)
    ensures Inv(job, Next(job, s, SyncSlot))
  {
    hide DecodeSlot, DecodeAt, SlotBytes, Accepts, OpenResult, ApplyAll;
    assert LiveInv(job, s);
    SyncedInStep(job, s.part.value, s.mem, s.lo, s.hi, s.ledger, s.acked);
  }

  lemma SpliceKeeps(content: seq<byte>, middle: seq<byte>, a: nat, b: nat, x: nat, y: nat)
    requires a <= b <= |content| && |middle| == b - a && x <= y <= |content| && (y <= a || b <= x)
    ensures (content[..a] + middle + content[b..])[x..y] == content[x..y]
  {
  }

  /** Recording chunk `i` in the ledger leaves the other chunks as they were. */
  lemma WithChunkKeepsOthers(job: Job, content: seq<byte>, i: nat, img: seq<byte>)
    requires job.Valid() && i < job.Plan().chunkCount && |content| == job.ContentLen() <= |img|
    ensures SameChunk(job, img, WithChunk(job, content, i, img), i)
    ensures forall c: nat | c < job.Plan().chunkCount && c != i ::
                 SameChunk(job, content, WithChunk(job, content, i, img), c)
  {
    hide ChunkPlan.Lo, ChunkPlan.Hi;
    var plan := job.Plan();
    ChunkBounds(job, i);
    CutThree(content[..plan.Lo(i)], img[plan.Lo(i)..plan.Hi(i)], content[plan.Hi(i)..]);
    forall c: nat | c < plan.chunkCount && c != i
      ensures SameChunk(job, content, WithChunk(job, content, i, img), c)
    {
      ChunkBounds(job, c);
      if c < i {
        ChunksDisjoint(plan, c, i);
      } else {
        ChunksDisjoint(plan, i, c);
      }
      SpliceKeeps(content, img[plan.Lo(i)..plan.Hi(i)], plan.Lo(i), plan.Hi(i), plan.Lo(c), plan.Hi(c));
    }
  }

  lemma SlotWriteSparesContent(job: Job, k: nat, bytes: seq<byte>, c: nat)
    requires job.Valid() && k < 2 && c < job.Plan().chunkCount
    ensures Spares(Write(job.SlotStart(k), bytes), job.Plan().Lo(c), job.Plan().Hi(c))
  {
    ChunkBounds(job, c);
    SlotsApart(job);
  }

  /** When chunk `i` is recorded and a slot is being written, every marked
      chunk, `i` included, is safe. */
  lemma SlotWriteChunksSafe(job: Job, durable: seq<byte>, lo: PartMetadata, ledger: seq<byte>, i: nat, c: nat, k: nat,
                            slot: seq<byte>)
    requires job.Valid() && i < job.Plan().chunkCount && c < job.Plan().chunkCount && k < 2
    requires |ledger| == job.ContentLen() <= |durable|
    requires c == i || ChunkSafe(job, durable, [], ledger, c)
    ensures ChunkSafe(job, durable, [Write(job.SlotStart(k), slot)], WithChunk(job, ledger, i, durable), c)
  {
    hide WithChunk, SameChunk;
    SlotWriteSparesContent(job, k, slot, c);
    WithChunkKeepsOthers(job, ledger, i, durable);
    if c != i {
      SameChunkTransitive(job, durable, ledger, WithChunk(job, ledger, i, durable), c);
    }
  }

  /** From a synced file to the next generation on its way: the write goes to
      the slot that recovery does not use. */
  lemma SlotWriteGuarded(job: Job, durable: seq<byte>, mem: PartMetadata, ledger: seq<byte>, acked: set<nat>, i: nat,
                         count: nat)
    requires job.Valid() && BelongsTo(job, mem) && mem.generation + 1 < U64_LIMIT && i < job.Plan().chunkCount
    requires Guarded(job, durable, [], Stored(mem), None, ledger, acked)
    requires i / 8 < |mem.bitmap.bytes| && count <= |SlotBytes(job, NextMetadata(mem, i))| && i !in mem.Complete()
    ensures |durable| == job.FileLen()
    ensures var m := NextMetadata(mem, i);
            Guarded(job, durable, [Write(job.SlotStart(m.generation % 2), SlotBytes(job, m)[..count])],
                    Stored(mem), Some(Stored(m)), WithChunk(job, ledger, i, durable), acked)
  {
    hide DecodeSlot, DecodeAt, SlotBytes, ChunkSafe, WithChunk, Stored, Bits.Members, Outdated, Job.SlotStart,
      Job.SlotSize,
      SlotQuiet, Spares;
    var m, lo := NextMetadata(mem, i), Stored(mem);
    var slot := SlotBytes(job, m)[..count];
    NextBelongs(job, mem, i);
    StoredKeeps(job, m);
    StoredKeeps(job, mem);
    SlotBytesDecode(job, m);
    OtherSlot(job, lo.generation, slot);
    forall c: nat | c in Stored(m).Complete()
      ensures ChunkSafe(job, durable, [Write(job.SlotStart(m.generation % 2), slot)],
                        WithChunk(job, ledger, i, durable), c)
    {
      CompleteBelowCount(job, Stored(m), c);
      assert c == i || c in Newest(lo, None).Complete();
      SlotWriteChunksSafe(job, durable, lo, ledger, i, c, m.generation % 2, slot);
    }
    WithChunkLength(job, ledger, i, durable);
    GuardedStep(job, durable, lo, Stored(m), ledger, WithChunk(job, ledger, i, durable), acked,
                Write(job.SlotStart(m.generation % 2), slot));
  }

  /** Generation g + 1 goes to the slot that generation g is not in. */
  lemma OtherSlot(job: Job, g: nat, bytes: seq<byte>)
    requires job.Valid() && |bytes| <= job.SlotSize()
    ensures (g + 1) % 2 == 1 - g % 2
    ensures job.SlotStart((g + 1) % 2) + |bytes| <= job.FileLen()
    ensures Spares(Write(job.SlotStart((g + 1) % 2), bytes), job.SlotStart(g % 2),
                   job.SlotStart(g % 2) + job.SlotSize())
  {
    hide Job.SlotSize, Job.Valid;
    if g % 2 == 0 {
      assert (g + 1) % 2 == 1;
    } else {
      assert (g + 1) % 2 == 0;
    }
  }

  /** From one generation to the next, by the definition. */
  lemma GuardedStep(job: Job, durable: seq<byte>, lo: PartMetadata, next: PartMetadata, ledger: seq<byte>,
                    grown: seq<byte>,
                    acked: set<nat>, op: Op)
    requires job.Valid() && Guarded(job, durable, [], lo, None, ledger, acked)
    requires |grown| == job.ContentLen() && op.Write? && op.offset + |op.bytes| <= job.FileLen()
    requires Committed(job, next) && next.generation == lo.generation + 1 && lo.Complete() < next.Complete()
    requires Spares(op, job.SlotStart(lo.generation % 2), job.SlotStart(lo.generation % 2) + job.SlotSize())
    requires forall c: nat | c in next.Complete() :: ChunkSafe(job, durable, [op], grown, c)
    ensures Guarded(job, durable, [op], lo, Some(next), grown, acked)
  {
    hide DecodeSlot, DecodeAt, ChunkSafe, Bits.Members;
  }

  lemma WithChunkLength(job: Job, content: seq<byte>, i: nat, img: seq<byte>)
    requires job.Valid() && i < job.Plan().chunkCount && |content| == job.ContentLen() <= |img|
    ensures |WithChunk(job, content, i, img)| == |content|
  {
  }

  lemma SameChunkTransitive(job: Job, x: seq<byte>, y: seq<byte>, z: seq<byte>, c: nat)
    requires job.Valid() && SameChunk(job, x, y, c) && SameChunk(job, y, z, c)
    ensures SameChunk(job, x, z, c)
  {
  }

  /** A slot written whole is read back as the record it encodes. */
  lemma WrittenSlotDecodes(job: Job, img: seq<byte>, m: PartMetadata)
    requires job.Valid() && |img| == job.FileLen() && BelongsTo(job, m)
    ensures var r := Apply(img, Write(job.SlotStart(m.generation % 2), SlotBytes(job, m)));
            |r| == job.FileLen() && DecodeAt(job, r, m.generation % 2) == Success(Stored(m))
  {
    hide DecodeSlot, SlotBytes, Apply;
    SlotsApart(job);
    SlotBytesDecode(job, m);
    var start, slot := job.SlotStart(m.generation % 2), SlotBytes(job, m);
    ApplyWrite(img, start, slot);
    CutThree(img[..start], slot, img[start + |slot|..]);
  }

  lemma SlotWriteInStep(job: Job, f: File, mem: PartMetadata, i: nat)
    requires job.Valid() && BelongsTo(job, mem) && mem.generation + 1 < U64_LIMIT && i < job.Plan().chunkCount
    requires |View(f)| == job.FileLen() && i / 8 < |mem.bitmap.bytes|
    ensures var m := NextMetadata(mem, i);
            InStep(job, Submit(f, Write(job.SlotStart(m.generation % 2), SlotBytes(job, m))), m, Stored(mem),
                   Some(Stored(m)))
            && i in m.Complete()
  {
    hide DecodeSlot, DecodeAt, SlotBytes, ApplyAll, Apply, Job.SlotStart, Job.SlotSize, Stored;
    var m := NextMetadata(mem, i);
    NextBelongs(job, mem, i);
    StoredKeeps(job, mem);
    ViewAfterSubmit(f, Write(job.SlotStart(m.generation % 2), SlotBytes(job, m)));
    WrittenSlotDecodes(job, View(f), m);
    OtherSlot(job, mem.generation, []);
  }

  lemma WriteSlotKeepsInv(job: Job, s: State, i: nat, count: nat)
    requires job.Valid() && Inv(job, s) && Enabled(job, s, WriteSlot(i, count))
    ensures Inv(job, Next(job, s, WriteSlot(i, count)))
  {
    hide DecodeSlot, DecodeAt, SlotBytes, Accepts, OpenResult, Guarded, ApplyAll, Apply, WithChunk, InStep;
    assert LiveInv(job, s);
    var f, m := s.part.value, NextMetadata(s.mem, i);
    var op := Write(job.SlotStart(m.generation % 2), SlotBytes(job, m)[..count]);
    NothingPending(f);
    CommittingGuarded(job, s);
    assert i !in s.mem.Complete();
    SlotWriteGuarded(job, f.durable, s.mem, s.ledger, s.acked, i, count);
    assert f.pending + [op] == [op];
    if count == |SlotBytes(job, m)| {
      assert SlotBytes(job, m)[..count] == SlotBytes(job, m);
      SlotWriteInStep(job, f, s.mem, i);
    }
  }

  /** After `sync_data` nothing is pending and memory is exactly what is durable. */
  lemma CommittingGuarded(job: Job, s: State)
    requires job.Valid() && LiveInv(job, s) && s.pc.Committing?
    ensures BelongsTo(job, s.mem) && s.lo == Stored(s.mem) && s.hi == None && s.part.value.pending == []
    ensures |s.part.value.durable| == job.FileLen()
  {
    hide DecodeSlot, DecodeAt, ApplyAll;
  }

  lemma NothingPending(f: File)
    requires f.pending == []
    ensures View(f) == f.durable
  {
  }

  // ---- finishing ----

  lemma AllCompleteMembers(job: Job, s: State)
    requires job.Valid() && LiveInv(job, s) && s.pc == Idle && s.mem.bitmap.Sized() && s.mem.bitmap.AllComplete()
    ensures Committed(job, Newest(s.lo, s.hi))
    ensures forall c: nat | c < job.Plan().chunkCount :: c in Newest(s.lo, s.hi).Complete()
  {
    hide DecodeSlot, DecodeAt;
    AllCompleteIsFull(s.mem.bitmap);
  }

  lemma TruncateKeepsInv(job: Job, s: State)
    requires job.Valid() && Inv(job, s) && Enabled(job, s, Truncate)
    ensures Inv(job, Next(job, s, Truncate))
  {
    hide DecodeSlot, DecodeAt, SlotBytes, Accepts, OpenResult, InStep, Guarded, ApplyAll, UnbornInv, Whole,
      Bits.AllComplete;
    if s.cond == Unborn {
      UnbornTruncate(job, s);
    } else {
      LiveTruncate(job, s);
    }
  }

  lemma LiveTruncate(job: Job, s: State)
    requires job.Valid() && s.cond == Live && LiveInv(job, s) && Enabled(job, s, Truncate)
    ensures ShrinkingInv(job, Next(job, s, Truncate))
  {
    hide DecodeSlot, DecodeAt, SlotBytes, Accepts, OpenResult, ApplyAll, Guarded;
    AllCompleteMembers(job, s);
    var f := s.part.value;
    assert (f.pending + [Resize(job.ContentLen())])[..|f.pending|] == f.pending;
    assert File(f.durable, f.pending) == f;
  }

  /** A file of which nothing is durable can be finished only if it is empty. */
  lemma UnbornTruncate(job: Job, s: State)
    requires job.Valid() && s.cond == Unborn && UnbornInv(job, s) && Enabled(job, s, Truncate)
    ensures UnbornInv(job, Next(job, s, Truncate))
  {
    hide DecodeSlot, DecodeAt, SlotBytes, OpenResult, ApplyAll, Accepts;
    NothingToDo(job);
    var f := s.part.value;
    assert Content(job, View(f)) == [];
    assert Low(job, Resize(0));
    StartedSubmit(job, f.pending, Resize(0));
  }

  /** A fresh record is complete only for an empty download. */
  lemma NothingToDo(job: Job)
    requires job.Valid() && job.Fresh().bitmap.AllComplete()
    ensures job.ContentLen() == 0
  {
    hide Bits.AllComplete;
    if job.ContentLen() > 0 {
      SomethingToDo(job);
    }
  }

  lemma SomethingToDo(job: Job)
    requires job.Valid() && job.ContentLen() > 0
    ensures !job.Fresh().bitmap.AllComplete()
  {
    FreshBelongs(job);
    AllCompleteIsFull(job.Fresh().bitmap);
    ChunksCover(job.Plan(), 0);
    assert 0 in job.Fresh().Complete() <==> job.Fresh().bitmap.BitSet(0);
  }

  /** When every chunk agrees, the whole content does: the chunks cover it. */
  lemma AllChunksSame(job: Job, img: seq<byte>, ledger: seq<byte>)
    requires job.Valid() && |ledger| == job.ContentLen() <= |img|
    requires forall c: nat | c < job.Plan().chunkCount :: SameChunk(job, img, ledger, c)
    ensures Content(job, img) == ledger
  {
    forall p | 0 <= p < job.ContentLen()
      ensures img[p] == ledger[p]
    {
      var c := ChunkOf(p, job.Plan().chunkSize);
      ChunksCover(job.Plan(), p);
      assert SameChunk(job, img, ledger, c);
      var lo, hi := job.Plan().Lo(c), job.Plan().Hi(c);
      assert img[lo..hi][p - lo] == ledger[lo..hi][p - lo];
    }
  }

  /** With every chunk committed, a read sees exactly the committed content. */
  lemma FullView(job: Job, durable: seq<byte>, ops: seq<Op>, lo: PartMetadata, hi: Option<PartMetadata>,
                 ledger: seq<byte>, acked: set<nat>)
    requires job.Valid() && Guarded(job, durable, ops, lo, hi, ledger, acked)
    requires forall c: nat | c < job.Plan().chunkCount :: c in Newest(lo, hi).Complete()
    ensures |View(File(durable, ops))| == job.FileLen()
    ensures Content(job, View(File(durable, ops))) == ledger
    ensures forall i | i in acked :: i < job.Plan().chunkCount
  {
    hide DecodeSlot, DecodeAt, ApplyAll;
    var f := File(durable, ops);
    ViewLength(f);
    forall c: nat | c < job.Plan().chunkCount
      ensures SameChunk(job, View(f), ledger, c)
    {
      assert ChunkSafe(job, durable, ops, ledger, c);
      ViewOfQuiet(f, job.Plan().Lo(c), job.Plan().Hi(c));
    }
    AllChunksSame(job, View(f), ledger);
    forall i | i in acked
      ensures i < job.Plan().chunkCount
    {
      CompleteBelowCount(job, lo, i);
    }
  }

  /** Reading a file whose truncation is pending. */
  lemma ShrinkingView(job: Job, f: File)
    requires job.Valid() && |f.pending| > 0 && f.pending[|f.pending| - 1] == Resize(job.ContentLen())
    requires |View(File(f.durable, f.pending[..|f.pending| - 1]))| == job.FileLen()
    ensures View(f) == Content(job, View(File(f.durable, f.pending[..|f.pending| - 1])))
    ensures |View(f)| == job.ContentLen()
  {
  }

  lemma SyncTruncatedKeepsInv(job: Job, s: State)
    requires job.Valid() && Inv(job, s) && Enabled(job, s, SyncTruncated)
    ensures Inv(job, Next(job, s, SyncTruncated))
  {
    hide DecodeSlot, DecodeAt, SlotBytes, Accepts, OpenResult, Guarded, ApplyAll, UnbornInv;
    if s.cond == Unborn {
      UnbornSyncTruncated(job, s);
    } else {
      assert ShrinkingInv(job, s);
      var f, init := s.part.value, s.part.value.pending[..|s.part.value.pending| - 1];
      ShrinkingView(job, f);
      FullView(job, f.durable, init, s.lo, s.hi, s.ledger, s.acked);
      NewestCommitted(job, f.durable, init, s.lo, s.hi, s.ledger, s.acked);
    }
  }

  lemma UnbornSyncTruncated(job: Job, s: State)
    requires job.Valid() && s.cond == Unborn && UnbornInv(job, s) && s.pc == Truncating
    ensures s.part.Some? && s.target == None && View(s.part.value) == [] && Whole(job, s, [])
  {
    hide DecodeSlot, DecodeAt, SlotBytes, Accepts;
    FreshBelongs(job);
    StoredKeeps(job, job.Fresh());
    var ops := s.part.value.pending;
    assert View(s.part.value) == Apply(ApplyAll([], ops[..|ops| - 1]), Resize(0));
    assert job.Plan().chunkCount == 0;
  }

  lemma RenameKeepsInv(job: Job, s: State)
    requires job.Valid() && Inv(job, s) && Enabled(job, s, Rename)
    ensures Inv(job, Next(job, s, Rename))
  {
    hide DecodeSlot, DecodeAt, SlotBytes, Accepts, OpenResult, Guarded, ApplyAll;
  }

  // ---- reboots ----

  /** Reading the slots behind the content is reading the slots of the download. */
  lemma BestSlotIsReadBest(job: Job, img: seq<byte>)
    requires job.Valid() && |img| == job.FileLen()
    ensures BestSlot(job.ext.crc32, img, job.ContentLen(), job.SlotSize()) == ReadBest(job, img)
    ensures ExpectedLen(job.remote, job.chunkSize) == Success((job.FileLen(), job.SlotSize()))
  {
    hide DecodeSlot, BestOf;
  }

  /** What a program finds when it opens an image of a guarded file. */
  lemma OpenRecovered(job: Job, part: File, m: PartMetadata)
    requires job.Valid() && |View(part)| == job.FileLen() && Committed(job, m)
    requires ReadBest(job, View(part)).Success? && ReadBest(job, View(part)).value.0 == m
    ensures OpenResult(job, Some(part), None) == Success(Some(m))
  {
    hide DecodeSlot, DecodeAt, ReadBest, ApplyAll, EnsureCompatible, BestOf;
    BestSlotIsReadBest(job, View(part));
    OwnRecordCompatible(job, m);
  }

  lemma TearDetectedIsOk(job: Job, s: State, img: seq<byte>, ops: seq<Op>)
    requires job.Valid() && |img| == job.FileLen() && TearDetected(job, s, img) && s.cond != Unborn
    requires s.part.Some? && Guarded(job, s.part.value.durable, ops, s.lo, s.hi, s.ledger, s.acked)
    ensures TearOk(job, s.lo, s.hi, img)
  {
    hide DecodeSlot, DecodeAt;
  }

  lemma LiveCrash(job: Job, s: State, part: Option<File>, target: Option<File>)
    requires job.Valid() && s.cond == Live && LiveInv(job, s) && RebootAllowed(job, s, true, part, target)
    ensures OpenResult(job, part, target).Success? && OpenResult(job, part, target).value.Some?
    ensures LiveInv(job, AfterReboot(job, s, true, part, target))
            && AfterReboot(job, s, true, part, target).cond == Live
    ensures AfterReboot(job, s, true, part, target).pc == Idle
  {
    hide DecodeSlot, DecodeAt, SlotBytes, ReadBest, OpenResult, ApplyAll, CrashImage, Guarded, InStep;
    var f, g := s.part.value, part.value;
    NothingPending(g);
    if |g.durable| == job.FileLen() {
      TearDetectedIsOk(job, s, g.durable, f.pending);
    }
    RecoveredIsGuarded(job, f.durable, f.pending, s.lo, s.hi, s.ledger, s.acked, g.durable);
    OpenRecovered(job, g, ReadBest(job, g.durable).value.0);
    assert g == File(g.durable, []);
    StoredInStep(job, g, ReadBest(job, g.durable).value.0);
  }

  lemma StoredInStep(job: Job, f: File, m: PartMetadata)
    requires job.Valid() && Committed(job, m) && InStep(job, f, m, m, None)
    ensures Stored(m) == m
  {
  }

  lemma LiveRestart(job: Job, s: State)
    requires job.Valid() && s.cond == Live && LiveInv(job, s) && RebootAllowed(job, s, false, s.part, s.target)
    ensures OpenResult(job, s.part, s.target).Success? && OpenResult(job, s.part, s.target).value.Some?
    ensures LiveInv(job, AfterReboot(job, s, false, s.part, s.target))
            && AfterReboot(job, s, false, s.part, s.target).cond == Live
    ensures AfterReboot(job, s, false, s.part, s.target).pc == Idle
  {
    hide DecodeSlot, DecodeAt, SlotBytes, ReadBest, OpenResult, ApplyAll, CrashImage, Guarded;
    var f := s.part.value;
    ViewIsCrashImage(f.durable, f.pending);
    GuardedLengths(job, f.durable, f.pending, s.lo, s.hi, s.ledger, s.acked);
    TearDetectedIsOk(job, s, View(f), f.pending);
    Recovers(job, f.durable, f.pending, s.lo, s.hi, s.ledger, s.acked, View(f));
    RecoveredIsGuarded(job, f.durable, f.pending, s.lo, s.hi, s.ledger, s.acked, View(f));
    var m := ReadBest(job, View(f)).value.0;
    OpenRecovered(job, f, m);
    if f.pending == [] {
      NothingPending(f);
      assert f == File(View(f), []);
    } else if s.hi != Some(m) {
      GuardedForget(job, f.durable, f.pending, s.lo, s.hi, s.ledger, s.acked);
    }
  }

  lemma GuardedLengths(job: Job, durable: seq<byte>, ops: seq<Op>, lo: PartMetadata, hi: Option<PartMetadata>,
                       ledger: seq<byte>, acked: set<nat>)
    requires job.Valid() && Guarded(job, durable, ops, lo, hi, ledger, acked)
    ensures |View(File(durable, ops))| == job.FileLen() == |durable|
  {
    hide ApplyAll;
    ViewLength(File(durable, ops));
  }

  /** Giving up on `hi` is always safe. */
  lemma GuardedForget(job: Job, durable: seq<byte>, ops: seq<Op>, lo: PartMetadata, hi: Option<PartMetadata>,
                      ledger: seq<byte>, acked: set<nat>)
    requires job.Valid() && Guarded(job, durable, ops, lo, hi, ledger, acked)
    ensures Guarded(job, durable, ops, lo, None, ledger, acked)
  {
    hide DecodeSlot, DecodeAt, ChunkSafe;
    assert lo.Complete() <= Newest(lo, hi).Complete();
  }
}
