/** Is what a program reads when it opens a part file also what the disk would
    give back after a power cut? Not always: a program that starts again without
    a crash reads the page cache. */
module Opening {
  import opened Bytes
  import opened Basics
  import opened ChunkLayout
  import opened Bitmap
  import opened Metadata
  import opened SlotCodec
  import opened Disk
  import opened Verification
  import opened Protocol
  import opened ProtocolSafety
  import opened ProtocolRuns
  import opened PartFiles

  /** The durable bytes of the file recover to `m`. */
  ghost predicate RecoversTo(job: Job, f: File, m: PartMetadata)
    requires job.Valid()
  {
    |f.durable| == job.FileLen() && ReadBest(job, f.durable).Success? && ReadBest(job, f.durable).value.0 == m
  }

  /** The slot that opening read its record from. */
  function ReadFrom(job: Job, f: File): nat
    requires job.Valid() && |View(f)| == job.FileLen()
  {
    var best := ReadBest(job, View(f));
    if best.Success? then best.value.1 else 0
  }

  /** Opening succeeded, so the file has its full length and its best record was
      the one returned. */
  lemma OpenedBest(job: Job, part: Option<File>, target: Option<File>)
    requires job.Valid() && OpenResult(job, part, target).Success? && OpenResult(job, part, target).value.Some?
    ensures part.Some? && |View(part.value)| == job.FileLen() && ReadBest(job, View(part.value)).Success?
    ensures ReadBest(job, View(part.value)).value.0 == OpenResult(job, part, target).value.value
  {
    hide DecodeSlot, DecodeAt, ApplyAll, BestSlot, ReadBest, EnsureCompatible;
    if part.Some? && |View(part.value)| == job.FileLen() {
      BestSlotIsReadBest(job, View(part.value));
    }
  }

  lemma QuietSlotSame(job: Job, f: File, k: nat)
    requires job.Valid() && k < 2 && |f.durable| == |View(f)| == job.FileLen() && SlotQuiet(job, f.pending, k)
    ensures DecodeAt(job, f.durable, k) == DecodeAt(job, View(f), k)
  {
    hide DecodeSlot, DecodeAt, ApplyAll;
    SlotsApart(job);
    ViewOfQuiet(f, job.SlotStart(k), job.SlotStart(k) + job.SlotSize());
    SameSlot(job, f.durable, View(f), k);
  }

  /** A record read from a file of which nothing is durable was written to a slot
      that has not been synced. */
  lemma UnbornOpening(job: Job, s: State, f: File)
    requires job.Valid() && s.cond == Unborn && UnbornInv(job, s) && s.part == Some(f)
    requires |View(f)| == job.FileLen() && FreshRead(job, View(f))
    ensures ReadFrom(job, f) == 0 && !SlotQuiet(job, f.pending, 0) && |f.durable| != job.FileLen()
  {
    hide DecodeSlot, DecodeAt, SlotBytes, CrashImage, ApplyAll, Started;
    SlotsApart(job);
    if SlotQuiet(job, f.pending, 0) {
      StartedIsBelow(job, f.pending);
      StartsWithResize(job, f.pending);
      ViewIsCrashImage(f.durable, f.pending);
      UnbornImage(job, f.pending, View(f), job.SlotStart(0), job.SlotStart(0) + job.SlotSize());
      ZeroSlotUnreadable(job, View(f)[job.SlotStart(0)..job.SlotStart(0) + job.SlotSize()]);
      SlotDecodes(job, View(f));
    }
  }

  lemma SlotDecodes(job: Job, img: seq<byte>)
    requires job.Valid() && |img| == job.FileLen()
    ensures DecodeAt(job, img, 0) == DecodeSlot(job.ext.crc32, img[job.SlotStart(0)..job.SlotStart(0) + job.SlotSize()])
  {
    hide DecodeSlot;
  }

  /** While the program is idle, the durable bytes recover to the record in memory
      if and only if no pending operation touches that record's slot. */
  lemma IdleRecordIsDurable(job: Job, s: State)
    requires job.Valid() && Inv(job, s) && s.pc == Idle
    ensures s.part.Some?
    ensures RecoversTo(job, s.part.value, Stored(s.mem)) <==> SlotQuiet(job, s.part.value.pending, s.mem.generation % 2)
  {
    hide DecodeSlot, DecodeAt, SlotBytes, ApplyAll, ReadBest, Guarded, InStep, Started, FreshRead, SlotQuiet,
      RecoversTo;
    if s.cond == Unborn {
      UnbornRecordIsNot(job, s);
    } else {
      LiveRecordIsDurable(job, s);
    }
  }

  lemma UnbornRecordIsNot(job: Job, s: State)
    requires job.Valid() && s.cond == Unborn && UnbornInv(job, s) && s.pc == Idle
    ensures !RecoversTo(job, s.part.value, Stored(s.mem)) && !SlotQuiet(job, s.part.value.pending, s.mem.generation % 2)
  {
    hide DecodeSlot, DecodeAt, SlotBytes, ApplyAll, ReadBest, Started, SlotQuiet;
    SlotsApart(job);
    UnbornOpening(job, s, s.part.value);
  }

  lemma LiveRecordIsDurable(job: Job, s: State)
    requires job.Valid() && s.cond == Live && LiveInv(job, s) && s.pc == Idle
    ensures RecoversTo(job, s.part.value, Stored(s.mem)) <==> SlotQuiet(job, s.part.value.pending, s.mem.generation % 2)
  {
    hide DecodeSlot, DecodeAt, ApplyAll, ReadBest, ChunkSafe, SlotQuiet, Job.SlotStart, Job.SlotSize, Guarded;
    var f := s.part.value;
    GuardedSlots(job, f.durable, f.pending, s.lo, s.hi, s.ledger, s.acked);
    GuardedLengths(job, f.durable, f.pending, s.lo, s.hi, s.ledger, s.acked);
    StoredKeeps(job, s.mem);
    if s.hi.None? {
      LoIsQuiet(job, f.durable, f.pending, s.lo, s.hi, s.ledger, s.acked);
    } else {
      NextIsNewer(job, f.durable, f.pending, s.lo, s.hi, s.ledger, s.acked);
      HiIsNotQuiet(job, s);
    }
  }

  lemma LoIsQuiet(job: Job, durable: seq<byte>, ops: seq<Op>, lo: PartMetadata, hi: Option<PartMetadata>,
                  ledger: seq<byte>, acked: set<nat>)
    requires job.Valid() && Guarded(job, durable, ops, lo, hi, ledger, acked)
    ensures SlotQuiet(job, ops, lo.generation % 2)
  {
    hide DecodeAt, ChunkSafe, SlotQuiet;
  }

  /** The record on its way is read from a slot that has a pending write. */
  lemma HiIsNotQuiet(job: Job, s: State)
    requires job.Valid() && s.cond == Live && LiveInv(job, s) && s.pc == Idle && s.hi.Some?
    requires s.hi.value.generation == s.lo.generation + 1
    ensures !SlotQuiet(job, s.part.value.pending, s.mem.generation % 2)
  {
    hide DecodeSlot, DecodeAt, ApplyAll, ReadBest, ChunkSafe, SlotQuiet, Job.SlotStart, Job.SlotSize;
    var f, other := s.part.value, 1 - s.lo.generation % 2;
    StoredKeeps(job, s.mem);
    assert s.mem.generation % 2 == other;
    if SlotQuiet(job, f.pending, other) {
      QuietSlotSame(job, f, other);
    }
  }

  lemma DecodedIsStored(crc: Crc, slot: seq<byte>)
    requires DecodeSlot(crc, slot).Success?
    ensures Stored(DecodeSlot(crc, slot).value) == DecodeSlot(crc, slot).value
  {
    hide DecodeSlotHeader, DecodeHash, ReadUInt, FromBytes;
  }

  /** The opening record, exactly: after any run and any reboot, what opening
      reads is what the durable bytes recover to if and only if no pending
      operation touches the slot that it was read from. */
  lemma OpeningRecordIsDurable(job: Job, states: seq<State>, actions: seq<Action>, k: nat, crashed: bool,
                               part: Option<File>, target: Option<File>)
    requires job.Valid() && IsRun(job, states, actions) && k < |states|
    requires RebootAllowed(job, states[k], crashed, part, target)
    requires OpenResult(job, part, target).Success? && OpenResult(job, part, target).value.Some?
    ensures part.Some? && |View(part.value)| == job.FileLen()
    ensures RecoversTo(job, part.value, OpenResult(job, part, target).value.value)
            <==> SlotQuiet(job, part.value.pending, ReadFrom(job, part.value))
  {
    hide IsRun, Inv, OpenResult, RebootAllowed, DecodeSlot, DecodeAt, ReadBest, ApplyAll, SlotQuiet, RecoversTo,
      ConditionAfter;
    RunsKeepInv(job, states, actions, k);
    RebootKeepsInv(job, states[k], crashed, part, target);
    var r := AfterReboot(job, states[k], crashed, part, target);
    OpenedBest(job, part, target);
    BestSlotParity(job, r);
    BestIsStored(job, View(part.value));
    IdleRecordIsDurable(job, r);
  }

  lemma BestIsStored(job: Job, img: seq<byte>)
    requires job.Valid() && |img| == job.FileLen() && ReadBest(job, img).Success?
    ensures Stored(ReadBest(job, img).value.0) == ReadBest(job, img).value.0
  {
    hide DecodeSlot;
    var k := ReadBest(job, img).value.1;
    DecodedIsStored(job.ext.crc32, img[job.SlotStart(k)..job.SlotStart(k) + job.SlotSize()]);
  }

  lemma CleanOpening(job: Job, f: File, m: PartMetadata)
    requires job.Valid() && f.pending == [] && |View(f)| == job.FileLen()
    requires ReadBest(job, View(f)).Success? && ReadBest(job, View(f)).value.0 == m
    ensures RecoversTo(job, f, m)
  {
    hide ReadBest;
    NothingPending(f);
  }

  /** In particular, after a crash the record that is read is durable. */
  lemma CrashedOpeningIsDurable(job: Job, states: seq<State>, actions: seq<Action>, k: nat,
                                part: Option<File>, target: Option<File>)
    requires job.Valid() && IsRun(job, states, actions) && k < |states|
    requires RebootAllowed(job, states[k], true, part, target)
    requires OpenResult(job, part, target).Success? && OpenResult(job, part, target).value.Some?
    ensures part.Some? && RecoversTo(job, part.value, OpenResult(job, part, target).value.value)
  {
    hide DecodeSlot, OpenResult, IsRun, ReadBest, RecoversTo, CrashImage;
    OpenedBest(job, part, target);
    CleanOpening(job, part.value, OpenResult(job, part, target).value.value);
  }

  /** It is not always durable: for every download that is not empty, some run
      ends after a slot write that was not synced; a program that starts again
      then reads chunk 0 as complete, and the durable bytes do not have it. */
  lemma OpeningCanRunAhead(job: Job)
    requires job.Valid() && job.Plan().chunkCount > 0
    ensures exists run: Run ::
              RunOf(job, run) && Last(run).part.Some? && Last(run).target == None
              && RebootAllowed(job, Last(run), false, Last(run).part, None)
              && RunsAhead(job, Last(run).part.value, 0)
  {
    hide IsRun, Inv, Enabled, Next, SlotBytes, NextMetadata, BelongsTo, RebootAllowed, RunsAhead;
    CreatedRun(job);
    var run: Run :| RunOf(job, run) && Last(run).pc == Idle && Last(run).mem == job.Fresh() && Last(run).acked == {};
    NotFresh(job, 0);
    LastKeepsInv(job, run);
    FreshMisses(job);
    SyncDataStep(job, Last(run), 0);
    var r1 := Then(job, run, SyncData(0));
    ThenIsRun(job, run, SyncData(0));
    LastKeepsInv(job, r1);
    WriteSlotStep(job, Last(r1), 0, job.SlotSize());
    var r2 := Then(job, r1, WriteSlot(0, job.SlotSize()));
    ThenIsRun(job, r1, WriteSlot(0, job.SlotSize()));
    LastKeepsInv(job, r2);
    WrittenRunsAhead(job, Last(r1), Last(r2));
  }

  lemma FreshMisses(job: Job)
    requires job.Valid() && job.Plan().chunkCount > 0
    ensures Missing(job.Fresh(), 0)
  {
    EmptyHasNothing(job.Plan().chunkCount);
    assert 0 !in job.Fresh().bitmap.Members();
  }

  /** Opening reads `c` as complete, and a power cut would take that back. */
  ghost predicate RunsAhead(job: Job, f: File, c: nat)
    requires job.Valid()
  {
    var found := OpenResult(job, Some(f), None);
    found.Success? && found.value.Some? && Marks(found.value.value, c)
    && |f.durable| == job.FileLen() && ReadBest(job, f.durable).Success? && !Marks(ReadBest(job, f.durable).value.0, c)
  }

  lemma WrittenRunsAhead(job: Job, s: State, n: State)
    requires job.Valid() && Inv(job, s) && Inv(job, n) && s.pc == Committing(0) && s.mem == job.Fresh()
    requires Enabled(job, s, WriteSlot(0, job.SlotSize())) && n == Next(job, s, WriteSlot(0, job.SlotSize()))
    requires n.pc == SlotWritten(0)
    ensures n.part.Some? && n.target == None && RebootAllowed(job, n, false, n.part, None)
            && RunsAhead(job, n.part.value, 0)
  {
    hide DecodeSlot, DecodeAt, SlotBytes, CrashImage, ApplyAll, Accepts, OpenResult, Guarded, ReadBest, WithChunk;
    WrittenIsLive(job, n);
    CommittingGuarded(job, s);
    NextBelongs(job, s.mem, 0);
    StoredKeeps(job, NextMetadata(s.mem, 0));
    var f := n.part.value;
    GuardedSlots(job, f.durable, f.pending, n.lo, n.hi, n.ledger, n.acked);
    NotFresh(job, 0);
    LiveRestart(job, n);
    LiveRebootRecord(job, n, false, n.part, n.target);
    WrittenIsRead(job, n);
  }

  lemma WrittenIsRead(job: Job, s: State)
    requires job.Valid() && s.cond == Live && LiveInv(job, s) && s.pc.SlotWritten?
    requires RebootAllowed(job, s, false, s.part, s.target)
    ensures OpenResult(job, s.part, s.target) == Success(s.hi)
  {
    hide DecodeSlot, DecodeAt, CrashImage, ApplyAll, OpenResult, ReadBest, ChunkSafe;
    var f := s.part.value;
    ViewIsCrashImage(f.durable, f.pending);
    Recovers(job, f.durable, f.pending, s.lo, s.hi, s.ledger, s.acked, View(f));
    OpenRecovered(job, f, s.hi.value);
  }
}
