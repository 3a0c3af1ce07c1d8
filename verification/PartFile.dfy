/** The part file (`part_file.rs`) as the program drives it: an object that
    updates its metadata in memory and the file in place. Every call it makes on
    the drive is a step of the commit protocol, so the run it leaves behind, at
    every crash point and on every error path, is a run of `ProtocolRuns`. */
module PartFiles {
  import opened Bytes
  import opened Basics
  import opened ChunkLayout
  import opened Bitmap
  import opened Metadata
  import opened SlotCodec
  import opened SlotReading
  import opened Disk
  import opened Verification
  import opened Protocol
  import opened ProtocolSafety
  import opened ProtocolRuns
  import opened Device

  const READ_BUFFER: nat := 1024 * 1024

  // ---- runs ----

  datatype Run = Run(states: seq<State>, actions: seq<Action>)

  ghost predicate RunOf(job: Job, run: Run)
    requires job.Valid()
  {
    |run.states| > 0 && IsRun(job, run.states, run.actions)
  }

  ghost function Last(run: Run): State
    requires |run.states| > 0
  {
    run.states[|run.states| - 1]
  }

  ghost function SnapshotOf(s: State): Snapshot {
    Snapshot(s.part, s.target, s.entry)
  }

  ghost predicate Extends(run: Run, before: Run) {
    before.states <= run.states && before.actions <= run.actions
  }

  /** The files went through exactly the last states of the run. */
  ghost predicate Covers(job: Job, run: Run, trace: seq<Snapshot>)
    requires job.Valid()
  {
    RunOf(job, run) && 0 < |trace| <= |run.states|
    && forall k | 0 <= k < |trace| :: trace[k] == SnapshotOf(run.states[|run.states| - |trace| + k])
  }

  ghost function Then(job: Job, run: Run, a: Action): Run
    requires job.Valid() && |run.states| > 0 && Enabled(job, Last(run), a)
  {
    Run(run.states + [Next(job, Last(run), a)], run.actions + [a])
  }

  lemma ThenIsRun(job: Job, run: Run, a: Action)
    requires job.Valid() && RunOf(job, run) && Enabled(job, Last(run), a)
    ensures RunOf(job, Then(job, run, a)) && Extends(Then(job, run, a), run)
    ensures Last(Then(job, run, a)) == Next(job, Last(run), a)
  {
    hide Enabled, Next;
  }

  lemma ThenCovers(job: Job, run: Run, trace: seq<Snapshot>, a: Action, now: Snapshot)
    requires job.Valid() && Covers(job, run, trace)
    requires Enabled(job, Last(run), a) && SnapshotOf(Next(job, Last(run), a)) == now
    ensures Covers(job, Then(job, run, a), trace + [now])
  {
    hide Enabled, Next, IsRun;
    ThenIsRun(job, run, a);
  }

  lemma LastKeepsInv(job: Job, run: Run)
    requires job.Valid() && RunOf(job, run)
    ensures Inv(job, Last(run))
  {
    hide Inv, Enabled, Next;
    RunsKeepInv(job, run.states, run.actions, |run.states| - 1);
  }

  /** What holds whenever the program is between two operations. */
  lemma IdleFacts(job: Job, s: State)
    requires job.Valid() && Inv(job, s) && s.pc == Idle
    ensures s.part.Some? && s.target == None && s.entry != JustRenamed
    ensures BelongsTo(job, s.mem) && |View(s.part.value)| == job.FileLen() && |s.ledger| == job.ContentLen()
  {
    hide DecodeSlot, DecodeAt, ApplyAll, BelongsTo, Job.FileLen, Started;
    FreshBelongs(job);
    StoredKeeps(job, job.Fresh());
  }

  lemma CommittingFacts(job: Job, s: State)
    requires job.Valid() && Inv(job, s) && s.pc.Committing?
    ensures s.part.Some? && s.target == None && s.entry == Settled && s.part.value.pending == []
    ensures |View(s.part.value)| == job.FileLen() && |s.ledger| == job.ContentLen()
    ensures BelongsTo(job, s.mem) && s.pc.i < job.Plan().chunkCount && !(s.pc.i in s.mem.Complete())
  {
    hide DecodeSlot, DecodeAt, ApplyAll;
  }

  /** Once a commit has returned, its record is what the disk would recover to. */
  lemma CommittedRecord(job: Job, s: State)
    requires job.Valid() && Inv(job, s) && s.pc == Idle && s.hi == None
    ensures s.part.Some? && |s.part.value.durable| == job.FileLen()
    ensures ReadBest(job, s.part.value.durable) == Success((Stored(s.mem), s.mem.generation % 2))
  {
    hide DecodeSlot, DecodeAt, ReadBest, ApplyAll, Guarded;
    GuardedSlots(job, s.part.value.durable, s.part.value.pending, s.lo, s.hi, s.ledger, s.acked);
  }

  /** The headline for the object: cut the power after any of its calls on the
      drive, successful or not. Every chunk that a recovered record marks was
      committed before, the file holds what was read there at that moment, and no
      acknowledged chunk is forgotten. */
  lemma CrashAtAnyCall(job: Job, run: Run, trace: seq<Snapshot>, k: nat, part: Option<File>, target: Option<File>)
    requires job.Valid() && Covers(job, run, trace) && k < |trace|
    requires RebootAllowed(job, run.states[|run.states| - |trace| + k], true, part, target)
    ensures var at := |run.states| - |trace| + k;
            SnapshotOf(run.states[at]) == trace[k]
            && (OpenResult(job, part, target).Success? && OpenResult(job, part, target).value.Some? ==>
                  var m := OpenResult(job, part, target).value.value;
                  part.Some? && BelongsTo(job, m) && run.states[at].acked <= m.Complete()
                  && forall c: nat | c in m.Complete() ::
                       WasCommitted(job, run.states, run.actions, at, c, View(part.value)))
  {
    hide RebootAllowed, OpenResult, IsRun, WasCommitted, BelongsTo;
    CrashNeverMarksMissingData(job, run.states, run.actions, |run.states| - |trace| + k, part, target);
  }

  // ---- the steps of a commit, from the program's side ----

  lemma WriteContentStep(job: Job, s: State, i: nat, offset: nat, bytes: seq<byte>)
    requires job.Valid() && Inv(job, s) && s.pc == Idle && i < job.Plan().chunkCount && Missing(s.mem, i)
    requires job.Plan().Lo(i) + offset + |bytes| <= job.Plan().Hi(i)
    ensures Enabled(job, s, WriteContent(i, offset, bytes)) && s.part.Some?
    ensures var n := Next(job, s, WriteContent(i, offset, bytes));
            SnapshotOf(n) == SnapshotOf(s).(part := Some(Submit(s.part.value, Write(job.Plan().Lo(i) + offset, bytes))))
            && n.pc == Idle && n.mem == s.mem && n.acked == s.acked && n.ledger == s.ledger
  {
    hide DecodeSlot, DecodeAt, ApplyAll, Stored, Job.Plan, Job.FileLen;
    IdleFacts(job, s);
  }

  lemma SyncDataStep(job: Job, s: State, i: nat)
    requires job.Valid() && Inv(job, s) && s.pc == Idle && i < job.Plan().chunkCount && Missing(s.mem, i)
    ensures Enabled(job, s, SyncData(i)) && s.part.Some?
    ensures var n := Next(job, s, SyncData(i));
            SnapshotOf(n) == Snapshot(Some(Synced(s.part.value)), None, Settled) && n.pc == Committing(i)
            && n.mem == s.mem && n.acked == s.acked
  {
    hide DecodeSlot, DecodeAt, ApplyAll, Stored, Job.Plan, Job.FileLen;
    IdleFacts(job, s);
  }

  lemma WriteSlotStep(job: Job, s: State, i: nat, count: nat)
    requires job.Valid() && Inv(job, s) && s.pc == Committing(i) && s.mem.generation + 1 < U64_LIMIT
             && count <= job.SlotSize()
    ensures s.part.Some? && i / 8 < |s.mem.bitmap.bytes|
    ensures var m := NextMetadata(s.mem, i);
            BelongsTo(job, m) && Encoded(job.ext.crc32, m, job.SlotSize()) == Success(SlotBytes(job, m))
            && |SlotBytes(job, m)| == job.SlotSize() && Enabled(job, s, WriteSlot(i, count))
            && var n := Next(job, s, WriteSlot(i, count));
               var write := Write(job.SlotStart(m.generation % 2), SlotBytes(job, m)[..count]);
               SnapshotOf(n) == SnapshotOf(s).(part := Some(Submit(s.part.value, write)))
               && n.mem == m && n.acked == s.acked && (count == job.SlotSize() ==> n.pc == SlotWritten(i))
  {
    hide DecodeSlot, Inv, ApplyAll, Encoded, Stored, WithChunk, Job.SlotSize, Job.FileLen;
    CommittingFacts(job, s);
    NextBelongs(job, s.mem, i);
    SlotBytesDecode(job, NextMetadata(s.mem, i));
    SlotsApart(job);
  }

  lemma SyncSlotStep(job: Job, s: State)
    requires job.Valid() && Inv(job, s) && s.pc.SlotWritten?
    ensures Enabled(job, s, SyncSlot) && s.part.Some? && s.target == None && s.entry == Settled
    ensures var n := Next(job, s, SyncSlot);
            SnapshotOf(n) == Snapshot(Some(Synced(s.part.value)), None, Settled) && n.pc == Idle && n.hi == None
            && n.mem == s.mem && n.acked == s.acked + {s.pc.i}
  {
    hide DecodeSlot, DecodeAt, ApplyAll, Stored, Guarded, InStep;
  }

  lemma TruncateStep(job: Job, s: State)
    requires job.Valid() && Inv(job, s) && s.pc == Idle && s.mem.bitmap.Sized() && s.mem.bitmap.AllComplete()
    requires s.part.Some? && |View(s.part.value)| == job.FileLen()
             && Accepts(job.ext, job.hash, Content(job, View(s.part.value)))
    ensures Enabled(job, s, Truncate)
    ensures var n := Next(job, s, Truncate);
            SnapshotOf(n) == SnapshotOf(s).(part := Some(Submit(s.part.value, Resize(job.ContentLen()))))
            && n.pc == Truncating
  {
    hide DecodeSlot, DecodeAt, ApplyAll, Guarded, InStep, Accepts, Bits.AllComplete;
  }

  lemma SyncTruncatedStep(job: Job, s: State)
    requires job.Valid() && Inv(job, s) && s.pc == Truncating
    ensures Enabled(job, s, SyncTruncated) && s.target == None && s.entry != JustRenamed
    ensures var n := Next(job, s, SyncTruncated);
            SnapshotOf(n) == Snapshot(Some(Synced(s.part.value)), None, Settled) && n.pc == Truncated
  {
    hide DecodeSlot, DecodeAt, ApplyAll, Guarded, InStep, Accepts;
  }

  lemma RenameStep(job: Job, s: State)
    requires job.Valid() && Inv(job, s) && s.pc == Truncated
    ensures Enabled(job, s, Rename)
    ensures SnapshotOf(Next(job, s, Rename)) == Snapshot(None, s.part, JustRenamed)
  {
    hide DecodeSlot, DecodeAt, ApplyAll, Guarded, InStep, Accepts;
  }

  lemma TruncatedView(job: Job, f: File)
    requires job.Valid() && |View(f)| == job.FileLen()
    ensures Synced(Submit(f, Resize(job.ContentLen()))) == File(Content(job, View(f)), [])
  {
    hide ApplyAll;
    ViewAfterSubmit(f, Resize(job.ContentLen()));
  }

  lemma AllCompleteMeans(b: Bits)
    requires b.Sized()
    ensures b.AllComplete() <==> forall i: nat | i < b.chunkCount :: i in b.Members()
  {
    AllCompleteIsFull(b);
    if forall i: nat | i < b.chunkCount :: i in b.Members() {
      forall i: nat | i < b.chunkCount
        ensures b.BitSet(i)
      {
        assert i in b.Members();
      }
    } else {
      var i: nat :| i < b.chunkCount && i !in b.Members();
      assert !b.BitSet(i);
    }
  }

  lemma ContentFits(job: Job)
    requires job.Valid()
    ensures job.ContentLen() <= job.FileLen()
  {
  }

  lemma SlotOffset(job: Job, k: nat)
    requires job.Valid() && k < 2
    ensures job.ContentLen() + k * job.SlotSize() == job.SlotStart(k)
  {
  }

  /** Writing a slot leaves the content of the file alone. */
  lemma SlotWriteKeepsContent(job: Job, f: File, k: nat, bytes: seq<byte>)
    requires job.Valid() && k < 2 && |View(f)| == job.FileLen() && |bytes| == job.SlotSize()
    ensures |View(Submit(f, Write(job.SlotStart(k), bytes)))| == job.FileLen()
    ensures Content(job, View(Submit(f, Write(job.SlotStart(k), bytes)))) == Content(job, View(f))
  {
    hide ApplyAll, Apply;
    SlotsApart(job);
    ViewAfterWrite(f, job.SlotStart(k), bytes);
  }

  /** From step `from` on, slots were written only to commit `index`, and while
      reads of the content gave `content`. */
  ghost predicate CommitsOnly(job: Job, run: Run, from: nat, index: nat, content: seq<byte>)
    requires job.Valid()
  {
    |run.states| == |run.actions| + 1
    && forall x | from <= x < |run.actions| && run.actions[x].WriteSlot? ::
         run.actions[x].i == index && run.states[x].part.Some? && |View(run.states[x].part.value)| >= job.ContentLen()
         && Content(job, View(run.states[x].part.value)) == content
  }

  lemma CommitsOnlyStep(job: Job, before: Run, index: nat, content: seq<byte>, a: Action)
    requires job.Valid() && RunOf(job, before) && Enabled(job, Last(before), a)
    requires a.WriteSlot? ==>
              a.i == index && Last(before).part.Some? && |View(Last(before).part.value)| >= job.ContentLen()
                              && Content(job, View(Last(before).part.value)) == content
    ensures CommitsOnly(job, Then(job, before, a), |before.actions|, index, content)
  {
    hide Enabled, Next, Content, ApplyAll;
  }

  lemma CommitsOnlyNothing(job: Job, run: Run, index: nat, content: seq<byte>)
    requires job.Valid() && RunOf(job, run)
    ensures CommitsOnly(job, run, |run.actions|, index, content)
  {
  }

  lemma CommitsOnlyJoin(job: Job, middle: Run, run: Run, from: nat, index: nat, content: seq<byte>)
    requires job.Valid() && Extends(run, middle)
    requires CommitsOnly(job, middle, from, index, content) && CommitsOnly(job, run, |middle.actions|, index, content)
    ensures CommitsOnly(job, run, from, index, content)
  {
    hide Content, ApplyAll;
    forall x | from <= x < |run.actions| && run.actions[x].WriteSlot?
      ensures run.actions[x].i == index && run.states[x].part.Some?
              && |View(run.states[x].part.value)| >= job.ContentLen()
              && Content(job, View(run.states[x].part.value)) == content
    {
      if x < |middle.actions| {
        assert middle.actions[x] == run.actions[x] && middle.states[x] == run.states[x];
      }
    }
  }

  // ---- splicing ----

  function Spliced(img: seq<byte>, at: nat, bytes: seq<byte>): (r: seq<byte>)
    requires at + |bytes| <= |img|
    ensures |r| == |img|
  {
    img[..at] + bytes + img[at + |bytes|..]
  }

  /** The range that `offset` and `len` describe lies inside chunk `index`. */
  ghost predicate InChunk(plan: ChunkPlan, index: u64, offset: nat, len: nat) {
    index < plan.chunkCount && plan.Lo(index) + offset + len <= plan.Hi(index)
  }

  /** Reading after a write inside the file. */
  lemma ViewAfterWrite(f: File, at: nat, bytes: seq<byte>)
    requires at + |bytes| <= |View(f)|
    ensures View(Submit(f, Write(at, bytes))) == Spliced(View(f), at, bytes)
  {
    hide ApplyAll, Apply;
    ViewAfterSubmit(f, Write(at, bytes));
    ApplyWrite(View(f), at, bytes);
  }

  lemma SplicedNothing(img: seq<byte>, at: nat)
    requires at <= |img|
    ensures Spliced(img, at, []) == img
  {
  }

  lemma SpliceContent(job: Job, img: seq<byte>, at: nat, bytes: seq<byte>)
    requires job.Valid() && |img| == job.FileLen() && at + |bytes| <= job.ContentLen()
    ensures Content(job, Spliced(img, at, bytes)) == Spliced(Content(job, img), at, bytes)
  {
  }

  /** The plan that every operation recomputes is the plan of the download. */
  lemma SamePlan(job: Job, m: PartMetadata)
    requires job.Valid() && BelongsTo(job, m)
    ensures ChunkPlan.New(m.contentLen, m.chunkSize) == Success(job.Plan()) && job.Plan().Valid()
    ensures m.bitmap.chunkCount == job.Plan().chunkCount && m.chunkCount == job.Plan().chunkCount
    ensures m.contentLen == job.ContentLen() && m.hash == job.hash && m.bitmap.Canonical()
  {
  }

  // ---- the object ----

  class PartFile {
    const ext: External
    const drive: Drive
    const slotSize: u64
    /** The fields of the metadata that never change. */
    const header: PartMetadata
    const bitmap: ChunkBitmap
    var generation: u64
    var activeSlot: nat
    ghost const job: Job
    ghost var run: Run

    ghost function Metadata(): PartMetadata
      reads this, bitmap
    {
      header.(generation := generation, bitmap := bitmap.Value())
    }

    ghost function Complete(): set<nat>
      reads this, bitmap
      requires bitmap.Valid()
    {
      Metadata().Complete()
    }

    /** What a read of the part file sees. */
    ghost function Image(): seq<byte>
      reads drive
      requires drive.part.Some?
    {
      View(drive.part.value)
    }

    /** Every state that the files have been in is a state of a protocol run. */
    ghost predicate Tracks()
      reads this, drive
    {
      job.Valid() && drive.Valid() && |run.states| > 0 && Covers(job, run, drive.trace)
    }

    /** Between operations: the run is idle and its memory is this object's. */
    ghost predicate InHand()
      reads this, drive, bitmap
    {
      Tracks() && ext == job.ext && slotSize == job.SlotSize() && header.hash == job.hash
      && bitmap.Valid() && activeSlot == generation % 2
      && Last(run).pc == Idle && Last(run).mem == Metadata()
    }

    ghost predicate Valid()
      reads this, drive, bitmap
    {
      InHand()
      && drive.part.Some? && drive.target == None && drive.entry != JustRenamed
      && |Image()| == job.FileLen() && BelongsTo(job, Metadata())
    }

    lemma TracksInv()
      requires Tracks()
      ensures RunOf(job, run) && Inv(job, Last(run)) && SnapshotOf(Last(run)) == drive.Now()
    {
      hide Inv, IsRun;
      LastKeepsInv(job, run);
    }

    lemma IdleIsValid()
      requires InHand()
      ensures Valid()
    {
      hide Inv, BelongsTo, IsRun, Job.FileLen, ApplyAll;
      LastKeepsInv(job, run);
      IdleFacts(job, Last(run));
    }

    /** In the middle of a commit of chunk `i`: its bit is set in memory only. */
    ghost predicate Marked(i: nat)
      reads this, drive, bitmap
    {
      Tracks() && ext == job.ext && slotSize == job.SlotSize() && header.hash == job.hash
      && bitmap.Valid() && activeSlot == generation % 2
      && var s := Last(run);
         s.pc == Committing(i) && i < s.mem.bitmap.chunkCount && i / 8 < |s.mem.bitmap.bytes|
         && Metadata() == s.mem.(bitmap := s.mem.bitmap.Marked(i))
    }

    constructor (ext: External, drive: Drive, slotSize: u64, m: PartMetadata, slot: nat, ghost job: Job, ghost run: Run)
      requires m.bitmap.Canonical()
      ensures this.ext == ext && this.drive == drive && this.slotSize == slotSize && this.header == m
      ensures activeSlot == slot && Metadata() == m && bitmap.Valid() && fresh(bitmap)
      ensures this.job == job && this.run == run
    {
      this.ext, this.drive, this.slotSize, this.header := ext, drive, slotSize, m;
      generation, activeSlot := m.generation, slot;
      bitmap := new ChunkBitmap(m.bitmap);
      this.job, this.run := job, run;
    }

    /** Records one call on the drive as one step of the run. */
    ghost method Step(a: Action)
      requires job.Valid() && drive.Valid() && |drive.trace| > 1
      requires Covers(job, run, drive.trace[..|drive.trace| - 1])
      requires Enabled(job, Last(run), a) && SnapshotOf(Next(job, Last(run), a)) == drive.Now()
      modifies this`run
      ensures Tracks() && run == Then(job, old(run), a) && Extends(run, old(run))
      ensures Last(run) == Next(job, old(Last(run)), a)
    {
      hide Enabled, Next, IsRun;
      ThenIsRun(job, run, a);
      ThenCovers(job, run, drive.trace[..|drive.trace| - 1], a, drive.Now());
      assert drive.trace[..|drive.trace| - 1] + [drive.Now()] == drive.trace;
      run := Then(job, run, a);
    }

    /** Writes into a chunk that is not complete yet; nothing else happens. */
    method WriteChunkBytes(index: u64, offset: u64, bytes: seq<byte>) returns (r: Result<()>, ghost written: nat)
      requires Valid()
      modifies this`run, drive
      ensures Valid() && Metadata() == old(Metadata()) && Extends(run, old(run))
      ensures forall x | |old(run.actions)| <= x < |run.actions| :: !run.actions[x].WriteSlot?
      ensures drive.part.Some? && |Image()| == job.FileLen() == |old(Image())|
      ensures Last(run).acked == old(Last(run).acked) && Last(run).ledger == old(Last(run).ledger)
      ensures r == Failure(InvalidConfig) <==> !InChunk(job.Plan(), index, offset, |bytes|)
      ensures r.Failure? && r.error != InvalidConfig ==> r.error == Io && index !in Complete()
      ensures drive.faults == old(drive.faults) + if r == Failure(Io) then 1 else 0
      ensures r == Failure(InvalidConfig) || bytes == [] || index in Complete() ==>
                drive.Now() == old(drive.Now()) && drive.trace == old(drive.trace) && run == old(run)
      ensures InChunk(job.Plan(), index, offset, |bytes|) && index !in Complete() ==>
                written <= |bytes| && (r.Success? ==> written == |bytes|)
                && job.Plan().Hi(index) <= job.FileLen()
                && Image() == Spliced(old(Image()), job.Plan().Lo(index) + offset, bytes[..written])
    {
      hide DecodeSlot, ApplyAll, IsRun, Covers, Inv, Enabled, Next, BelongsTo, Job.FileLen, Job.SlotSize, ChunkPlan.Lo,
        ChunkPlan.Hi;
      SamePlan(job, Metadata());
      ContentFits(job);
      written := 0;
      var plan := ChunkPlan.New(header.contentLen, header.chunkSize).value;
      if index < plan.chunkCount {
        ChunkInPlan(plan, index);
        if plan.Lo(index) + offset <= |Image()| {
          SplicedNothing(Image(), plan.Lo(index) + offset);
        }
      }
      var chunk :- plan.ChunkAt(index);
      if offset + |bytes| >= U64_LIMIT {
        return Failure(InvalidConfig), 0;
      }
      if offset + |bytes| > chunk.len {
        return Failure(InvalidConfig), 0;
      }
      var complete: Result<bool> := bitmap.IsComplete(index);
      if |bytes| == 0 || complete.value {
        return Success(()), 0;
      }
      var sought := drive.Seek(chunk.start + offset);
      if !sought {
        return Failure(Io), 0;
      }
      ghost var f := drive.part.value;
      TracksInv();
      var ok, count := drive.WriteAll(bytes);
      WriteContentStep(job, Last(run), index, offset, bytes[..count]);
      Step(WriteContent(index, offset, bytes[..count]));
      ViewAfterWrite(f, plan.Lo(index) + offset, bytes[..count]);
      IdleIsValid();
      return if ok then Success(()) else Failure(Io), count;
    }

    /** Makes a written chunk part of the durable record. The content is synced
        before the bit is set, and the record goes to the slot that recovery
        would not choose. */
    method CommitChunk(index: u64) returns (r: Result<()>)
      requires Valid()
      modifies this, drive, bitmap
      ensures Tracks() && Extends(run, old(run)) && drive.part.Some?
      ensures CommitsOnly(job, run, |old(run.actions)|, index, Content(job, old(Image())))
      ensures index >= job.Plan().chunkCount ==> r == Failure(InvalidConfig)
      ensures index >= job.Plan().chunkCount || index in old(Complete()) ==>
                Valid() && drive.Now() == old(drive.Now()) && drive.trace == old(drive.trace)
                && run == old(run) && Metadata() == old(Metadata())
      ensures index in old(Complete()) ==> r.Success?
      ensures r.Success? ==> generation == old(generation) + if index in old(Complete()) then 0 else 1
      ensures r.Success? ==> Valid() && Complete() == old(Complete()) + {index}
                             && Content(job, Image()) == Content(job, old(Image()))
      ensures r.Success? && index !in old(Complete()) ==>
                old(generation) + 1 < U64_LIMIT && index / 8 < |old(bitmap.bytes)|
                && Metadata() == NextMetadata(old(Metadata()), index)
                && Last(run).acked == old(Last(run).acked) + {index}
                && drive.part.value.pending == []
                && ReadBest(job, Image()) == Success((Stored(Metadata()), activeSlot))
      ensures r.Failure? && index < job.Plan().chunkCount ==>
                r.error == Io || (r.error == InvalidConfig && old(generation) + 1 == U64_LIMIT)
      ensures drive.faults == old(drive.faults) + if r == Failure(Io) then 1 else 0
    {
      hide DecodeSlot, DecodeAt, ApplyAll, IsRun, Covers, Inv, SlotBytes, Enabled, Next, ReadBest, BelongsTo;
      SamePlan(job, Metadata());
      var plan := ChunkPlan.New(header.contentLen, header.chunkSize).value;
      if index < plan.chunkCount {
        ChunkInPlan(plan, index);
      }
      TracksInv();
      CommitsOnlyNothing(job, run, index, Content(job, Image()));
      var _ :- plan.ChunkAt(index);
      var complete: Result<bool> := bitmap.IsComplete(index);
      if complete.value {
        return Success(());
      }
      r := CommitMissing(index);
    }

    method CommitMissing(index: u64) returns (r: Result<()>)
      requires Valid() && index < job.Plan().chunkCount && index !in Complete()
      modifies this, drive, bitmap
      ensures Tracks() && Extends(run, old(run)) && drive.part.Some?
      ensures CommitsOnly(job, run, |old(run.actions)|, index, Content(job, old(Image())))
      ensures r.Success? ==> Valid() && Complete() == old(Complete()) + {index}
                             && old(generation) + 1 < U64_LIMIT && generation == old(generation) + 1
                             && index / 8 < |old(bitmap.bytes)|
                             && Metadata() == NextMetadata(old(Metadata()), index)
                             && Last(run).acked == old(Last(run).acked) + {index} && drive.part.value.pending == []
                             && Content(job, Image()) == Content(job, old(Image()))
                             && ReadBest(job, Image()) == Success((Stored(Metadata()), activeSlot))
      ensures r.Failure? ==> r.error == Io || (r.error == InvalidConfig && old(generation) + 1 == U64_LIMIT)
      ensures drive.faults == old(drive.faults) + if r == Failure(Io) then 1 else 0
    {
      hide DecodeSlot, DecodeAt, ApplyAll, IsRun, Covers, Inv, SlotBytes, Enabled, Next, ReadBest, BelongsTo, Content,
        Stored, Job.FileLen;
      SamePlan(job, Metadata());
      ContentFits(job);
      ghost var f, before := drive.part.value, run;
      TracksInv();
      CommitsOnlyNothing(job, run, index, Content(job, Image()));
      var synced := drive.Sync();
      if !synced {
        return Failure(Io);
      }
      ViewOfSynced(f);
      SyncDataStep(job, Last(run), index);
      CommitsOnlyStep(job, run, index, Content(job, View(f)), SyncData(index));
      Step(SyncData(index));
      ghost var middle := run;
      var _ := bitmap.MarkComplete(index);
      r := CommitMetadata(index);
      CommitsOnlyJoin(job, middle, run, |before.actions|, index, Content(job, View(f)));
      if r.Success? {
        TracksInv();
        CommittedRecord(job, Last(run));
        NothingPending(drive.part.value);
      }
    }

    /** Bumps the generation and writes the record. */
    method CommitMetadata(ghost index: nat) returns (r: Result<()>)
      requires Marked(index)
      modifies this, drive
      ensures Tracks() && Extends(run, old(run)) && drive.part.Some?
      ensures old(drive.part).Some? && |old(Image())| == job.FileLen()
      ensures CommitsOnly(job, run, |old(run.actions)|, index, Content(job, old(Image())))
      ensures r.Success? ==> Valid() && old(generation) + 1 < U64_LIMIT && generation == old(generation) + 1
                             && Last(run).acked == old(Last(run).acked) + {index} && Last(run).hi == None
                             && drive.part.value.pending == []
                             && old(drive.part).Some? && |old(Image())| == job.FileLen()
                             && Content(job, Image()) == Content(job, old(Image()))
      ensures r.Failure? ==> r.error == Io || (r.error == InvalidConfig && old(generation) + 1 == U64_LIMIT)
      ensures drive.faults == old(drive.faults) + if r == Failure(Io) then 1 else 0
    {
      hide DecodeSlot, DecodeAt, ApplyAll, IsRun, Covers, Inv, SlotBytes, Encoded, Enabled, Next, BelongsTo;
      TracksInv();
      CommittingFacts(job, Last(run));
      CommitsOnlyNothing(job, run, index, Content(job, Image()));
      if generation + 1 >= U64_LIMIT {
        return Failure(InvalidConfig);
      }
      generation := generation + 1;
      activeSlot := generation % 2;
      WriteSlotStep(job, Last(run), index, 0);
      r := WriteRecord(index);
    }

    /** Writes the record of this generation to its slot and syncs. */
    method WriteRecord(ghost index: nat) returns (r: Result<()>)
      requires Bumped(index)
      modifies this`run, drive
      ensures Tracks() && Extends(run, old(run)) && drive.part.Some?
      ensures old(drive.part).Some? && |old(Image())| == job.FileLen()
      ensures CommitsOnly(job, run, |old(run.actions)|, index, Content(job, old(Image())))
      ensures r.Success? ==> Valid() && Last(run).acked == old(Last(run).acked) + {index} && Last(run).hi == None
                             && drive.part.value.pending == []
                             && old(drive.part).Some? && |old(Image())| == job.FileLen()
                             && Content(job, Image()) == Content(job, old(Image()))
      ensures r.Failure? ==> r.error == Io
      ensures drive.faults == old(drive.faults) + if r == Failure(Io) then 1 else 0
    {
      hide DecodeSlot, DecodeAt, ApplyAll, IsRun, Covers, Inv, Encoded, Enabled, Next, NextMetadata, BelongsTo, Content;
      var ok := WriteRecordBytes(index);
      if !ok {
        return Failure(Io);
      }
      ghost var written, g := run, drive.part.value;
      TracksInv();
      SyncSlotStep(job, Last(run));
      var synced := drive.Sync();
      if !synced {
        return Failure(Io);
      }
      ViewOfSynced(g);
      CommitsOnlyStep(job, run, index, Content(job, old(Image())), SyncSlot);
      Step(SyncSlot);
      CommitsOnlyJoin(job, written, run, |old(run.actions)|, index, Content(job, old(Image())));
      IdleIsValid();
      return Success(());
    }

    /** Memory holds the next record; the disk does not. */
    ghost predicate Bumped(i: nat)
      reads this, drive, bitmap
    {
      Tracks() && ext == job.ext && slotSize == job.SlotSize() && header.hash == job.hash
      && bitmap.Valid() && activeSlot == generation % 2
      && var s := Last(run);
         s.pc == Committing(i) && s.mem.generation + 1 < U64_LIMIT && i / 8 < |s.mem.bitmap.bytes|
         && Metadata() == NextMetadata(s.mem, i)
    }

    method WriteRecordBytes(ghost index: nat) returns (ok: bool)
      requires Bumped(index)
      modifies this`run, drive
      ensures Tracks() && Extends(run, old(run)) && drive.part.Some?
      ensures old(drive.part).Some? && |old(Image())| == job.FileLen()
      ensures CommitsOnly(job, run, |old(run.actions)|, index, Content(job, old(Image())))
      ensures Last(run).acked == old(Last(run).acked)
      ensures ok ==> Last(run).pc == SlotWritten(index) && Last(run).mem == Metadata()
                     && |Image()| == job.FileLen() && Content(job, Image()) == Content(job, old(Image()))
      ensures drive.faults == old(drive.faults) + if ok then 0 else 1
    {
      hide DecodeSlot, DecodeAt, ApplyAll, IsRun, Covers, Inv, SlotBytes, Encoded, Enabled, Next, NextMetadata,
        BelongsTo, Content;
      TracksInv();
      CommittingFacts(job, Last(run));
      WriteSlotStep(job, Last(run), index, 0);
      SamePlan(job, Metadata());
      SlotOffset(job, activeSlot);
      CommitsOnlyNothing(job, run, index, Content(job, Image()));
      var slot := EncodeSlot(ext.crc32,
                             header.(generation := generation, bitmap := Bits(bitmap.chunkCount, bitmap.bytes)),
                               slotSize);
      var sought := drive.Seek(header.contentLen + activeSlot * slotSize);
      if !sought {
        return false;
      }
      ghost var f := drive.part.value;
      ghost var count;
      ok, count := drive.WriteAll(slot.value);
      WriteSlotStep(job, Last(run), index, count);
      CommitsOnlyStep(job, run, index, Content(job, View(f)), WriteSlot(index, count));
      Step(WriteSlot(index, count));
      if ok {
        assert slot.value[..count] == slot.value;
        SlotWriteKeepsContent(job, f, activeSlot, slot.value);
      }
    }

    /** Writes and commits a whole chunk; one that is complete is left alone. */
    method WriteChunk(index: u64, bytes: seq<byte>) returns (r: Result<()>)
      requires Valid()
      modifies this, drive, bitmap
      ensures Tracks() && Extends(run, old(run)) && drive.part.Some?
      ensures index < job.Plan().chunkCount && |bytes| != job.Plan().Hi(index) - job.Plan().Lo(index)
              <==> r == Failure(HttpProtocol)
      ensures index >= job.Plan().chunkCount ==> r == Failure(InvalidConfig)
      ensures r.Failure? ==> r.error == Io || r.error == HttpProtocol
                             || (r.error == InvalidConfig
                                 && (index >= job.Plan().chunkCount || old(generation) + 1 == U64_LIMIT))
      ensures drive.faults == old(drive.faults) + if r == Failure(Io) then 1 else 0
      ensures r.Success? ==> Valid() && Complete() == old(Complete()) + {index}
      ensures r.Success? && index in old(Complete()) ==> drive.Now() == old(drive.Now())
      ensures r.Success? && index !in old(Complete()) ==>
                job.Plan().Hi(index) <= job.ContentLen() && job.Plan().Lo(index) + |bytes| == job.Plan().Hi(index)
                && Content(job, Image()) == Spliced(Content(job, old(Image())), job.Plan().Lo(index), bytes)
                && ReadBest(job, Image()) == Success((Stored(Metadata()), activeSlot)) && drive.part.value.pending == []
    {
      hide DecodeSlot, DecodeAt, ApplyAll, IsRun, Covers, Inv, SlotBytes, Enabled, Next, ReadBest, BelongsTo, Stored,
        NextMetadata, Content;
      SamePlan(job, Metadata());
      var plan := ChunkPlan.New(header.contentLen, header.chunkSize).value;
      if index < plan.chunkCount {
        ChunkInPlan(plan, index);
      }
      var chunk :- plan.ChunkAt(index);
      if |bytes| != chunk.len {
        return Failure(HttpProtocol);
      }
      var complete: Result<bool> := bitmap.IsComplete(index);
      if complete.value {
        return Success(());
      }
      ghost var before := Image();
      var wrote, count := WriteChunkBytes(index, 0, bytes);
      if wrote.Failure? {
        return wrote;
      }
      assert count == |bytes| && bytes[..count] == bytes;
      SpliceContent(job, before, plan.Lo(index), bytes);
      r := CommitChunk(index);
    }

    method IncompleteChunks() returns (indices: seq<u64>)
      requires Valid()
      ensures forall i: nat :: i in indices <==> i < job.Plan().chunkCount && i !in Complete()
      ensures forall x, y | 0 <= x < y < |indices| :: indices[x] < indices[y]
    {
      SamePlan(job, Metadata());
      ghost var bits := bitmap.Value();
      IncompleteIsComplement(bits, 0);
      indices := Bits(bitmap.chunkCount, bitmap.bytes).IncompleteIndices();
    }

    /** The configured check, on what is in the file now. */
    method VerifyHash() returns (r: Result<bool>)
      requires Valid()
      modifies drive`cursor, drive`faults
      ensures Valid()
      ensures r.Success? ==> (r.value <==> Accepts(job.ext, job.hash, Content(job, Image())))
      ensures r.Failure? ==> r == Failure(Io)
      ensures drive.faults == old(drive.faults) + if r == Failure(Io) then 1 else 0
    {
      hide DecodeSlot, ApplyAll, IsRun, Covers, Inv, BelongsTo, Accepts;
      SamePlan(job, Metadata());
      ContentFits(job);
      r := CheckContent(ext, drive, header.hash, header.contentLen);
    }

    /** Verifies the content, cuts the metadata off and renames the file to its
        target. */
    method Finalize() returns (r: Result<()>)
      requires Valid()
      modifies this`run, drive
      ensures Tracks() && Extends(run, old(run))
      ensures r == Failure(InvalidConfig) <==> exists i: nat :: i < job.Plan().chunkCount && i !in old(Complete())
      ensures r == Failure(HashMismatch) ==> !Accepts(job.ext, job.hash, Content(job, old(Image())))
      ensures r.Failure? ==> r.error == InvalidConfig || r.error == HashMismatch || r.error == Io
      ensures drive.faults == old(drive.faults) + if r == Failure(Io) then 1 else 0
      ensures r == Failure(InvalidConfig) || r == Failure(HashMismatch) ==> Valid() && drive.Now() == old(drive.Now())
      ensures r.Failure? ==> drive.target == None
      ensures r.Success? ==> Accepts(job.ext, job.hash, Content(job, old(Image())))
                             && drive.Now() == Snapshot(None, Some(File(Content(job, old(Image())), [])), JustRenamed)
    {
      hide DecodeSlot, ApplyAll, IsRun, Covers, Inv, BelongsTo, Content, Enabled, Next, Accepts, Bits.AllComplete;
      // Only another process could have created the target meanwhile.
      if drive.target.Some? {
        return Failure(TargetExists);
      }
      SamePlan(job, Metadata());
      AllCompleteMeans(bitmap.Value());
      if !Bits(bitmap.chunkCount, bitmap.bytes).AllComplete() {
        ghost var i: nat :| i < bitmap.chunkCount && i !in bitmap.Value().Members();
        assert i < job.Plan().chunkCount && i !in old(Complete());
        return Failure(InvalidConfig);
      }
      var verified :- VerifyHash();
      if !verified {
        return Failure(HashMismatch);
      }
      r := Promote();
    }

    method Promote() returns (r: Result<()>)
      requires Valid() && bitmap.Value().AllComplete() && Accepts(job.ext, job.hash, Content(job, Image()))
      modifies this`run, drive
      ensures Tracks() && Extends(run, old(run))
      ensures r.Failure? ==> r == Failure(Io) && drive.target == None
      ensures drive.faults == old(drive.faults) + if r == Failure(Io) then 1 else 0
      ensures r.Success? ==> drive.Now() == Snapshot(None, Some(File(Content(job, old(Image())), [])), JustRenamed)
    {
      hide DecodeSlot, ApplyAll, IsRun, Covers, Inv, BelongsTo, Content, Enabled, Next, Accepts, Bits.AllComplete,
        Job.FileLen;
      var cut := CutMetadata();
      if !cut {
        return Failure(Io);
      }
      TracksInv();
      RenameStep(job, Last(run));
      var renamed := drive.RenameToTarget();
      if !renamed {
        return Failure(Io);
      }
      Step(Rename);
      return Success(());
    }

    method CutMetadata() returns (ok: bool)
      requires Valid() && bitmap.Value().AllComplete() && Accepts(job.ext, job.hash, Content(job, Image()))
      modifies this`run, drive
      ensures Tracks() && Extends(run, old(run)) && drive.target == None
      ensures ok ==> Last(run).pc == Truncated
                     && drive.Now() == Snapshot(Some(File(Content(job, old(Image())), [])), None, Settled)
      ensures drive.faults == old(drive.faults) + if ok then 0 else 1
    {
      hide DecodeSlot, ApplyAll, IsRun, Covers, Inv, BelongsTo, Content, Enabled, Next, Accepts, Bits.AllComplete,
        Job.FileLen;
      SamePlan(job, Metadata());
      TracksInv();
      TruncateStep(job, Last(run));
      TruncatedView(job, drive.part.value);
      ok := drive.SetLen(header.contentLen);
      if ok {
        Step(Truncate);
        TracksInv();
        SyncTruncatedStep(job, Last(run));
        ok := drive.Sync();
        if ok {
          Step(SyncTruncated);
        }
      }
    }
  }

  lemma SlicesJoin(s: seq<byte>, len: nat, a: nat, b: nat)
    requires a <= b <= len <= |s|
    ensures s[..len][..a] + s[a..b] == s[..len][..b]
  {
  }

  /** Feeds the first `len` bytes to the configured hasher, one buffer at a time. */
  method CheckContent(ext: External, drive: Drive, config: HashConfig, len: nat) returns (r: Result<bool>)
    requires drive.Valid() && drive.part.Some? && len <= |View(drive.part.value)|
    modifies drive`cursor, drive`faults
    ensures r.Success? ==> (r.value <==> Accepts(ext, config, View(drive.part.value)[..len]))
    ensures r.Failure? ==> r == Failure(Io)
    ensures drive.faults == old(drive.faults) + if r == Failure(Io) then 1 else 0
  {
    hide ApplyAll, View;
    var verifier := NewVerifier(config);
    if verifier.None? {
      return Success(true);
    }
    var sought := drive.Seek(0);
    if !sought {
      return Failure(Io);
    }
    var _ :- FeedContent(drive, verifier.value, len);
    var ok := FinishVerifier(ext, verifier.value);
    return Success(ok);
  }

  method FeedContent(drive: Drive, verifier: HashVerifier, len: nat) returns (r: Result<()>)
    requires drive.Valid() && drive.part.Some? && len <= |View(drive.part.value)| && drive.cursor == 0
    requires verifier.Valid() && verifier.Message() == []
    modifies drive`cursor, drive`faults, verifier.Repr()
    ensures r.Success? ==> verifier.Valid() && verifier.Message() == View(drive.part.value)[..len]
    ensures r.Failure? ==> r == Failure(Io)
    ensures drive.faults == old(drive.faults) + if r == Failure(Io) then 1 else 0
  {
    hide ApplyAll, View, HashVerifier.Valid, HashVerifier.Message, HashVerifier.Kind;
    ghost var content := View(drive.part.value)[..len];
    var remaining := len;
    while remaining > 0
      invariant 0 <= remaining <= len && drive.cursor == len - remaining
      invariant drive.Valid() && verifier.Valid()
      invariant verifier.Message() == content[..len - remaining]
      invariant drive.faults == old(drive.faults)
    {
      var count := Min(remaining, READ_BUFFER);
      var chunk :- drive.ReadExact(count);
      SlicesJoin(View(drive.part.value), len, len - remaining, len - remaining + count);
      UpdateVerifier(verifier, chunk);
      remaining := remaining - count;
    }
    assert content[..len] == content;
    return Success(());
  }

  // ---- opening ----

  /** The download that a call of `OpenOrCreate` is about. */
  function JobFor(ext: External, urlHash: UrlHash, remote: RemoteInfo, chunkSize: u64, hash: HashConfig): Job {
    Job(ext, urlHash, remote, if chunkSize == 0 then DEFAULT_CHUNK_SIZE else chunkSize, hash)
  }

  /** What was found is what a run of the protocol left, after a crash or not. */
  ghost predicate Continues(job: Job, before: Run, crashed: bool, found: Snapshot) {
    job.Valid() && RunOf(job, before)
    && RebootAllowed(job, Last(before), crashed, found.part, found.target)
    && found.entry == if crashed then Settled else Last(before).entry
  }

  lemma DecodedIsCanonical(crc: Crc, slot: seq<byte>)
    requires DecodeSlot(crc, slot).Success?
    ensures DecodeSlot(crc, slot).value.bitmap.Canonical()
  {
    hide DecodeSlotHeader, DecodeHash, ReadUInt, DecodeOptionalString;
    var header := DecodeSlotHeader(crc, slot).value;
    var bytes := Slice(slot, HEADER_LEN, header.bitmapLen).value;
    FromBytesAcceptsCanonical(header.chunkCount, bytes);
  }

  /** Slot `k` behind the content is acceptable, byte by byte, and stands for `m`. */
  ghost predicate SlotStandsFor(crc: Crc, img: seq<byte>, contentLen: nat, slotSize: nat, k: nat, m: PartMetadata)
    requires |img| == contentLen + 2 * slotSize
  {
    k < 2
    && var slot := if k == 0 then img[contentLen..contentLen + slotSize] else img[contentLen + slotSize..];
       GoodHeader(crc, slot) && GoodHash(slot) && GoodBody(slot) && Means(slot, m)
  }

  lemma StandsExactly(crc: Crc, img: seq<byte>, contentLen: nat, slotSize: nat, k: nat, m: PartMetadata)
    requires |img| == contentLen + 2 * slotSize && k < 2
    ensures var slot := if k == 0 then img[contentLen..contentLen + slotSize]
                        else img[contentLen + slotSize..contentLen + slotSize + slotSize];
            SlotStandsFor(crc, img, contentLen, slotSize, k, m) <==> DecodeSlot(crc, slot) == Success(m)
  {
    hide DecodeSlot, GoodHeader, GoodHash, Means;
    var slot := if k == 0 then img[contentLen..contentLen + slotSize]
                else img[contentLen + slotSize..contentLen + slotSize + slotSize];
    assert k == 1 ==> slot == img[contentLen + slotSize..];
    SlotReading.AcceptsExactly(crc, slot);
    if SlotStandsFor(crc, img, contentLen, slotSize, k, m) {
      SlotReading.HeaderSizes(crc, slot);
      SlotReading.LengthsOfBody(slot);
      SlotReading.MeansOne(slot, m, DecodeSlot(crc, slot).value);
    }
  }

  /** What reading a file yields: the record of an acceptable slot, and none that
      is acceptable is newer. Nothing is read if neither is acceptable. */
  lemma BestIsNewest(crc: Crc, img: seq<byte>, contentLen: nat, slotSize: nat)
    requires |img| == contentLen + 2 * slotSize
    ensures var best := BestSlot(crc, img, contentLen, slotSize);
            (best.Success? ==>
               SlotStandsFor(crc, img, contentLen, slotSize, best.value.1, best.value.0)
               && forall k: nat, m | SlotStandsFor(crc, img, contentLen, slotSize, k, m) ::
                    m.generation < best.value.0.generation
                    || (m.generation == best.value.0.generation && k <= best.value.1))
            && (best.Failure? && best.error != Panic ==>
                  best.error == PartCorrupt
                  && forall k: nat, m :: !SlotStandsFor(crc, img, contentLen, slotSize, k, m))
  {
    hide DecodeSlot, SlotStandsFor;
    forall k: nat, m | k < 2
      ensures var slot := if k == 0 then img[contentLen..contentLen + slotSize]
                          else img[contentLen + slotSize..contentLen + slotSize + slotSize];
              SlotStandsFor(crc, img, contentLen, slotSize, k, m) <==> DecodeSlot(crc, slot) == Success(m)
    {
      StandsExactly(crc, img, contentLen, slotSize, k, m);
    }
    assert forall k: nat, m | SlotStandsFor(crc, img, contentLen, slotSize, k, m) :: k < 2 by {
      OnlyTwoSlots(crc, img, contentLen, slotSize);
    }
  }

  lemma OnlyTwoSlots(crc: Crc, img: seq<byte>, contentLen: nat, slotSize: nat)
    requires |img| == contentLen + 2 * slotSize
    ensures forall k: nat, m | SlotStandsFor(crc, img, contentLen, slotSize, k, m) :: k < 2
  {
  }

  method ReadBestMetadata(crc: Crc, drive: Drive, contentLen: u64,
                          slotSize: u64) returns (r: Result<(PartMetadata, nat)>)
    requires drive.Valid() && drive.part.Some? && |View(drive.part.value)| == contentLen + 2 * slotSize
    modifies drive`cursor, drive`faults
    ensures r == BestSlot(crc, View(drive.part.value), contentLen, slotSize) || r == Failure(Io)
    ensures r.Success? ==> SlotStandsFor(crc, View(drive.part.value), contentLen, slotSize, r.value.1, r.value.0)
    ensures r.Success? ==> r.value.0.bitmap.Canonical()
    ensures drive.faults == old(drive.faults) + if r == Failure(Io) then 1 else 0
  {
    hide DecodeSlot, ApplyAll, SlotStandsFor;
    ghost var img := View(drive.part.value);
    BestIsNewest(crc, img, contentLen, slotSize);
    ghost var d0 := DecodeSlot(crc, img[contentLen..contentLen + slotSize]);
    ghost var d1 := DecodeSlot(crc, img[contentLen + slotSize..contentLen + slotSize + slotSize]);
    var slots: seq<(PartMetadata, nat)> := [];
    var k := 0;
    while k < 2
      invariant 0 <= k <= 2 && drive.Valid() && img == View(drive.part.value)
      invariant k >= 1 ==> d0 != Failure(Panic)
      invariant k >= 2 ==> d1 != Failure(Panic)
      invariant slots == (if k >= 1 then Readable(d0, 0) else []) + (if k >= 2 then Readable(d1, 1) else [])
      invariant forall s | s in slots :: s.0.bitmap.Canonical()
      invariant drive.faults == old(drive.faults)
    {
      var sought := drive.Seek(contentLen + k * slotSize);
      if !sought {
        return Failure(Io);
      }
      var buffer :- drive.ReadExact(slotSize);
      var d := DecodeSlot(crc, buffer);
      assert d == if k == 0 then d0 else d1;
      if d == Failure(Panic) {
        return Failure(Panic);
      }
      if d.Success? {
        DecodedIsCanonical(crc, buffer);
        slots := slots + [(d.value, k)];
      }
      k := k + 1;
    }
    if slots == [] {
      return Failure(PartCorrupt);
    }
    var best := slots[0];
    k := 1;
    while k < |slots|
      invariant 1 <= k <= |slots|
      invariant best == if k == 2 && slots[0].0.generation <= slots[1].0.generation then slots[1] else slots[0]
    {
      if best.0.generation <= slots[k].0.generation {
        best := slots[k];
      }
      k := k + 1;
    }
    return Success(best);
  }

  function Readable(d: Result<PartMetadata>, k: nat): (s: seq<(PartMetadata, nat)>)
    ensures |s| <= 1
  {
    if d.Success? then [(d.value, k)] else []
  }

  /** The run of the protocol that this program takes up. */
  ghost function TakenUp(job: Job, before: Run, crashed: bool, found: Snapshot): Run
    requires Continues(job, before, crashed, found)
  {
    Then(job, before, Reboot(crashed, found.part, found.target))
  }

  lemma RebootOutcome(job: Job, s: State, crashed: bool, found: Snapshot)
    requires job.Valid() && RebootAllowed(job, s, crashed, found.part, found.target)
    requires found.entry == if crashed then Settled else s.entry
    ensures var n := AfterReboot(job, s, crashed, found.part, found.target);
            var outcome := OpenResult(job, found.part, found.target);
            SnapshotOf(n) == found
            && (outcome.Success? && outcome.value.Some? ==> n.pc == Idle && n.mem == outcome.value.value)
            && (outcome.Success? && outcome.value.None? ==>
                n.pc == NoPart && found.part == None && found.target == None)
  {
    hide RebootAllowed, ConditionAfter, ReadBest, EnsureCompatible, ApplyAll;
  }

  lemma TakenUpCovers(job: Job, before: Run, crashed: bool, found: Snapshot)
    requires Continues(job, before, crashed, found)
    ensures var run := TakenUp(job, before, crashed, found);
            Covers(job, run, [found]) && Extends(run, before)
            && var outcome := OpenResult(job, found.part, found.target);
               (outcome.Success? && outcome.value.Some? ==>
                Last(run).pc == Idle && Last(run).mem == outcome.value.value)
               && (outcome.Success? && outcome.value.None? ==>
                   Last(run).pc == NoPart && found.part == None && found.target == None)
  {
    hide IsRun, OpenResult, RebootAllowed, AfterReboot;
    ThenIsRun(job, before, Reboot(crashed, found.part, found.target));
    RebootOutcome(job, Last(before), crashed, found);
  }

  /** The record `m` is of this resource and configuration. A validator counts only
      where both sides have one. */
  ghost predicate SameDownload(m: PartMetadata, urlHash: UrlHash, remote: RemoteInfo, chunkSize: u64,
                               hash: HashConfig) {
    m.urlHash == urlHash && m.contentLen == remote.contentLen
    && m.chunkSize == (if chunkSize == 0 then 64 * 1024 * 1024 else chunkSize)
    && m.hash.kind == hash.kind && m.hash.expected == hash.expected
    && (m.etag == None || remote.etag == None || m.etag.value == remote.etag.value)
    && (m.lastModified == None || remote.lastModified == None || m.lastModified.value == remote.lastModified.value)
  }

  lemma CompatibleExactly(m: PartMetadata, urlHash: UrlHash, remote: RemoteInfo, chunkSize: u64, hash: HashConfig)
    requires NormalizeChunkSize(chunkSize).Success?
    ensures EnsureCompatible(m, urlHash, remote, chunkSize, hash)
            == if SameDownload(m, urlHash, remote, chunkSize, hash) then Success(()) else Failure(RemoteChanged)
  {
  }

  lemma LenMeansSize(remote: RemoteInfo, chunkSize: u64)
    requires ExpectedLen(remote, chunkSize).Success?
    ensures NormalizeChunkSize(chunkSize).Success?
    ensures ExpectedLen(remote, chunkSize).value.0 == remote.contentLen + 2 * ExpectedLen(remote, chunkSize).value.1
  {
  }

  /** What opening makes of a part file of the right length, exactly: its best
      record is resumed if it is of the same download, and refused otherwise. */
  lemma ResumedExactly(crc: Crc, f: File, urlHash: UrlHash, remote: RemoteInfo, chunkSize: u64, hash: HashConfig)
    requires ExpectedLen(remote, chunkSize).Success? && |View(f)| == ExpectedLen(remote, chunkSize).value.0
    ensures var best := BestSlot(crc, View(f), remote.contentLen, ExpectedLen(remote, chunkSize).value.1);
            var found := Found(crc, Some(f), None, urlHash, remote, chunkSize, hash);
            if best.Failure? then found == Failure(best.error)
            else if SameDownload(best.value.0, urlHash, remote, chunkSize, hash)
              then found == Success(Some(best.value.0))
            else found == Failure(RemoteChanged)
  {
    hide BestSlot, ApplyAll, EnsureCompatible, SameDownload, ExpectedLen;
    LenMeansSize(remote, chunkSize);
    var best := BestSlot(crc, View(f), remote.contentLen, ExpectedLen(remote, chunkSize).value.1);
    if best.Success? {
      CompatibleExactly(best.value.0, urlHash, remote, chunkSize, hash);
    }
  }

  /** A zero chunk size opens what the default size opens. */
  lemma DefaultSizeOpens(ext: External, found: Snapshot, urlHash: UrlHash, remote: RemoteInfo, chunkSize: u64,
                         hash: HashConfig)
    requires JobFor(ext, urlHash, remote, chunkSize, hash).Valid()
    ensures Found(ext.crc32, found.part, found.target, urlHash, remote, chunkSize, hash)
            == OpenResult(JobFor(ext, urlHash, remote, chunkSize, hash), found.part, found.target)
  {
    hide BestSlot, ApplyAll;
  }

  lemma BestSlotParity(job: Job, s: State)
    requires job.Valid() && Inv(job, s) && s.pc == Idle
    ensures s.part.Some? && |View(s.part.value)| == job.FileLen()
    ensures ReadBest(job, View(s.part.value)).Success?
            && ReadBest(job, View(s.part.value)).value.1 == ReadBest(job, View(s.part.value)).value.0.generation % 2
  {
    hide DecodeSlot, DecodeAt, ApplyAll, Guarded, InStep, Started, BestOf;
    IdleFacts(job, s);
    if s.cond == Live {
      LiveBestParity(job, s);
    } else {
      FreshParity(job, View(s.part.value));
    }
  }

  lemma FreshParity(job: Job, img: seq<byte>)
    requires job.Valid() && FreshRead(job, img)
    ensures ReadBest(job, img) == Success((Stored(job.Fresh()), 0))
  {
    hide DecodeSlot, DecodeAt;
  }

  lemma LiveBestParity(job: Job, s: State)
    requires job.Valid() && s.cond == Live && LiveInv(job, s) && s.pc == Idle && |View(s.part.value)| == job.FileLen()
    ensures ReadBest(job, View(s.part.value)).Success?
            && ReadBest(job, View(s.part.value)).value.1 == ReadBest(job, View(s.part.value)).value.0.generation % 2
  {
    hide DecodeSlot, DecodeAt, ApplyAll, CrashImage, ChunkSafe, ReadBest, BelongsTo;
    var f := s.part.value;
    ViewIsCrashImage(f.durable, f.pending);
    Recovers(job, f.durable, f.pending, s.lo, s.hi, s.ledger, s.acked, View(f));
    SlotOfRecord(job, View(f), s.lo, s.hi);
  }

  /** The record that is read comes from the slot of its parity. */
  lemma SlotOfRecord(job: Job, img: seq<byte>, lo: PartMetadata, hi: Option<PartMetadata>)
    requires job.Valid() && |img| == job.FileLen() && DecodeAt(job, img, lo.generation % 2) == Success(lo)
    requires TearOk(job, lo, hi, img) && (hi.Some? ==> hi.value.generation == lo.generation + 1)
    ensures ReadBest(job, img).Success?
    ensures ReadBest(job, img).value.1 == ReadBest(job, img).value.0.generation % 2
  {
    hide DecodeSlot, DecodeAt, Job.FileLen, Job.Valid;
    var a := lo.generation % 2;
    if hi.Some? {
      assert hi.value.generation % 2 == 1 - a;
    }
    if a == 0 {
      assert 1 - a == 1;
    } else {
      assert a == 1;
    }
  }

  /** The steps that create a part file. */
  lemma CreationSteps(job: Job, s: State, count: nat)
    requires job.Valid() && s.target == None
    ensures s.pc == NoPart && s.part == None ==>
              Enabled(job, s, CreateFile) && Next(job, s, CreateFile).pc == Creating
              && Next(job, s, CreateFile).mem == job.Fresh()
              && SnapshotOf(Next(job, s, CreateFile)) == Snapshot(Some(File([], [])), None, JustCreated)
    ensures s.pc == Creating && s.part == Some(File([], [])) ==>
              Enabled(job, s, Allocate) && Next(job, s, Allocate).pc == Creating && Next(job, s, Allocate).mem == s.mem
              && SnapshotOf(Next(job, s, Allocate))
                 == SnapshotOf(s).(part := Some(Submit(s.part.value, Resize(job.FileLen()))))
    ensures s.pc == Creating && s.part == Some(File([], [Resize(job.FileLen())]))
            && count <= |SlotBytes(job, job.Fresh())| ==>
              Enabled(job, s, WriteFirstSlot(count))
              && var n := Next(job, s, WriteFirstSlot(count));
                 var write := Write(job.ContentLen(), SlotBytes(job, job.Fresh())[..count]);
                 n.pc == Creating && n.mem == s.mem
                 && SnapshotOf(n) == SnapshotOf(s).(part := Some(Submit(s.part.value, write)))
    ensures s.pc == Creating
            && s.part == Some(File([],
                                   [Resize(job.FileLen()), Write(job.ContentLen(), SlotBytes(job, job.Fresh()))])) ==>
              Enabled(job, s, SyncCreated) && Next(job, s, SyncCreated).pc == Idle
              && Next(job, s, SyncCreated).mem == s.mem
              && SnapshotOf(Next(job, s, SyncCreated)) == Snapshot(Some(Synced(s.part.value)), None, Settled)
  {
    hide SlotBytes, ApplyAll, Job.FileLen;
  }

  /** A new record always fits its slot. */
  lemma FreshEncodes(crc: Crc, urlHash: UrlHash, remote: RemoteInfo, chunkSize: u64, hash: HashConfig)
    requires NewMetadata(urlHash, remote, chunkSize, hash).Success?
    requires SlotSizeFor(remote.contentLen, chunkSize).Success?
    ensures var m := NewMetadata(urlHash, remote, chunkSize, hash).value;
            m.generation == 0 && m.bitmap.Canonical() && m.contentLen == remote.contentLen
            && Encoded(crc, m, SlotSizeFor(remote.contentLen, chunkSize).value).Success?
  {
    hide Encoded, DecodeSlot;
    var m := NewMetadata(urlHash, remote, chunkSize, hash).value;
    EmptyHasNothing(m.chunkCount);
    SlotRoundTrip(crc, m);
  }

  lemma FreshIsNew(ext: External, urlHash: UrlHash, remote: RemoteInfo, chunkSize: u64, hash: HashConfig)
    requires JobFor(ext, urlHash, remote, chunkSize, hash).Valid()
    ensures var job := JobFor(ext, urlHash, remote, chunkSize, hash);
            NewMetadata(urlHash, remote, chunkSize, hash) == Success(job.Fresh())
            && ExpectedLen(remote, chunkSize) == Success((job.FileLen(), job.SlotSize()))
  {
  }

  /** Creates the part file and writes its first record. The run is taken along
      when there is one. */
  method Create(ext: External, drive: Drive, urlHash: UrlHash, remote: RemoteInfo, chunkSize: u64, hash: HashConfig,
                fullLen: nat, slotSize: u64, ghost tracked: bool, ghost start: Run)
      returns (r: Result<PartFile>, ghost run: Run)
    requires drive.Valid() && drive.part == None && drive.target == None
    requires ExpectedLen(remote, chunkSize) == Success((fullLen, slotSize))
    requires tracked ==> JobFor(ext, urlHash, remote, chunkSize, hash).Valid()
                         && Covers(JobFor(ext, urlHash, remote, chunkSize, hash), start, drive.trace)
                         && Last(start).pc == NoPart
    modifies drive
    ensures r == Failure(Io)
            || (r.Success? && NewMetadata(urlHash, remote, chunkSize, hash) == Success(r.value.Metadata()))
            || (r == Failure(InvalidConfig) && NewMetadata(urlHash, remote, chunkSize, hash) == Failure(InvalidConfig))
    ensures drive.target == None && (r.Success? ==> fresh(r.value) && r.value.drive == drive)
    ensures drive.faults == old(drive.faults) + if r == Failure(Io) then 1 else 0
    ensures tracked ==> var job := JobFor(ext, urlHash, remote, chunkSize, hash);
                        Covers(job, run, drive.trace) && Extends(run, start)
                        && (r.Success? ==> r.value.job == job && r.value.run == run && r.value.Valid())
  {
    hide DecodeSlot, Encoded, SlotBytes, ApplyAll, IsRun, Inv, Enabled, Next;
    ghost var job := JobFor(ext, urlHash, remote, chunkSize, hash);
    run := start;
    var created := drive.CreateNew();
    if !created {
      return Failure(Io), run;
    }
    if tracked {
      CreationSteps(job, Last(run), 0);
      ThenIsRun(job, run, CreateFile);
      ThenCovers(job, run, old(drive.trace), CreateFile, drive.Now());
      run := Then(job, run, CreateFile);
    }
    ghost var trace := drive.trace;
    var sized := drive.SetLen(fullLen);
    if !sized {
      return Failure(Io), run;
    }
    if tracked {
      CreationSteps(job, Last(run), 0);
      ThenIsRun(job, run, Allocate);
      ThenCovers(job, run, trace, Allocate, drive.Now());
      run := Then(job, run, Allocate);
    }
    var m := NewMetadata(urlHash, remote, chunkSize, hash);
    if m.Failure? {
      return Failure(m.error), run;
    }
    FreshEncodes(ext.crc32, urlHash, remote, chunkSize, hash);
    if tracked {
      FreshIsNew(ext, urlHash, remote, chunkSize, hash);
      assert [] + [Resize(fullLen)] == [Resize(fullLen)];
    }
    var wrote: bool;
    wrote, run := WriteFirstRecord(ext, drive, m.value, slotSize, job, tracked, run);
    if !wrote {
      return Failure(Io), run;
    }
    var part := new PartFile(ext, drive, slotSize, m.value, 0, job, run);
    if tracked {
      part.IdleIsValid();
    }
    return Success(part), run;
  }

  method WriteFirstRecord(ext: External, drive: Drive, m: PartMetadata, slotSize: u64, ghost job: Job,
                          ghost tracked: bool, ghost start: Run)
      returns (ok: bool, ghost run: Run)
    requires drive.Valid() && drive.part.Some? && drive.target == None
    requires Encoded(ext.crc32, m, slotSize).Success?
    requires tracked ==> job.Valid() && job.ext == ext && Covers(job, start, drive.trace) && Last(start).pc == Creating
                         && m == job.Fresh() == Last(start).mem && slotSize == job.SlotSize()
                         && drive.entry == JustCreated
                         && drive.part == Some(File([], [Resize(job.FileLen())]))
    modifies drive
    ensures drive.Valid() && drive.target == None
    ensures drive.faults == old(drive.faults) + if ok then 0 else 1
    ensures tracked ==> Covers(job, run, drive.trace) && Extends(run, start)
                        && (ok ==> Last(run).pc == Idle && Last(run).mem == m)
  {
    hide DecodeSlot, Encoded, ApplyAll, IsRun, Inv, Enabled, Next, Job.FileLen, Job.SlotSize;
    run := start;
    var slot := EncodeSlot(ext.crc32, m, slotSize);
    var sought := drive.Seek(m.contentLen);
    if !sought {
      return false, run;
    }
    ghost var trace := drive.trace;
    ghost var count;
    ok, count := drive.WriteAll(slot.value);
    if tracked {
      assert slot.value == SlotBytes(job, m);
      CreationSteps(job, Last(run), count);
      ThenIsRun(job, run, WriteFirstSlot(count));
      ThenCovers(job, run, trace, WriteFirstSlot(count), drive.Now());
      run := Then(job, run, WriteFirstSlot(count));
    }
    if !ok {
      return false, run;
    }
    trace := drive.trace;
    ok := drive.Sync();
    if tracked && ok {
      assert slot.value[..count] == slot.value;
      assert [Resize(job.FileLen())] + [Write(job.ContentLen(), slot.value)]
             == [Resize(job.FileLen()), Write(job.ContentLen(), slot.value)];
      CreationSteps(job, Last(run), 0);
      ThenIsRun(job, run, SyncCreated);
      ThenCovers(job, run, trace, SyncCreated, drive.Now());
      run := Then(job, run, SyncCreated);
    }
  }

  /** Reads the record of a part file of the right length and checks that it is
      this download's. */
  method OpenExisting(ext: External, drive: Drive, urlHash: UrlHash, remote: RemoteInfo, chunkSize: u64,
                      hash: HashConfig,
                      fullLen: nat, slotSize: u64, ghost tracked: bool, ghost run: Run)
      returns (r: Result<PartFile>)
    requires drive.Valid() && drive.part.Some? && drive.target == None
    requires ExpectedLen(remote, chunkSize) == Success((fullLen, slotSize)) && |View(drive.part.value)| == fullLen
    requires tracked ==>
               var job := JobFor(ext, urlHash, remote, chunkSize, hash);
               job.Valid() && Covers(job, run, drive.trace)
               && var found := Found(ext.crc32, drive.part, drive.target, urlHash, remote, chunkSize, hash);
                  found.Success? && found.value.Some? ==> Last(run).pc == Idle && Last(run).mem == found.value.value
    modifies drive`cursor, drive`faults
    ensures drive.Valid()
    ensures var found := Found(ext.crc32, drive.part, drive.target, urlHash, remote, chunkSize, hash);
            r == Failure(Io) || (found.Failure? && r == Failure(found.error))
            || (found.Success? && found.value.Some? && r.Success? && r.value.Metadata() == found.value.value)
    ensures var best := BestSlot(ext.crc32, View(drive.part.value), remote.contentLen, slotSize);
            best.Success? && r != Failure(Io) ==>
              if SameDownload(best.value.0, urlHash, remote, chunkSize, hash)
              then r.Success? && r.value.Metadata() == best.value.0 else r == Failure(RemoteChanged)
    ensures r.Success? ==> fresh(r.value) && r.value.drive == drive
    ensures drive.faults == old(drive.faults) + if r == Failure(Io) then 1 else 0
    ensures tracked && r.Success? ==>
              r.value.job == JobFor(ext, urlHash, remote, chunkSize, hash) && r.value.run == run && r.value.Valid()
  {
    hide DecodeSlot, ApplyAll, IsRun, Inv, BestSlot, EnsureCompatible, SameDownload, Found, ExpectedLen, SlotStandsFor;
    LenMeansSize(remote, chunkSize);
    ResumedExactly(ext.crc32, drive.part.value, urlHash, remote, chunkSize, hash);
    var best := ReadBestMetadata(ext.crc32, drive, remote.contentLen, slotSize);
    if best.Failure? {
      return Failure(best.error);
    }
    CompatibleExactly(best.value.0, urlHash, remote, chunkSize, hash);
    var compatible := EnsureCompatible(best.value.0, urlHash, remote, chunkSize, hash);
    if compatible.Failure? {
      return Failure(compatible.error);
    }
    ghost var job := JobFor(ext, urlHash, remote, chunkSize, hash);
    var part := new PartFile(ext, drive, slotSize, best.value.0, best.value.1, job, run);
    if tracked {
      OpenedSlot(ext, drive.Now(), urlHash, remote, chunkSize, hash, run);
      part.IdleIsValid();
    }
    return Success(part);
  }

  /** The run that is taken up is ready for whichever way the files are opened. */
  lemma TakenUpReady(ext: External, found: Snapshot, urlHash: UrlHash, remote: RemoteInfo, chunkSize: u64,
                     hash: HashConfig, before: Run, crashed: bool)
    requires Continues(JobFor(ext, urlHash, remote, chunkSize, hash), before, crashed, found)
    ensures var job := JobFor(ext, urlHash, remote, chunkSize, hash);
            var run := TakenUp(job, before, crashed, found);
            var open := Found(ext.crc32, found.part, found.target, urlHash, remote, chunkSize, hash);
            job.Valid() && Covers(job, run, [found]) && Extends(run, before)
            && (open.Success? && open.value.Some? ==> Last(run).pc == Idle && Last(run).mem == open.value.value)
            && (found.part == None && found.target == None ==> Last(run).pc == NoPart)
  {
    hide IsRun, OpenResult, RebootAllowed, AfterReboot, TakenUp, Covers, Extends, BestSlot;
    var job := JobFor(ext, urlHash, remote, chunkSize, hash);
    TakenUpCovers(job, before, crashed, found);
    DefaultSizeOpens(ext, found, urlHash, remote, chunkSize, hash);
    FreshIsNew(ext, urlHash, remote, chunkSize, hash);
  }

  /** Continues the download from the files that are there, whatever they hold,
      or starts it. When a run of the protocol left them, the run goes on. */
  method OpenOrCreate(ext: External, drive: Drive, urlHash: UrlHash, remote: RemoteInfo, chunkSize: u64,
                      hash: HashConfig,
                      ghost before: Run, ghost crashed: bool)
      returns (r: Result<PartFile>, ghost run: Run)
    requires drive.Valid() && |drive.trace| == 1
    modifies drive
    ensures var found := Found(ext.crc32, old(drive.part), old(drive.target), urlHash, remote, chunkSize, hash);
            r == Failure(Io) || (found.Failure? && r == Failure(found.error))
            || (found.Success? && found.value.Some? && r.Success? && r.value.Metadata() == found.value.value
                && drive.Now() == old(drive.Now()))
            || (found == Success(None) && r.Success?
                && NewMetadata(urlHash, remote, chunkSize, hash) == Success(r.value.Metadata()))
    ensures old(drive.part).Some? || old(drive.target).Some? ==> drive.Now() == old(drive.Now())
    ensures r.Success? && old(drive.part).Some? ==> SameDownload(r.value.Metadata(), urlHash, remote, chunkSize, hash)
    ensures old(drive.target) == None && old(drive.part).Some? && ExpectedLen(remote, chunkSize).Success?
            && |View(old(drive.part).value)| == ExpectedLen(remote, chunkSize).value.0 && r != Failure(Io) ==>
              var best := BestSlot(ext.crc32, View(old(drive.part).value), remote.contentLen,
                                   ExpectedLen(remote, chunkSize).value.1);
              best.Success? && !SameDownload(best.value.0, urlHash, remote, chunkSize, hash)
              ==> r == Failure(RemoteChanged)
    ensures r.Success? ==> fresh(r.value) && r.value.drive == drive
    ensures drive.faults == old(drive.faults) + if r == Failure(Io) then 1 else 0
    ensures var job := JobFor(ext, urlHash, remote, chunkSize, hash);
            Continues(job, before, crashed, old(drive.Now())) ==>
              Covers(job, run, drive.trace) && Extends(run, before)
              && (r.Success? ==> r.value.job == job && r.value.run == run && r.value.Valid())
  {
    hide DecodeSlot, ApplyAll, IsRun, Inv, EnsureCompatible, RebootAllowed, OpenResult, BestSlot, ConditionAfter,
      SameDownload, Continues, TakenUp, AfterReboot;
    ghost var job, found := JobFor(ext, urlHash, remote, chunkSize, hash), drive.Now();
    ghost var tracked := Continues(job, before, crashed, found);
    assert drive.trace == [found];
    run := before;
    if tracked {
      TakenUpReady(ext, found, urlHash, remote, chunkSize, hash, before, crashed);
      run := TakenUp(job, before, crashed, found);
    }
    if drive.target.Some? {
      return Failure(TargetExists), run;
    }
    var len := ExpectedLen(remote, chunkSize);
    if len.Failure? {
      return Failure(len.error), run;
    }
    if drive.part.None? {
      r, run := Create(ext, drive, urlHash, remote, chunkSize, hash, len.value.0, len.value.1, tracked, run);
      return;
    }
    if |View(drive.part.value)| != len.value.0 {
      return Failure(PartSizeMismatch(len.value.0, |View(drive.part.value)|)), run;
    }
    r := OpenExisting(ext, drive, urlHash, remote, chunkSize, hash, len.value.0, len.value.1, tracked, run);
  }

  lemma OpenedSlot(ext: External, found: Snapshot, urlHash: UrlHash, remote: RemoteInfo, chunkSize: u64,
                   hash: HashConfig, run: Run)
    requires JobFor(ext, urlHash, remote, chunkSize, hash).Valid()
             && RunOf(JobFor(ext, urlHash, remote, chunkSize, hash), run)
    requires Last(run).pc == Idle && SnapshotOf(Last(run)) == found
    ensures var job := JobFor(ext, urlHash, remote, chunkSize, hash);
            found.part.Some? && |View(found.part.value)| == job.FileLen() && Last(run).mem.hash == hash
            && BestSlot(ext.crc32, View(found.part.value), remote.contentLen, job.SlotSize()).Success?
            && var best := BestSlot(ext.crc32, View(found.part.value), remote.contentLen, job.SlotSize()).value;
               best.1 == best.0.generation % 2
  {
    hide DecodeSlot, ApplyAll, IsRun, Inv, ReadBest, BestSlot, BelongsTo;
    var job := JobFor(ext, urlHash, remote, chunkSize, hash);
    LastKeepsInv(job, run);
    IdleFacts(job, Last(run));
    SamePlan(job, Last(run).mem);
    BestSlotParity(job, Last(run));
    BestSlotIsReadBest(job, View(found.part.value));
  }

  // ---- commits happen ----

  /** A commit that meets no error can always be completed. */
  lemma CommitCompletes(job: Job, run: Run, i: nat)
    requires job.Valid() && RunOf(job, run) && Last(run).pc == Idle && i < job.Plan().chunkCount
             && Missing(Last(run).mem, i)
    requires Last(run).mem.generation + 1 < U64_LIMIT
    ensures exists after: Run :: RunOf(job, after) && Extends(after, run) && Last(after).pc == Idle
                                 && Last(after).acked == Last(run).acked + {i}
  {
    hide IsRun, Inv, Enabled, Next, SlotBytes, NextMetadata, BelongsTo;
    LastKeepsInv(job, run);
    SyncDataStep(job, Last(run), i);
    var r1 := Then(job, run, SyncData(i));
    ThenIsRun(job, run, SyncData(i));
    LastKeepsInv(job, r1);
    WriteSlotStep(job, Last(r1), i, job.SlotSize());
    var r2 := Then(job, r1, WriteSlot(i, job.SlotSize()));
    ThenIsRun(job, r1, WriteSlot(i, job.SlotSize()));
    LastKeepsInv(job, r2);
    SyncSlotStep(job, Last(r2));
    var r3 := Then(job, r2, SyncSlot);
    ThenIsRun(job, r2, SyncSlot);
    assert RunOf(job, r3) && Extends(r3, run);
  }

  lemma CreatedRun(job: Job)
    requires job.Valid()
    ensures exists run: Run ::
                 RunOf(job, run) && Last(run).pc == Idle && Last(run).mem == job.Fresh() && Last(run).acked == {}
  {
    hide IsRun, Inv, Enabled, Next, SlotBytes;
    var slot := SlotBytes(job, job.Fresh());
    var r0 := Run([Init(job)], []);
    EmptyRun(job, r0);
    CreationSteps(job, Last(r0), 0);
    var r1 := Then(job, r0, CreateFile);
    ThenIsRun(job, r0, CreateFile);
    CreationSteps(job, Last(r1), 0);
    var r2 := Then(job, r1, Allocate);
    ThenIsRun(job, r1, Allocate);
    assert [] + [Resize(job.FileLen())] == [Resize(job.FileLen())];
    CreationSteps(job, Last(r2), |slot|);
    var r3 := Then(job, r2, WriteFirstSlot(|slot|));
    ThenIsRun(job, r2, WriteFirstSlot(|slot|));
    assert slot[..|slot|] == slot;
    assert [Resize(job.FileLen())] + [Write(job.ContentLen(), slot)]
           == [Resize(job.FileLen()), Write(job.ContentLen(), slot)];
    CreationSteps(job, Last(r3), 0);
    var r4 := Then(job, r3, SyncCreated);
    ThenIsRun(job, r3, SyncCreated);
    NothingAcked(job, r4);
  }

  lemma EmptyRun(job: Job, run: Run)
    requires job.Valid() && run == Run([Init(job)], [])
    ensures RunOf(job, run)
  {
  }

  /** A fresh record marks nothing, so nothing has been acknowledged. */
  lemma NothingAcked(job: Job, run: Run)
    requires job.Valid() && RunOf(job, run) && Last(run).pc == Idle && Last(run).mem == job.Fresh()
    ensures Last(run).acked == {}
  {
    hide IsRun, DecodeSlot, DecodeAt;
    LastKeepsInv(job, run);
    IdleIsLive(job, Last(run));
    FreshBelongs(job);
  }

  /** From nothing to the first commit: the runs that the theorems are about
      exist for every download that is not empty. */
  lemma SomeRunCommits(job: Job)
    requires job.Valid() && job.Plan().chunkCount > 0
    ensures exists run: Run :: RunOf(job, run) && Last(run).pc == Idle && Last(run).acked == {0}
  {
    hide IsRun, Inv, Enabled, Next, SlotBytes;
    CreatedRun(job);
    var run: Run :| RunOf(job, run) && Last(run).pc == Idle && Last(run).mem == job.Fresh() && Last(run).acked == {};
    EmptyHasNothing(job.Plan().chunkCount);
    assert Missing(job.Fresh(), 0) by {
      assert 0 !in job.Fresh().bitmap.Members();
    }
    CommitCompletes(job, run, 0);
    assert {} + {0 as nat} == {0};
  }
}
