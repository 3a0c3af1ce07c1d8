/** Whole runs of the commit protocol, through any number of crashes, and what
    they guarantee. */
module ProtocolRuns {
  import opened Bytes
  import opened Basics
  import opened ChunkLayout
  import opened Bitmap
  import opened Metadata
  import opened SlotCodec
  import opened Disk
  import opened Verification
  import opened Protocol
  import opened ProtocolSafety

  // ---- reboots, by the condition of the disk ----

  lemma ResizedImage(n: nat, ops: seq<Op>, img: seq<byte>)
    requires ops == [Resize(n)] && CrashImage([], ops, img)
    ensures img == [] || img == Zeros(n)
  {
    assert ops[..0] == [];
    assert Torn([], Zeros(n), img);
  }

  /** At most the file's full length, and then zeros in [a, b). */
  predicate LowImage(job: Job, img: seq<byte>, a: nat, b: nat)
    requires job.Valid()
  {
    |img| <= job.FileLen() && (|img| == job.FileLen() && a <= b <= |img| ==> img[a..b] == Zeros(b - a))
  }

  predicate BelowSecond(job: Job, op: Op)
    requires job.Valid()
  {
    match op
    case Write(offset, bytes) => offset + |bytes| <= job.SlotStart(1)
    case Resize(len) => len == 0
  }

  lemma LowStep(job: Job, base: seq<byte>, op: Op, img: seq<byte>, a: nat, b: nat)
    requires job.Valid() && LowImage(job, base, a, b) && BelowSecond(job, op) && Torn(base, Apply(base, op), img)
    requires a <= b <= job.FileLen() && (op.Write? ==> Spares(op, a, b))
    ensures LowImage(job, img, a, b)
  {
    SlotsApart(job);
    if |img| == job.FileLen() {
      match op
      case Write(_, _) =>
        ApplySpares(base, op, a, b);
        TornSpares(base, Apply(base, op), img, a, b);
      case Resize(_) =>
        assert Apply(base, op) == [];
        assert img == base;
    }
  }

  /** Whatever can be read of a file of which nothing was durable: if it has its
      full length, then a range that was never written is still zero. */
  lemma {:induction false} UnbornImage(job: Job, ops: seq<Op>, img: seq<byte>, a: nat, b: nat)
    requires job.Valid() && CrashImage([], ops, img) && a <= b <= job.FileLen()
    requires |ops| >= 1 ==> ops[0] == Resize(job.FileLen())
    requires forall x | 1 <= x < |ops| :: BelowSecond(job, ops[x]) && (ops[x].Write? ==> Spares(ops[x], a, b))
    ensures LowImage(job, img, a, b)
    decreases |ops|
  {
    hide Apply, Torn;
    SlotsApart(job);
    if |ops| == 1 {
      ResizedImage(job.FileLen(), ops, img);
      assert Zeros(job.FileLen())[a..b] == Zeros(b - a);
    } else if |ops| > 1 {
      var init, last := ops[..|ops| - 1], ops[|ops| - 1];
      var base :| CrashImage([], init, base) && Torn(base, Apply(base, last), img);
      UnbornImage(job, init, base, a, b);
      LowStep(job, base, last, img, a, b);
    }
  }

  lemma StartedIsBelow(job: Job, ops: seq<Op>)
    requires job.Valid() && Started(job, ops)
    ensures forall x | 1 <= x < |ops| :: BelowSecond(job, ops[x])
  {
    hide SlotBytes, Job.SlotSize, Job.FileLen, DecodeSlot;
    FreshBelongs(job);
    SlotBytesDecode(job, job.Fresh());
    SlotsApart(job);
    forall x | 1 <= x < |ops|
      ensures BelowSecond(job, ops[x])
    {
      if x > 1 {
        assert Low(job, ops[x]);
        LowIsBelow(job, ops[x]);
      }
    }
  }

  lemma LowIsBelow(job: Job, op: Op)
    requires job.Valid() && Low(job, op)
    ensures BelowSecond(job, op)
  {
    SlotsApart(job);
  }

  /** A full-length image of a file of which nothing was durable, whether read
      after a crash or from the page cache, is a fresh record or unreadable. */
  lemma UnbornOpen(job: Job, s: State, g: File)
    requires job.Valid() && s.cond == Unborn && UnbornInv(job, s) && |View(g)| == job.FileLen()
    requires CrashImage([], s.part.value.pending, View(g)) && TearDetected(job, s, View(g))
    ensures OpenResult(job, Some(g), None).Failure?
            || (OpenResult(job, Some(g), None) == Success(Some(Stored(job.Fresh()))) && FreshRead(job, View(g)))
  {
    hide DecodeSlot, SlotBytes, CrashImage, ApplyAll, EnsureCompatible, Started;
    var ops, img, first := s.part.value.pending, View(g), Stored(job.Fresh());
    FreshBelongs(job);
    StoredKeeps(job, job.Fresh());
    SlotsApart(job);
    StartedIsBelow(job, ops);
    StartsWithResize(job, ops);
    UnbornImage(job, ops, img, job.SlotStart(1), job.FileLen());
    ZeroSlotUnreadable(job, img[job.SlotStart(1)..job.SlotStart(1) + job.SlotSize()]);
    if DecodeAt(job, img, 0) == Success(first) {
      OpenRecovered(job, g, first);
    } else {
      NothingReadable(job, g);
    }
  }

  lemma StartsWithResize(job: Job, ops: seq<Op>)
    requires job.Valid() && Started(job, ops)
    ensures |ops| >= 1 ==> ops[0] == Resize(job.FileLen())
  {
  }

  lemma NothingReadable(job: Job, g: File)
    requires job.Valid() && |View(g)| == job.FileLen()
    requires Unreadable(DecodeAt(job, View(g), 0)) && Unreadable(DecodeAt(job, View(g), 1))
    ensures OpenResult(job, Some(g), None).Failure?
  {
    hide DecodeSlot, DecodeAt, ApplyAll;
    BestSlotIsReadBest(job, View(g));
  }

  /** Any other length is refused. */
  lemma WrongLength(job: Job, g: File)
    requires job.Valid() && |View(g)| != job.FileLen()
    ensures OpenResult(job, Some(g), None) == Failure(PartSizeMismatch(job.FileLen(), |View(g)|))
  {
  }

  lemma UnbornReboot(job: Job, s: State, crashed: bool, part: Option<File>, target: Option<File>)
    requires job.Valid() && s.cond == Unborn && UnbornInv(job, s) && RebootAllowed(job, s, crashed, part, target)
    ensures Inv(job, AfterReboot(job, s, crashed, part, target))
    ensures target == None
  {
    hide DecodeSlot, DecodeAt, SlotBytes, CrashImage, ApplyAll, Guarded, InStep, Accepts, EnsureCompatible, Started,
      OpenResult, FreshRead;
    if part.Some? {
      var f, g := s.part.value, part.value;
      if crashed {
        NothingPending(g);
      } else {
        ViewIsCrashImage(f.durable, f.pending);
      }
      if |View(g)| == job.FileLen() {
        UnbornOpen(job, s, g);
        UnbornTakenUp(job, s, crashed, g);
      } else {
        WrongLength(job, g);
      }
    } else {
      NothingFound(job);
    }
  }

  lemma NothingFound(job: Job)
    requires job.Valid()
    ensures OpenResult(job, None, None) == Success(None)
  {
  }

  /** What was read can be built upon: durably after a crash, and otherwise with
      everything still pending. */
  lemma UnbornTakenUp(job: Job, s: State, crashed: bool, g: File)
    requires job.Valid() && s.cond == Unborn && UnbornInv(job, s) && |View(g)| == job.FileLen()
    requires if crashed then g.pending == [] else Some(g) == s.part
    requires OpenResult(job, Some(g), None).Failure?
             || (OpenResult(job, Some(g), None) == Success(Some(Stored(job.Fresh()))) && FreshRead(job, View(g)))
    ensures Inv(job, AfterReboot(job, s, crashed, Some(g), None))
  {
    hide DecodeSlot, DecodeAt, SlotBytes, CrashImage, ApplyAll, Accepts, OpenResult, Guarded, InStep, Started;
    FreshBelongs(job);
    StoredKeeps(job, job.Fresh());
    SlotsApart(job);
    if crashed {
      NothingPending(g);
      if OpenResult(job, Some(g), None).Success? {
        CleanGuarded(job, g.durable, Stored(job.Fresh()), s.ledger, s.acked);
        assert g == File(g.durable, []);
      }
    } else if OpenResult(job, Some(g), None).Success? {
      ShortIsShort(job, g);
    }
  }

  /** A file that reads at its full length has been allocated and written. */
  lemma ShortIsShort(job: Job, g: File)
    requires job.Valid() && g.durable == [] && Started(job, g.pending) && FreshRead(job, View(g))
    ensures |g.pending| >= 2
  {
    hide DecodeSlot, SlotBytes;
    SlotsApart(job);
    if |g.pending| == 1 {
      assert g.pending[..0] == [];
      assert ApplyAll([], g.pending) == Apply(ApplyAll([], g.pending[..0]), g.pending[0]);
      assert View(g) == Zeros(job.FileLen());
      assert View(g)[job.SlotStart(0)..job.SlotStart(0) + job.SlotSize()] == Zeros(job.SlotSize());
      ZeroSlotUnreadable(job, Zeros(job.SlotSize()));
    }
  }

  lemma LiveReboot(job: Job, s: State, crashed: bool, part: Option<File>, target: Option<File>)
    requires job.Valid() && s.cond == Live && LiveInv(job, s) && RebootAllowed(job, s, crashed, part, target)
    ensures OpenResult(job, part, target).Success? && OpenResult(job, part, target).value.Some?
    ensures LiveInv(job, AfterReboot(job, s, crashed, part, target))
            && AfterReboot(job, s, crashed, part, target).cond == Live
    ensures AfterReboot(job, s, crashed, part, target).pc == Idle
  {
    hide DecodeSlot, DecodeAt, SlotBytes, OpenResult, ApplyAll, Guarded, InStep;
    if crashed {
      LiveCrash(job, s, part, target);
    } else {
      LiveRestart(job, s);
    }
  }

  /** A crash around the truncation leaves the whole part file or exactly the
      content. */
  lemma ShrinkingImage(job: Job, f: File, img: seq<byte>)
    requires job.Valid() && |f.pending| > 0 && f.pending[|f.pending| - 1] == Resize(job.ContentLen())
    requires |f.durable| == job.FileLen() && Within(f.pending[..|f.pending| - 1], job.FileLen())
    requires CrashImage(f.durable, f.pending, img)
    ensures exists base: seq<byte> ::
              CrashImage(f.durable, f.pending[..|f.pending| - 1], base) && |base| == job.FileLen()
              && (img == base || img == Content(job, base))
  {
    var init := f.pending[..|f.pending| - 1];
    var base :| CrashImage(f.durable, init, base) && Torn(base, Apply(base, Resize(job.ContentLen())), img);
    CrashKeepsLength(f.durable, init, base);
    if |img| == |base| {
      assert img == base;
    } else {
      assert img == base[..job.ContentLen()];
    }
  }

  lemma ShrinkingCrash(job: Job, s: State, part: Option<File>, target: Option<File>)
    requires job.Valid() && s.cond == Shrinking && ShrinkingInv(job, s) && RebootAllowed(job, s, true, part, target)
    ensures Inv(job, AfterReboot(job, s, true, part, target))
    ensures AfterReboot(job, s, true, part, target).pc == Idle || AfterReboot(job, s, true, part, target).cond == Shrunk
  {
    hide DecodeSlot, DecodeAt, SlotBytes, ApplyAll, CrashImage, Guarded, InStep, Accepts, ReadBest, EnsureCompatible,
      ChunkCountFor, OpenResult;
    SlotsApart(job);
    var f, g := s.part.value, part.value;
    var init := f.pending[..|f.pending| - 1];
    NothingPending(g);
    GuardedWithin(job, f.durable, init, s.lo, s.hi, s.ledger, s.acked);
    ShrinkingImage(job, f, g.durable);
    var base :| CrashImage(f.durable, init, base) && |base| == job.FileLen()
                && (g.durable == base || g.durable == Content(job, base));
    FullView(job, f.durable, init, s.lo, s.hi, s.ledger, s.acked);
    if g.durable == base {
      TearDetectedIsOk(job, s, base, init);
      RecoveredIsGuarded(job, f.durable, init, s.lo, s.hi, s.ledger, s.acked, base);
      OpenRecovered(job, g, ReadBest(job, base).value.0);
      assert g == File(base, []);
    } else {
      FullImage(job, f.durable, init, s.lo, s.hi, s.ledger, s.acked, base);
      NewestCommitted(job, f.durable, init, s.lo, s.hi, s.ledger, s.acked);
      WrongLength(job, g);
    }
  }

  lemma GuardedWithin(job: Job, durable: seq<byte>, ops: seq<Op>, lo: PartMetadata, hi: Option<PartMetadata>,
                      ledger: seq<byte>, acked: set<nat>)
    requires job.Valid() && Guarded(job, durable, ops, lo, hi, ledger, acked)
    ensures |durable| == job.FileLen() && Within(ops, job.FileLen()) && |ledger| == job.ContentLen()
  {
  }

  /** With every chunk committed, every crash image has the committed content. */
  lemma FullImage(job: Job, durable: seq<byte>, ops: seq<Op>, lo: PartMetadata, hi: Option<PartMetadata>,
                  ledger: seq<byte>, acked: set<nat>, img: seq<byte>)
    requires job.Valid() && Guarded(job, durable, ops, lo, hi, ledger, acked)
    requires forall c: nat | c < job.Plan().chunkCount :: c in Newest(lo, hi).Complete()
    requires CrashImage(durable, ops, img) && |img| == job.FileLen()
    ensures Content(job, img) == ledger
  {
    hide DecodeSlot, DecodeAt, CrashImage;
    forall c: nat | c < job.Plan().chunkCount
      ensures SameChunk(job, img, ledger, c)
    {
      assert ChunkSafe(job, durable, ops, ledger, c);
      CrashKeepsQuiet(durable, ops, img, job.Plan().Lo(c), job.Plan().Hi(c));
    }
    AllChunksSame(job, img, ledger);
  }

  lemma ShrinkingRestart(job: Job, s: State)
    requires job.Valid() && s.cond == Shrinking && ShrinkingInv(job, s)
             && RebootAllowed(job, s, false, s.part, s.target)
    ensures Inv(job, AfterReboot(job, s, false, s.part, s.target))
  {
    hide DecodeSlot, DecodeAt, SlotBytes, ApplyAll, CrashImage, Guarded, InStep, Accepts, ReadBest, EnsureCompatible;
    SlotsApart(job);
    ShrinkingView(job, s.part.value);
  }

  /** Nothing is pending: a crash changes nothing. */
  lemma CleanCrash(f: File, g: File)
    requires f.pending == [] && CrashOf(f, g)
    ensures g == f
  {
  }

  lemma SettledReboot(job: Job, s: State, crashed: bool, part: Option<File>, target: Option<File>)
    requires job.Valid() && Inv(job, s) && RebootAllowed(job, s, crashed, part, target)
    requires s.cond.Nothing? || s.cond.Shrunk? || s.cond.Final? || s.cond.Hopeless?
    ensures Inv(job, AfterReboot(job, s, crashed, part, target))
  {
    hide DecodeSlot, DecodeAt, SlotBytes, CrashImage, Guarded, InStep, Accepts, ReadBest, EnsureCompatible;
    SlotsApart(job);
    if crashed {
      if s.part.Some? && part.Some? { CleanCrash(s.part.value, part.value); }
      if s.target.Some? && target.Some? { CleanCrash(s.target.value, target.value); }
      if s.target.Some? && part.Some? { CleanCrash(s.target.value, part.value); }
    }
  }

  lemma RebootKeepsInv(job: Job, s: State, crashed: bool, part: Option<File>, target: Option<File>)
    requires job.Valid() && Inv(job, s) && RebootAllowed(job, s, crashed, part, target)
    ensures Inv(job, AfterReboot(job, s, crashed, part, target))
  {
    hide DecodeSlot, DecodeAt, SlotBytes, CrashImage, Guarded, InStep, Accepts, OpenResult, ApplyAll;
    match s.cond
    case Unborn => UnbornReboot(job, s, crashed, part, target);
    case Live => LiveReboot(job, s, crashed, part, target);
    case Shrinking =>
      if crashed {
        ShrinkingCrash(job, s, part, target);
      } else {
        ShrinkingRestart(job, s);
      }
    case _ => SettledReboot(job, s, crashed, part, target);
  }

  lemma StepKeepsInv(job: Job, s: State, a: Action)
    requires job.Valid() && Inv(job, s) && Enabled(job, s, a)
    ensures Inv(job, Next(job, s, a))
  {
    hide Inv, Next, Enabled;
    match a
    case CreateFile => CreationKeepsInv(job, s, a);
    case Allocate => CreationKeepsInv(job, s, a);
    case WriteFirstSlot(_) => CreationKeepsInv(job, s, a);
    case SyncCreated => SyncCreatedKeepsInv(job, s);
    case WriteContent(i, offset, bytes) => WriteContentKeepsInv(job, s, i, offset, bytes);
    case SyncData(i) => SyncDataKeepsInv(job, s, i);
    case WriteSlot(i, count) => WriteSlotKeepsInv(job, s, i, count);
    case SyncSlot => SyncSlotKeepsInv(job, s);
    case Truncate => TruncateKeepsInv(job, s);
    case SyncTruncated => SyncTruncatedKeepsInv(job, s);
    case Rename => RenameKeepsInv(job, s);
    case Reboot(crashed, part, target) => RebootStepKeepsInv(job, s, crashed, part, target);
  }

  lemma RebootStepKeepsInv(job: Job, s: State, crashed: bool, part: Option<File>, target: Option<File>)
    requires job.Valid() && Inv(job, s) && Enabled(job, s, Reboot(crashed, part, target))
    ensures Inv(job, Next(job, s, Reboot(crashed, part, target)))
  {
    hide Inv, RebootAllowed, AfterReboot;
    RebootKeepsInv(job, s, crashed, part, target);
  }

  // ---- whole runs ----

  ghost predicate IsRun(job: Job, states: seq<State>, actions: seq<Action>)
    requires job.Valid()
  {
    |states| == |actions| + 1 && states[0] == Init(job)
    && forall k | 0 <= k < |actions| ::
         Enabled(job, states[k], actions[k]) && states[k + 1] == Next(job, states[k], actions[k])
  }

  /** Every state of every run satisfies the invariant. */
  lemma {:induction false} RunsKeepInv(job: Job, states: seq<State>, actions: seq<Action>, k: nat)
    requires job.Valid() && IsRun(job, states, actions) && k < |states|
    ensures Inv(job, states[k])
    decreases k
  {
    hide Enabled, Next, Inv;
    if k == 0 {
      InitKeepsInv(job);
    } else {
      RunsKeepInv(job, states, actions, k - 1);
      StepKeepsInv(job, states[k - 1], actions[k - 1]);
    }
  }

  lemma InitKeepsInv(job: Job)
    requires job.Valid()
    ensures Inv(job, Init(job))
  {
  }

  // ---- every mark comes from a commit ----

  predicate Marks(m: PartMetadata, c: nat) {
    m.bitmap.Sized() && m.bitmap.Has(c)
  }

  /** Step j is a commit of chunk c, and what the file read there at that moment
      is what `content` has for the chunk. */
  ghost predicate CommittedAt(job: Job, states: seq<State>, actions: seq<Action>, j: nat, c: nat, content: seq<byte>)
    requires job.Valid()
  {
    j < |actions| && j < |states| && actions[j].WriteSlot? && actions[j].i == c && states[j].part.Some?
    && SameChunk(job, View(states[j].part.value), content, c)
  }

  ghost predicate WasCommitted(job: Job, states: seq<State>, actions: seq<Action>, k: nat, c: nat, content: seq<byte>)
    requires job.Valid()
  {
    exists j: nat :: j < k && CommittedAt(job, states, actions, j, c, content)
  }

  lemma NotFresh(job: Job, c: nat)
    requires job.Valid()
    ensures !Marks(job.Fresh(), c) && !Marks(Stored(job.Fresh()), c)
  {
    EmptyHasNothing(job.Plan().chunkCount);
    assert !(c in job.Fresh().bitmap.Members());
  }

  /** A step that is no slot write marks nothing and records nothing. */
  lemma StepMarksNothing(job: Job, s: State, a: Action, c: nat)
    requires job.Valid() && Inv(job, s) && Enabled(job, s, a) && !a.WriteSlot? && !a.Reboot?
    requires Marks(Newest(Next(job, s, a).lo, Next(job, s, a).hi), c)
    ensures Marks(Newest(s.lo, s.hi), c) && Next(job, s, a).ledger == s.ledger
  {
    hide DecodeSlot, DecodeAt, SlotBytes, Accepts, ApplyAll, Guarded, Started, FreshRead, Whole, OpenResult,
      Bits.AllComplete, Bits.Has;
    NotFresh(job, c);
  }

  lemma RebootMarksNothing(job: Job, s: State, crashed: bool, part: Option<File>, target: Option<File>, c: nat)
    requires job.Valid() && Inv(job, s) && RebootAllowed(job, s, crashed, part, target)
    requires var n := AfterReboot(job, s, crashed, part, target); Marks(Newest(n.lo, n.hi), c)
    ensures Marks(Newest(s.lo, s.hi), c) && AfterReboot(job, s, crashed, part, target).ledger == s.ledger
  {
    hide DecodeSlot, DecodeAt, SlotBytes, CrashImage, Accepts, OpenResult, ApplyAll, Guarded, InStep, Started, Bits.Has,
      FreshRead, Whole;
    NotFresh(job, c);
    if s.cond.Live? {
      LiveRebootRecord(job, s, crashed, part, target);
      var f := s.part.value;
      LoMarksLess(job, f.durable, f.pending, s.lo, s.hi, s.ledger, s.acked, c);
    } else if s.cond.Shrinking? {
      var f := s.part.value;
      LoMarksLess(job, f.durable, f.pending[..|f.pending| - 1], s.lo, s.hi, s.ledger, s.acked, c);
      if crashed && OpenResult(job, part, target).Success? {
        ShrinkingRebootRecord(job, s, part, target);
      } else if !crashed {
        ClosedForGood(job, s, crashed, part, target);
      }
    } else if s.cond.Unborn? {
      UnbornRebootRecord(job, s, crashed, part, target);
    } else if !s.cond.Nothing? {
      ClosedForGood(job, s, crashed, part, target);
    } else {
      NothingFound(job);
    }
  }

  lemma UnbornRebootRecord(job: Job, s: State, crashed: bool, part: Option<File>, target: Option<File>)
    requires job.Valid() && s.cond == Unborn && UnbornInv(job, s) && RebootAllowed(job, s, crashed, part, target)
    ensures var found := OpenResult(job, part, target);
            found.Success? && found.value.Some? ==> found.value.value == Stored(job.Fresh())
  {
    hide DecodeSlot, DecodeAt, SlotBytes, CrashImage, ApplyAll, Accepts, Started, OpenResult, FreshRead;
    if part.Some? {
      var f, g := s.part.value, part.value;
      if crashed {
        NothingPending(g);
      } else {
        ViewIsCrashImage(f.durable, f.pending);
      }
      if |View(g)| == job.FileLen() {
        UnbornOpen(job, s, g);
      } else {
        WrongLength(job, g);
      }
    } else {
      NothingFound(job);
    }
  }

  lemma LoMarksLess(job: Job, durable: seq<byte>, ops: seq<Op>, lo: PartMetadata, hi: Option<PartMetadata>,
                    ledger: seq<byte>, acked: set<nat>, c: nat)
    requires job.Valid() && Guarded(job, durable, ops, lo, hi, ledger, acked)
    ensures Marks(lo, c) ==> Marks(Newest(lo, hi), c)
  {
    hide DecodeSlot, DecodeAt, ChunkSafe;
    assert Marks(lo, c) ==> c in lo.Complete();
  }

  /** A slot write marks one more chunk and records what the file reads there. */
  lemma SlotWriteMarksOne(job: Job, s: State, i: nat, count: nat, c: nat)
    requires job.Valid() && Inv(job, s) && Enabled(job, s, WriteSlot(i, count))
    requires var n := Next(job, s, WriteSlot(i, count)); Marks(Newest(n.lo, n.hi), c)
    ensures var n := Next(job, s, WriteSlot(i, count));
            if c == i then s.part.Some? && SameChunk(job, View(s.part.value), n.ledger, c)
            else Marks(Newest(s.lo, s.hi), c) && SameChunk(job, s.ledger, n.ledger, c)
  {
    hide DecodeSlot, DecodeAt, SlotBytes, ApplyAll, Guarded, WithChunk, SameChunk;
    CommittingGuarded(job, s);
    NextBelongs(job, s.mem, i);
    WithChunkKeepsOthers(job, s.ledger, i, View(s.part.value));
    assert c in NextMetadata(s.mem, i).Complete();
    if c != i {
      assert c in s.mem.Complete();
    }
  }

  /** Every chunk that the newest record marks was committed in this run, and the
      ledger has what the file read there at that moment. */
  lemma {:induction false} MarkedWasCommitted(job: Job, states: seq<State>, actions: seq<Action>, k: nat, c: nat)
    requires job.Valid() && IsRun(job, states, actions) && k < |states| && Marks(Newest(states[k].lo, states[k].hi), c)
    ensures WasCommitted(job, states, actions, k, c, states[k].ledger)
    decreases k
  {
    hide Enabled, Next, Inv, SameChunk, Marks;
    if k == 0 {
      NotFresh(job, c);
    } else {
      var s, a := states[k - 1], actions[k - 1];
      RunsKeepInv(job, states, actions, k - 1);
      StepKeepsLink(job, s, a, c);
      if a.WriteSlot? && a.i == c {
        assert CommittedAt(job, states, actions, k - 1, c, states[k].ledger);
      } else {
        MarkedWasCommitted(job, states, actions, k - 1, c);
        CommittedCarries(job, states, actions, k - 1, c, s.ledger, states[k].ledger);
      }
    }
  }

  lemma StepKeepsLink(job: Job, s: State, a: Action, c: nat)
    requires job.Valid() && Inv(job, s) && Enabled(job, s, a)
    requires Marks(Newest(Next(job, s, a).lo, Next(job, s, a).hi), c)
    ensures if a.WriteSlot? && a.i == c
            then s.part.Some? && SameChunk(job, View(s.part.value), Next(job, s, a).ledger, c)
            else Marks(Newest(s.lo, s.hi), c)
                 && (Next(job, s, a).ledger == s.ledger || SameChunk(job, s.ledger, Next(job, s, a).ledger, c))
  {
    hide Inv, SameChunk, Marks, Newest;
    if a.WriteSlot? {
      hide Enabled, Next;
      SlotWriteMarksOne(job, s, a.i, a.count, c);
    } else if a.Reboot? {
      hide AfterReboot, RebootAllowed;
      RebootMarksNothing(job, s, a.crashed, a.part, a.target, c);
    } else {
      hide Enabled, Next;
      StepMarksNothing(job, s, a, c);
    }
  }

  lemma CommittedCarries(job: Job, states: seq<State>, actions: seq<Action>, k: nat, c: nat, x: seq<byte>, y: seq<byte>)
    requires job.Valid() && WasCommitted(job, states, actions, k, c, x) && (x == y || SameChunk(job, x, y, c))
    ensures WasCommitted(job, states, actions, k, c, y) && WasCommitted(job, states, actions, k + 1, c, y)
  {
    hide SameChunk;
    var j: nat :| j < k && CommittedAt(job, states, actions, j, c, x);
    if x != y {
      SameChunkTransitive(job, View(states[j].part.value), x, y, c);
    }
    assert CommittedAt(job, states, actions, j, c, y);
  }

  /** A crash at any point of any run can lose recent work, but it can never
      mark missing data as complete: every chunk that the recovered record marks
      was committed earlier in the run, the file holds what was read there when
      it was committed, and no acknowledged chunk is missing from the record. */
  lemma CrashNeverMarksMissingData(job: Job, states: seq<State>, actions: seq<Action>, k: nat,
                                   part: Option<File>, target: Option<File>)
    requires job.Valid() && IsRun(job, states, actions) && k < |states|
    requires RebootAllowed(job, states[k], true, part, target)
    ensures OpenResult(job, part, target).Success? && OpenResult(job, part, target).value.Some? ==>
              var m := OpenResult(job, part, target).value.value;
              part.Some? && BelongsTo(job, m) && states[k].acked <= m.Complete()
              && forall c: nat | c in m.Complete() :: WasCommitted(job, states, actions, k, c, View(part.value))
  {
    RebootNeverMarksMissingData(job, states, actions, k, true, part, target);
  }

  /** The same for a program that starts again, crash or no crash. */
  lemma RebootNeverMarksMissingData(job: Job, states: seq<State>, actions: seq<Action>, k: nat, crashed: bool,
                                    part: Option<File>, target: Option<File>)
    requires job.Valid() && IsRun(job, states, actions) && k < |states|
    requires RebootAllowed(job, states[k], crashed, part, target)
    ensures OpenResult(job, part, target).Success? && OpenResult(job, part, target).value.Some? ==>
              var m := OpenResult(job, part, target).value.value;
              part.Some? && BelongsTo(job, m) && states[k].acked <= m.Complete()
              && forall c: nat | c in m.Complete() :: WasCommitted(job, states, actions, k, c, View(part.value))
  {
    hide DecodeSlot, DecodeAt, SlotBytes, CrashImage, Accepts, OpenResult, ApplyAll, RebootAllowed, IsRun, Inv,
      SameChunk,
      WasCommitted;
    RunsKeepInv(job, states, actions, k);
    RebootKeepsInv(job, states[k], crashed, part, target);
    var r := AfterReboot(job, states[k], crashed, part, target);
    if r.pc == Idle {
      IdleIsLive(job, r);
      forall c: nat | c in r.mem.Complete()
        ensures WasCommitted(job, states, actions, k, c, View(part.value))
      {
        OpenedWasCommitted(job, states, actions, k, crashed, part, target, c);
      }
    }
  }

  /** While idle, what memory marks is what the newest record marks. */
  lemma IdleMarks(job: Job, s: State, c: nat)
    requires job.Valid() && Inv(job, s) && s.pc == Idle && c in s.mem.Complete()
    requires BelongsTo(job, s.mem)
    ensures Marks(Newest(s.lo, s.hi), c)
  {
    hide DecodeSlot, DecodeAt, ApplyAll, Started, FreshRead, Guarded, Whole;
    assert Marks(s.mem, c);
    NotFresh(job, c);
  }

  lemma OpenedWasCommitted(job: Job, states: seq<State>, actions: seq<Action>, k: nat, crashed: bool,
                           part: Option<File>, target: Option<File>, c: nat)
    requires job.Valid() && IsRun(job, states, actions) && k < |states|
    requires RebootAllowed(job, states[k], crashed, part, target)
    requires var r := AfterReboot(job, states[k], crashed, part, target);
             Inv(job, r) && r.pc == Idle && BelongsTo(job, r.mem) && c in r.mem.Complete() && r.part == part
             && part.Some?
             && SameChunk(job, View(part.value), r.ledger, c)
    ensures WasCommitted(job, states, actions, k, c, View(part.value))
  {
    hide IsRun, Inv, SameChunk, RebootAllowed, AfterReboot, Marks;
    var r := AfterReboot(job, states[k], crashed, part, target);
    RunsKeepInv(job, states, actions, k);
    IdleMarks(job, r, c);
    RebootMarksNothing(job, states[k], crashed, part, target, c);
    MarkedWasCommitted(job, states, actions, k, c);
    SameChunkSymmetric(job, View(part.value), r.ledger, c);
    CommittedCarries(job, states, actions, k, c, r.ledger, View(part.value));
  }

  lemma IdleIsLive(job: Job, s: State)
    requires job.Valid() && Inv(job, s) && s.pc == Idle
    ensures s.part.Some? && s.target == None && BelongsTo(job, s.mem) && s.acked <= s.mem.Complete()
    ensures forall c: nat | c in s.mem.Complete() :: SameChunk(job, View(s.part.value), s.ledger, c)
  {
    hide DecodeSlot, DecodeAt, ApplyAll, Started;
    if s.cond == Unborn {
      FreshBelongs(job);
      StoredKeeps(job, job.Fresh());
    } else {
      LiveContent(job, s);
    }
  }

  lemma LiveContent(job: Job, s: State)
    requires job.Valid() && LiveInv(job, s) && s.pc == Idle
    ensures BelongsTo(job, s.mem) && s.acked <= s.mem.Complete()
    ensures forall c: nat | c in s.mem.Complete() :: SameChunk(job, View(s.part.value), s.ledger, c)
  {
    hide DecodeSlot, DecodeAt, ApplyAll;
    var f := s.part.value;
    forall c: nat | c in s.mem.Complete()
      ensures SameChunk(job, View(f), s.ledger, c)
    {
      assert c in Newest(s.lo, s.hi).Complete();
      assert ChunkSafe(job, f.durable, f.pending, s.ledger, c);
      ViewOfQuiet(f, job.Plan().Lo(c), job.Plan().Hi(c));
    }
  }

  /** What has been acknowledged survives every crash and every restart: the
      download is either open again with those chunks complete, or whole. */
  lemma AcknowledgedSurvives(job: Job, states: seq<State>, actions: seq<Action>, k: nat,
                             crashed: bool, part: Option<File>, target: Option<File>)
    requires job.Valid() && IsRun(job, states, actions) && k < |states| && states[k].acked != {}
    requires RebootAllowed(job, states[k], crashed, part, target)
    ensures var r := AfterReboot(job, states[k], crashed, part, target);
            (r.pc == Idle && BelongsTo(job, r.mem) && states[k].acked <= r.mem.Complete())
            || r.cond.Shrinking? || r.cond.Shrunk? || r.cond.Final?
  {
    hide DecodeSlot, DecodeAt, SlotBytes, CrashImage, Accepts, OpenResult, ApplyAll, IsRun, Guarded, InStep;
    RunsKeepInv(job, states, actions, k);
    var s := states[k];
    RebootKeepsInv(job, s, crashed, part, target);
    var r := AfterReboot(job, s, crashed, part, target);
    if s.cond.Live? {
      LiveReboot(job, s, crashed, part, target);
      IdleIsLive(job, r);
    } else if s.cond.Shrinking? && crashed {
      ShrinkingCrash(job, s, part, target);
      if r.pc == Idle {
        IdleIsLive(job, r);
      }
    }
  }

  lemma StepOnlyGains(job: Job, s: State, a: Action)
    requires job.Valid() && Inv(job, s) && Enabled(job, s, a)
    ensures s.acked <= Next(job, s, a).acked
    ensures s.lo.generation <= Next(job, s, a).lo.generation
    ensures forall c | c in s.acked :: SameChunk(job, s.ledger, Next(job, s, a).ledger, c)
  {
    AckedBounds(job, s);
    if a.Reboot? {
      hide *;
      RebootStepOnlyGains(job, s, a);
    } else if a.WriteSlot? {
      hide *;
      WriteSlotOnlyGains(job, s, a.i, a.count);
    } else if a.SyncData? || a.SyncSlot? || a.SyncCreated? {
      hide *;
      SyncOnlyGains(job, s, a);
    } else {
      hide DecodeSlot, DecodeAt, SlotBytes, Accepts, OpenResult, ApplyAll, SameChunk, Apply, Inv;
    }
  }

  lemma SyncOnlyGains(job: Job, s: State, a: Action)
    requires job.Valid() && Inv(job, s) && Enabled(job, s, a) && (a.SyncData? || a.SyncSlot? || a.SyncCreated?)
    ensures s.acked <= Next(job, s, a).acked
    ensures s.lo.generation <= Next(job, s, a).lo.generation
    ensures forall c | c in s.acked :: SameChunk(job, s.ledger, Next(job, s, a).ledger, c)
  {
    hide DecodeSlot, DecodeAt, SlotBytes, Accepts, OpenResult, ApplyAll, SameChunk, Apply, Guarded, Started, FreshRead,
      Whole;
    AckedBounds(job, s);
    if s.cond == Live {
      MemoryIsNoOlder(job, s);
    }
  }

  lemma MemoryIsNoOlder(job: Job, s: State)
    requires job.Valid() && LiveInv(job, s) && !s.pc.Stopped?
    ensures s.lo.generation <= s.mem.generation
  {
    hide DecodeSlot, DecodeAt, ApplyAll;
  }

  lemma RebootStepOnlyGains(job: Job, s: State, a: Action)
    requires job.Valid() && Inv(job, s) && Enabled(job, s, a) && a.Reboot?
    ensures s.acked <= Next(job, s, a).acked
    ensures s.lo.generation <= Next(job, s, a).lo.generation
    ensures forall c | c in s.acked :: SameChunk(job, s.ledger, Next(job, s, a).ledger, c)
  {
    hide Inv, RebootAllowed, OpenResult, SameChunk;
    AckedBounds(job, s);
    RebootKeepsGeneration(job, s, a.crashed, a.part, a.target);
  }

  lemma WriteSlotOnlyGains(job: Job, s: State, i: nat, count: nat)
    requires job.Valid() && Inv(job, s) && Enabled(job, s, WriteSlot(i, count))
    ensures s.acked <= Next(job, s, WriteSlot(i, count)).acked
    ensures s.lo.generation <= Next(job, s, WriteSlot(i, count)).lo.generation
    ensures forall c | c in s.acked :: SameChunk(job, s.ledger, Next(job, s, WriteSlot(i, count)).ledger, c)
  {
    hide Inv, SlotBytes, WithChunk, SameChunk, ApplyAll, Apply;
    AckedBounds(job, s);
    WithChunkKeepsOthers(job, s.ledger, i, View(s.part.value));
  }

  lemma AckedBounds(job: Job, s: State)
    requires job.Valid() && Inv(job, s)
    ensures forall c | c in s.acked :: c < job.Plan().chunkCount && SameChunk(job, s.ledger, s.ledger, c)
    ensures s.pc.Committing? ==> !(s.pc.i in s.acked)
  {
    hide DecodeSlot, DecodeAt, CrashImage, Accepts, OpenResult, ApplyAll, InStep;
    if s.cond.Live? {
      LiveAcked(job, s);
    } else if s.cond.Shrinking? {
      var f := s.part.value;
      GuardedAcked(job, f.durable, f.pending[..|f.pending| - 1], s.lo, s.hi, s.ledger, s.acked);
    }
    forall c | c in s.acked
      ensures SameChunk(job, s.ledger, s.ledger, c)
    {
      ChunkBounds(job, c);
    }
  }

  lemma GuardedAcked(job: Job, durable: seq<byte>, ops: seq<Op>, lo: PartMetadata, hi: Option<PartMetadata>,
                     ledger: seq<byte>, acked: set<nat>)
    requires job.Valid() && Guarded(job, durable, ops, lo, hi, ledger, acked)
    ensures forall c | c in acked :: c < job.Plan().chunkCount
    ensures |ledger| == job.ContentLen()
  {
    hide DecodeSlot, DecodeAt;
    forall c | c in acked
      ensures c < job.Plan().chunkCount
    {
      CompleteBelowCount(job, lo, c);
    }
  }

  lemma LiveAcked(job: Job, s: State)
    requires job.Valid() && LiveInv(job, s)
    ensures forall c | c in s.acked :: c < job.Plan().chunkCount
    ensures s.pc.Committing? ==> !(s.pc.i in s.acked)
    ensures |s.ledger| == job.ContentLen()
  {
    hide DecodeSlot, DecodeAt, ApplyAll;
    GuardedAcked(job, s.part.value.durable, s.part.value.pending, s.lo, s.hi, s.ledger, s.acked);
  }

  lemma RebootKeepsGeneration(job: Job, s: State, crashed: bool, part: Option<File>, target: Option<File>)
    requires job.Valid() && Inv(job, s) && RebootAllowed(job, s, crashed, part, target)
    ensures s.lo.generation <= AfterReboot(job, s, crashed, part, target).lo.generation
  {
    hide DecodeSlot, DecodeAt, SlotBytes, CrashImage, Accepts, OpenResult, ApplyAll, Guarded;
    var r := AfterReboot(job, s, crashed, part, target);
    if s.cond.Live? {
      LiveRebootRecord(job, s, crashed, part, target);
    } else if s.cond.Shrinking? && crashed {
      if OpenResult(job, part, target).Success? {
        ShrinkingRebootRecord(job, s, part, target);
      }
    } else if s.cond.Shrinking? || s.cond.Shrunk? || s.cond.Final? || s.cond.Hopeless? {
      ClosedForGood(job, s, crashed, part, target);
    }
  }

  /** A guarded file reopens with `lo` or with `hi`. */
  lemma LiveRebootRecord(job: Job, s: State, crashed: bool, part: Option<File>, target: Option<File>)
    requires job.Valid() && s.cond == Live && LiveInv(job, s) && RebootAllowed(job, s, crashed, part, target)
    ensures OpenResult(job, part, target).Success? && OpenResult(job, part, target).value.Some?
    ensures var m := OpenResult(job, part, target).value.value;
            m == s.lo || (s.hi == Some(m) && m.generation == s.lo.generation + 1)
  {
    hide DecodeSlot, DecodeAt, SlotBytes, CrashImage, ApplyAll, ReadBest, OpenResult, ChunkSafe;
    LiveReboot(job, s, crashed, part, target);
    var f, img := s.part.value, View(part.value);
    ViewIsCrashImage(f.durable, f.pending);
    if crashed {
      NothingPending(part.value);
    }
    TearDetectedIsOk(job, s, img, f.pending);
    RecoveredIsGuarded(job, f.durable, f.pending, s.lo, s.hi, s.ledger, s.acked, img);
    OpenRecovered(job, part.value, ReadBest(job, img).value.0);
  }

  lemma ShrinkingRebootRecord(job: Job, s: State, part: Option<File>, target: Option<File>)
    requires job.Valid() && s.cond == Shrinking && ShrinkingInv(job, s) && RebootAllowed(job, s, true, part, target)
    requires OpenResult(job, part, target).Success?
    ensures OpenResult(job, part, target).value.Some?
    ensures OpenResult(job, part, target).value.value.generation >= s.lo.generation
    ensures OpenResult(job, part, target).value.value == s.lo || s.hi == Some(OpenResult(job, part, target).value.value)
  {
    hide DecodeSlot, DecodeAt, SlotBytes, ApplyAll, CrashImage, InStep, Accepts, ReadBest, OpenResult, Guarded;
    SlotsApart(job);
    var f, g := s.part.value, part.value;
    var init := f.pending[..|f.pending| - 1];
    NothingPending(g);
    GuardedWithin(job, f.durable, init, s.lo, s.hi, s.ledger, s.acked);
    ShrinkingImage(job, f, g.durable);
    var base :| CrashImage(f.durable, init, base) && |base| == job.FileLen()
                && (g.durable == base || g.durable == Content(job, base));
    if g.durable == base {
      TearDetectedIsOk(job, s, base, init);
      RecoveredIsGuarded(job, f.durable, init, s.lo, s.hi, s.ledger, s.acked, base);
      OpenRecovered(job, g, ReadBest(job, base).value.0);
      NextIsNewer(job, f.durable, init, s.lo, s.hi, s.ledger, s.acked);
    } else {
      WrongLength(job, g);
    }
  }

  lemma NextIsNewer(job: Job, durable: seq<byte>, ops: seq<Op>, lo: PartMetadata, hi: Option<PartMetadata>,
                    ledger: seq<byte>, acked: set<nat>)
    requires job.Valid() && Guarded(job, durable, ops, lo, hi, ledger, acked)
    ensures hi.Some? ==> hi.value.generation == lo.generation + 1
  {
  }

  /** Once the file has lost its slots, or has been promoted, it is never
      resumed: opening fails with a size mismatch, or because the target exists. */
  lemma ClosedForGood(job: Job, s: State, crashed: bool, part: Option<File>, target: Option<File>)
    requires job.Valid() && Inv(job, s) && RebootAllowed(job, s, crashed, part, target)
    requires s.cond.Shrunk? || s.cond.Final? || s.cond.Hopeless? || (s.cond.Shrinking? && !crashed)
    ensures OpenResult(job, part, target).Failure?
    ensures s.cond.Shrunk? ==> OpenResult(job, part, target).error == PartSizeMismatch(job.FileLen(), job.ContentLen())
    ensures s.cond.Final? && target.Some? ==> OpenResult(job, part, target).error == TargetExists
  {
    hide DecodeSlot, DecodeAt, SlotBytes, CrashImage, Guarded, Accepts, ReadBest, EnsureCompatible;
    SlotsApart(job);
    if s.cond.Shrinking? {
      ShrinkingView(job, s.part.value);
    } else if crashed {
      if s.part.Some? && part.Some? { CleanCrash(s.part.value, part.value); }
      if s.target.Some? && part.Some? { CleanCrash(s.target.value, part.value); }
    }
  }

  /** Along a run, acknowledged chunks stay acknowledged, keep the content they
      were committed with, and the durable generation never falls. */
  lemma {:induction false} RunsOnlyGain(job: Job, states: seq<State>, actions: seq<Action>, j: nat, k: nat)
    requires job.Valid() && IsRun(job, states, actions) && j <= k < |states|
    ensures states[j].acked <= states[k].acked
    ensures states[j].lo.generation <= states[k].lo.generation
    ensures forall c | c in states[j].acked :: SameChunk(job, states[j].ledger, states[k].ledger, c)
    decreases k
  {
    hide Enabled, Next, Inv, SameChunk;
    if j == k {
      RunsKeepInv(job, states, actions, k);
      AckedBounds(job, states[k]);
    } else {
      RunsOnlyGain(job, states, actions, j, k - 1);
      RunsKeepInv(job, states, actions, k - 1);
      StepOnlyGains(job, states[k - 1], actions[k - 1]);
      forall c | c in states[j].acked
        ensures SameChunk(job, states[j].ledger, states[k].ledger, c)
      {
        SameChunkTransitive(job, states[j].ledger, states[k - 1].ledger, states[k].ledger, c);
      }
    }
  }

  /** Commit durability. A commit of generation g that returned at state j is
      never undone: at any later point a crash recovers generation g or newer
      with every chunk acknowledged by then, holding the bytes it was
      committed with. */
  lemma CommitIsDurable(job: Job, states: seq<State>, actions: seq<Action>, j: nat, k: nat, part: Option<File>,
                        target: Option<File>)
    requires job.Valid() && IsRun(job, states, actions) && 0 < j <= k < |states| && actions[j - 1] == SyncSlot
    requires RebootAllowed(job, states[k], true, part, target)
    ensures states[j].acked != {}
    ensures var r := AfterReboot(job, states[k], true, part, target);
            (r.pc == Idle && r.part.Some? && BelongsTo(job, r.mem)
             && states[j].mem.generation <= r.mem.generation && states[j].acked <= r.mem.Complete()
             && forall c | c in states[j].acked :: SameChunk(job, states[j].ledger, View(r.part.value), c))
            || r.cond.Shrunk? || r.cond.Final?
  {
    hide DecodeSlot, DecodeAt, SlotBytes, CrashImage, Accepts, OpenResult, ApplyAll, Guarded, InStep, SameChunk;
    assert Enabled(job, states[j - 1], actions[j - 1]) && states[j] == Next(job, states[j - 1], actions[j - 1]);
    RunsOnlyGain(job, states, actions, j, k);
    RunsKeepInv(job, states, actions, k);
    RebootKeepsInv(job, states[k], true, part, target);
    RebootKeepsGeneration(job, states[k], true, part, target);
    AcknowledgedSurvives(job, states, actions, k, true, part, target);
    var r := AfterReboot(job, states[k], true, part, target);
    if r.pc == Idle {
      IdleIsLive(job, r);
      IdleGeneration(job, r);
      forall c | c in states[j].acked
        ensures SameChunk(job, states[j].ledger, View(r.part.value), c)
      {
        assert c in r.mem.Complete();
        SameChunkSymmetric(job, View(r.part.value), r.ledger, c);
        SameChunkTransitive(job, states[j].ledger, states[k].ledger, View(r.part.value), c);
      }
    }
  }

  /** Since the last commit returned: nothing newer is durable, and at most the
      next generation is on its way. */
  ghost predicate SinceCommit(s: State, g: nat) {
    s.lo.generation == g
    && (s.hi.Some? ==> s.hi.value.generation == g + 1)
    && (s.pc == Idle || s.pc.Committing? ==> s.hi == None && s.mem.generation == g)
    && (s.pc == Idle || s.pc.Committing? || s.pc.SlotWritten? || s.pc.Stopped? || s.pc.Truncating? || s.pc.Truncated?
        || s.pc.Promoted?)
    && (s.cond == Live || s.cond == Shrinking || s.cond == Shrunk || s.cond == Final)
  }

  lemma SinceCommitStep(job: Job, s: State, a: Action, g: nat)
    requires job.Valid() && Enabled(job, s, a) && SinceCommit(s, g) && !a.Reboot? && !a.SyncSlot?
    ensures SinceCommit(Next(job, s, a), g)
  {
    hide SlotBytes, WithChunk, Accepts, ApplyAll, Bits.AllComplete;
  }

  lemma {:induction false} SinceCommitLasts(job: Job, states: seq<State>, actions: seq<Action>, j: nat, k: nat)
    requires job.Valid() && IsRun(job, states, actions) && 0 < j <= k < |states| && actions[j - 1] == SyncSlot
    requires forall x | j <= x < k :: !actions[x].Reboot? && !actions[x].SyncSlot?
    ensures SinceCommit(states[k], states[j].mem.generation)
    decreases k
  {
    if j == k {
      hide Inv, Enabled, Next;
      CommittedGeneration(job, states, actions, j);
    } else {
      hide Enabled, Next, SinceCommit;
      SinceCommitLasts(job, states, actions, j, k - 1);
      SinceCommitStep(job, states[k - 1], actions[k - 1], states[j].mem.generation);
    }
  }

  lemma CommittedGeneration(job: Job, states: seq<State>, actions: seq<Action>, j: nat)
    requires job.Valid() && IsRun(job, states, actions) && 0 < j < |states| && actions[j - 1] == SyncSlot
    ensures SinceCommit(states[j], states[j].mem.generation)
  {
    hide SlotBytes, WithChunk, Accepts, ApplyAll, Inv;
    RunsKeepInv(job, states, actions, j - 1);
    assert Enabled(job, states[j - 1], actions[j - 1]) && states[j] == Next(job, states[j - 1], actions[j - 1]);
    WrittenIsLive(job, states[j - 1]);
  }

  lemma WrittenIsLive(job: Job, s: State)
    requires job.Valid() && Inv(job, s) && (s.pc.SlotWritten? || s.pc.Committing?)
    ensures s.cond == Live
  {
    hide LiveInv, Guarded, Whole, Started, Accepts;
  }

  /** After a commit of generation g and before the next one returns, a crash
      recovers generation g or g + 1, if the file can still be opened at all. */
  lemma CrashRecoversLastOrNext(job: Job, states: seq<State>, actions: seq<Action>, j: nat, k: nat, part: Option<File>,
                                target: Option<File>)
    requires job.Valid() && IsRun(job, states, actions) && 0 < j <= k < |states| && actions[j - 1] == SyncSlot
    requires forall x | j <= x < k :: !actions[x].Reboot? && !actions[x].SyncSlot?
    requires RebootAllowed(job, states[k], true, part, target)
    ensures states[k].cond == Live ==> OpenResult(job, part, target).Success?
    ensures OpenResult(job, part, target).Success? && OpenResult(job, part, target).value.Some? ==>
              var g := states[j].mem.generation;
              g <= OpenResult(job, part, target).value.value.generation <= g + 1
  {
    hide IsRun, Inv, OpenResult, RebootAllowed, SinceCommit;
    RunsKeepInv(job, states, actions, k);
    SinceCommitLasts(job, states, actions, j, k);
    SinceCommitRecord(states[k], states[j].mem.generation);
    RecoversLoOrHi(job, states[k], part, target);
  }

  lemma SinceCommitRecord(s: State, g: nat)
    requires SinceCommit(s, g)
    ensures s.lo.generation == g && (s.hi.Some? ==> s.hi.value.generation == g + 1) && s.cond != Unborn
            && s.cond != Nothing
  {
  }

  /** Whatever can still be opened after a crash has the durable record or the
      one on its way. */
  lemma RecoversLoOrHi(job: Job, s: State, part: Option<File>, target: Option<File>)
    requires job.Valid() && Inv(job, s) && RebootAllowed(job, s, true, part, target) && s.cond != Unborn
             && s.cond != Nothing
    ensures s.cond == Live ==> OpenResult(job, part, target).Success?
    ensures OpenResult(job, part, target).Success? && OpenResult(job, part, target).value.Some? ==>
              var m := OpenResult(job, part, target).value.value;
              m == s.lo || s.hi == Some(m)
  {
    hide DecodeSlot, DecodeAt, SlotBytes, CrashImage, Accepts, OpenResult, ApplyAll, Guarded, RebootAllowed;
    if s.cond.Live? {
      LiveRebootRecord(job, s, true, part, target);
    } else if s.cond.Shrinking? {
      if OpenResult(job, part, target).Success? {
        ShrinkingRebootRecord(job, s, part, target);
      }
    } else {
      ClosedForGood(job, s, true, part, target);
    }
  }

  lemma SameChunkSymmetric(job: Job, x: seq<byte>, y: seq<byte>, c: nat)
    requires job.Valid() && SameChunk(job, x, y, c)
    ensures SameChunk(job, y, x, c)
  {
  }

  lemma IdleGeneration(job: Job, s: State)
    requires job.Valid() && Inv(job, s) && s.pc == Idle
    ensures s.lo.generation <= s.mem.generation
  {
    hide DecodeSlot, DecodeAt, ApplyAll;
  }

  /** A commit never writes the slot that recovery would choose, and every
      readable slot has the parity of its generation. */
  lemma CommitSparesBestSlot(job: Job, states: seq<State>, actions: seq<Action>, k: nat)
    requires job.Valid() && IsRun(job, states, actions) && k < |actions| && actions[k].WriteSlot?
    ensures var s := states[k];
            s.part.Some? && |s.part.value.durable| == job.FileLen()
            && ReadBest(job, s.part.value.durable).Success?
            && ReadBest(job, s.part.value.durable).value.1 != (s.mem.generation + 1) % 2
            && forall i | 0 <= i < 2 :: var d := DecodeAt(job, s.part.value.durable, i);
                 d.Success? ==> d.value.generation % 2 == i
  {
    hide DecodeSlot, DecodeAt, SlotBytes, Accepts, OpenResult, ApplyAll, Guarded, ReadBest;
    RunsKeepInv(job, states, actions, k);
    var s := states[k];
    assert Enabled(job, s, actions[k]);
    assert LiveInv(job, s);
    GuardedSlots(job, s.part.value.durable, s.part.value.pending, s.lo, s.hi, s.ledger, s.acked);
  }

  lemma GuardedSlots(job: Job, durable: seq<byte>, ops: seq<Op>, lo: PartMetadata, hi: Option<PartMetadata>,
                     ledger: seq<byte>, acked: set<nat>)
    requires job.Valid() && Guarded(job, durable, ops, lo, hi, ledger, acked)
    ensures |durable| == job.FileLen() && ReadBest(job, durable) == Success((lo, lo.generation % 2))
    ensures forall i | 0 <= i < 2 :: var d := DecodeAt(job, durable, i);
              d.Success? ==> d.value.generation % 2 == i
  {
    hide DecodeSlot, ChunkSafe, BelongsTo;
    var a := lo.generation % 2;
    assert a == 0 || a == 1;
  }

  /** If the target exists, it has exactly `content_len` bytes, every chunk of it
      was committed in this run and holds what was read there at that moment, and
      it passed the configured check. */
  lemma TargetIsWhole(job: Job, states: seq<State>, actions: seq<Action>, k: nat)
    requires job.Valid() && IsRun(job, states, actions) && k < |states| && states[k].target.Some?
    ensures var f := states[k].target.value;
            f.pending == [] && |f.durable| == job.ContentLen() && Accepts(job.ext, job.hash, f.durable)
            && (forall c: nat | c < job.Plan().chunkCount :: Marks(Newest(states[k].lo, states[k].hi), c))
            && forall c: nat | c < job.Plan().chunkCount :: WasCommitted(job, states, actions, k, c, f.durable)
  {
    hide DecodeSlot, DecodeAt, Accepts, OpenResult, Guarded, InStep, IsRun, WasCommitted;
    RunsKeepInv(job, states, actions, k);
    var s := states[k];
    forall c: nat | c < job.Plan().chunkCount
      ensures Marks(Newest(s.lo, s.hi), c) && WasCommitted(job, states, actions, k, c, s.target.value.durable)
    {
      assert c in Newest(s.lo, s.hi).Complete();
      assert Marks(Newest(s.lo, s.hi), c);
      MarkedWasCommitted(job, states, actions, k, c);
    }
  }
}
