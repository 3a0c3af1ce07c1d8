/** The download machine and the part file together: what `run_download` opens is
    a session of the machine, what it finalizes satisfies the machine's guard, and
    what a crash recovers was streamed. */
module Delivery {
  import opened Bytes
  import opened Basics
  import opened ChunkLayout
  import opened Bitmap
  import opened Metadata
  import opened SlotCodec
  import opened Verification
  import opened Accounting
  import Disk
  import opened Device
  import Protocol
  import ProtocolSafety
  import ProtocolRuns
  import opened PartFiles
  import opened Opening
  import opened DownloadRun
  import DownloadSafety
  import DownloadRuns
  import opened WriterTask

  // ---- opening ----

  /** The record that the durable bytes of a file recover to. */
  ghost function DurableRecord(job: Protocol.Job, f: Disk.File): Option<PartMetadata>
    requires job.Valid()
  {
    if |f.durable| == job.FileLen() && Protocol.ReadBest(job, f.durable).Success?
    then Some(Protocol.ReadBest(job, f.durable).value.0)
    else None
  }

  lemma LiveOpensDurably(job: Protocol.Job, s: Protocol.State)
    requires job.Valid() && s.cond == Protocol.Live && ProtocolSafety.LiveInv(job, s) && s.pc == Protocol.Idle
    ensures s.mem.Consistent()
    ensures ProtocolSafety.SlotQuiet(job, s.part.value.pending, s.mem.generation % 2)
            <==> DownloadRuns.Shows(DurableRecord(job, s.part.value), ProgressOf(s.mem))
  {
    hide Protocol.DecodeAt, Disk.ApplyAll, Protocol.ReadBest, ProtocolSafety.ChunkSafe, ProtocolSafety.SlotQuiet,
      ProtocolSafety.InStep;
    var f := s.part.value;
    LiveRecordIsDurable(job, s);
    ProtocolRuns.GuardedSlots(job, f.durable, f.pending, s.lo, s.hi, s.ledger, s.acked);
    MemoryIsNewest(job, s);
    DownloadRuns.StoredShows(s.mem);
    if s.hi.Some? {
      FewerShowLess(s.lo, s.hi.value);
      DownloadRuns.StoredShows(s.mem);
      SameProgress(s.mem);
    }
  }

  lemma MemoryIsNewest(job: Protocol.Job, s: Protocol.State)
    requires job.Valid() && ProtocolSafety.LiveInv(job, s) && s.pc == Protocol.Idle
    ensures Stored(s.mem) == ProtocolSafety.Newest(s.lo, s.hi) && s.mem.Consistent()
    ensures s.lo.Consistent() && (s.hi.Some? ==> s.hi.value.Consistent() && s.lo.Complete() < s.hi.value.Complete())
  {
    hide Protocol.DecodeAt, Disk.ApplyAll, ProtocolSafety.ChunkSafe;
  }

  lemma SameProgress(m: PartMetadata)
    requires m.Consistent()
    ensures Stored(m).Consistent() && ProgressOf(Stored(m)) == ProgressOf(m)
  {
    DownloadRuns.StoredShows(m);
  }

  lemma FewerShowLess(a: PartMetadata, b: PartMetadata)
    requires a.Consistent() && b.Consistent() && a.Complete() < b.Complete()
    ensures ProgressOf(a) != ProgressOf(b)
  {
    AllCompleteIsFull(a.bitmap);
    AllCompleteIsFull(b.bitmap);
    SubsetSize(a.Complete(), b.Complete());
  }

  /** What opening publishes is durable if and only if no pending operation touches
      the slot of the record that was opened. */
  lemma OpensDurablyExactly(part: PartFile)
    requires part.Valid()
    ensures part.Metadata().Consistent()
    ensures ProtocolSafety.SlotQuiet(part.job, part.drive.part.value.pending, part.activeSlot)
            <==> DownloadRuns.Shows(DurableRecord(part.job, part.drive.part.value), ProgressOf(part.Metadata()))
  {
    hide ProtocolSafety.LiveInv, ProtocolSafety.UnbornInv, ProtocolSafety.SlotQuiet, ProgressOf, Disk.ApplyAll,
      Protocol.ReadBest;
    part.TracksInv();
    var s := Last(part.run);
    if s.cond == Protocol.Unborn {
      UnbornOpensNothing(part.job, s);
    } else {
      OnlyLive(part.job, s);
      LiveOpensDurably(part.job, s);
    }
  }

  lemma OnlyLive(job: Protocol.Job, s: Protocol.State)
    requires job.Valid() && ProtocolSafety.Inv(job, s) && s.pc == Protocol.Idle && s.cond != Protocol.Unborn
    ensures s.cond == Protocol.Live && ProtocolSafety.LiveInv(job, s)
  {
    hide ProtocolSafety.LiveInv;
  }

  lemma UnbornOpensNothing(job: Protocol.Job, s: Protocol.State)
    requires job.Valid() && s.cond == Protocol.Unborn && ProtocolSafety.Inv(job, s) && s.pc == Protocol.Idle
    ensures s.mem.Consistent() && s.part.Some? && DurableRecord(job, s.part.value) == None
    ensures !ProtocolSafety.SlotQuiet(job, s.part.value.pending, s.mem.generation % 2)
  {
    hide Protocol.DecodeAt, Disk.ApplyAll, Protocol.ReadBest, Protocol.SlotBytes, ProtocolSafety.Started,
      ProtocolSafety.SlotQuiet;
    ProtocolSafety.SlotsApart(job);
    ProtocolSafety.FreshBelongs(job);
    ProtocolSafety.StoredKeeps(job, job.Fresh());
    UnbornRecordIsNot(job, s);
  }

  /** The session that an opened part file starts. What it publishes first is
      durable exactly if nothing pending touches the slot that it was read from. */
  ghost predicate IsSessionOf(session: Session, part: PartFile)
    reads part, part.drive, part.bitmap
  {
    part.Valid() && session.Valid() && session.job == part.job
    && |part.Image()| >= part.job.ContentLen() && session.found == PartOf(part)
    && session.durable == DurableRecord(part.job, part.drive.part.value)
    && (DownloadRuns.OpensDurably(session)
        <==> ProtocolSafety.SlotQuiet(part.job, part.drive.part.value.pending, part.activeSlot))
  }

  /** Opens the part file for a run. What comes back is a session of the download
      machine, with what was opened and what of it is durable. */
  method OpenSession(ext: External, drive: Drive, urlHash: UrlHash, remote: RemoteInfo, chunkSize: u64,
                     hash: HashConfig,
                     parallelism: nat, capacity: nat, maxAttempts: nat, ghost before: Run, ghost crashed: bool)
      returns (r: Result<PartFile>, ghost session: Option<Session>, ghost run: Run)
    requires drive.Valid() && |drive.trace| == 1 && parallelism > 0 && capacity > 0 && maxAttempts > 0
    modifies drive
    ensures Continues(JobFor(ext, urlHash, remote, chunkSize, hash), before, crashed, old(drive.Now()))
            && r.Success? ==>
              session.Some? && IsSessionOf(session.value, r.value)
              && r.value.job == JobFor(ext, urlHash, remote, chunkSize, hash) && r.value.run == run
              && Extends(run, before)
    ensures drive.faults == old(drive.faults) + if r == Failure(Io) then 1 else 0
    ensures var found := Protocol.Found(ext.crc32, old(drive.part), old(drive.target), urlHash, remote, chunkSize,
                                        hash);
            r == Failure(Io) || (found.Failure? && r == Failure(found.error))
            || (r.Success? && found.Success?
                && (found.value.Some? ==> r.value.Metadata() == found.value.value && drive.Now() == old(drive.Now())))
  {
    hide Continues, Protocol.BelongsTo, ProgressOf, ProtocolSafety.SlotQuiet, Protocol.ReadBest, Protocol.Found;
    ghost var job := JobFor(ext, urlHash, remote, chunkSize, hash);
    ghost var tracked := Continues(job, before, crashed, drive.Now());
    r, run := OpenOrCreate(ext, drive, urlHash, remote, chunkSize, hash, before, crashed);
    session := None;
    if tracked && r.Success? {
      PartIsWorkable(r.value);
      OpensDurablyExactly(r.value);
      session := Some(Session(job, parallelism, capacity, maxAttempts, PartOf(r.value),
                              DurableRecord(job, r.value.drive.part.value)));
    }
  }

  // ---- finalizing ----

  /** The call that `finalize_part` makes. Whatever comes of it is a step that the
      machine can take, and the target then has the content of the machine. */
  method FinalizePart(part: PartFile, ghost session: Session, ghost s: State) returns (r: Result<()>)
    requires part.Valid() && session.Valid() && session.job == part.job && s.pc == Finalizing
    requires |part.Image()| >= part.job.ContentLen() && s.part == PartOf(part)
    modifies part`run, part.drive
    ensures part.Tracks() && Extends(part.run, old(part.run))
    ensures Enabled(session, s, Promote(r))
    ensures r.Success? ==> Next(session, s, Promote(r)).promoted
                           && part.drive.target == Some(Disk.File(s.part.content, [])) && part.drive.part == None
    ensures r.Failure? ==> part.drive.target == None
    ensures r.Failure? ==> r.error == InvalidConfig || r.error == HashMismatch || r.error == Io
    ensures part.drive.faults == old(part.drive.faults) + if r == Failure(Io) then 1 else 0
    ensures r.Failure? && r.error == InvalidConfig ==> !s.part.meta.bitmap.Sized() || !s.part.meta.bitmap.AllComplete()
    ensures r == Failure(HashMismatch) ==> !Accepts(session.job.ext, session.job.hash, s.part.content)
  {
    hide Accepts, Protocol.BelongsTo, Bits.AllComplete, Enabled, Next;
    PartIsWorkable(part);
    SamePlan(part.job, part.Metadata());
    AllCompleteMeans(part.bitmap.Value());
    ghost var complete := part.Complete();
    r := part.Finalize();
    if r.Success? {
      assert forall i: nat | i < part.job.Plan().chunkCount :: i in complete;
    }
    PromoteAllowed(session, s, r);
  }

  lemma PromoteAllowed(session: Session, s: State, r: Result<()>)
    requires session.Valid() && s.pc == Finalizing && r != Failure(Error.Cancelled) && s.part.meta.bitmap.Sized()
             && |s.part.content| == session.job.ContentLen()
    requires r.Success? ==>
              s.part.meta.bitmap.AllComplete() && Accepts(session.job.ext, session.job.hash, s.part.content)
    ensures Enabled(session, s, Promote(r)) && (r.Success? ==> Next(session, s, Promote(r)).promoted)
  {
    hide TaskReady, TaskNext, SignalReady, SignalNext, Accepts, Bits.AllComplete;
  }

  // ---- from the stream to the disk ----

  /** The commands that the writer took off the queue before step k. */
  function Taken(states: seq<State>, actions: seq<Action>, k: nat): seq<Command>
    requires k <= |actions| && k < |states|
  {
    if k == 0 then []
    else if (actions[k - 1].WriterPut? || actions[k - 1].WriterCommit?) && states[k - 1].queue != []
    then Taken(states, actions, k - 1) + [states[k - 1].queue[0]]
    else Taken(states, actions, k - 1)
  }

  lemma {:induction false} PerformedPrefix(job: Protocol.Job, w: Work, a: seq<Command>, b: seq<Command>, k: nat)
    requires job.Valid() && Workable(job, w.part) && DownloadSafety.AllInRange(job, a)
             && DownloadSafety.AllInRange(job, b)
    requires k <= |a| && k <= |b| && a[..k] == b[..k]
    ensures PerformedAll(job, w, a, k) == PerformedAll(job, w, b, k)
    decreases k
  {
    hide Performed, Workable;
    if k > 0 {
      assert a[..k - 1] == a[..k][..k - 1] && b[..k - 1] == b[..k][..k - 1];
      assert a[k - 1] == a[..k][k - 1] && b[k - 1] == b[..k][k - 1];
      PerformedPrefix(job, w, a, b, k - 1);
    }
  }

  /** Only the writer changes the file, and a writer that failed stays so. */
  lemma OthersLeaveFile(session: Session, s: State, a: Action)
    requires session.Valid() && Enabled(session, s, a) && !a.WriterPut? && !a.WriterCommit?
    ensures Next(session, s, a).part == s.part && (s.writer.Broken? ==> Next(session, s, a).writer.Broken?)
  {
    hide Enabled, Next;
    DownloadRuns.StepFrame(session, s, a);
  }

  /** A command that the writer got through did what performing it does. */
  lemma TakenStep(session: Session, s: State, a: Action)
    requires session.Valid() && DownloadSafety.Inv(session, s) && Enabled(session, s, a)
             && (a.WriterPut? || a.WriterCommit?)
    ensures s.queue != [] && !s.writer.Broken? && InRange(session.job, s.queue[0]) && Workable(session.job, s.part)
    ensures a.WriterCommit? <==> s.queue[0].Commit?
    ensures !Next(session, s, a).writer.Broken?
            ==> Next(session, s, a).part == Performed(session.job, Work(s.part, []), s.queue[0]).part
  {
    hide TaskReady, TaskNext, SignalReady, SignalNext, DownloadSafety.Flow, DownloadSafety.Sched,
      DownloadSafety.Reported, PutBytes, MainNext, AfterJoin, ChunkLen;
    DownloadSafety.HeadMissing(session, s);
    FilePart(session, s);
    if a.WriterPut? && a.count == |s.queue[0].bytes| {
      assert s.queue[0].bytes[..a.count] == s.queue[0].bytes;
    }
  }

  lemma FilePart(session: Session, s: State)
    requires session.Valid() && DownloadSafety.FlowOf(session, s)
    ensures Workable(session.job, s.part)
  {
    hide Eventual, DownloadSafety.CommitsOk, DownloadSafety.TasksOk, DownloadSafety.QueueOk, DownloadSafety.PendingOk;
    DownloadSafety.PartSized(session, s.part, s.bodies, s.history);
  }

  /** The file of the machine is what the commands taken so far made of the file
      that was opened. */
  lemma {:induction false} TakenPerforms(session: Session, states: seq<State>, actions: seq<Action>, k: nat)
    requires session.Valid() && DownloadRuns.IsRun(session, states, actions) && k < |states|
    ensures Workable(session.job, session.found) && DownloadSafety.AllInRange(session.job, Taken(states, actions, k))
    ensures !states[k].writer.Broken? ==>
              states[k].part
              == PerformedAll(session.job, Work(session.found, []), Taken(states, actions, k),
                              |Taken(states, actions, k)|).part
    decreases k
  {
    hide Enabled, Next, DownloadSafety.Inv, Performed;
    if k > 0 {
      TakenPerforms(session, states, actions, k - 1);
      DownloadRuns.RunsKeepInv(session, states, actions, k - 1);
      var s, a, before := states[k - 1], actions[k - 1], Taken(states, actions, k - 1);
      if a.WriterPut? || a.WriterCommit? {
        TakenStep(session, s, a);
        OneMoreTaken(session.job, session.found, before, s.queue[0], s.part);
      } else {
        OthersLeaveFile(session, s, a);
      }
    }
  }

  lemma OneMoreTaken(job: Protocol.Job, found: Part, before: seq<Command>, c: Command, part: Part)
    requires job.Valid() && Workable(job, found) && DownloadSafety.AllInRange(job, before) && InRange(job, c)
             && Workable(job, part)
    requires part == PerformedAll(job, Work(found, []), before, |before|).part
    ensures DownloadSafety.AllInRange(job, before + [c])
    ensures PerformedAll(job, Work(found, []), before + [c], |before| + 1).part
            == Performed(job, Work(part, []), c).part
  {
    hide Workable, PutInto;
    assert (before + [c])[..|before|] == before[..|before|];
    PerformedPrefix(job, Work(found, []), before, before + [c], |before|);
  }

  /** A commit that was taken was executed on the file that the commands before it
      had made. */
  lemma {:induction false} TakenCommit(session: Session, states: seq<State>, actions: seq<Action>, k: nat, q: nat)
    requires session.Valid() && DownloadRuns.IsRun(session, states, actions) && k < |states|
    requires q < |Taken(states, actions, k)| && Taken(states, actions, k)[q].Commit?
    ensures Workable(session.job, session.found) && DownloadSafety.AllInRange(session.job, Taken(states, actions, k))
    ensures exists j: nat :: j < k && TakenAt(session, states, actions, k, q, j)
    decreases k
  {
    hide Enabled, Next, DownloadSafety.Inv, PerformedAll, Performed, Workable;
    TakenPerforms(session, states, actions, k);
    TakenPerforms(session, states, actions, k - 1);
    DownloadRuns.RunsKeepInv(session, states, actions, k - 1);
    var now, before, start := Taken(states, actions, k), Taken(states, actions, k - 1), Work(session.found, []);
    if q < |before| {
      TakenCommit(session, states, actions, k - 1, q);
      var j: nat :| j < k - 1 && TakenAt(session, states, actions, k - 1, q, j);
      assert now[..q] == before[..q];
      PerformedPrefix(session.job, start, now, before, q);
      assert TakenAt(session, states, actions, k, q, j);
    } else {
      TakenStep(session, states[k - 1], actions[k - 1]);
      assert now[..q] == before[..q];
      PerformedPrefix(session.job, start, now, before, q);
      assert TakenAt(session, states, actions, k, q, k - 1);
    }
  }

  ghost predicate TakenAt(session: Session, states: seq<State>, actions: seq<Action>, k: nat, q: nat, j: nat)
    requires session.Valid() && j < k <= |actions| && k < |states| && q < |Taken(states, actions, k)|
    requires Workable(session.job, session.found) && DownloadSafety.AllInRange(session.job, Taken(states, actions, k))
  {
    actions[j].WriterCommit? && states[j].queue != [] && states[j].queue[0] == Taken(states, actions, k)[q]
    && states[j].part == PerformedAll(session.job, Work(session.found, []), Taken(states, actions, k), q).part
  }

  /** Chunk `c` of `content` is the body of an attempt that was streamed to its end
      in this run. */
  ghost predicate WasStreamed(session: Session, states: seq<State>, actions: seq<Action>, c: nat, content: seq<byte>)
    requires session.Valid()
  {
    c < session.Count() && |content| == session.job.ContentLen()
    && exists j: nat, x: nat :: DownloadRuns.ReceivedAt(states, actions, j, x, c)
                                && ChunkBytes(session.job, content, c) == states[j].tasks[c].sent
  }

  /** A slot write of the run found the body that was streamed last. */
  lemma SlotWriteFoundBody(session: Session, states: seq<State>, actions: seq<Action>, k: nat, run: Run, from: nat,
                           x: nat)
    requires session.Valid() && DownloadRuns.IsRun(session, states, actions) && k < |states|
    requires Workable(session.job, session.found) && DownloadSafety.AllInRange(session.job, Taken(states, actions, k))
    requires SlotWritesTraced(session.job, run, from, session.found, Taken(states, actions, k))
    requires from <= x < |run.actions| && run.actions[x].WriteSlot?
    ensures run.states[x].part.Some? && |Disk.View(run.states[x].part.value)| >= session.job.ContentLen()
    ensures WasStreamed(session, states, actions, run.actions[x].i,
                        Protocol.Content(session.job, Disk.View(run.states[x].part.value)))
  {
    hide Enabled, Next, PerformedAll, Workable, WasStreamed, Disk.ApplyAll;
    var q: nat :| q < |Taken(states, actions, k)|
                  && TracedTo(session.job, run, x, session.found, Taken(states, actions, k), q);
    TakenCommit(session, states, actions, k, q);
    var j: nat :| j < k && TakenAt(session, states, actions, k, q, j);
    CommitWasStreamed(session, states, actions, j);
  }

  lemma CommitWasStreamed(session: Session, states: seq<State>, actions: seq<Action>, j: nat)
    requires session.Valid() && DownloadRuns.IsRun(session, states, actions) && j < |actions|
             && actions[j].WriterCommit?
    ensures states[j].queue != []
    ensures WasStreamed(session, states, actions, states[j].queue[0].index, states[j].part.content)
  {
    hide Enabled, Next;
    DownloadRuns.CommitsWhatWasReceived(session, states, actions, j);
    var c := states[j].queue[0].index;
    var y: nat :| DownloadRuns.ReceivedAt(states, actions, y, j, c)
                  && ChunkBytes(session.job, states[j].part.content, c) == states[y].tasks[c].sent;
  }

  /** From the stream to the disk. Take any run of a download, any moment at which
      the machine that it runs on reboots, with or without a crash, and any chunk
      that the recovered record marks. Either the chunk was committed before the
      download began, and the file holds what was read there then, or the file
      holds the body of an attempt that this download streamed to its end. */
  lemma RecoveredChunksWereStreamed(session: Session, states: seq<State>, actions: seq<Action>, k: nat,
                                    run: Run, from: nat, at: nat, crashed: bool,
                                    part: Option<Disk.File>, target: Option<Disk.File>, c: nat)
    requires session.Valid() && DownloadRuns.IsRun(session, states, actions) && k < |states|
    requires Workable(session.job, session.found) && DownloadSafety.AllInRange(session.job, Taken(states, actions, k))
    requires RunOf(session.job, run)
             && SlotWritesTraced(session.job, run, from, session.found, Taken(states, actions, k))
    requires at < |run.states| && Protocol.RebootAllowed(session.job, run.states[at], crashed, part, target)
    requires var found := Protocol.OpenResult(session.job, part, target);
             found.Success? && found.value.Some? && ProtocolRuns.Marks(found.value.value, c)
    ensures part.Some? && |Disk.View(part.value)| == session.job.FileLen()
    ensures (exists j: nat :: j < from
               && ProtocolRuns.CommittedAt(session.job, run.states, run.actions, j, c, Disk.View(part.value)))
            || WasStreamed(session, states, actions, c, Protocol.Content(session.job, Disk.View(part.value)))
  {
    hide DownloadRuns.IsRun, Workable, Protocol.RebootAllowed, Protocol.OpenResult, SlotWritesTraced,
      ProtocolRuns.IsRun,
      Protocol.BelongsTo, ChunkBytes, Disk.ApplyAll, WasStreamed, ProtocolSafety.SameChunk;
    var job := session.job;
    OpenedBest(job, part, target);
    ProtocolRuns.RebootNeverMarksMissingData(job, run.states, run.actions, at, crashed, part, target);
    MarkedIsComplete(job, Protocol.OpenResult(job, part, target).value.value, c);
    var j: nat :| j < at && ProtocolRuns.CommittedAt(job, run.states, run.actions, j, c, Disk.View(part.value));
    if j >= from {
      SlotWriteFoundBody(session, states, actions, k, run, from, j);
      StreamedCarries(session, states, actions, c, Disk.View(run.states[j].part.value), Disk.View(part.value));
    }
  }

  lemma MarkedIsComplete(job: Protocol.Job, m: PartMetadata, c: nat)
    requires job.Valid() && Protocol.BelongsTo(job, m) && ProtocolRuns.Marks(m, c)
    ensures c in m.Complete()
  {
  }

  lemma StreamedCarries(session: Session, states: seq<State>, actions: seq<Action>, c: nat, x: seq<byte>, y: seq<byte>)
    requires session.Valid() && |x| >= session.job.ContentLen() && |y| >= session.job.ContentLen()
    requires WasStreamed(session, states, actions, c, Protocol.Content(session.job, x))
    requires ProtocolSafety.SameChunk(session.job, x, y, c)
    ensures WasStreamed(session, states, actions, c, Protocol.Content(session.job, y))
  {
    hide DownloadRuns.ReceivedAt;
    SameChunkBytes(session.job, x, y, c);
  }

  lemma SameChunkBytes(job: Protocol.Job, x: seq<byte>, y: seq<byte>, c: nat)
    requires job.Valid() && c < job.Plan().chunkCount && |x| >= job.ContentLen() && |y| >= job.ContentLen()
    requires ProtocolSafety.SameChunk(job, x, y, c)
    ensures ChunkBytes(job, Protocol.Content(job, x), c) == ChunkBytes(job, Protocol.Content(job, y), c)
  {
    hide ChunkPlan.Lo, ChunkPlan.Hi;
    ChunkInPlan(job.Plan(), c);
    SliceOfPrefix(x, job.ContentLen(), job.Plan().Lo(c), job.Plan().Hi(c));
    SliceOfPrefix(y, job.ContentLen(), job.Plan().Lo(c), job.Plan().Hi(c));
  }

  lemma SliceOfPrefix(s: seq<byte>, n: nat, lo: nat, hi: nat)
    requires lo <= hi <= n <= |s|
    ensures s[..n][lo..hi] == s[lo..hi]
  {
  }
}
