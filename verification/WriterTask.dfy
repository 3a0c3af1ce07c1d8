/** The writer task (`spawn_part_writer` in `downloader.rs`): the only user of
    the part file while chunks are downloaded. It works the queue off in order
    and stops at the first error. With the two calls before and after it, opening
    and finalizing, this ties the download machine to the part file. */
module WriterTask {
  import opened Bytes
  import opened Basics
  import opened ChunkLayout
  import opened Bitmap
  import opened Metadata
  import opened SlotCodec
  import opened Verification
  import Disk
  import opened Device
  import Protocol
  import ProtocolSafety
  import ProtocolRuns
  import opened PartFiles
  import opened Opening
  import opened DownloadRun
  import DownloadSafety
  import DownloadRuns

  datatype Work = Work(part: Part, replies: seq<PartMetadata>)

  ghost predicate Workable(job: Protocol.Job, part: Part)
    requires job.Valid()
  {
    Protocol.BelongsTo(job, part.meta) && |part.content| == job.ContentLen()
  }

  /** What one command does when nothing fails: the step of the machine, and a
      commit is answered with the record that it left. */
  ghost function Performed(job: Protocol.Job, w: Work, c: Command): (r: Work)
    requires job.Valid() && Workable(job, w.part) && InRange(job, c)
    ensures |r.part.content| == |w.part.content|
  {
    match c
    case Put(i, offset, bytes) => w.(part := PutInto(job, w.part, i, offset, bytes))
    case Commit(i) => var p := CommitInto(w.part, i); Work(p, w.replies + [p.meta])
  }

  lemma PerformedWorkable(job: Protocol.Job, w: Work, c: Command)
    requires job.Valid() && Workable(job, w.part) && InRange(job, c)
    ensures Workable(job, Performed(job, w, c).part)
  {
    hide PutBytes;
    if c.Commit? && Protocol.Missing(w.part.meta, c.index) && w.part.meta.generation + 1 < U64_LIMIT {
      ProtocolSafety.NextBelongs(job, w.part.meta, c.index);
    }
  }

  /** What the first `k` commands do. */
  ghost function PerformedAll(job: Protocol.Job, w: Work, commands: seq<Command>, k: nat): (r: Work)
    requires job.Valid() && Workable(job, w.part) && DownloadSafety.AllInRange(job, commands) && k <= |commands|
    ensures Workable(job, r.part)
    decreases k
  {
    if k == 0 then w
    else
      PerformedWorkable(job, PerformedAll(job, w, commands, k - 1), commands[k - 1]);
      Performed(job, PerformedAll(job, w, commands, k - 1), commands[k - 1])
  }

  ghost function PartOf(p: PartFile): Part
    reads p, p.drive, p.bitmap
    requires p.drive.part.Some? && p.job.Valid() && |p.Image()| >= p.job.ContentLen()
  {
    Part(Protocol.Content(p.job, p.Image()), p.Metadata())
  }

  /** The steps of the download machine are what the part file does. */
  lemma WriterStepsPerform(session: Session, s: State, replies: seq<PartMetadata>)
    requires session.Valid() && Workable(session.job, s.part) && s.queue != [] && s.writer == Serving
    requires InRange(session.job, s.queue[0])
    ensures var c := s.queue[0]; var w := Performed(session.job, Work(s.part, replies), c);
            (c.Put? ==> PutWaits(s, |c.bytes|) && AfterPut(session, s, |c.bytes|).part == w.part)
            && (c.Commit? && CommitWaits(s, Success(())) ==> AfterCommit(session, s, Success(())).part == w.part)
  {
    hide PutBytes, ChunkLen;
    if s.queue[0].Put? {
      assert s.queue[0].bytes[..|s.queue[0].bytes|] == s.queue[0].bytes;
    }
  }

  // ---- the writer loop ----

  /** A command fails only if a call on the drive did, or if the generation is
      used up; it stops at the first call that fails. */
  predicate OnlyFaultsStop(r: Result<()>, faultsBefore: nat, faults: nat, generation: nat) {
    if r.Success? then faults == faultsBefore
    else faults == faultsBefore + 1 || (faults == faultsBefore && generation + 1 == U64_LIMIT)
  }

  /** Some state of the run, from `from` on, has durable bytes that recover to `m`. */
  ghost predicate DurableSince(job: Protocol.Job, run: Run, from: nat, m: PartMetadata)
    requires job.Valid()
  {
    exists x: nat ::
         from <= x < |run.states| && run.states[x].part.Some? && RecoversTo(job, run.states[x].part.value, m)
  }

  /** From step `from` on, a slot was written only for a commit in `commands`, and
      the content then was what the commands before it had made of `start`. */
  ghost predicate SlotWritesTraced(job: Protocol.Job, run: Run, from: nat, start: Part, commands: seq<Command>)
    requires job.Valid() && Workable(job, start) && DownloadSafety.AllInRange(job, commands)
  {
    |run.states| == |run.actions| + 1
    && forall x | from <= x < |run.actions| && run.actions[x].WriteSlot? ::
         exists q: nat :: q < |commands| && TracedTo(job, run, x, start, commands, q)
  }

  ghost predicate TracedTo(job: Protocol.Job, run: Run, x: nat, start: Part, commands: seq<Command>, q: nat)
    requires job.Valid() && Workable(job, start) && DownloadSafety.AllInRange(job, commands)
    requires x < |run.actions| && x < |run.states| && run.actions[x].WriteSlot? && q < |commands|
  {
    commands[q] == Commit(run.actions[x].i) && run.states[x].part.Some?
    && |Disk.View(run.states[x].part.value)| >= job.ContentLen()
    && Protocol.Content(job, Disk.View(run.states[x].part.value))
       == PerformedAll(job, Work(start, []), commands, q).part.content
  }

  /** The slot writes of one command. */
  ghost predicate SlotWritesOf(job: Protocol.Job, run: Run, from: nat, c: Command, content: seq<byte>)
    requires job.Valid()
  {
    |run.states| == |run.actions| + 1
    && (c.Put? ==> forall x | from <= x < |run.actions| :: !run.actions[x].WriteSlot?)
    && (c.Commit? ==> CommitsOnly(job, run, from, c.index, content))
  }

  lemma TraceGrows(job: Protocol.Job, before: Run, run: Run, from: nat, start: Part, commands: seq<Command>, k: nat)
    requires job.Valid() && Workable(job, start) && DownloadSafety.AllInRange(job, commands) && k < |commands|
    requires Extends(run, before) && SlotWritesTraced(job, before, from, start, commands)
    requires SlotWritesOf(job, run, |before.actions|, commands[k],
                          PerformedAll(job, Work(start, []), commands, k).part.content)
    ensures SlotWritesTraced(job, run, from, start, commands)
  {
    hide PerformedAll, Workable, DownloadSafety.AllInRange;
    forall x | from <= x < |run.actions| && run.actions[x].WriteSlot?
      ensures exists q: nat :: q < |commands| && TracedTo(job, run, x, start, commands, q)
    {
      if x < |before.actions| {
        assert before.actions[x] == run.actions[x] && before.states[x] == run.states[x];
        var q: nat :| q < |commands| && TracedTo(job, before, x, start, commands, q);
        assert TracedTo(job, run, x, start, commands, q);
      } else {
        assert TracedTo(job, run, x, start, commands, k);
      }
    }
  }

  ghost predicate Answers(job: Protocol.Job, run: Run, from: nat, found: PartMetadata, replies: seq<PartMetadata>)
    requires job.Valid()
  {
    forall m | m in replies :: m == found || DurableSince(job, run, from, Stored(m))
  }

  lemma AnswersGrow(job: Protocol.Job, before: Run, run: Run, from: nat, found: PartMetadata,
                    replies: seq<PartMetadata>)
    requires job.Valid() && Extends(run, before) && Answers(job, before, from, found, replies)
    ensures Answers(job, run, from, found, replies)
  {
    hide RecoversTo;
    forall m | m in replies && m != found
      ensures DurableSince(job, run, from, Stored(m))
    {
      var x: nat :| from <= x < |before.states| && before.states[x].part.Some?
                    && RecoversTo(job, before.states[x].part.value, Stored(m));
      assert run.states[x] == before.states[x];
    }
  }

  /** The writer performs the commands in order. Each reply is a record that the
      durable bytes recovered to when it was sent, or the one that was opened; each
      slot write belongs to a commit and found the content that the commands before
      it had made. Both hold also when an error ends the loop. */
  method RunWriter(part: PartFile, commands: seq<Command>) returns (r: Result<()>, replies: seq<PartMetadata>)
    requires part.Valid() && DownloadSafety.AllInRange(part.job, commands)
    modifies part, part.drive, part.bitmap
    ensures part.Tracks() && Extends(part.run, old(part.run))
    ensures part.job.Valid() && Workable(part.job, old(PartOf(part)))
    ensures r.Success? ==> part.Valid()
                           && Work(PartOf(part), replies)
                              == PerformedAll(part.job, Work(old(PartOf(part)), []), commands, |commands|)
    ensures Answers(part.job, part.run, |old(part.run.actions)|, old(part.Metadata()), replies)
    ensures SlotWritesTraced(part.job, part.run, |old(part.run.actions)|, old(PartOf(part)), commands)
    ensures r.Failure? ==>
              exists k: nat :: k < |commands| && r == if commands[k].Put? then Failure(Io) else Failure(Ffi)
    ensures r.Success? ==> part.drive.faults == old(part.drive.faults)
    ensures r.Failure? ==> part.drive.faults == old(part.drive.faults) + 1
                           || (part.drive.faults == old(part.drive.faults)
                               && old(part.generation) + |commands| >= U64_LIMIT)
  {
    hide PartFile.Valid, PartFile.Tracks, Performed, PerformedAll, Workable, SlotWritesTraced, SlotWritesOf, Answers,
      DownloadSafety.AllInRange;
    PartIsWorkable(part);
    replies := [];
    ghost var start, from, job, found := PartOf(part), |part.run.actions|, part.job, part.Metadata();
    StartsEmpty(job, part.run, start, found, commands);
    var k := 0;
    while k < |commands|
      invariant 0 <= k <= |commands|
      invariant part.Valid() && part.Tracks() && Extends(part.run, old(part.run))
      invariant part.drive.part.Some? && job.Valid() && |part.Image()| >= job.ContentLen()
      invariant Workable(job, PartOf(part))
                && Work(PartOf(part), replies) == PerformedAll(job, Work(start, []), commands, k)
      invariant Answers(job, part.run, from, found, replies)
      invariant SlotWritesTraced(job, part.run, from, start, commands)
      invariant part.drive.faults == old(part.drive.faults)
      invariant part.generation <= old(part.generation) + k
      invariant PartOf(part).meta == found || DurableSince(job, part.run, from, Stored(PartOf(part).meta))
    {
      var command := commands[k];
      ghost var before, w := part.run, PerformedAll(job, Work(start, []), commands, k);
      CommandInRange(job, commands, k);
      NextPerformed(job, Work(start, []), commands, k);
      var ok, reply := RunCommand(part, command, replies);
      TraceGrows(job, before, part.run, from, start, commands, k);
      AnswersGrow(job, before, part.run, from, found, replies);
      if ok.Failure? {
        return ok, replies;
      }
      PartIsWorkable(part);
      DurableGrows(job, before, part.run, from, w.part.meta);
      RecordIsAnswer(job, part.run, from, found, replies, PartOf(part).meta);
      replies := reply;
      k := k + 1;
    }
    return Success(()), replies;
  }

  lemma NextPerformed(job: Protocol.Job, w: Work, commands: seq<Command>, k: nat)
    requires job.Valid() && Workable(job, w.part) && DownloadSafety.AllInRange(job, commands) && k < |commands|
    ensures PerformedAll(job, w, commands, k + 1) == Performed(job, PerformedAll(job, w, commands, k), commands[k])
  {
    hide Performed, Workable;
  }

  lemma CommandInRange(job: Protocol.Job, commands: seq<Command>, k: nat)
    requires job.Valid() && DownloadSafety.AllInRange(job, commands) && k < |commands|
    ensures InRange(job, commands[k])
  {
  }

  lemma StartsEmpty(job: Protocol.Job, run: Run, start: Part, found: PartMetadata, commands: seq<Command>)
    requires job.Valid() && Workable(job, start) && DownloadSafety.AllInRange(job, commands)
             && |run.states| == |run.actions| + 1
    ensures Answers(job, run, |run.actions|, found, []) && SlotWritesTraced(job, run, |run.actions|, start, commands)
    ensures PerformedAll(job, Work(start, []), commands, 0) == Work(start, [])
  {
  }

  lemma DurableGrows(job: Protocol.Job, before: Run, run: Run, from: nat, m: PartMetadata)
    requires job.Valid() && Extends(run, before)
    ensures DurableSince(job, before, from, Stored(m)) ==> DurableSince(job, run, from, Stored(m))
  {
    hide RecoversTo;
    if DurableSince(job, before, from, Stored(m)) {
      var x: nat :| from <= x < |before.states| && before.states[x].part.Some?
                    && RecoversTo(job, before.states[x].part.value, Stored(m));
      assert run.states[x] == before.states[x];
    }
  }

  lemma RecordIsAnswer(job: Protocol.Job, run: Run, from: nat, found: PartMetadata, replies: seq<PartMetadata>,
                       m: PartMetadata)
    requires job.Valid() && Answers(job, run, from, found, replies)
             && (m == found || DurableSince(job, run, from, Stored(m)))
    ensures Answers(job, run, from, found, replies + [m])
  {
    hide DurableSince;
  }

  lemma PartIsWorkable(part: PartFile)
    requires part.Valid()
    ensures part.Tracks() && part.drive.part.Some? && part.job.Valid() && |part.Image()| >= part.job.ContentLen()
    ensures Workable(part.job, PartOf(part)) && |part.run.states| == |part.run.actions| + 1
  {
    hide Protocol.BelongsTo;
    ContentFits(part.job);
  }

  /** One command. A commit that changed the record is answered only after the
      durable bytes recover to it. */
  method RunCommand(part: PartFile, command: Command, replies: seq<PartMetadata>) returns (r: Result<()>,
      after: seq<PartMetadata>)
    requires part.Valid() && InRange(part.job, command)
    requires part.drive.part.Some? && part.job.Valid() && |part.Image()| >= part.job.ContentLen()
             && Workable(part.job, PartOf(part))
    modifies part, part.drive, part.bitmap
    ensures part.Tracks() && Extends(part.run, old(part.run))
    ensures SlotWritesOf(part.job, part.run, |old(part.run.actions)|, command, old(PartOf(part)).content)
    ensures r.Success? ==> part.Valid() && part.drive.part.Some? && |part.Image()| >= part.job.ContentLen()
                           && Work(PartOf(part), after)
                              == Performed(part.job, Work(old(PartOf(part)), replies), command)
                           && (command.Put? ==> after == replies)
                           && (command.Commit? ==> after == replies + [PartOf(part).meta])
                           && (PartOf(part).meta == old(PartOf(part)).meta
                               || DurableSince(part.job, part.run, |old(part.run.actions)|, Stored(PartOf(part).meta)))
    ensures r.Failure? ==> after == replies
    ensures r.Failure? ==> r == if command.Put? then Failure(Io) else Failure(Ffi)
    ensures r.Success? ==> old(part.generation) <= part.generation <= old(part.generation) + 1
    ensures OnlyFaultsStop(r, old(part.drive.faults), part.drive.faults, old(part.generation))
  {
    match command
    case Put(_, _, _) =>
      r := RunPut(part, command);
      after := replies;
    case Commit(_) =>
      hide PartFile.Valid, PartFile.Tracks, CommitsOnly, DurableSince, Workable;
      r := RunCommit(part, command.index);
      if r.Failure? {
        return r, replies;
      }
      after := replies + [part.header.(generation := part.generation,
                                       bitmap := Bits(part.bitmap.chunkCount, part.bitmap.bytes))];
  }

  method RunPut(part: PartFile, command: Command) returns (r: Result<()>)
    requires part.Valid() && command.Put? && InRange(part.job, command)
    requires part.drive.part.Some? && part.job.Valid() && |part.Image()| >= part.job.ContentLen()
             && Workable(part.job, PartOf(part))
    modifies part, part.drive, part.bitmap
    ensures part.Tracks() && Extends(part.run, old(part.run))
    ensures SlotWritesOf(part.job, part.run, |old(part.run.actions)|, command, old(PartOf(part)).content)
    ensures r.Success? ==>
              part.Valid() && part.drive.part.Some? && |part.Image()| >= part.job.ContentLen()
              && PartOf(part) == PutInto(part.job, old(PartOf(part)), command.index, command.offset, command.bytes)
    ensures r.Success? ==> part.generation == old(part.generation)
    ensures r.Failure? ==> r == Failure(Io)
    ensures part.drive.faults == old(part.drive.faults) + if r.Failure? then 1 else 0
  {
    hide PutBytes, ChunkLen, Protocol.BelongsTo;
    ghost var image := part.Image();
    SamePlan(part.job, part.Metadata());
    InRangeMeans(part.job, command);
    PartIsWorkable(part);
    ghost var count;
    r, count := part.WriteChunkBytes(command.index, command.offset, command.bytes);
    PartIsWorkable(part);
    if r.Success? && command.index !in part.Complete() {
      assert command.bytes[..|command.bytes|] == command.bytes;
      SpliceContent(part.job, image, part.job.Plan().Lo(command.index) + command.offset, command.bytes);
      PutIsSplice(part.job, Protocol.Content(part.job, image), command.index, command.offset, command.bytes);
    }
  }

  method RunCommit(part: PartFile, index: u64) returns (r: Result<()>)
    requires part.Valid() && index < part.job.Plan().chunkCount
    requires part.drive.part.Some? && part.job.Valid() && |part.Image()| >= part.job.ContentLen()
             && Workable(part.job, PartOf(part))
    modifies part, part.drive, part.bitmap
    ensures part.Tracks() && Extends(part.run, old(part.run))
    ensures CommitsOnly(part.job, part.run, |old(part.run.actions)|, index, old(PartOf(part)).content)
    ensures r.Failure? ==> r == Failure(Ffi)
    ensures r.Success? ==> old(part.generation) <= part.generation <= old(part.generation) + 1
    ensures OnlyFaultsStop(r, old(part.drive.faults), part.drive.faults, old(part.generation))
    ensures r.Success? ==>
              part.Valid() && part.drive.part.Some? && |part.Image()| >= part.job.ContentLen()
              && PartOf(part) == CommitInto(old(PartOf(part)), index)
              && (PartOf(part).meta == old(PartOf(part)).meta
                  || DurableSince(part.job, part.run, |old(part.run.actions)|, Stored(PartOf(part).meta)))
  {
    hide Protocol.BelongsTo, Protocol.ReadBest, Protocol.NextMetadata, RecoversTo;
    SamePlan(part.job, part.Metadata());
    var done := part.CommitChunk(index);
    if done.Failure? {
      return Failure(Ffi);
    }
    PartIsWorkable(part);
    if part.Metadata() != old(part.Metadata()) {
      LastIsDurable(part);
    }
    return Success(());
  }

  /** With nothing pending, the last state of the run recovers to what a read of
      the file gives. */
  lemma LastIsDurable(part: PartFile)
    requires part.Valid() && part.drive.part.value.pending == []
    requires Protocol.ReadBest(part.job, part.Image()) == Success((Stored(part.Metadata()), part.activeSlot))
    ensures RecoversTo(part.job, Last(part.run).part.value, Stored(part.Metadata())) && Last(part.run).part.Some?
  {
    hide Protocol.ReadBest, Protocol.BelongsTo;
    part.TracksInv();
    ProtocolSafety.NothingPending(part.drive.part.value);
  }

  lemma InRangeMeans(job: Protocol.Job, c: Command)
    requires job.Valid() && InRange(job, c) && c.Put?
    ensures InChunk(job.Plan(), c.index, c.offset, |c.bytes|) && job.Plan().Hi(c.index) <= job.ContentLen()
  {
    ChunkInPlan(job.Plan(), c.index);
  }

  lemma PutIsSplice(job: Protocol.Job, content: seq<byte>, i: nat, offset: nat, bytes: seq<byte>)
    requires job.Valid() && i < job.Plan().chunkCount && |content| == job.ContentLen()
             && offset + |bytes| <= ChunkLen(job, i)
    ensures job.Plan().Lo(i) + offset + |bytes| <= |content|
    ensures PutBytes(job, content, i, offset, bytes) == Spliced(content, job.Plan().Lo(i) + offset, bytes)
  {
    ChunkInPlan(job.Plan(), i);
  }
}
