/** Which contents a download can end with. Whole runs are built here, and shown
    to be the only ones that complete. */
module Completions {
  import opened Bytes
  import opened Basics
  import opened ChunkLayout
  import opened Bitmap
  import opened Metadata
  import opened Verification
  import Protocol
  import ProtocolSafety
  import SlotCodec
  import opened Lifecycles
  import opened Accounting
  import opened DownloadRun
  import opened DownloadSafety
  import opened DownloadRuns

  /** The complete chunks of the file are those of `content`. */
  ghost predicate Agrees(session: Session, part: Part, content: seq<byte>)
    requires session.Valid()
  {
    |part.content| == |content| == session.job.ContentLen() && part.meta.bitmap.Sized()
    && forall c: nat | c < session.Count() && c in part.meta.Complete() ::
         ChunkBytes(session.job, part.content, c) == ChunkBytes(session.job, content, c)
  }

  /** What has to hold of a content that a download can end with: it passes the
      check, it keeps what was committed before, and the generation counter has
      room for one commit of each missing chunk. */
  ghost predicate Attainable(session: Session, content: seq<byte>)
    requires session.Valid()
  {
    |content| == session.job.ContentLen() && Accepts(session.job.ext, session.job.hash, content)
    && Agrees(session, session.found, content)
    && session.found.meta.generation + |session.Todo()| < U64_LIMIT
  }

  ghost predicate CompletesWith(session: Session, s: State, content: seq<byte>)
    requires session.Valid()
  {
    Reachable(session, s) && s.life == Completed && s.promoted && s.part.content == content
  }

  // ---- a run in which nobody interferes ----

  /** Every task is about to make its first attempt, and the writer waits. */
  ghost predicate Calm(session: Session, s: State)
    requires session.Valid()
  {
    Reachable(session, s) && !s.pause && !s.cancel && s.life == Running && s.writer == Serving && s.queue == []
    && forall i | i in s.tasks :: s.tasks[i] == Trying(1)
  }

  ghost predicate Room(session: Session, s: State, content: seq<byte>)
    requires session.Valid()
  {
    Agrees(session, s.part, content) && s.part.meta.generation + Outstanding(s) < U64_LIMIT
  }

  lemma RunTo(session: Session, s: State) returns (states: seq<State>, actions: seq<Action>)
    requires session.Valid() && Reachable(session, s)
    ensures IsRun(session, states, actions) && |states| > 0 && states[|states| - 1] == s
  {
    hide Enabled, Next, Init;
    states, actions :| IsRun(session, states, actions) && states[|states| - 1] == s;
  }

  lemma ReachableInv(session: Session, s: State)
    requires session.Valid() && Reachable(session, s)
    ensures Inv(session, s)
  {
    hide Inv, IsRun, Reachable;
    var states, actions := RunTo(session, s);
    RunsKeepInv(session, states, actions, |states| - 1);
  }

  lemma Again(tasks: map<nat, Task>, i: nat, a: Task, b: Task)
    ensures tasks[i := a][i := b] == tasks[i := b]
    ensures tasks[i := a] - {i} == tasks - {i}
  {
  }

  /** The inner loop takes chunks until there is no room or none is left. */
  lemma {:induction false} FillReachable(session: Session, s: State)
    requires session.Valid() && Calm(session, s) && s.pc == Fill
    ensures exists n :: Calm(session, n) && n.pc == Filled && n.part == s.part && Outstanding(n) == Outstanding(s)
                        && (n.tasks == map[] ==> n.pending == [])
    decreases |s.pending|
  {
    hide Reachable;
    MoveReachable(session, s, FillCancel, s.life);
    var t := s.(pc := FillCancel);
    if Spawns(session, t) {
      SpawnReachable(session, t);
      FillReachable(session, t.(pc := Fill, pending := t.pending[1..], tasks := t.tasks[t.pending[0] := Trying(1)]));
    } else {
      MoveReachable(session, t, Filled, t.life);
      assert Calm(session, t.(pc := Filled));
    }
  }

  lemma SpawnReachable(session: Session, s: State)
    requires session.Valid() && Reachable(session, s) && Spawns(session, s)
    ensures var n := s.(pc := Fill, pending := s.pending[1..], tasks := s.tasks[s.pending[0] := Trying(1)]);
            Reachable(session, n) && Outstanding(n) == Outstanding(s)
  {
    hide Reachable, TaskReady, TaskNext, SignalReady, SignalNext, FlowOf, Reported, Sched;
    ReachableInv(session, s);
    InvParts(session, s);
    SpawnKeepsOutstanding(session, s);
    StepReachable(session, s, Main, MainNext(session, s));
  }

  /** One task streams its body in one fragment and queues it. */
  lemma FetchReachable(session: Session, s: State, i: nat, body: seq<byte>)
    requires session.Valid() && Reachable(session, s) && s.writer == Serving && s.queue == []
    requires i in s.tasks && s.tasks[i] == Trying(1)
    requires i < session.Count() && |body| == ChunkLen(session.job, i) > 0
    ensures Reachable(session,
                      s.(tasks := s.tasks[i := Fetched(1)], queue := [Put(i, 0, body)], bodies := s.bodies[i := body]))
  {
    hide Reachable, ChunkLen, RunReady, RunNext, SignalReady, SignalNext;
    var s1 := s.(tasks := s.tasks[i := Fetching(1, [])]);
    StepReachable(session, s, Begin(i), s1);
    var s2 := s1.(tasks := s.tasks[i := Fetching(1, body)], queue := [Put(i, 0, body)]);
    Again(s.tasks, i, Fetching(1, []), Fetching(1, body));
    assert [] + body == body && [] + [Put(i, 0, body)] == [Put(i, 0, body)];
    StepReachable(session, s1, Send(i, body), s2);
    Again(s.tasks, i, Fetching(1, body), Fetched(1));
    StepReachable(session, s2, Receive(i), s2.(tasks := s.tasks[i := Fetched(1)], bodies := s.bodies[i := body]));
  }

  lemma PutReachable(session: Session, s: State, i: nat, body: seq<byte>)
    requires session.Valid() && Reachable(session, s) && s.writer == Serving
             && |s.part.content| == session.job.ContentLen()
    requires s.queue == [Put(i, 0, body)] && InRange(session.job, Put(i, 0, body))
    ensures Reachable(session, s.(queue := [], part := PutInto(session.job, s.part, i, 0, body)))
  {
    hide Reachable, PutBytes, ChunkLen, InRange, TaskReady, TaskNext, SignalReady, SignalNext;
    assert body[..|body|] == body && [Put(i, 0, body)][1..] == [];
    StepReachable(session, s, WriterPut(|body|), s.(queue := [], part := PutInto(session.job, s.part, i, 0, body)));
  }

  lemma SubmitReachable(session: Session, s: State, i: nat)
    requires session.Valid() && Reachable(session, s) && s.writer == Serving && s.queue == []
    requires i in s.tasks && s.tasks[i] == Fetched(1)
    ensures Reachable(session, s.(queue := [Commit(i)], tasks := s.tasks[i := Waiting]))
  {
    hide Reachable, RunReady, RunNext, SignalReady, SignalNext;
    assert [] + [Commit(i)] == [Commit(i)];
    StepReachable(session, s, Submit(i), s.(queue := [Commit(i)], tasks := s.tasks[i := Waiting]));
  }

  /** The file after a commit, with the task answered. */
  ghost function Answering(session: Session, s: State, i: nat): State
    requires session.Valid()
  {
    var p := CommitInto(s.part, i);
    s.(tasks := s.tasks[i := Done(Committed(p.meta))], queue := [], part := p,
       history := s.history + [p.meta], durable := Some(SlotCodec.Stored(p.meta)))
  }

  lemma AnswerReachable(session: Session, s: State, i: nat)
    requires session.Valid() && Reachable(session, s) && s.writer == Serving && s.queue == [Commit(i)]
    requires i in s.tasks && s.tasks[i] == Waiting
    requires Protocol.Missing(s.part.meta, i) && i / 8 < |s.part.meta.bitmap.bytes|
             && s.part.meta.generation + 1 < U64_LIMIT
    ensures Reachable(session, Answering(session, s, i))
  {
    hide Reachable, CommitInto, TaskReady, TaskNext, SignalReady, SignalNext;
    assert [Commit(i)][1..] == [];
    StepReachable(session, s, WriterCommit(Success(())), Answering(session, s, i));
  }

  /** The writer writes the body and commits the chunk. */
  lemma CommitReachable(session: Session, s: State, i: nat, body: seq<byte>)
    requires session.Valid() && Reachable(session, s) && s.writer == Serving
    requires i in s.tasks && s.tasks[i] == Fetched(1)
    requires s.queue == [Put(i, 0, body)] && InRange(session.job, Put(i, 0, body)) && body != []
    requires Protocol.BelongsTo(session.job, s.part.meta) && |s.part.content| == session.job.ContentLen()
    requires Protocol.Missing(s.part.meta, i) && s.part.meta.generation + 1 < U64_LIMIT && i < session.Count()
    ensures Reachable(session, Answering(session, s.(part := PutInto(session.job, s.part, i, 0, body)), i))
  {
    hide Reachable, PutInto, InRange;
    PutReachable(session, s, i, body);
    var s1 := s.(queue := [], part := PutInto(session.job, s.part, i, 0, body));
    SubmitReachable(session, s1, i);
    ProtocolSafety.NextBelongs(session.job, s.part.meta, i);
    Again(s.tasks, i, Waiting, Done(Committed(CommitInto(s1.part, i).meta)));
    AnswerReachable(session, s1.(queue := [Commit(i)], tasks := s.tasks[i := Waiting]), i);
  }

  lemma JoinReachable(session: Session, s: State, i: nat, m: PartMetadata)
    requires session.Valid() && Reachable(session, s) && s.pc == Joining && !s.pause
    requires i in s.tasks && s.tasks[i] == Done(Committed(m))
    ensures var n := AfterJoin(s, i, Committed(m));
            Reachable(session, n.(pc := Top))
            && n == s.(pc := Joined, tasks := s.tasks - {i}, joined := n.joined, progress := n.progress)
  {
    hide Reachable, ProgressOf, TaskReady, TaskNext, SignalReady, SignalNext;
    var n := AfterJoin(s, i, Committed(m));
    StepReachable(session, s, Join(i), n);
    MoveReachable(session, n, Top, s.life);
  }

  /** The chunk of a task is missing and in the plan. */
  lemma TaskIsMissing(session: Session, s: State, i: nat)
    requires session.Valid() && Inv(session, s) && i in s.tasks && s.tasks[i] == Trying(1)
    ensures i < session.Count() && Protocol.Missing(s.part.meta, i) && Protocol.BelongsTo(session.job, s.part.meta)
    ensures |s.part.content| == session.job.ContentLen()
  {
    hide Eventual, CommitsOk, QueueOk, PendingOk, Sched, Reported, PartOk;
    PartSized(session, s.part, s.bodies, s.history);
    assert i in session.Todo() && Uncommitted(s.queue, s.part.meta.Complete(), i);
  }

  /** The chunk that was written has the bytes of `content`, the others have not
      moved. */
  lemma PutAgrees(session: Session, part: Part, content: seq<byte>, i: nat)
    requires session.Valid() && Agrees(session, part, content) && i < session.Count()
    requires Protocol.BelongsTo(session.job, part.meta) && Protocol.Missing(part.meta, i)
             && part.meta.generation + 1 < U64_LIMIT
    ensures InRange(session.job, Put(i, 0, ChunkBytes(session.job, content, i)))
            && ChunkBytes(session.job, content, i) != []
    ensures var p := CommitInto(PutInto(session.job, part, i, 0, ChunkBytes(session.job, content, i)), i);
            Agrees(session, p, content) && p.meta.generation == part.meta.generation + 1
  {
    hide PutBytes, ChunkBytes, ChunkLen, InRange;
    var job, body := session.job, ChunkBytes(session.job, content, i);
    PositiveLen(job, i);
    WholeBody(job, part.content, i, body);
    ProtocolSafety.NextBelongs(job, part.meta, i);
    var p := CommitInto(PutInto(job, part, i, 0, body), i);
    forall c: nat | c < session.Count() && c in p.meta.Complete()
      ensures ChunkBytes(job, p.content, c) == ChunkBytes(job, content, c)
    {
      if c != i {
        PutIntoStays(job, part, i, 0, body, c);
      }
    }
  }

  lemma WholeBody(job: Protocol.Job, content: seq<byte>, i: nat, body: seq<byte>)
    requires job.Valid() && i < job.Plan().chunkCount && |content| == job.ContentLen() && |body| == ChunkLen(job, i)
    ensures InRange(job, Put(i, 0, body)) && ChunkBytes(job, PutBytes(job, content, i, 0, body), i) == body
  {
    hide PutBytes, ChunkBytes, ChunkLen;
    var r := PutBytes(job, content, i, 0, body);
    assert ChunkBytes(job, content, i)[..0] == [] && [] + body == body;
    PutExtends(job, content, i, [], body);
    assert ChunkBytes(job, r, i)[..|body|] == ChunkBytes(job, r, i);
  }

  lemma PositiveLen(job: Protocol.Job, i: nat)
    requires job.Valid() && i < job.Plan().chunkCount
    ensures ChunkLen(job, i) > 0
  {
    ChunkInPlan(job.Plan(), i);
  }

  /** One of the tasks brings its chunk home. */
  lemma OneChunk(session: Session, s: State, content: seq<byte>)
    requires session.Valid() && Calm(session, s) && Room(session, s, content) && s.pc == Joining && s.tasks != map[]
    ensures exists n :: Calm(session, n) && Room(session, n, content) && n.pc == Top
                        && Outstanding(n) == Outstanding(s) - 1
  {
    hide Reachable, ChunkBytes, ChunkLen, InRange, PutInto, CommitInto, ProgressOf, Inv, Protocol.BelongsTo,
      Protocol.Missing, Agrees, AfterJoin;
    var i :| i in s.tasks;
    ReachableInv(session, s);
    TaskIsMissing(session, s, i);
    assert |content| == session.job.ContentLen() by {
      AgreesSizes(session, s.part, content);
    }
    var body := ChunkBytes(session.job, content, i);
    PutAgrees(session, s.part, content, i);
    FetchReachable(session, s, i, body);
    var t := s.(tasks := s.tasks[i := Fetched(1)], queue := [Put(i, 0, body)], bodies := s.bodies[i := body]);
    CommitReachable(session, t, i, body);
    var p := CommitInto(PutInto(session.job, s.part, i, 0, body), i);
    var u := Answering(session, t.(part := PutInto(session.job, s.part, i, 0, body)), i);
    JoinReachable(session, u, i, p.meta);
    var n := AfterJoin(u, i, Committed(p.meta)).(pc := Top);
    TwiceGone(s.tasks, i, Fetched(1), Done(Committed(p.meta)));
    assert n.part == p && n.tasks == s.tasks - {i};
    assert Calm(session, n) && Room(session, n, content);
  }

  lemma OneMore(session: Session, s: State, content: seq<byte>)
    requires session.Valid() && Calm(session, s) && Room(session, s, content) && s.pc == Filled && s.tasks != map[]
    ensures exists n :: Calm(session, n) && Room(session, n, content) && n.pc == Top
                        && Outstanding(n) == Outstanding(s) - 1
  {
    hide Reachable, Agrees;
    MoveReachable(session, s, Joining, s.life);
    OneChunk(session, s.(pc := Joining), content);
  }

  lemma AgreesSizes(session: Session, part: Part, content: seq<byte>)
    requires session.Valid() && Agrees(session, part, content)
    ensures |part.content| == |content| == session.job.ContentLen()
  {
    hide ChunkBytes;
  }

  lemma TwiceGone(tasks: map<nat, Task>, i: nat, a: Task, b: Task)
    requires i in tasks
    ensures tasks[i := a][i := b] - {i} == tasks - {i} && |tasks - {i}| == |tasks| - 1
  {
    assert (tasks - {i}).Keys == tasks.Keys - {i};
    assert |tasks.Keys - {i}| == |tasks.Keys| - 1;
  }

  /** From the top of the loop to where it waits for a task. */
  lemma RoundReachable(session: Session, s: State)
    requires session.Valid() && Calm(session, s) && s.pc == Top
    ensures exists n :: Calm(session, n) && n.pc == Filled && n.part == s.part && Outstanding(n) == Outstanding(s)
                        && (n.tasks == map[] ==> n.pending == [])
  {
    hide Reachable;
    MoveReachable(session, s, TopPause, s.life);
    MoveReachable(session, s.(pc := TopPause), Fill, s.life);
    FillReachable(session, s.(pc := Fill));
  }

  /** From the top of the loop, the rest of the download goes through. */
  lemma {:induction false} LoopCompletes(session: Session, s: State, content: seq<byte>)
    requires session.Valid() && Calm(session, s) && Room(session, s, content) && s.pc == Top
    requires Accepts(session.job.ext, session.job.hash, content)
    ensures exists n :: CompletesWith(session, n, content)
    decreases Outstanding(s)
  {
    hide Reachable, Agrees, Accepts, CompletesWith, NextLife, NextPc;
    RoundReachable(session, s);
    var f :| Calm(session, f) && f.pc == Filled && f.part == s.part && Outstanding(f) == Outstanding(s)
             && (f.tasks == map[] ==> f.pending == []);
    if f.tasks == map[] {
      CloseReachable(session, f);
      EndReachable(session, f.(pc := CheckCancel(BeforeFinalize), writer := Finished), content);
    } else {
      OneMore(session, f, content);
      hide Calm, Room;
      var n :| Calm(session, n) && Room(session, n, content) && n.pc == Top && Outstanding(n) == Outstanding(s) - 1;
      LoopCompletes(session, n, content);
    }
  }

  /** With nothing left to do, the writer is told to end. */
  lemma CloseReachable(session: Session, s: State)
    requires session.Valid() && Calm(session, s) && s.pc == Filled && s.tasks == map[]
    ensures Reachable(session, s.(pc := CheckCancel(BeforeFinalize), writer := Finished))
  {
    hide Reachable, TaskReady, TaskNext, RunReady, RunNext;
    MoveReachable(session, s, Closing(Emptied), s.life);
    var t := s.(pc := Closing(Emptied), writer := Finished);
    StepReachable(session, s.(pc := Closing(Emptied)), WriterEnd, t);
    MoveReachable(session, t, Closed, t.life);
    MoveReachable(session, t.(pc := Closed), CheckCancel(BeforeFinalize), t.life);
  }

  /** A file whose content is accepted is promoted. */
  lemma EndReachable(session: Session, s: State, content: seq<byte>)
    requires session.Valid() && Reachable(session, s) && s.pc == CheckCancel(BeforeFinalize)
             && !s.pause && !s.cancel && s.life == Running
    requires Agrees(session, s.part, content) && Accepts(session.job.ext, session.job.hash, content)
    ensures exists n :: CompletesWith(session, n, content)
  {
    hide Reachable, Agrees, Accepts, CompletesWith;
    ChecksPass(session, s, BeforeFinalize);
    PromoteReachable(session, s.(pc := Finalizing, life := Verifying), content);
  }

  lemma PromoteReachable(session: Session, s: State, content: seq<byte>)
    requires session.Valid() && Reachable(session, s) && s.pc == Finalizing && s.life == Verifying
    requires Agrees(session, s.part, content) && Accepts(session.job.ext, session.job.hash, content)
    ensures exists n :: CompletesWith(session, n, content)
  {
    hide Reachable, Agrees, Accepts, TaskReady, TaskNext, SignalReady, SignalNext, Bits.AllComplete;
    WholeThen(session, s, content);
    AgreesSizes(session, s.part, content);
    var p := s.(pc := Promoted, promoted := true);
    StepReachable(session, s, Promote(Success(())), p);
    MoveReachable(session, p, Ended(Success(())), Completed);
    assert CompletesWith(session, p.(pc := Ended(Success(())), life := Completed), content);
  }

  lemma WholeThen(session: Session, s: State, content: seq<byte>)
    requires session.Valid() && Reachable(session, s) && s.pc == Finalizing && Agrees(session, s.part, content)
    ensures s.part.meta.bitmap.Sized() && s.part.meta.bitmap.AllComplete() && s.part.content == content
  {
    hide IsRun, ChunkBytes, Holds, Reachable, Bits.AllComplete;
    var states, actions := RunTo(session, s);
    FinalizesOnlyWhenComplete(session, states, actions, |states| - 1);
    AllCompleteIsFull(s.part.meta.bitmap);
    SameChunksSame(session, s.part.content, content);
  }

  /** Contents that agree on every chunk are equal. */
  lemma SameChunksSame(session: Session, a: seq<byte>, b: seq<byte>)
    requires session.Valid() && |a| == |b| == session.job.ContentLen()
    requires forall c: nat | c < session.Count() :: ChunkBytes(session.job, a, c) == ChunkBytes(session.job, b, c)
    ensures a == b
  {
    hide ChunkPlan.Lo, ChunkPlan.Hi;
    var plan := session.job.Plan();
    forall p | 0 <= p < |a|
      ensures a[p] == b[p]
    {
      ChunksCover(plan, p);
      var c := ChunkOf(p, plan.chunkSize);
      ChunkInPlan(plan, c);
      assert ChunkBytes(session.job, a, c)[p - plan.Lo(c)] == a[p];
      assert ChunkBytes(session.job, b, c)[p - plan.Lo(c)] == b[p];
    }
  }

  lemma AttainableCompletes(session: Session, content: seq<byte>)
    requires session.Valid() && Attainable(session, content)
    ensures exists s :: CompletesWith(session, s, content)
  {
    hide Reachable, ProgressOf, Bits.IncompleteIndices, Agrees, Accepts, ChunkBytes;
    OpenReachable(session);
    var s0 := JustOpened(session);
    ChecksPass(session, s0, BeforeLoop);
    if s0.pending == [] {
      EndReachable(session, s0.(pc := CheckCancel(BeforeFinalize), life := Running), content);
    } else {
      var s1 := s0.(pc := Top, life := Running);
      EverythingPending(session, s1);
      LoopCompletes(session, s1, content);
    }
  }

  lemma EverythingPending(session: Session, s: State)
    requires session.Valid() && Reachable(session, s) && s.pc == Top && s.tasks == map[] && s.joined == {}
    ensures Outstanding(s) == |session.Todo()|
  {
    hide FlowOf, Reported, Session.Todo, Reachable, Bits.Members, Partition, InFlight;
    ReachableInv(session, s);
    InvParts(session, s);
    assert s.tasks.Keys == {} && s.lost == {};
    AllPending(session, s.pending);
  }

  lemma AllPending(session: Session, pending: seq<nat>)
    requires session.Valid() && Partition(session, pending, {}, {}, {})
    ensures |pending| == |session.Todo()|
  {
    hide Session.Todo;
    DistinctSize(pending, session.Todo());
  }

  lemma {:induction false} DistinctSize(s: seq<nat>, all: set<nat>)
    requires forall a, b | 0 <= a < b < |s| :: s[a] != s[b]
    requires forall i :: i in all <==> i in s
    ensures |all| == |s|
  {
    if s == [] {
      assert all == {};
    } else {
      assert s[0] !in s[1..];
      DistinctSize(s[1..], all - {s[0]});
    }
  }

  // ---- every run that completes ----

  /** What a step leaves alone: chunks that were complete when the file was opened. */
  lemma StepKeepsFound(session: Session, s: State, a: Action, c: nat)
    requires session.Valid() && Inv(session, s) && Enabled(session, s, a) && c in session.found.meta.Complete()
    requires c < session.Count() && |s.part.content| == session.job.ContentLen()
    ensures |Next(session, s, a).part.content| == session.job.ContentLen()
    ensures ChunkBytes(session.job, Next(session, s, a).part.content, c) == ChunkBytes(session.job, s.part.content, c)
  {
    if a.WriterPut? {
      hide FlowOf, Sched, Reported, TaskReady, TaskNext, SignalReady, SignalNext, AfterPut, ChunkBytes, Bits.Members;
      HeadMissing(session, s);
      PutStays(session, s, a.count, c);
    } else if a.WriterCommit? {
      hide Inv, TaskReady, TaskNext, SignalReady, SignalNext, ChunkBytes, AfterCommit, Bits.Members;
      CommitKeepsContent(session, s, a.r);
    } else {
      hide Inv, Enabled, Next, ChunkBytes;
      StepFrame(session, s, a);
    }
  }

  lemma CommitKeepsContent(session: Session, s: State, r: Result<()>)
    requires session.Valid() && CommitWaits(s, r)
    ensures AfterCommit(session, s, r).part.content == s.part.content
  {
    hide CommitInto, Protocol.Missing;
  }

  lemma {:induction false} FoundIsKept(session: Session, states: seq<State>, actions: seq<Action>, k: nat, c: nat)
    requires session.Valid() && IsRun(session, states, actions) && k < |states|
    requires c < session.Count() && c in session.found.meta.Complete()
    ensures |states[k].part.content| == session.job.ContentLen()
    ensures ChunkBytes(session.job, states[k].part.content, c) == ChunkBytes(session.job, session.found.content, c)
    decreases k
  {
    hide Enabled, Next, Inv, ChunkBytes;
    if k > 0 {
      FoundIsKept(session, states, actions, k - 1, c);
      RunsKeepInv(session, states, actions, k - 1);
      StepKeepsFound(session, states[k - 1], actions[k - 1], c);
    }
  }

  /** The generation counts the chunks committed since the file was opened. */
  ghost predicate Counted(session: Session, s: State)
    requires session.Valid()
  {
    s.part.meta.bitmap.Sized() && session.found.meta.Complete() <= s.part.meta.Complete()
    && s.part.meta.generation
       == session.found.meta.generation + |s.part.meta.Complete() - session.found.meta.Complete()|
  }

  lemma StepCounts(session: Session, s: State, a: Action)
    requires session.Valid() && Inv(session, s) && Enabled(session, s, a) && Counted(session, s)
    ensures Counted(session, Next(session, s, a))
  {
    if a.WriterCommit? {
      hide Inv, Counted, TaskReady, TaskNext, SignalReady, SignalNext, MainNext, AfterCommit;
      CommitStepCounts(session, s, a.r);
    } else if a.WriterPut? {
      hide Inv, TaskReady, TaskNext, SignalReady, SignalNext, AfterPut;
      PutFrame(session, s, a.count);
    } else {
      hide Inv, Enabled, Next;
      StepFrame(session, s, a);
    }
  }

  lemma CommitStepCounts(session: Session, s: State, r: Result<()>)
    requires session.Valid() && Inv(session, s) && CommitWaits(s, r) && Counted(session, s)
    ensures Counted(session, AfterCommit(session, s, r))
  {
    hide Sched, Reported, Flow, CommitInto, Protocol.Missing, Bits.Members;
    HeadMissing(session, s);
    FileBelongs(session, s);
    if r.Success? {
      CommitCounts(session, s, s.queue[0].index);
    }
  }

  lemma FileBelongs(session: Session, s: State)
    requires session.Valid() && FlowOf(session, s)
    ensures Protocol.BelongsTo(session.job, s.part.meta) && |s.part.content| == session.job.ContentLen()
  {
    hide Eventual, CommitsOk, TasksOk, QueueOk, PendingOk;
    PartSized(session, s.part, s.bodies, s.history);
  }

  lemma CommitCounts(session: Session, s: State, i: nat)
    requires session.Valid() && Counted(session, s) && Protocol.BelongsTo(session.job, s.part.meta)
    requires i < session.Count() && Protocol.Missing(s.part.meta, i) && s.part.meta.generation + 1 < U64_LIMIT
    ensures Counted(session, s.(part := CommitInto(s.part, i)))
  {
    ProtocolSafety.NextBelongs(session.job, s.part.meta, i);
    var done, found := s.part.meta.Complete(), session.found.meta.Complete();
    assert i !in done;
    assert (done + {i}) - found == (done - found) + {i};
  }

  lemma {:induction false} RunsAreCounted(session: Session, states: seq<State>, actions: seq<Action>, k: nat)
    requires session.Valid() && IsRun(session, states, actions) && k < |states|
    ensures Counted(session, states[k])
    decreases k
  {
    hide Enabled, Next, Inv;
    if k > 0 {
      RunsAreCounted(session, states, actions, k - 1);
      RunsKeepInv(session, states, actions, k - 1);
      StepCounts(session, states[k - 1], actions[k - 1]);
    } else {
      assert session.found.meta.Complete() - session.found.meta.Complete() == {};
    }
  }

  lemma CompletedIsAttainable(session: Session, s: State)
    requires session.Valid() && Reachable(session, s) && s.life == Completed
    ensures Attainable(session, s.part.content)
  {
    hide IsRun, Accepts, ChunkBytes, Bits.AllComplete, Bits.Members, Session.Todo, Reachable;
    var states, actions := RunTo(session, s);
    CompletedMeansPromoted(session, states, actions, |states| - 1);
    RunsAreCounted(session, states, actions, |states| - 1);
    TodoIsDone(session, s);
    forall c: nat | c < session.Count() && c in session.found.meta.Complete()
      ensures ChunkBytes(session.job, s.part.content, c) == ChunkBytes(session.job, session.found.content, c)
    {
      FoundIsKept(session, states, actions, |states| - 1, c);
    }
  }

  lemma TodoIsDone(session: Session, s: State)
    requires session.Valid() && Reachable(session, s) && s.part.meta.bitmap.Sized() && s.part.meta.bitmap.AllComplete()
    ensures |s.part.content| == session.job.ContentLen()
    ensures s.part.meta.Complete() - session.found.meta.Complete() == session.Todo()
  {
    hide FlowOf, Sched, Reported, Reachable, Bits.AllComplete, Bits.Members, Session.Todo;
    ReachableInv(session, s);
    InvParts(session, s);
    FileBelongs(session, s);
    FullIsTodo(session, s.part.meta);
  }

  lemma FullIsTodo(session: Session, m: PartMetadata)
    requires session.Valid() && Protocol.BelongsTo(session.job, m) && m.bitmap.AllComplete()
    ensures m.Complete() - session.found.meta.Complete() == session.Todo()
  {
    hide Bits.AllComplete, Bits.BitSet;
    AllCompleteIsFull(m.bitmap);
    assert m.bitmap.chunkCount == session.Count();
    forall i: nat
      ensures i in m.Complete() <==> i < session.Count()
    {
    }
  }

  /** Which contents a download can end with, exactly. Whatever the parallelism,
      some run completes with `content` in the promoted file if and only if
      `content` passes the check, keeps every chunk that was committed before, and
      leaves the generation counter in range. */
  lemma CompletesExactly(session: Session, content: seq<byte>)
    requires session.Valid()
    ensures (exists s :: Reachable(session, s) && s.life == Completed && s.part.content == content)
            <==> Attainable(session, content)
  {
    hide Reachable, Attainable;
    if Attainable(session, content) {
      AttainableCompletes(session, content);
      var s :| CompletesWith(session, s, content);
    }
    if exists s :: Reachable(session, s) && s.life == Completed && s.part.content == content {
      var s :| Reachable(session, s) && s.life == Completed && s.part.content == content;
      CompletedIsAttainable(session, s);
    }
  }
}
