/** What every run of a download keeps. */
module DownloadSafety {
  import opened Bytes
  import opened Basics
  import opened ChunkLayout
  import opened Bitmap
  import opened Metadata
  import opened Verification
  import Protocol
  import ProtocolSafety
  import opened Lifecycles
  import opened Accounting
  import opened DownloadRun

  // ---- the queue ----

  ghost predicate AllInRange(job: Protocol.Job, queue: seq<Command>)
    requires job.Valid()
  {
    forall c | c in queue :: InRange(job, c)
  }

  lemma EventualAppend(job: Protocol.Job, content: seq<byte>, queue: seq<Command>, c: Command)
    requires job.Valid() && |content| == job.ContentLen() && AllInRange(job, queue) && InRange(job, c)
    ensures AllInRange(job, queue + [c])
    ensures Eventual(job, content, queue + [c]) == Executed(job, Eventual(job, content, queue), c)
    decreases |queue|
  {
    if queue != [] {
      assert (queue + [c])[1..] == queue[1..] + [c];
      EventualAppend(job, Executed(job, content, queue[0]), queue[1..], c);
    } else {
      assert [c][1..] == [];
    }
  }

  lemma PutSparesOthers(job: Protocol.Job, content: seq<byte>, i: nat, offset: nat, bytes: seq<byte>, c: nat)
    requires job.Valid() && i < job.Plan().chunkCount && c < job.Plan().chunkCount && i != c
    requires |content| == job.ContentLen() && offset + |bytes| <= ChunkLen(job, i)
    ensures ChunkBytes(job, PutBytes(job, content, i, offset, bytes), c) == ChunkBytes(job, content, c)
  {
    hide ChunkPlan.Lo, ChunkPlan.Hi;
    var plan := job.Plan();
    ChunkInPlan(plan, i);
    ChunkInPlan(plan, c);
    if c < i {
      ChunksDisjoint(plan, c, i);
    } else {
      ChunksDisjoint(plan, i, c);
    }
    var at := plan.Lo(i) + offset;
    ProtocolSafety.SpliceKeeps(content, bytes, at, at + |bytes|, plan.Lo(c), plan.Hi(c));
  }

  /** A fragment at the end of what was sent extends it. */
  lemma PutExtends(job: Protocol.Job, content: seq<byte>, i: nat, sent: seq<byte>, fragment: seq<byte>)
    requires job.Valid() && i < job.Plan().chunkCount && |content| == job.ContentLen()
    requires |sent| + |fragment| <= ChunkLen(job, i) && ChunkBytes(job, content, i)[..|sent|] == sent
    ensures ChunkBytes(job, PutBytes(job, content, i, |sent|, fragment), i)[..|sent| + |fragment|] == sent + fragment
  {
    hide ChunkPlan.Lo, ChunkPlan.Hi;
    ChunkInPlan(job.Plan(), i);
    SpliceExtends(content, job.Plan().Lo(i), job.Plan().Hi(i), sent, fragment);
  }

  lemma SpliceExtends(content: seq<byte>, lo: nat, hi: nat, sent: seq<byte>, fragment: seq<byte>)
    requires lo <= hi <= |content| && |sent| + |fragment| <= hi - lo && content[lo..hi][..|sent|] == sent
    ensures (content[..lo + |sent|] + fragment + content[lo + |sent| + |fragment|..])[lo..hi][..|sent| + |fragment|]
            == sent + fragment
  {
    var r := content[..lo + |sent|] + fragment + content[lo + |sent| + |fragment|..];
    assert r[lo..lo + |sent|] == content[lo..hi][..|sent|];
    assert r[lo + |sent|..lo + |sent| + |fragment|] == fragment;
  }

  ghost predicate Quiet(queue: seq<Command>, i: nat) {
    forall k | 0 <= k < |queue| :: queue[k].index != i
  }

  /** A queue that does not mention a chunk leaves it alone. */
  lemma {:induction false} EventualSpares(job: Protocol.Job, content: seq<byte>, queue: seq<Command>, i: nat)
    requires job.Valid() && |content| == job.ContentLen() && AllInRange(job, queue) && i < job.Plan().chunkCount
    requires Quiet(queue, i)
    ensures ChunkBytes(job, Eventual(job, content, queue), i) == ChunkBytes(job, content, i)
    decreases |queue|
  {
    if queue != [] {
      var c := queue[0];
      EventualSpares(job, Executed(job, content, c), queue[1..], i);
      if c.Put? {
        PutSparesOthers(job, content, c.index, c.offset, c.bytes, i);
      }
    }
  }

  // ---- what the queue, the tasks and the file agree on ----

  /** Nothing is queued for a complete chunk but commits, and a commit is the
      last command for its chunk. */
  ghost predicate QueueOk(session: Session, queue: seq<Command>, done: set<nat>)
    requires session.Valid()
  {
    AllInRange(session.job, queue)
    && (forall k | 0 <= k < |queue| :: queue[k].index in session.Todo() && queue[k].index !in done)
    && (forall j, k | 0 <= j < k < |queue| && queue[j].Commit? :: queue[k].index != queue[j].index)
  }

  ghost predicate Uncommitted(queue: seq<Command>, done: set<nat>, i: nat) {
    i !in done && forall k | 0 <= k < |queue| :: queue[k] != Commit(i)
  }

  ghost predicate Sized(session: Session, content: seq<byte>, bodies: map<nat, seq<byte>>)
    requires session.Valid()
  {
    |content| == session.job.ContentLen()
    && forall i | i in bodies :: i < session.Count() && |bodies[i]| == ChunkLen(session.job, i)
  }

  /** The file holds `bodies[i]` for chunk `i`. */
  ghost predicate Holds(session: Session, content: seq<byte>, bodies: map<nat, seq<byte>>, i: nat)
    requires session.Valid()
  {
    i < session.Count() && |content| == session.job.ContentLen() && i in bodies
    && ChunkBytes(session.job, content, i) == bodies[i]
  }

  ghost predicate HoldsStart(session: Session, content: seq<byte>, sent: seq<byte>, i: nat)
    requires session.Valid()
  {
    i < session.Count() && |content| == session.job.ContentLen() && |sent| <= ChunkLen(session.job, i)
    && ChunkBytes(session.job, content, i)[..|sent|] == sent
  }

  /** What a task knows about its chunk, given the content that the file will
      have once the queue is worked off. */
  ghost predicate TaskOk(session: Session, task: Task, i: nat, queue: seq<Command>, serving: bool, eventual: seq<byte>,
                         part: Part, bodies: map<nat, seq<byte>>, history: seq<PartMetadata>)
    requires session.Valid() && part.meta.bitmap.Sized()
  {
    match task
    case Trying(_) => Uncommitted(queue, part.meta.Complete(), i)
    case Backoff(_) => Uncommitted(queue, part.meta.Complete(), i)
    case Fetching(_, sent) =>
      Uncommitted(queue, part.meta.Complete(), i) && (serving ==> HoldsStart(session, eventual, sent, i))
    case Fetched(_) => Uncommitted(queue, part.meta.Complete(), i) && (serving ==> Holds(session, eventual, bodies, i))
    case Waiting => true
    case Done(outcome) => outcome.Committed? ==> i in part.meta.Complete() && outcome.meta in history
  }

  ghost predicate TasksOk(session: Session, tasks: map<nat, Task>, queue: seq<Command>, serving: bool,
                          eventual: seq<byte>,
                          part: Part, bodies: map<nat, seq<byte>>, history: seq<PartMetadata>)
    requires session.Valid() && part.meta.bitmap.Sized()
  {
    forall i | i in tasks ::
      i in session.Todo() && TaskOk(session, tasks[i], i, queue, serving, eventual, part, bodies, history)
  }

  ghost predicate CommitsOk(session: Session, queue: seq<Command>, eventual: seq<byte>, bodies: map<nat, seq<byte>>)
    requires session.Valid()
  {
    forall k | 0 <= k < |queue| && queue[k].Commit? :: Holds(session, eventual, bodies, queue[k].index)
  }

  ghost predicate PartOk(session: Session, part: Part, bodies: map<nat, seq<byte>>, history: seq<PartMetadata>)
    requires session.Valid()
  {
    Sized(session, part.content, bodies) && Protocol.BelongsTo(session.job, part.meta)
    && part.meta.Complete() <= session.found.meta.Complete() + session.Todo()
    && session.found.meta.Complete() <= part.meta.Complete()
    && (forall c | c in part.meta.Complete() :: Holds(session, part.content, bodies, c))
    && part.meta in history
    && (forall h | h in history :: Protocol.BelongsTo(session.job, h))
  }

  ghost predicate PendingOk(pending: seq<nat>, queue: seq<Command>, done: set<nat>) {
    forall i | i in pending :: Uncommitted(queue, done, i)
  }

  ghost predicate Flow(session: Session, pending: seq<nat>, tasks: map<nat, Task>, queue: seq<Command>, writer: Writer,
                       part: Part, bodies: map<nat, seq<byte>>, history: seq<PartMetadata>)
    requires session.Valid()
  {
    PartOk(session, part, bodies, history)
    && |queue| <= session.capacity && (writer != Serving ==> queue == [])
    && QueueOk(session, queue, part.meta.Complete())
    && PendingOk(pending, queue, part.meta.Complete())
    && var eventual := Eventual(session.job, part.content, queue);
       CommitsOk(session, queue, eventual, bodies)
       && TasksOk(session, tasks, queue, writer == Serving, eventual, part, bodies, history)
  }

  ghost predicate FlowOf(session: Session, s: State)
    requires session.Valid()
  {
    Flow(session, s.pending, s.tasks, s.queue, s.writer, s.part, s.bodies, s.history)
  }

  // ---- one lemma for each step that moves data ----

  lemma SpawnKeepsFlow(session: Session, s: State)
    requires session.Valid() && FlowOf(session, s) && s.pending != [] && s.pending[0] in session.Todo()
    ensures FlowOf(session, s.(pending := s.pending[1..], tasks := s.tasks[s.pending[0] := Trying(1)]))
  {
    hide Eventual, PartOk, QueueOk, CommitsOk, Uncommitted;
  }

  /** A task moves on without touching the queue. */
  lemma TaskMoveKeepsFlow(session: Session, s: State, i: nat, task: Task)
    requires session.Valid() && FlowOf(session, s) && i in s.tasks
    requires TaskOk(session, task, i, s.queue, s.writer == Serving, Eventual(session.job, s.part.content, s.queue),
                    s.part, s.bodies, s.history)
    ensures FlowOf(session, s.(tasks := s.tasks[i := task]))
  {
    hide Eventual, PartOk, QueueOk, CommitsOk, TaskOk;
  }

  lemma DropKeepsFlow(session: Session, s: State, i: nat)
    requires session.Valid() && FlowOf(session, s)
    ensures FlowOf(session, s.(tasks := s.tasks - {i}))
  {
    hide Eventual, PartOk, QueueOk, CommitsOk, TaskOk;
  }

  lemma SendKeepsFlow(session: Session, s: State, i: nat, fragment: seq<byte>)
    requires session.Valid() && FlowOf(session, s) && s.writer == Serving && |s.queue| < session.capacity
    requires i in s.tasks && s.tasks[i].Fetching? && i < session.Count()
             && |s.tasks[i].sent| + |fragment| <= ChunkLen(session.job, i)
    ensures FlowOf(session, s.(queue := s.queue + [Put(i, |s.tasks[i].sent|, fragment)],
                               tasks := s.tasks[i := Fetching(s.tasks[i].attempt, s.tasks[i].sent + fragment)]))
  {
    hide Eventual, PartOk, ChunkLen, ChunkBytes, PutBytes, TaskOk, Uncommitted, Holds, HoldsStart;
    var job, sent, c := session.job, s.tasks[i].sent, Put(i, |s.tasks[i].sent|, fragment);
    var n := s.(queue := s.queue + [c], tasks := s.tasks[i := Fetching(s.tasks[i].attempt, sent + fragment)]);
    PartSized(session, s.part, s.bodies, s.history);
    QueueInRange(session, s);
    var before := Eventual(job, s.part.content, s.queue);
    assert TaskOk(session, s.tasks[i], i, s.queue, true, before, s.part, s.bodies, s.history);
    SenderKnows(session, s.tasks[i], i, s.queue, before, s.part, s.bodies, s.history);
    EventualAppend(job, s.part.content, s.queue, c);
    var after := Eventual(job, n.part.content, n.queue);
    SentQueueOk(session, s.queue, s.part.meta.Complete(), c);
    forall x | x in n.tasks
      ensures x in session.Todo() && TaskOk(session, n.tasks[x], x, n.queue, true, after, n.part, n.bodies, n.history)
    {
      assert TaskOk(session, s.tasks[x], x, s.queue, true, before, s.part, s.bodies, s.history);
      TaskAfterSend(session, s.tasks[x], x, s.queue, before, s.part, s.bodies, s.history, i, sent, fragment,
                    s.tasks[i].attempt);
    }
    forall k | 0 <= k < |n.queue| && n.queue[k].Commit?
      ensures Holds(session, after, n.bodies, n.queue[k].index)
    {
      assert n.queue[k] == s.queue[k] && Holds(session, before, s.bodies, s.queue[k].index);
      NotCommitted(s.queue, s.part.meta.Complete(), i, k);
      HoldsElsewhere(session, before, s.bodies, s.queue[k].index, i, |sent|, fragment);
    }
    forall x | x in n.pending
      ensures Uncommitted(n.queue, n.part.meta.Complete(), x)
    {
      UncommittedAfterPut(s.queue, s.part.meta.Complete(), x, c);
    }
  }

  lemma NotCommitted(queue: seq<Command>, done: set<nat>, i: nat, k: nat)
    requires Uncommitted(queue, done, i) && k < |queue| && queue[k].Commit?
    ensures queue[k].index != i
  {
    assert queue[k] != Commit(i);
  }

  lemma UncommittedAfterPut(queue: seq<Command>, done: set<nat>, x: nat, c: Command)
    requires Uncommitted(queue, done, x) && c.Put?
    ensures Uncommitted(queue + [c], done, x)
  {
  }

  lemma SenderKnows(session: Session, task: Task, i: nat, queue: seq<Command>, eventual: seq<byte>, part: Part,
                    bodies: map<nat, seq<byte>>, history: seq<PartMetadata>)
    requires session.Valid() && part.meta.bitmap.Sized() && task.Fetching?
    requires TaskOk(session, task, i, queue, true, eventual, part, bodies, history)
    ensures Uncommitted(queue, part.meta.Complete(), i) && HoldsStart(session, eventual, task.sent, i)
  {
    hide Uncommitted, HoldsStart, Holds;
  }

  lemma SentQueueOk(session: Session, queue: seq<Command>, done: set<nat>, c: Command)
    requires session.Valid() && QueueOk(session, queue, done) && c.Put? && InRange(session.job, c)
    requires c.index in session.Todo() && Uncommitted(queue, done, c.index)
    ensures QueueOk(session, queue + [c], done)
  {
    hide InRange, Session.Todo;
    assert forall k | 0 <= k < |queue| && queue[k].Commit? :: queue[k] == Commit(queue[k].index);
  }

  /** Bytes written into another chunk change nothing for this one. */
  lemma HoldsElsewhere(session: Session, content: seq<byte>, bodies: map<nat, seq<byte>>, x: nat, i: nat, offset: nat,
                       bytes: seq<byte>)
    requires session.Valid() && Holds(session, content, bodies, x) && i < session.Count()
    requires offset + |bytes| <= ChunkLen(session.job, i) && x != i
    ensures Holds(session, PutBytes(session.job, content, i, offset, bytes), bodies, x)
  {
    hide ChunkLen, ChunkBytes, PutBytes;
    PutSparesOthers(session.job, content, i, offset, bytes, x);
  }

  /** A fragment of chunk `i` was queued: its task has sent more, the others know
      what they knew. */
  lemma TaskAfterSend(session: Session, task: Task, x: nat, queue: seq<Command>, before: seq<byte>, part: Part,
                      bodies: map<nat, seq<byte>>, history: seq<PartMetadata>, i: nat, sent: seq<byte>,
                        fragment: seq<byte>,
                      attempt: nat)
    requires session.Valid() && part.meta.bitmap.Sized() && |before| == session.job.ContentLen()
    requires TaskOk(session, task, x, queue, true, before, part, bodies, history)
    requires i < session.Count() && x < session.Count() && |sent| + |fragment| <= ChunkLen(session.job, i)
    requires x == i ==> task == Fetching(attempt, sent)
    ensures var after := if x == i then Fetching(attempt, sent + fragment) else task;
            TaskOk(session, after, x, queue + [Put(i, |sent|, fragment)], true,
                   PutBytes(session.job, before, i, |sent|, fragment), part, bodies, history)
  {
    hide ChunkLen, ChunkBytes, PutBytes, Bits.Members;
    if x == i {
      PutExtends(session.job, before, i, sent, fragment);
    } else {
      PutSparesOthers(session.job, before, i, |sent|, fragment, x);
    }
  }

  lemma PartSized(session: Session, part: Part, bodies: map<nat, seq<byte>>, history: seq<PartMetadata>)
    requires session.Valid() && PartOk(session, part, bodies, history)
    ensures |part.content| == session.job.ContentLen() && Protocol.BelongsTo(session.job, part.meta)
  {
  }

  /** The attempt is over: its body is what the chunk will hold. */
  lemma ReceiveKeepsFlow(session: Session, s: State, i: nat)
    requires session.Valid() && FlowOf(session, s) && i in s.tasks && s.tasks[i].Fetching? && i < session.Count()
    requires |s.tasks[i].sent| == ChunkLen(session.job, i)
    ensures FlowOf(session,
                   s.(tasks := s.tasks[i := Fetched(s.tasks[i].attempt)], bodies := s.bodies[i := s.tasks[i].sent]))
  {
    hide Eventual, ChunkLen, ChunkBytes, TaskOk, QueueOk, PendingOk, PartOk;
    var n := s.(tasks := s.tasks[i := Fetched(s.tasks[i].attempt)], bodies := s.bodies[i := s.tasks[i].sent]);
    PartSized(session, s.part, s.bodies, s.history);
    QueueInRange(session, s);
    var eventual := Eventual(session.job, s.part.content, s.queue);
    assert TaskOk(session, s.tasks[i], i, s.queue, s.writer == Serving, eventual, s.part, s.bodies, s.history);
    ReceiverKnows(session, s.tasks[i], i, s.queue, s.writer == Serving, eventual, s.part, s.bodies, s.history);
    ReceivedPartOk(session, s.part, s.bodies, s.history, i, s.tasks[i].sent);
    forall x | x in n.tasks
      ensures x in session.Todo()
              && TaskOk(session, n.tasks[x], x, n.queue, n.writer == Serving, eventual, n.part, n.bodies, n.history)
    {
      assert TaskOk(session, s.tasks[x], x, s.queue, s.writer == Serving, eventual, s.part, s.bodies, s.history);
      TaskAfterReceive(session, s.tasks[x], x, s.queue, s.writer == Serving, eventual, s.part, s.bodies, s.history, i,
                       s.tasks[i].sent, s.tasks[i].attempt);
    }
    forall k | 0 <= k < |n.queue| && n.queue[k].Commit?
      ensures Holds(session, eventual, n.bodies, n.queue[k].index)
    {
      assert n.queue[k] != Commit(i);
      assert Holds(session, eventual, s.bodies, n.queue[k].index);
    }
  }

  lemma ReceiverKnows(session: Session, task: Task, i: nat, queue: seq<Command>, serving: bool, eventual: seq<byte>,
                      part: Part,
                      bodies: map<nat, seq<byte>>, history: seq<PartMetadata>)
    requires session.Valid() && part.meta.bitmap.Sized() && task.Fetching?
    requires TaskOk(session, task, i, queue, serving, eventual, part, bodies, history)
    ensures Uncommitted(queue, part.meta.Complete(), i)
  {
    hide HoldsStart, Holds;
  }

  lemma ReceivedPartOk(session: Session, part: Part, bodies: map<nat, seq<byte>>, history: seq<PartMetadata>, i: nat,
                       body: seq<byte>)
    requires session.Valid() && PartOk(session, part, bodies, history) && i !in part.meta.Complete()
    requires i < session.Count() && |body| == ChunkLen(session.job, i)
    ensures PartOk(session, part, bodies[i := body], history)
  {
    hide ChunkLen, ChunkBytes;
  }

  /** Chunk `i` was received: its task has its body, the others know what they knew. */
  lemma TaskAfterReceive(session: Session, task: Task, x: nat, queue: seq<Command>, serving: bool, eventual: seq<byte>,
                         part: Part,
                         bodies: map<nat, seq<byte>>, history: seq<PartMetadata>, i: nat, body: seq<byte>, attempt: nat)
    requires session.Valid() && part.meta.bitmap.Sized() && |eventual| == session.job.ContentLen()
    requires TaskOk(session, task, x, queue, serving, eventual, part, bodies, history)
    requires i < session.Count() && |body| == ChunkLen(session.job, i) && (x == i ==> task == Fetching(attempt, body))
    ensures var after := if x == i then Fetched(attempt) else task;
            TaskOk(session, after, x, queue, serving, eventual, part, bodies[i := body], history)
  {
    hide ChunkLen, ChunkBytes, Bits.Members, Uncommitted;
    if x == i && serving {
      WholeStart(session, eventual, body, i);
    }
  }

  lemma WholeStart(session: Session, content: seq<byte>, sent: seq<byte>, i: nat)
    requires session.Valid() && HoldsStart(session, content, sent, i) && |sent| == ChunkLen(session.job, i)
    ensures ChunkBytes(session.job, content, i) == sent
  {
    assert ChunkBytes(session.job, content, i)[..|sent|] == ChunkBytes(session.job, content, i);
  }

  lemma SubmitKeepsFlow(session: Session, s: State, i: nat)
    requires session.Valid() && FlowOf(session, s) && i in s.tasks && s.tasks[i].Fetched? && s.writer == Serving
    requires |s.queue| < session.capacity && forall x | x in s.pending :: x !in s.tasks
    ensures FlowOf(session, s.(queue := s.queue + [Commit(i)], tasks := s.tasks[i := Waiting]))
  {
    hide Eventual, PartOk, ChunkLen, ChunkBytes, Holds, HoldsStart;
    var n := s.(queue := s.queue + [Commit(i)], tasks := s.tasks[i := Waiting]);
    PartSized(session, s.part, s.bodies, s.history);
    QueueInRange(session, s);
    var eventual := Eventual(session.job, s.part.content, s.queue);
    assert TaskOk(session, s.tasks[i], i, s.queue, true, eventual, s.part, s.bodies, s.history);
    EventualAppend(session.job, s.part.content, s.queue, Commit(i));
    forall x | x in n.tasks
      ensures x in session.Todo()
              && TaskOk(session, n.tasks[x], x, n.queue, true, eventual, n.part, n.bodies, n.history)
    {
      assert TaskOk(session, s.tasks[x], x, s.queue, true, eventual, s.part, s.bodies, s.history);
    }
    forall k | 0 <= k < |n.queue| && n.queue[k].Commit?
      ensures Holds(session, eventual, n.bodies, n.queue[k].index)
    {
      if k < |s.queue| {
        assert n.queue[k] == s.queue[k];
      }
    }
  }

  // ---- the writer ----

  lemma PutNothing(job: Protocol.Job, content: seq<byte>, i: nat, offset: nat)
    requires job.Valid() && i < job.Plan().chunkCount && |content| == job.ContentLen() && offset <= ChunkLen(job, i)
    ensures PutBytes(job, content, i, offset, []) == content
  {
  }

  lemma TailOk(session: Session, queue: seq<Command>, done: set<nat>)
    requires session.Valid() && QueueOk(session, queue, done) && queue != []
    ensures QueueOk(session, queue[1..], done)
    ensures queue[0].Commit? ==> Quiet(queue[1..], queue[0].index)
  {
    hide InRange;
  }

  lemma HeadMissing(session: Session, s: State)
    requires session.Valid() && FlowOf(session, s) && s.queue != []
    ensures InRange(session.job, s.queue[0]) && Protocol.Missing(s.part.meta, s.queue[0].index)
    ensures |s.part.content| == session.job.ContentLen() && s.queue[0].index in session.Todo()
  {
    hide Eventual, CommitsOk, TasksOk;
    assert s.queue[0] in s.queue;
  }

  /** Writing into a chunk that is not complete leaves the complete ones alone. */
  lemma PutKeepsPart(session: Session, s: State, i: nat, offset: nat, bytes: seq<byte>)
    requires session.Valid() && PartOk(session, s.part, s.bodies, s.history) && i < session.Count()
    requires offset + |bytes| <= ChunkLen(session.job, i) && i !in s.part.meta.Complete()
    ensures PartOk(session, s.part.(content := PutBytes(session.job, s.part.content, i, offset, bytes)), s.bodies,
                   s.history)
  {
    hide PutBytes, ChunkBytes, ChunkLen;
    forall c | c in s.part.meta.Complete()
      ensures Holds(session, PutBytes(session.job, s.part.content, i, offset, bytes), s.bodies, c)
    {
      assert Holds(session, s.part.content, s.bodies, c);
      PutSparesOthers(session.job, s.part.content, i, offset, bytes, c);
    }
  }

  /** What the file will hold once the queue is worked off does not change when
      the writer executes the head of the queue. */
  lemma PutKeepsEventual(session: Session, s: State)
    requires session.Valid() && FlowOf(session, s) && s.writer == Serving && s.queue != [] && s.queue[0].Put?
    ensures var n := AfterPut(session, s, |s.queue[0].bytes|);
            n.queue == s.queue[1..] && n.writer == Serving && |n.part.content| == session.job.ContentLen()
            && AllInRange(session.job, n.queue)
            && Eventual(session.job, n.part.content, n.queue) == Eventual(session.job, s.part.content, s.queue)
  {
    hide CommitsOk, TasksOk, ChunkLen, PutBytes;
    HeadMissing(session, s);
    var c := s.queue[0];
    if c.bytes == [] {
      PutNothing(session.job, s.part.content, c.index, c.offset);
    } else {
      assert c.bytes[..|c.bytes|] == c.bytes;
    }
  }

  lemma WriterPutKeepsFlow(session: Session, s: State, count: nat)
    requires session.Valid() && FlowOf(session, s) && s.writer == Serving && PutWaits(s, count)
    ensures FlowOf(session, AfterPut(session, s, count))
  {
    HeadMissing(session, s);
    TailOk(session, s.queue, s.part.meta.Complete());
    var c, n := s.queue[0], AfterPut(session, s, count);
    PutKeepsPart(session, s, c.index, c.offset, c.bytes[..count]);
    hide ChunkLen, PutBytes, ChunkBytes, Eventual, Holds, QueueOk;
    if c.bytes == [] || count == |c.bytes| {
      PutKeepsEventual(session, s);
      hide Flow, PartOk;
      SameEventual(session, s, n);
    } else {
      BrokenFlow(session, s, n);
    }
  }

  /** A writer that failed has no queue; what is committed stays. */
  lemma BrokenFlow(session: Session, s: State, n: State)
    requires session.Valid() && FlowOf(session, s) && n.queue == [] && n.writer.Broken?
    requires n.pending == s.pending && n.tasks == s.tasks && n.bodies == s.bodies && n.history == s.history
             && n.part.meta == s.part.meta
    requires PartOk(session, n.part, n.bodies, n.history)
    ensures FlowOf(session, n)
  {
    hide Holds, HoldsStart, Eventual;
    PartSized(session, s.part, s.bodies, s.history);
    hide PartOk;
    forall x | x in n.tasks
      ensures x in session.Todo()
              && TaskOk(session, n.tasks[x], x, n.queue, false, Eventual(session.job, n.part.content, n.queue), n.part,
                        n.bodies, n.history)
    {
      assert TaskOk(session, s.tasks[x], x, s.queue, s.writer == Serving,
                    Eventual(session.job, s.part.content, s.queue), s.part, s.bodies, s.history);
    }
  }

  /** The queue loses its head; what it amounts to stays. */
  lemma SameEventual(session: Session, s: State, n: State)
    requires session.Valid() && FlowOf(session, s) && s.queue != [] && n.queue == s.queue[1..]
             && s.writer == n.writer == Serving
    requires n.pending == s.pending && n.tasks == s.tasks && n.bodies == s.bodies && n.history == s.history
             && n.part.meta == s.part.meta
    requires PartOk(session, n.part, n.bodies, n.history) && QueueOk(session, n.queue, n.part.meta.Complete())
    requires Eventual(session.job, n.part.content, n.queue) == Eventual(session.job, s.part.content, s.queue)
    ensures FlowOf(session, n)
  {
    hide Eventual, PartOk, Holds, HoldsStart, InRange, TaskOk;
    PartSized(session, s.part, s.bodies, s.history);
    PartSized(session, n.part, n.bodies, n.history);
    var eventual := Eventual(session.job, s.part.content, s.queue);
    forall x | x in n.tasks
      ensures x in session.Todo()
              && TaskOk(session, n.tasks[x], x, n.queue, true, eventual, n.part, n.bodies, n.history)
    {
      assert TaskOk(session, s.tasks[x], x, s.queue, true, eventual, s.part, s.bodies, s.history);
      TaskAfterPop(session, s.tasks[x], x, s.queue, eventual, s.part, n.part, s.bodies, s.history);
    }
  }

  lemma TaskAfterPop(session: Session, task: Task, x: nat, queue: seq<Command>, eventual: seq<byte>, part: Part,
                     after: Part,
                     bodies: map<nat, seq<byte>>, history: seq<PartMetadata>)
    requires session.Valid() && part.meta.bitmap.Sized() && after.meta == part.meta && queue != []
    requires TaskOk(session, task, x, queue, true, eventual, part, bodies, history)
    ensures TaskOk(session, task, x, queue[1..], true, eventual, after, bodies, history)
  {
    hide Holds, HoldsStart;
  }

  /** A task other than the one that is answered. */
  lemma TaskAfterCommit(session: Session, task: Task, x: nat, queue: seq<Command>, eventual: seq<byte>, part: Part,
                        after: Part,
                        bodies: map<nat, seq<byte>>, history: seq<PartMetadata>)
    requires session.Valid() && part.meta.bitmap.Sized() && after.meta.bitmap.Sized() && queue != [] && queue[0].Commit?
    requires after.meta.Complete() == part.meta.Complete() + {queue[0].index}
    requires TaskOk(session, task, x, queue, true, eventual, part, bodies, history)
    ensures TaskOk(session, task, x, queue[1..], true, eventual, after, bodies, history + [after.meta])
  {
    hide Holds, HoldsStart, Bits.Members;
    assert queue[0] == Commit(queue[0].index);
  }

  /** When a commit is executed, the file holds the body of the attempt that
      was streamed last, whatever else was interleaved. */
  lemma CommitHoldsBody(session: Session, s: State)
    requires session.Valid() && FlowOf(session, s) && s.writer == Serving && s.queue != [] && s.queue[0].Commit?
    ensures Holds(session, s.part.content, s.bodies, s.queue[0].index)
  {
    hide TasksOk, ChunkBytes, ChunkLen;
    var c := s.queue[0];
    HeadMissing(session, s);
    TailOk(session, s.queue, s.part.meta.Complete());
    assert Eventual(session.job, s.part.content, s.queue) == Eventual(session.job, s.part.content, s.queue[1..]);
    EventualSpares(session.job, s.part.content, s.queue[1..], c.index);
    assert Holds(session, Eventual(session.job, s.part.content, s.queue), s.bodies, c.index);
  }

  lemma WriterCommitKeepsFlow(session: Session, s: State, r: Result<()>)
    requires session.Valid() && FlowOf(session, s) && s.writer == Serving && CommitWaits(s, r)
    ensures FlowOf(session, AfterCommit(session, s, r))
  {
    HeadMissing(session, s);
    if r.Success? {
      CommitHoldsBody(session, s);
      CommittedKeepsPart(session, s);
      CommittedKeepsFlow(session, s);
    } else {
      hide Eventual, PartOk, InRange, Holds, HoldsStart;
    }
  }

  lemma CommittedKeepsPart(session: Session, s: State)
    requires session.Valid() && FlowOf(session, s) && s.writer == Serving && CommitWaits(s, Success(()))
    requires Holds(session, s.part.content, s.bodies, s.queue[0].index)
             && Protocol.Missing(s.part.meta, s.queue[0].index)
    requires s.queue[0].index in session.Todo()
    ensures var n := AfterCommit(session, s, Success(()));
            PartOk(session, n.part, n.bodies, n.history)
            && n.part.meta.Complete() == s.part.meta.Complete() + {s.queue[0].index}
            && n.part.content == s.part.content
  {
    hide Eventual, ChunkBytes, ChunkLen, TasksOk, CommitsOk, QueueOk, PendingOk;
    ProtocolSafety.NextBelongs(session.job, s.part.meta, s.queue[0].index);
  }

  lemma CommittedKeepsFlow(session: Session, s: State)
    requires session.Valid() && FlowOf(session, s) && s.writer == Serving && CommitWaits(s, Success(()))
    requires Protocol.Missing(s.part.meta, s.queue[0].index)
    requires var n := AfterCommit(session, s, Success(()));
             PartOk(session, n.part, n.bodies, n.history)
             && n.part.meta.Complete() == s.part.meta.Complete() + {s.queue[0].index}
             && n.part.content == s.part.content
    ensures FlowOf(session, AfterCommit(session, s, Success(())))
  {
    hide ChunkBytes, ChunkLen, PartOk, Holds, HoldsStart, InRange, TaskOk, Bits.Members;
    var n, i := AfterCommit(session, s, Success(())), s.queue[0].index;
    TailOk(session, s.queue, s.part.meta.Complete());
    PartSized(session, n.part, n.bodies, n.history);
    PartSized(session, s.part, s.bodies, s.history);
    var eventual := Eventual(session.job, s.part.content, s.queue);
    assert Eventual(session.job, n.part.content, n.queue) == eventual;
    forall x | x in n.tasks
      ensures x in session.Todo()
              && TaskOk(session, n.tasks[x], x, n.queue, true, eventual, n.part, n.bodies, n.history)
    {
      assert TaskOk(session, s.tasks[x], x, s.queue, true, eventual, s.part, s.bodies, s.history);
      TaskAfterCommit(session, s.tasks[x], x, s.queue, eventual, s.part, n.part, s.bodies, s.history);
      if n.tasks[x] != s.tasks[x] {
        AnsweredOk(session, i, n.queue, eventual, n.part, n.bodies, n.history);
      }
    }
  }

  lemma AnsweredOk(session: Session, i: nat, queue: seq<Command>, eventual: seq<byte>, part: Part,
                   bodies: map<nat, seq<byte>>, history: seq<PartMetadata>)
    requires session.Valid() && part.meta.bitmap.Sized() && i in part.meta.Complete() && part.meta in history
    ensures TaskOk(session, Done(Committed(part.meta)), i, queue, true, eventual, part, bodies, history)
  {
  }

  // ---- scheduling ----

  ghost predicate NotOpened(session: Session, s: State) {
    s.pending == [] && s.tasks == map[] && s.joined == {} && s.lost == {} && s.queue == []
    && s.part == session.found && s.progress == None
  }

  predicate PreOpen(pc: Pc) {
    ((pc.CheckCancel? || pc.CheckPause?) && (pc.stage.BeforeProbe? || pc.stage.BeforeOpen?)) || pc.Probing?
    || pc.Opening?
  }

  /** Conservation: every chunk that was incomplete when the file was opened is
      waiting, in flight, joined or given up, and only one of these. */
  ghost predicate Partition(session: Session, pending: seq<nat>, flying: set<nat>, joined: set<nat>, lost: set<nat>)
    requires session.Valid()
  {
    (forall i :: i in session.Todo() <==> i in pending || i in flying || i in joined || i in lost)
    && (forall i | i in pending :: i !in flying && i !in joined && i !in lost)
    && (forall i | i in flying :: i !in joined && i !in lost)
    && joined !! lost
    && (forall a, b | 0 <= a < b < |pending| :: pending[a] != pending[b])
  }

  ghost predicate Placed(session: Session, s: State)
    requires session.Valid()
  {
    Partition(session, s.pending, s.tasks.Keys, s.joined, s.lost)
  }

  predicate Drained(s: State) {
    s.tasks == map[] && s.lost == {} && s.queue == []
  }

  /** What the main loop may rely on where it is. */
  predicate PcOk(session: Session, s: State) {
    match s.pc
    case CheckCancel(stage) =>
      (stage.BeforeLoop? ==> Drained(s) && s.joined == {})
      && (stage.BeforeFinalize? ==> Drained(s) && (s.pending == [] || s.pause || s.cancel))
    case CheckPause(stage) =>
      (stage.BeforeLoop? ==> Drained(s) && s.joined == {})
      && (stage.BeforeFinalize? ==> Drained(s) && (s.pending == [] || s.pause))
    case Top => s.lost == {}
    case TopPause => s.lost == {}
    case Fill => s.lost == {}
    case FillCancel => s.lost == {}
    case Filled => s.lost == {} && (|s.tasks| >= session.parallelism || s.pending == [] || s.pause || s.cancel)
    case Joining => s.lost == {} && s.tasks != map[]
    case Joined => s.lost == {}
    case Draining(why) => !why.Emptied?
    case Closing(why) => s.tasks == map[] && (why.Emptied? ==> s.lost == {} && (s.pending == [] || s.pause || s.cancel))
    case Closed => Drained(s) && (s.pending == [] || s.pause || s.cancel)
    case Finalizing => Drained(s) && s.pending == []
    case Promoted => Drained(s) && s.pending == []
    case _ => true
  }

  predicate AttemptOk(session: Session, task: Task) {
    match task
    case Trying(n) => 1 <= n <= session.maxAttempts
    case Fetching(n, _) => 1 <= n <= session.maxAttempts
    case Fetched(n) => 1 <= n <= session.maxAttempts
    case Backoff(n) => 1 <= n < session.maxAttempts
    case _ => true
  }

  ghost predicate InFlight(session: Session, tasks: map<nat, Task>) {
    |tasks| <= session.parallelism && forall i | i in tasks :: AttemptOk(session, tasks[i])
  }

  ghost predicate Sched(session: Session, s: State)
    requires session.Valid()
  {
    InFlight(session, s.tasks)
    && (if PreOpen(s.pc) then NotOpened(session, s)
        else Placed(session, s) || ((s.pc.Ended? || s.pc.Killed?) && NotOpened(session, s)))
    && PcOk(session, s)
    && s.part.meta.bitmap.Sized() && s.joined <= s.part.meta.Complete()
  }

  // ---- what is reported ----

  /** What was published comes from one record of the history. */
  ghost predicate ProgressOk(progress: Option<Progress>, history: seq<PartMetadata>) {
    progress == None || exists h :: h in history && h.Consistent() && progress == Some(ProgressOf(h))
  }

  ghost predicate Reported(session: Session, s: State)
    requires session.Valid()
  {
    (s.life == Completed ==> s.promoted && s.pc.Ended?)
    && (s.pc.Promoted? ==> s.promoted)
    && (s.promoted ==>
          ((s.pc.Promoted? || s.pc == Ended(Success(()))) && Drained(s)
           && s.part.meta.bitmap.Sized() && s.part.meta.bitmap.AllComplete()
           && Accepts(session.job.ext, session.job.hash, s.part.content)))
    && ProgressOk(s.progress, s.history)
  }

  ghost predicate Inv(session: Session, s: State)
    requires session.Valid()
  {
    FlowOf(session, s) && Sched(session, s) && Reported(session, s)
  }

  // ---- the steps of the main loop ----

  lemma SpawnKeepsPlaced(session: Session, s: State)
    requires session.Valid() && Placed(session, s) && s.pending != []
    ensures Placed(session, s.(pending := s.pending[1..], tasks := s.tasks[s.pending[0] := Trying(1)]))
    ensures s.pending[0] in session.Todo() && s.pending[0] !in s.tasks
  {
    hide Session.Todo;
    assert forall i | i in s.pending :: i == s.pending[0] || i in s.pending[1..];
    assert s.tasks[s.pending[0] := Trying(1)].Keys == s.tasks.Keys + {s.pending[0]};
  }

  lemma SpawnKeepsInFlight(session: Session, tasks: map<nat, Task>, i: nat)
    requires session.Valid() && InFlight(session, tasks) && i !in tasks && |tasks| < session.parallelism
    ensures InFlight(session, tasks[i := Trying(1)]) && |tasks[i := Trying(1)]| == |tasks| + 1
  {
    assert |tasks[i := Trying(1)]| == |tasks| + 1;
  }

  lemma SpawnKeepsSched(session: Session, s: State)
    requires session.Valid() && Sched(session, s) && Spawns(session, s)
    ensures Sched(session, MainNext(session, s))
  {
    hide Session.Todo, Partition, Placed, InFlight, Bits.Members;
    SpawnKeepsPlaced(session, s);
    SpawnKeepsInFlight(session, s.tasks, s.pending[0]);
    var n := s.(pending := s.pending[1..], tasks := s.tasks[s.pending[0] := Trying(1)]);
    assert Placed(session, n) && Placed(session, MainNext(session, s)) == Placed(session, n) by {
      PlacedBySame(session, n, MainNext(session, s));
    }
  }

  lemma PlacedBySame(session: Session, s: State, n: State)
    requires session.Valid() && Placed(session, s)
    requires n.pending == s.pending && n.tasks.Keys == s.tasks.Keys && n.joined == s.joined && n.lost == s.lost
    ensures Placed(session, n)
  {
    hide Partition;
  }

  lemma MainStaysOpen(session: Session, s: State)
    requires session.Valid() && Enabled(session, s, Main)
    ensures PreOpen(NextPc(session, s)) ==> PreOpen(s.pc)
    ensures PreOpen(s.pc) ==> PreOpen(NextPc(session, s)) || NextPc(session, s).Ended?
    ensures !s.pc.Ended? && !s.pc.Killed?
  {
  }

  lemma MainKeepsPcOk(session: Session, s: State)
    requires session.Valid() && Enabled(session, s, Main) && !Spawns(session, s) && PcOk(session, s)
    requires s.writer != Serving ==> s.queue == []
    ensures PcOk(session, MainNext(session, s))
  {
    hide NextLife;
  }

  lemma FlowQueue(session: Session, s: State)
    requires session.Valid() && FlowOf(session, s)
    ensures s.writer != Serving ==> s.queue == []
    ensures |s.queue| <= session.capacity
  {
    hide Eventual, PartOk, CommitsOk, TasksOk, QueueOk, PendingOk;
  }

  lemma MainKeepsSched(session: Session, s: State)
    requires session.Valid() && Inv(session, s) && Enabled(session, s, Main)
    ensures Sched(session, MainNext(session, s))
  {
    hide Enabled, NextPc, NextLife, Session.Todo, FlowOf, Reported, Bits.Members, Partition, InFlight, PcOk;
    FlowQueue(session, s);
    if Spawns(session, s) {
      SpawnKeepsSched(session, s);
    } else {
      MainStaysOpen(session, s);
      MainKeepsPcOk(session, s);
    }
  }

  lemma MainKeepsFlow(session: Session, s: State)
    requires session.Valid() && Inv(session, s) && Enabled(session, s, Main)
    ensures FlowOf(session, MainNext(session, s))
  {
    hide NextPc, NextLife, Flow, Session.Todo, Reported, Bits.Members, PartMetadata.Consistent, Partition, InFlight,
      PcOk, NotOpened;
    if Spawns(session, s) {
      SpawnKeepsPlaced(session, s);
      SpawnKeepsFlow(session, s);
    }
  }

  lemma MainKeepsLife(session: Session, s: State)
    requires session.Valid() && MainReady(s) && (s.life == Completed ==> s.promoted && s.pc.Ended?)
    requires s.promoted ==> s.pc.Promoted? || s.pc == Ended(Success(()))
    requires s.pc.Promoted? ==> s.promoted
    ensures var n := MainNext(session, s);
            (n.life == Completed ==> n.promoted && n.pc.Ended?) && (n.pc.Promoted? ==> n.promoted)
            && (n.promoted ==> n.pc.Promoted? || n.pc == Ended(Success(())))
  {
    hide NextPc, NextLife;
    PromotedEnds(session, s);
    if !s.pc.Promoted? {
      CompletesOnlyPromoted(session, s);
    }
  }

  lemma PromotedEnds(session: Session, s: State)
    requires MainReady(s)
    ensures s.pc.Promoted? ==> NextPc(session, s) == Ended(Success(()))
    ensures !NextPc(session, s).Promoted?
  {
  }

  lemma CompletesOnlyPromoted(session: Session, s: State)
    requires MainReady(s) && s.life != Completed && !s.pc.Promoted?
    ensures NextLife(session, s) != Completed
  {
    hide NextPc;
  }

  lemma MainKeepsReported(session: Session, s: State)
    requires session.Valid() && Inv(session, s) && Enabled(session, s, Main)
    ensures Reported(session, MainNext(session, s))
  {
    hide FlowOf, Sched, Bits.AllComplete, ProgressOf, Accepts, PartMetadata.Consistent;
    hide NextPc, NextLife;
    MainKeepsLife(session, s);
  }

  /** The chunks to do are those that the file lists as incomplete. */
  lemma OpenKeepsInv(session: Session, s: State, r: Result<()>)
    requires session.Valid() && Inv(session, s) && Enabled(session, s, Open(r))
    ensures Inv(session, Next(session, s, Open(r)))
  {
    hide TaskReady, TaskNext, SignalReady, SignalNext, FlowOf, Sched, Reported, ProgressOf;
    if r.Success? {
      OpeningIsFresh(session, s);
      OpenedFlow(session, s);
      OpenedSched(session, s);
      OpenedReported(session, s);
    } else {
      FailedOpen(session, s, r);
    }
  }

  /** Opening succeeded. */
  ghost function Opened(session: Session, s: State): State
    requires session.Valid()
  {
    s.(pc := CheckCancel(BeforeLoop), pending := session.found.meta.bitmap.IncompleteIndices(),
       progress := Some(ProgressOf(session.found.meta)))
  }

  lemma OpeningIsFresh(session: Session, s: State)
    requires session.Valid() && Sched(session, s) && s.pc == Opening
    ensures NotOpened(session, s)
  {
    hide Partition, InFlight, Bits.Members;
  }

  lemma OpenedFlow(session: Session, s: State)
    requires session.Valid() && FlowOf(session, s) && NotOpened(session, s)
    ensures FlowOf(session, Opened(session, s))
  {
    hide Eventual, ProgressOf, PartOk, QueueOk, CommitsOk, TasksOk;
    ToDoIsMissing(session);
  }

  lemma OpenedSched(session: Session, s: State)
    requires session.Valid() && Sched(session, s) && s.pc == Opening
    ensures Sched(session, Opened(session, s))
  {
    hide ProgressOf, Session.Todo, InFlight, Bits.IncompleteIndices, Bits.Members;
    ToDoIsMissing(session);
  }

  lemma OpenedReported(session: Session, s: State)
    requires session.Valid() && Reported(session, s) && FlowOf(session, s) && s.part == session.found && s.pc == Opening
    ensures Reported(session, Opened(session, s))
  {
    hide ProgressOf, Accepts, Bits.AllComplete, Bits.IncompleteIndices, Eventual, CommitsOk, TasksOk, QueueOk,
      PendingOk, Holds;
  }

  lemma ToDoIsMissing(session: Session)
    requires session.Valid()
    ensures forall i: nat :: i in session.found.meta.bitmap.IncompleteIndices() <==> i in session.Todo()
    ensures forall i | i in session.found.meta.bitmap.IncompleteIndices() :: i !in session.found.meta.Complete()
    ensures forall a, b | 0 <= a < b < |session.found.meta.bitmap.IncompleteIndices()| ::
              session.found.meta.bitmap.IncompleteIndices()[a] != session.found.meta.bitmap.IncompleteIndices()[b]
  {
    hide Bits.IncompleteFrom, Session.Valid, Session.Todo;
    var bits := session.found.meta.bitmap;
    BitsOfSession(session);
    IncompleteIsComplement(bits, 0);
    assert bits.IncompleteIndices() == bits.IncompleteFrom(0);
    forall i: nat
      ensures i in bits.IncompleteIndices() <==> i in session.Todo()
    {
      ToDoMeans(session, i);
      assert i in bits.IncompleteFrom(0) <==> i < bits.chunkCount && !bits.BitSet(i);
    }
    forall i | i in bits.IncompleteIndices()
      ensures i !in session.found.meta.Complete()
    {
      ToDoMeans(session, i);
    }
  }

  lemma BitsOfSession(session: Session)
    requires session.Valid()
    ensures session.found.meta.bitmap.Sized() && session.found.meta.bitmap.chunkCount == session.Count()
  {
  }

  lemma ToDoMeans(session: Session, i: nat)
    requires session.Valid()
    ensures session.found.meta.bitmap.Sized() && session.found.meta.bitmap.chunkCount == session.Count()
    ensures i in session.Todo() <==> i < session.Count() && !session.found.meta.bitmap.BitSet(i)
    ensures i in session.Todo() ==> i !in session.found.meta.Complete()
  {
  }

  lemma FailedOpen(session: Session, s: State, r: Result<()>)
    requires session.Valid() && Inv(session, s) && s.pc == Opening && r.Failure?
    ensures Inv(session, End(s, r))
  {
    hide Flow, ProgressOf, Session.Todo, Partition, InFlight, Accepts, Bits.AllComplete, Bits.Members;
  }

  /** A reply that a task holds is a record that the writer made durable. */
  lemma JoinedOutcome(session: Session, s: State, i: nat)
    requires session.Valid() && FlowOf(session, s) && i in s.tasks && s.tasks[i].Done? && s.tasks[i].outcome.Committed?
    ensures s.part.meta.bitmap.Sized() && i in s.part.meta.Complete()
    ensures s.tasks[i].outcome.meta in s.history && s.tasks[i].outcome.meta.Consistent()
  {
    hide Session.Todo, Eventual, CommitsOk, Holds;
    assert TaskOk(session, s.tasks[i], i, s.queue, s.writer == Serving, Eventual(session.job, s.part.content, s.queue),
                  s.part, s.bodies, s.history);
  }

  lemma RemovedSize(tasks: map<nat, Task>, i: nat)
    requires i in tasks
    ensures |tasks - {i}| == |tasks| - 1
  {
    assert (tasks - {i}).Keys == tasks.Keys - {i};
    assert |tasks| == |tasks.Keys| && |tasks - {i}| == |(tasks - {i}).Keys|;
  }

  lemma DropKeepsInFlight(session: Session, tasks: map<nat, Task>, i: nat)
    requires InFlight(session, tasks) && i in tasks
    ensures InFlight(session, tasks - {i})
  {
    RemovedSize(tasks, i);
  }

  lemma JoinKeepsPlaced(session: Session, s: State, i: nat)
    requires session.Valid() && Placed(session, s) && i in s.tasks
    ensures Placed(session, s.(tasks := s.tasks - {i}, joined := s.joined + {i}))
    ensures Placed(session, s.(tasks := s.tasks - {i}, lost := s.lost + {i}))
  {
    hide Session.Todo;
    assert (s.tasks - {i}).Keys == s.tasks.Keys - {i};
  }

  lemma JoinKeepsSched(session: Session, s: State, i: nat)
    requires session.Valid() && Inv(session, s) && s.pc == Joining && i in s.tasks && s.tasks[i].Done?
    ensures Sched(session, AfterJoin(s, i, s.tasks[i].outcome))
  {
    hide Session.Todo, FlowOf, Reported, ProgressOf, PartMetadata.Consistent, Bits.Members, Partition, InFlight,
      MainNext, AfterPut, AfterCommit;
    if s.tasks[i].outcome.Committed? {
      JoinedOutcome(session, s, i);
    }
    DropKeepsInFlight(session, s.tasks, i);
    JoinKeepsPlaced(session, s, i);
  }

  lemma JoinKeepsReported(session: Session, s: State, i: nat)
    requires session.Valid() && Inv(session, s) && s.pc == Joining && i in s.tasks && s.tasks[i].Done?
    ensures Reported(session, AfterJoin(s, i, s.tasks[i].outcome))
  {
    hide FlowOf, Sched, Bits.AllComplete, Bits.Sized, Accepts, ProgressOk;
    if s.tasks[i].outcome.Committed? {
      JoinedOutcome(session, s, i);
    }
    JoinedProgress(session, s, i);
  }

  /** A reply publishes the record that it carries. */
  lemma JoinedProgress(session: Session, s: State, i: nat)
    requires session.Valid() && ProgressOk(s.progress, s.history) && i in s.tasks && s.tasks[i].Done?
    requires s.tasks[i].outcome.Committed? ==>
              s.tasks[i].outcome.meta in s.history && s.tasks[i].outcome.meta.Consistent()
    ensures ProgressOk(AfterJoin(s, i, s.tasks[i].outcome).progress, s.history)
  {
    hide ProgressOf;
    var outcome := s.tasks[i].outcome;
    if outcome.Committed? {
      SizedRecord(outcome.meta);
    }
  }

  lemma SizedRecord(m: PartMetadata)
    requires m.Consistent()
    ensures m.bitmap.Sized()
  {
  }

  /** A task that only moves on is still in flight. */
  lemma TaskMoveKeepsSched(session: Session, s: State, i: nat, task: Task, n: State)
    requires session.Valid() && Sched(session, s) && i in s.tasks && AttemptOk(session, task)
    requires n == s.(tasks := s.tasks[i := task], bodies := n.bodies, queue := n.queue)
    ensures Sched(session, n)
  {
    hide Session.Todo, Partition, Bits.Members;
    assert !Drained(s);
    assert s.tasks[i := task].Keys == s.tasks.Keys;
    SameSize(s.tasks, i, task);
  }

  lemma SameSize(tasks: map<nat, Task>, i: nat, task: Task)
    requires i in tasks
    ensures |tasks[i := task]| == |tasks|
  {
    assert tasks[i := task].Keys == tasks.Keys;
    assert |tasks| == |tasks.Keys| && |tasks[i := task]| == |tasks[i := task].Keys|;
  }

  lemma AbortKeepsSched(session: Session, s: State, i: nat)
    requires session.Valid() && Sched(session, s) && Enabled(session, s, Abort(i))
    ensures Sched(session, Next(session, s, Abort(i)))
  {
    hide TaskReady, TaskNext, SignalReady, SignalNext, Session.Todo, Bits.Members, Partition, InFlight;
    DropKeepsInFlight(session, s.tasks, i);
    JoinKeepsPlaced(session, s, i);
  }

  // ---- every step ----

  /** What a task that moves on knows about its chunk, it knew before. */
  lemma MovedTaskOk(session: Session, s: State, a: Action, eventual: seq<byte>)
    requires session.Valid() && IsTaskMove(a) && TaskReady(session, s, a) && s.part.meta.bitmap.Sized()
    requires a.i in session.Todo() && |eventual| == session.job.ContentLen()
    requires TaskOk(session, s.tasks[a.i], a.i, s.queue, s.writer == Serving, eventual, s.part, s.bodies, s.history)
    ensures TaskOk(session, TaskNext(session, s, a).tasks[a.i], a.i, s.queue, s.writer == Serving, eventual, s.part,
                   s.bodies,
                   s.history)
  {
    hide Holds, Uncommitted, Bits.Members, ChunkLen, HoldsStart, Session.Todo;
    if a.Begin? {
      NothingSent(session, eventual, a.i);
    }
  }

  lemma MovedAttemptOk(session: Session, s: State, a: Action)
    requires session.Valid() && IsTaskMove(a) && TaskReady(session, s, a) && AttemptOk(session, s.tasks[a.i])
    ensures AttemptOk(session, TaskNext(session, s, a).tasks[a.i])
    ensures TaskNext(session, s, a) == s.(tasks := s.tasks[a.i := TaskNext(session, s, a).tasks[a.i]])
  {
    hide ChunkLen;
  }

  /** Where a task that only moves on goes. */
  lemma MovedTask(session: Session, s: State, a: Action)
    requires session.Valid() && Inv(session, s) && Enabled(session, s, a) && IsTaskMove(a)
    ensures a.i in s.tasks && Next(session, s, a) == s.(tasks := s.tasks[a.i := Next(session, s, a).tasks[a.i]])
    ensures AttemptOk(session, Next(session, s, a).tasks[a.i])
    ensures TaskOk(session, Next(session, s, a).tasks[a.i], a.i, s.queue, s.writer == Serving,
                   Eventual(session.job, s.part.content, s.queue), s.part, s.bodies, s.history)
  {
    hide RunReady, RunNext, SignalReady, SignalNext, TaskReady, TaskNext, Eventual, CommitsOk, QueueOk, PendingOk,
      Reported,
      Placed, PcOk, TaskOk, AttemptOk, Session.Todo, Bits.Members;
    assert AllInRange(session.job, s.queue) by {
      QueueInRange(session, s);
    }
    TaskIsThere(session, s, a);
    MovedTaskOk(session, s, a, Eventual(session.job, s.part.content, s.queue));
    MovedAttemptOk(session, s, a);
  }

  lemma TaskIsThere(session: Session, s: State, a: Action)
    requires session.Valid() && IsTaskStep(a) && TaskReady(session, s, a)
    ensures a.i in s.tasks
  {
  }

  lemma QueueInRange(session: Session, s: State)
    requires session.Valid() && FlowOf(session, s)
    ensures AllInRange(session.job, s.queue)
  {
    hide Eventual, CommitsOk, TasksOk, PartOk;
  }

  lemma NothingSent(session: Session, content: seq<byte>, i: nat)
    requires session.Valid() && i in session.Todo() && |content| == session.job.ContentLen()
    ensures HoldsStart(session, content, [], i)
  {
  }

  lemma TaskMoveKeepsInv(session: Session, s: State, a: Action)
    requires session.Valid() && Inv(session, s) && Enabled(session, s, a) && IsTaskMove(a)
    ensures Inv(session, Next(session, s, a))
  {
    MovedTask(session, s, a);
    hide Enabled, Next, FlowOf, Sched, TaskOk, AttemptOk, ProgressOf, Accepts, Bits.AllComplete;
    var n := Next(session, s, a);
    TaskMoveKeepsFlow(session, s, a.i, n.tasks[a.i]);
    TaskMoveKeepsSched(session, s, a.i, n.tasks[a.i], n);
  }

  /** Moving bytes and marks does not touch the schedule. */
  lemma DataKeepsReported(session: Session, s: State, n: State)
    requires session.Valid() && Reported(session, s) && s.tasks != map[]
    requires n.pc == s.pc && n.life == s.life && n.promoted == s.promoted && n.progress == s.progress
             && n.history == s.history
    ensures Reported(session, n)
  {
    hide ProgressOf, Accepts, Bits.AllComplete;
  }

  lemma PendingApart(session: Session, s: State)
    requires session.Valid() && Sched(session, s) && s.tasks != map[]
    ensures forall x | x in s.pending :: x !in s.tasks
  {
    hide Session.Todo, Bits.Members, PcOk, InFlight;
    assert Placed(session, s);
  }

  lemma TaskDataKeepsInv(session: Session, s: State, a: Action)
    requires session.Valid() && Inv(session, s) && Enabled(session, s, a) && (a.Send? || a.Receive? || a.Submit?)
    ensures Inv(session, Next(session, s, a))
  {
    hide RunReady, RunNext, SignalReady, SignalNext, FlowOf, ProgressOf, Accepts, Bits.AllComplete, Partition, PcOk,
      Reported;
    var n := Next(session, s, a);
    DataKeepsReported(session, s, n);
    assert AttemptOk(session, s.tasks[a.i]);
    TaskMoveKeepsSched(session, s, a.i, n.tasks[a.i], n);
    if a.Send? {
      SendKeepsFlow(session, s, a.i, a.fragment);
    } else if a.Receive? {
      ReceiveKeepsFlow(session, s, a.i);
    } else {
      PendingApart(session, s);
      SubmitKeepsFlow(session, s, a.i);
    }
  }

  /** What the steps from outside change. */
  ghost predicate Signalled(s: State, a: Action, n: State) {
    if a.Probe? then
      s.pc.Probing? && n == s.(pc := n.pc, life := n.life) && (n.pc == CheckCancel(BeforeOpen) || n.pc.Ended?)
      && (n.life == Completed ==> s.life == Completed)
    else if a.Kill? then n == s.(pc := Killed) && !s.pc.Ended? && !s.pc.Promoted?
    else if a.WriterEnd? then n == s.(writer := Finished) && s.writer == Serving && s.queue == [] && s.tasks == map[]
    else
      n == s.(pause := n.pause, cancel := n.cancel, life := n.life) && (s.pause ==> n.pause) && (s.cancel ==> n.cancel)
      && (n.life == Completed ==> s.life == Completed)
  }

  lemma SignalEffect(session: Session, s: State, a: Action)
    requires session.Valid() && Enabled(session, s, a) && IsSignal(a)
    ensures Signalled(s, a, Next(session, s, a))
  {
    hide TaskReady, TaskNext, RunReady, RunNext, MainNext, AfterJoin, AfterPut, AfterCommit, ChunkLen, Accepts;
  }

  lemma SignalKeepsFlow(session: Session, s: State, a: Action, n: State)
    requires session.Valid() && FlowOf(session, s) && IsSignal(a) && Signalled(s, a, n)
    ensures FlowOf(session, n)
  {
    hide PartOk, Eventual, CommitsOk, QueueOk, PendingOk;
  }

  lemma SignalKeepsSched(session: Session, s: State, a: Action, n: State)
    requires session.Valid() && Sched(session, s) && IsSignal(a) && Signalled(s, a, n)
    ensures Sched(session, n)
  {
    hide Partition, InFlight, Bits.Members;
  }

  lemma SignalKeepsReported(session: Session, s: State, a: Action, n: State)
    requires session.Valid() && Reported(session, s) && IsSignal(a) && Signalled(s, a, n)
    ensures Reported(session, n)
  {
    hide ProgressOf, Accepts, Bits.AllComplete;
  }

  lemma SignalKeepsInv(session: Session, s: State, a: Action)
    requires session.Valid() && Inv(session, s) && Enabled(session, s, a) && IsSignal(a)
    ensures Inv(session, Next(session, s, a))
  {
    hide Enabled, Next, FlowOf, Sched, Reported, Signalled;
    var n := Next(session, s, a);
    SignalEffect(session, s, a);
    SignalKeepsFlow(session, s, a, n);
    SignalKeepsSched(session, s, a, n);
    SignalKeepsReported(session, s, a, n);
  }

  lemma PromoteKeepsInv(session: Session, s: State, r: Result<()>)
    requires session.Valid() && Inv(session, s) && Enabled(session, s, Promote(r))
    ensures Inv(session, Next(session, s, Promote(r)))
  {
    hide Flow, ProgressOf, Accepts, Bits.AllComplete, Partition, InFlight, Bits.Members;
  }

  lemma AbortKeepsInv(session: Session, s: State, i: nat)
    requires session.Valid() && Inv(session, s) && Enabled(session, s, Abort(i))
    ensures Inv(session, Next(session, s, Abort(i)))
  {
    hide FlowOf, Sched, ProgressOf, Accepts, Bits.AllComplete;
    AbortKeepsSched(session, s, i);
    DropKeepsFlow(session, s, i);
    AbortedFlow(session, s.(tasks := s.tasks - {i}), Next(session, s, Abort(i)));
  }

  lemma AbortedFlow(session: Session, s: State, n: State)
    requires session.Valid() && FlowOf(session, s)
             && n == s.(pc := n.pc, joined := n.joined, lost := n.lost, progress := n.progress)
    ensures FlowOf(session, n)
  {
    hide Flow;
  }

  lemma JoinKeepsInv(session: Session, s: State, i: nat)
    requires session.Valid() && Inv(session, s) && Enabled(session, s, Join(i))
    ensures Inv(session, Next(session, s, Join(i)))
  {
    hide TaskReady, TaskNext, SignalReady, SignalNext, FlowOf, Sched, Reported, ProgressOf, MainNext, AfterPut,
      AfterCommit, Bits.Members;
    JoinKeepsSched(session, s, i);
    JoinKeepsReported(session, s, i);
    DropKeepsFlow(session, s, i);
    AbortedFlow(session, s.(tasks := s.tasks - {i}), Next(session, s, Join(i)));
  }

  /** A reply only turns a waiting task into a finished one. */
  lemma AnsweredTasks(session: Session, tasks: map<nat, Task>, i: nat, outcome: Outcome)
    requires InFlight(session, tasks)
    ensures InFlight(session, Answered(tasks, i, outcome)) && Answered(tasks, i, outcome).Keys == tasks.Keys
    ensures tasks == map[] <==> Answered(tasks, i, outcome) == map[]
  {
    if i in tasks && tasks[i].Waiting? {
      SameSize(tasks, i, Done(outcome));
    }
  }

  lemma WriterKeepsSched(session: Session, s: State, n: State)
    requires session.Valid() && Sched(session, s) && s.queue != [] && InFlight(session, n.tasks)
             && n.tasks.Keys == s.tasks.Keys
    requires n == s.(queue := n.queue, writer := n.writer, part := n.part, history := n.history, durable := n.durable,
                     tasks := n.tasks)
    requires s.queue != [] && n.part.meta.bitmap.Sized() && s.part.meta.Complete() <= n.part.meta.Complete()
    ensures Sched(session, n)
  {
    hide Partition, InFlight, Bits.Members;
    assert s.tasks == map[] <==> n.tasks == map[];
    assert |n.tasks| == |n.tasks.Keys| && |s.tasks| == |s.tasks.Keys|;
  }

  lemma WriterKeepsReported(session: Session, s: State, n: State)
    requires session.Valid() && Reported(session, s) && s.queue != [] && s.history <= n.history
    requires n == s.(queue := n.queue, writer := n.writer, part := n.part, history := n.history, durable := n.durable,
                     tasks := n.tasks)
    ensures Reported(session, n)
  {
    hide ProgressOf, Accepts, Bits.AllComplete;
  }

  lemma WriterKeepsInv(session: Session, s: State, a: Action)
    requires session.Valid() && Inv(session, s) && Enabled(session, s, a) && (a.WriterPut? || a.WriterCommit?)
    ensures Inv(session, Next(session, s, a))
  {
    hide TaskReady, TaskNext, SignalReady, SignalNext, Flow, Sched, Reported, AfterPut, AfterCommit;
    if a.WriterPut? {
      WriterPutKeepsFlow(session, s, a.count);
      WriterPutKeepsSched(session, s, a.count);
    } else {
      WriterCommitKeepsFlow(session, s, a.r);
      WriterCommitKeepsSched(session, s, a.r);
    }
  }

  lemma WriterPutKeepsSched(session: Session, s: State, count: nat)
    requires session.Valid() && Inv(session, s) && s.writer == Serving && PutWaits(s, count)
    ensures Sched(session, AfterPut(session, s, count)) && Reported(session, AfterPut(session, s, count))
  {
    hide Flow, Partition, InFlight, PcOk, PutBytes, Reported, Bits.Members, ChunkLen, Placed;
    var n := AfterPut(session, s, count);
    HeadMissing(session, s);
    WriterKeepsSched(session, s, n);
    WriterKeepsReported(session, s, n);
  }

  lemma WriterCommitKeepsSched(session: Session, s: State, r: Result<()>)
    requires session.Valid() && Inv(session, s) && s.writer == Serving && CommitWaits(s, r)
    ensures Sched(session, AfterCommit(session, s, r)) && Reported(session, AfterCommit(session, s, r))
  {
    hide Flow, Partition, InFlight, PcOk, Reported, Bits.Members, Placed, Answered;
    var n, i := AfterCommit(session, s, r), s.queue[0].index;
    HeadMissing(session, s);
    CommitGrows(session, s, r);
    AnsweredTasks(session, s.tasks, i, if r.Success? then Committed(n.part.meta) else TaskFailed(r.error));
    WriterKeepsSched(session, s, n);
    WriterKeepsReported(session, s, n);
  }

  lemma CommitGrows(session: Session, s: State, r: Result<()>)
    requires session.Valid() && FlowOf(session, s) && CommitWaits(s, r)
    ensures var n := AfterCommit(session, s, r);
            n.part.meta.bitmap.Sized() && s.part.meta.Complete() <= n.part.meta.Complete()
  {
    hide Eventual;
    HeadMissing(session, s);
    if r.Success? {
      ProtocolSafety.NextBelongs(session.job, s.part.meta, s.queue[0].index);
    }
  }

  lemma StepKeepsInv(session: Session, s: State, a: Action)
    requires session.Valid() && Inv(session, s) && Enabled(session, s, a)
    ensures Inv(session, Next(session, s, a))
  {
    if IsTaskMove(a) {
      hide *;
      TaskMoveKeepsInv(session, s, a);
    } else if IsSignal(a) {
      hide *;
      SignalKeepsInv(session, s, a);
    } else {
      hide FlowOf, Sched, Reported, Enabled, MainNext, AfterJoin, AfterPut, AfterCommit;
      match a
      case Main => MainKeepsSched(session, s); MainKeepsFlow(session, s); MainKeepsReported(session, s);
      case Open(r) => OpenKeepsInv(session, s, r);
      case Join(i) => JoinKeepsInv(session, s, i);
      case Promote(r) => PromoteKeepsInv(session, s, r);
      case Abort(i) => AbortKeepsInv(session, s, i);
      case Send(_, _) => TaskDataKeepsInv(session, s, a);
      case Receive(_) => TaskDataKeepsInv(session, s, a);
      case Submit(_) => TaskDataKeepsInv(session, s, a);
      case WriterPut(_) => WriterKeepsInv(session, s, a);
      case WriterCommit(_) => WriterKeepsInv(session, s, a);
    }
  }

  lemma InitKeepsInv(session: Session, life: Lifecycle)
    requires session.Valid()
    ensures Inv(session, Init(session, life))
  {
    hide ChunkLen, ChunkPlan.Lo, ChunkPlan.Hi;
  }
}
