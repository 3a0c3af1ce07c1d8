/** Whole runs of a download, over every interleaving, and what they guarantee. */
module DownloadRuns {
  import opened Bytes
  import opened Basics
  import opened ChunkLayout
  import opened Bitmap
  import opened Metadata
  import opened Verification
  import Protocol
  import ProtocolSafety
  import SlotCodec
  import opened Lifecycles
  import opened Accounting
  import opened DownloadRun
  import opened DownloadSafety

  ghost predicate IsRun(session: Session, states: seq<State>, actions: seq<Action>)
    requires session.Valid()
  {
    |states| == |actions| + 1 && (exists life :: states[0] == Init(session, life))
    && forall k | 0 <= k < |actions| ::
         Enabled(session, states[k], actions[k]) && states[k + 1] == Next(session, states[k], actions[k])
  }

  lemma {:induction false} RunsKeepInv(session: Session, states: seq<State>, actions: seq<Action>, k: nat)
    requires session.Valid() && IsRun(session, states, actions) && k < |states|
    ensures Inv(session, states[k])
    decreases k
  {
    hide Enabled, Next, Inv, Init;
    if k == 0 {
      var life :| states[0] == Init(session, life);
      InitKeepsInv(session, life);
    } else {
      RunsKeepInv(session, states, actions, k - 1);
      StepKeepsInv(session, states[k - 1], actions[k - 1]);
    }
  }

  // ---- the writer queue ----

  /** What the compound steps leave alone. */
  lemma MainFrame(session: Session, s: State)
    ensures var n := MainNext(session, s);
            n == s.(pc := n.pc, life := n.life, pending := n.pending, tasks := n.tasks)
  {
    hide NextPc, NextLife;
  }

  lemma JoinFrame(s: State, i: nat, outcome: Outcome)
    ensures var n := AfterJoin(s, i, outcome);
            n == s.(pc := n.pc, tasks := s.tasks - {i}, joined := n.joined, lost := n.lost, progress := n.progress)
  {
    hide ProgressOf;
  }

  lemma PutFrame(session: Session, s: State, count: nat)
    requires session.Valid() && PutWaits(s, count)
    ensures var n := AfterPut(session, s, count);
            n == s.(queue := n.queue, writer := n.writer, part := n.part) && n.part.meta == s.part.meta
  {
    hide PutInto, InRange, Protocol.Missing;
  }

  lemma CommitFrame(session: Session, s: State, r: Result<()>)
    requires session.Valid() && CommitWaits(s, r)
    ensures var n := AfterCommit(session, s, r);
            n == s.(queue := n.queue, writer := n.writer, part := n.part, history := n.history, durable := n.durable,
                    tasks := n.tasks)
            && n.tasks.Keys == s.tasks.Keys
            && ((n.history == s.history && n.durable == s.durable)
                || (n.history == s.history + [n.part.meta] && n.durable == Some(SlotCodec.Stored(n.part.meta))))
  {
  }

  /** A task step replaces one task by another for the same chunk. */
  lemma TaskFrame(session: Session, s: State, a: Action)
    requires session.Valid() && Enabled(session, s, a) && IsTaskStep(a)
    ensures var n := Next(session, s, a);
            n == s.(tasks := n.tasks, queue := n.queue, bodies := n.bodies) && n.tasks.Keys == s.tasks.Keys
            && (!a.Receive? ==> n.bodies == s.bodies)
  {
    hide RunReady, RunNext, SignalReady, SignalNext, MainNext, AfterJoin, AfterPut, AfterCommit, ProgressOf, ChunkLen,
      Accepts;
    assert a.i in s.tasks;
    var n := Next(session, s, a);
    assert n.tasks == s.tasks[a.i := n.tasks[a.i]];
    assert n.tasks.Keys == s.tasks.Keys + {a.i};
  }

  /** A step from outside leaves the work alone. */
  lemma SignalFrame(session: Session, s: State, a: Action)
    requires session.Valid() && Enabled(session, s, a) && IsSignal(a)
    ensures var n := Next(session, s, a);
            n == s.(pc := n.pc, life := n.life, pause := n.pause, cancel := n.cancel, writer := n.writer)
            && (s.pause ==> n.pause) && (s.cancel ==> n.cancel) && (s.writer.Broken? ==> n.writer.Broken?)
  {
    hide Enabled, Next;
    SignalEffect(session, s, a);
  }

  /** No other step moves a flag or a body, and one of them promotes. */
  lemma LoopFrame(session: Session, s: State, a: Action)
    requires session.Valid() && Enabled(session, s, a) && !IsTaskStep(a) && !IsSignal(a)
    ensures var n := Next(session, s, a);
            n.bodies == s.bodies && n.pause == s.pause && n.cancel == s.cancel
            && (n.promoted ==> s.promoted || (a.Promote? && a.r.Success? && s.pc == Finalizing))
  {
    hide TaskReady, TaskNext, SignalReady, SignalNext, MainNext, AfterJoin, AfterPut, AfterCommit, ProgressOf, Accepts;
    if a.Main? {
      MainFrame(session, s);
    } else if a.Join? {
      JoinFrame(s, a.i, s.tasks[a.i].outcome);
    } else if a.WriterPut? {
      PutFrame(session, s, a.count);
    } else if a.WriterCommit? {
      CommitFrame(session, s, a.r);
    }
  }

  /** The file, its records and the schedule change only where it says so. */
  lemma RunFrame(session: Session, s: State, a: Action)
    requires session.Valid() && Enabled(session, s, a) && !IsTaskStep(a) && !IsSignal(a)
    ensures var n := Next(session, s, a);
            (!a.WriterCommit? ==> n.history == s.history && n.durable == s.durable)
            && (!a.WriterPut? && !a.WriterCommit? ==> n.part == s.part && n.writer == s.writer)
            && (a.WriterPut? || a.WriterCommit? || a.Promote? ==>
                n.tasks.Keys == s.tasks.Keys && n.pending == s.pending)
  {
    hide TaskReady, TaskNext, SignalReady, SignalNext, MainNext, AfterJoin, AfterPut, AfterCommit, ProgressOf, Accepts;
    if a.Main? {
      MainFrame(session, s);
    } else if a.Join? {
      JoinFrame(s, a.i, s.tasks[a.i].outcome);
    } else if a.WriterPut? {
      PutFrame(session, s, a.count);
    } else if a.WriterCommit? {
      CommitFrame(session, s, a.r);
    }
  }

  lemma StepFrame(session: Session, s: State, a: Action)
    requires session.Valid() && Enabled(session, s, a)
    ensures var n := Next(session, s, a);
            (!a.Receive? ==> n.bodies == s.bodies) && (s.pause ==> n.pause) && (s.cancel ==> n.cancel)
            && (!a.WriterCommit? ==> n.history == s.history && n.durable == s.durable)
            && (!a.WriterPut? && !a.WriterCommit? ==> n.part == s.part && (s.writer.Broken? ==> n.writer.Broken?))
            && (n.promoted ==> s.promoted || (a.Promote? && a.r.Success? && s.pc == Finalizing))
            && (!a.Main? && !a.Join? && !a.Abort? && !a.Open? ==>
                n.tasks.Keys == s.tasks.Keys && n.pending == s.pending)
  {
    hide Enabled, Next;
    if IsTaskStep(a) {
      TaskFrame(session, s, a);
    } else if IsSignal(a) {
      SignalFrame(session, s, a);
    } else {
      LoopFrame(session, s, a);
      RunFrame(session, s, a);
    }
  }

  /** Step j is the last receipt of chunk i before state k. */
  predicate ReceivedAt(states: seq<State>, actions: seq<Action>, j: nat, k: nat, i: nat) {
    j < k <= |actions| && k < |states| && actions[j] == Receive(i)
    && i in states[j].tasks && states[j].tasks[i].Fetching? && i in states[k].bodies
    && states[k].bodies[i] == states[j].tasks[i].sent
    && forall x | j < x < k :: actions[x] != Receive(i)
  }

  lemma BodiesStep(session: Session, s: State, a: Action, i: nat)
    requires session.Valid() && Enabled(session, s, a) && i in Next(session, s, a).bodies
    ensures if a == Receive(i)
            then i in s.tasks && s.tasks[i].Fetching? && Next(session, s, a).bodies[i] == s.tasks[i].sent
            else i in s.bodies && Next(session, s, a).bodies[i] == s.bodies[i]
  {
    hide SignalReady, SignalNext, RunReady, RunNext, MainNext, AfterJoin, AfterPut, AfterCommit, Accepts, ChunkLen;
    if !a.Receive? {
      hide Next;
      StepFrame(session, s, a);
    }
  }

  /** The recorded body of a chunk that was fetched in this run is the body of
      the last attempt that was streamed to its end. */
  lemma {:induction false} BodyIsLastReceived(session: Session, states: seq<State>, actions: seq<Action>, k: nat,
                                              i: nat)
    requires session.Valid() && IsRun(session, states, actions) && k < |states|
    requires i in states[k].bodies && i in session.Todo()
    ensures exists j: nat :: ReceivedAt(states, actions, j, k, i)
    decreases k
  {
    hide Enabled, Next;
    assert k > 0;
    BodiesStep(session, states[k - 1], actions[k - 1], i);
    if actions[k - 1] == Receive(i) {
      assert ReceivedAt(states, actions, k - 1, k, i);
    } else {
      BodyIsLastReceived(session, states, actions, k - 1, i);
      var j: nat :| ReceivedAt(states, actions, j, k - 1, i);
      assert ReceivedAt(states, actions, j, k, i);
    }
  }

  /** Writer-queue correctness. Whenever a commit of chunk i is executed, the
      range of chunk i in the file is exactly the body of i's last fully streamed
      attempt; retries, timeouts, aborts and other chunks make no difference. */
  lemma CommitsWhatWasReceived(session: Session, states: seq<State>, actions: seq<Action>, k: nat)
    requires session.Valid() && IsRun(session, states, actions) && k < |actions| && actions[k].WriterCommit?
    ensures |states[k].queue| > 0 && states[k].queue[0].index in session.Todo()
    ensures var i := states[k].queue[0].index;
            |states[k].part.content| == session.job.ContentLen()
            && exists j: nat :: ReceivedAt(states, actions, j, k, i)
                           && ChunkBytes(session.job, states[k].part.content, i) == states[j].tasks[i].sent
  {
    hide Sched, Reported, Next;
    RunsKeepInv(session, states, actions, k);
    var s := states[k];
    assert Enabled(session, s, actions[k]);
    hide Enabled, IsRun, Flow;
    CommitHoldsBody(session, s);
    HeadMissing(session, s);
    BodyIsLastReceived(session, states, actions, k, s.queue[0].index);
    var j: nat :| ReceivedAt(states, actions, j, k, s.queue[0].index);
  }

  /** A write touches no chunk but its own, and never a complete one. */
  lemma WritesStayInTheirChunk(session: Session, states: seq<State>, actions: seq<Action>, k: nat, c: nat)
    requires session.Valid() && IsRun(session, states, actions) && k < |actions| && actions[k].WriterPut?
    requires c < session.Count() && |states[k].queue| > 0 && c != states[k].queue[0].index
    ensures !(states[k].queue[0].index in session.found.meta.Complete())
    ensures |states[k].part.content| == |states[k + 1].part.content| == session.job.ContentLen()
    ensures ChunkBytes(session.job, states[k + 1].part.content, c) == ChunkBytes(session.job, states[k].part.content, c)
  {
    hide Sched, Reported, Flow, TaskReady, TaskNext, SignalReady, SignalNext, AfterPut, ChunkBytes;
    RunsKeepInv(session, states, actions, k);
    var s := states[k];
    assert Enabled(session, s, actions[k]) && states[k + 1] == Next(session, s, actions[k]);
    hide IsRun;
    HeadMissing(session, s);
    PutStays(session, s, actions[k].count, c);
  }

  lemma PutStays(session: Session, s: State, count: nat, c: nat)
    requires session.Valid() && PutWaits(s, count) && c < session.Count() && c != s.queue[0].index
    requires |s.part.content| == session.job.ContentLen()
    ensures |AfterPut(session, s, count).part.content| == session.job.ContentLen()
    ensures ChunkBytes(session.job, AfterPut(session, s, count).part.content, c)
            == ChunkBytes(session.job, s.part.content, c)
  {
    hide ChunkBytes, ChunkLen, PutInto;
    var q := s.queue[0];
    if InRange(session.job, q) {
      PutIntoStays(session.job, s.part, q.index, q.offset, q.bytes[..count], c);
    }
  }

  lemma PutIntoStays(job: Protocol.Job, part: Part, i: nat, offset: nat, bytes: seq<byte>, c: nat)
    requires job.Valid() && InRange(job, Put(i, offset, bytes)) && |part.content| == job.ContentLen()
    requires c < job.Plan().chunkCount && c != i
    ensures ChunkBytes(job, PutInto(job, part, i, offset, bytes).content, c) == ChunkBytes(job, part.content, c)
  {
    hide ChunkBytes, PutBytes, ChunkLen;
    PutSparesOthers(job, part.content, i, offset, bytes, c);
  }

  // ---- scheduling ----

  /** The loop of the scheduler, before anything is given up. */
  predicate InLoop(pc: Pc) {
    pc.Top? || pc.TopPause? || pc.Fill? || pc.FillCancel? || pc.Filled? || pc.Joining? || pc.Joined?
  }

  /** Scheduling conservation: in the loop, the chunks to do are those pending,
      in flight and joined, each in one place; what was joined is committed. */
  lemma ChunksAreConserved(session: Session, states: seq<State>, actions: seq<Action>, k: nat)
    requires session.Valid() && IsRun(session, states, actions) && k < |states| && InLoop(states[k].pc)
    ensures var s := states[k];
            (set i | i in s.pending) + s.tasks.Keys + s.joined == session.Todo()
            && (set i | i in s.pending) !! s.tasks.Keys && (set i | i in s.pending) !! s.joined
            && s.tasks.Keys !! s.joined
            && (forall a, b | 0 <= a < b < |s.pending| :: s.pending[a] != s.pending[b])
            && |s.tasks| <= session.parallelism && |s.queue| <= session.capacity
            && s.part.meta.bitmap.Sized() && s.joined <= s.part.meta.Complete()
  {
    RunsKeepInv(session, states, actions, k);
    hide IsRun, Inv, FlowOf;
    InvParts(session, states[k]);
    FlowQueue(session, states[k]);
    SchedConserves(session, states[k]);
  }

  lemma InvParts(session: Session, s: State)
    requires session.Valid() && Inv(session, s)
    ensures FlowOf(session, s) && Sched(session, s) && Reported(session, s)
  {
    hide FlowOf, Sched, Reported;
  }

  lemma SchedConserves(session: Session, s: State)
    requires session.Valid() && Sched(session, s) && InLoop(s.pc)
    ensures (set i | i in s.pending) + s.tasks.Keys + s.joined == session.Todo()
            && (set i | i in s.pending) !! s.tasks.Keys && (set i | i in s.pending) !! s.joined
            && s.tasks.Keys !! s.joined
            && (forall a, b | 0 <= a < b < |s.pending| :: s.pending[a] != s.pending[b])
            && |s.tasks| <= session.parallelism
            && s.part.meta.bitmap.Sized() && s.joined <= s.part.meta.Complete()
  {
    hide Session.Todo, Bits.Members, AttemptOk, Partition;
    assert Placed(session, s) && s.lost == {};
    PartitionAsSets(session, s.pending, s.tasks.Keys, s.joined);
  }

  lemma PartitionAsSets(session: Session, pending: seq<nat>, flying: set<nat>, joined: set<nat>)
    requires session.Valid() && Partition(session, pending, flying, joined, {})
    ensures (set i | i in pending) + flying + joined == session.Todo()
    ensures (set i | i in pending) !! flying && (set i | i in pending) !! joined && flying !! joined
    ensures forall a, b | 0 <= a < b < |pending| :: pending[a] != pending[b]
  {
    hide Session.Todo;
    assert forall i :: i in (set i | i in pending) + flying + joined <==> i in session.Todo();
  }

  function Outstanding(s: State): nat {
    |s.pending| + |s.tasks|
  }

  /** Every join retires one chunk, whatever its task brought back, and no other
      step that is taken in the loop changes the number outstanding. */
  lemma JoinsMakeProgress(session: Session, states: seq<State>, actions: seq<Action>, k: nat)
    requires session.Valid() && IsRun(session, states, actions) && k < |actions| && InLoop(states[k].pc)
    ensures Outstanding(states[k + 1]) == Outstanding(states[k]) - if actions[k].Join? then 1 else 0
  {
    hide Inv, Enabled, Next;
    RunsKeepInv(session, states, actions, k);
    InvParts(session, states[k]);
    var s, n := states[k], states[k + 1];
    assert Enabled(session, s, actions[k]) && n == Next(session, s, actions[k]);
    StepKeepsOutstanding(session, s, actions[k]);
  }

  lemma SpawnKeepsOutstanding(session: Session, s: State)
    requires session.Valid() && Sched(session, s) && Spawns(session, s)
    ensures Outstanding(MainNext(session, s)) == Outstanding(s)
  {
    hide NextPc, NextLife, Partition, InFlight, Bits.Members, Session.Todo;
    SpawnKeepsPlaced(session, s);
    SpawnSize(s.tasks, s.pending[0]);
  }

  lemma SpawnSize(tasks: map<nat, Task>, i: nat)
    requires i !in tasks
    ensures |tasks[i := Trying(1)]| == |tasks| + 1
  {
  }

  lemma StepKeepsOutstanding(session: Session, s: State, a: Action)
    requires session.Valid() && Sched(session, s) && Enabled(session, s, a) && InLoop(s.pc)
    ensures Outstanding(Next(session, s, a)) == Outstanding(s) - if a.Join? then 1 else 0
  {
    if a.Main? || a.Join? {
      MainKeepsOutstanding(session, s, a);
    } else {
      NoOpenInLoop(session, s, a);
      hide Enabled, Next, Sched;
      StepFrame(session, s, a);
      assert |Next(session, s, a).tasks| == |Next(session, s, a).tasks.Keys| && |s.tasks| == |s.tasks.Keys|;
    }
  }

  lemma NoOpenInLoop(session: Session, s: State, a: Action)
    requires session.Valid() && Enabled(session, s, a) && InLoop(s.pc)
    ensures !a.Abort? && !a.Open?
  {
    hide TaskReady, SignalReady, Accepts;
  }

  lemma MainKeepsOutstanding(session: Session, s: State, a: Action)
    requires session.Valid() && Sched(session, s) && Enabled(session, s, a) && (a.Main? || a.Join?)
    ensures Outstanding(Next(session, s, a)) == Outstanding(s) - if a.Join? then 1 else 0
  {
    hide TaskReady, TaskNext, SignalReady, SignalNext, NextPc, NextLife, Sched, Accepts, AfterPut, AfterCommit,
      AfterJoin;
    if a.Main? {
      if Spawns(session, s) {
        SpawnKeepsOutstanding(session, s);
      }
    } else {
      JoinFrame(s, a.i, s.tasks[a.i].outcome);
      RemovedSize(s.tasks, a.i);
    }
  }

  /** The flags only rise. */
  lemma FlagsOnlyRise(session: Session, s: State, a: Action)
    requires session.Valid() && Enabled(session, s, a)
    ensures (s.pause ==> Next(session, s, a).pause) && (s.cancel ==> Next(session, s, a).cancel)
  {
    hide Enabled, Next;
    StepFrame(session, s, a);
  }

  /** How often chunk `i` has been fetched before step k. */
  function Fetches(actions: seq<Action>, i: nat, k: nat): nat
    requires k <= |actions|
  {
    if k == 0 then 0 else Fetches(actions, i, k - 1) + if actions[k - 1] == Begin(i) then 1 else 0
  }

  /** A task knows how often its chunk was fetched. */
  predicate TaskFetches(session: Session, task: Task, n: nat) {
    match task
    case Trying(a) => n == a - 1
    case Fetching(a, _) => n == a
    case Fetched(a) => n == a
    case Backoff(a) => n == a
    case _ => n <= session.maxAttempts
  }

  /** A chunk without a task was never fetched, or never will be again. */
  predicate FetchesOk(session: Session, s: State, i: nat, n: nat) {
    if i in s.tasks then TaskFetches(session, s.tasks[i], n)
    else n <= session.maxAttempts && (n == 0 || i in s.joined || i in s.lost)
  }

  lemma MainCountsFetches(session: Session, s: State, i: nat, n: nat)
    requires session.Valid() && Sched(session, s) && Enabled(session, s, Main) && FetchesOk(session, s, i, n)
    ensures FetchesOk(session, MainNext(session, s), i, n)
  {
    hide NextPc, NextLife, InFlight, PcOk;
    if Spawns(session, s) {
      assert Placed(session, s);
      assert s.pending[0] in s.pending;
    }
  }

  lemma LeaveCountsFetches(session: Session, s: State, a: Action, i: nat, n: nat)
    requires session.Valid() && Sched(session, s) && Enabled(session, s, a) && (a.Join? || a.Abort?)
    requires FetchesOk(session, s, i, n)
    ensures FetchesOk(session, Next(session, s, a), i, n)
  {
    hide TaskReady, TaskNext, SignalReady, SignalNext, FetchesOk, Sched, AfterJoin;
    if a.Join? {
      JoinFrame(s, a.i, s.tasks[a.i].outcome);
      JoinLeaves(s, a.i, s.tasks[a.i].outcome);
    }
    GoneCounts(session, s, Next(session, s, a), a.i, i, n);
  }

  lemma JoinLeaves(s: State, i: nat, outcome: Outcome)
    ensures AfterJoin(s, i, outcome).joined + AfterJoin(s, i, outcome).lost == s.joined + s.lost + {i}
  {
    hide ProgressOf;
  }

  /** A chunk whose task is gone is joined or lost. */
  lemma GoneCounts(session: Session, s: State, t: State, gone: nat, i: nat, n: nat)
    requires session.Valid() && Sched(session, s) && FetchesOk(session, s, i, n) && gone in s.tasks
    requires t.tasks == s.tasks - {gone} && t.joined + t.lost == s.joined + s.lost + {gone}
    ensures FetchesOk(session, t, i, n)
  {
    hide Placed, NotOpened, PcOk, Bits.Members;
    assert i in t.joined + t.lost <==> i in s.joined + s.lost + {gone};
    if i in s.tasks {
      assert AttemptOk(session, s.tasks[i]);
    }
  }

  lemma TaskCountsFetches(session: Session, s: State, a: Action, i: nat, n: nat)
    requires session.Valid() && Sched(session, s) && Enabled(session, s, a) && IsTaskStep(a)
             && FetchesOk(session, s, i, n)
    ensures FetchesOk(session, Next(session, s, a), i, n + if a == Begin(i) then 1 else 0)
  {
    hide RunReady, RunNext, SignalReady, SignalNext, TaskReady, TaskNext, TaskFetches, Placed, NotOpened, PcOk,
      AttemptOk;
    TaskIsThere(session, s, a);
    assert AttemptOk(session, s.tasks[a.i]);
    if a.i == i {
      OwnTaskCounts(session, s, a, n);
    } else {
      OtherTaskStays(session, s, a, i);
    }
  }

  lemma OwnTaskCounts(session: Session, s: State, a: Action, n: nat)
    requires session.Valid() && IsTaskStep(a) && TaskReady(session, s, a) && AttemptOk(session, s.tasks[a.i])
    requires TaskFetches(session, s.tasks[a.i], n)
    ensures a.i in TaskNext(session, s, a).tasks
    ensures TaskFetches(session, TaskNext(session, s, a).tasks[a.i], n + if a.Begin? then 1 else 0)
  {
    hide ChunkLen;
  }

  lemma OtherTaskStays(session: Session, s: State, a: Action, i: nat)
    requires session.Valid() && IsTaskStep(a) && TaskReady(session, s, a) && i != a.i
    ensures var n := TaskNext(session, s, a);
            (i in n.tasks <==> i in s.tasks) && (i in s.tasks ==> n.tasks[i] == s.tasks[i])
            && n.joined == s.joined && n.lost == s.lost
  {
    hide ChunkLen;
  }

  lemma StepCountsFetches(session: Session, s: State, a: Action, i: nat, n: nat)
    requires session.Valid() && Sched(session, s) && Enabled(session, s, a) && FetchesOk(session, s, i, n)
    ensures FetchesOk(session, Next(session, s, a), i, n + if a == Begin(i) then 1 else 0)
  {
    hide Enabled, Next, Sched, FetchesOk;
    if IsTaskStep(a) {
      TaskCountsFetches(session, s, a, i, n);
    } else if IsSignal(a) {
      SignalCountsFetches(session, s, a, i, n);
    } else if a.Join? || a.Abort? {
      LeaveCountsFetches(session, s, a, i, n);
    } else {
      RunCountsFetches(session, s, a, i, n);
    }
  }

  lemma RunCountsFetches(session: Session, s: State, a: Action, i: nat, n: nat)
    requires session.Valid() && Sched(session, s) && Enabled(session, s, a) && FetchesOk(session, s, i, n)
    requires !IsTaskStep(a) && !IsSignal(a) && !a.Join? && !a.Abort?
    ensures FetchesOk(session, Next(session, s, a), i, n)
  {
    hide Sched, FetchesOk, MainNext, AfterPut, AfterCommit, TaskReady, TaskNext, SignalReady, SignalNext, ProgressOf,
      Accepts;
    if a.Main? {
      MainCountsFetches(session, s, i, n);
    } else if a.WriterPut? {
      PutFrame(session, s, a.count);
      SameTasksCount(session, s, AfterPut(session, s, a.count), i, n);
    } else if a.WriterCommit? {
      CommitCountsFetches(session, s, a.r, i, n);
    } else {
      SameTasksCount(session, s, Next(session, s, a), i, n);
    }
  }

  lemma SameTasksCount(session: Session, s: State, t: State, i: nat, n: nat)
    requires FetchesOk(session, s, i, n) && t.tasks == s.tasks && t.joined == s.joined && t.lost == s.lost
    ensures FetchesOk(session, t, i, n)
  {
  }

  lemma SignalCountsFetches(session: Session, s: State, a: Action, i: nat, n: nat)
    requires session.Valid() && Enabled(session, s, a) && IsSignal(a) && FetchesOk(session, s, i, n)
    ensures FetchesOk(session, Next(session, s, a), i, n)
  {
    hide FetchesOk, TaskReady, TaskNext, RunReady, RunNext;
    SameTasksCount(session, s, Next(session, s, a), i, n);
  }

  lemma CommitCountsFetches(session: Session, s: State, r: Result<()>, i: nat, n: nat)
    requires session.Valid() && CommitWaits(s, r) && FetchesOk(session, s, i, n)
    ensures FetchesOk(session, AfterCommit(session, s, r), i, n)
  {
    hide CommitInto, Protocol.Missing;
  }

  /** Step `k` of a run. */
  lemma RunStep(session: Session, states: seq<State>, actions: seq<Action>, k: nat)
    requires session.Valid() && IsRun(session, states, actions) && k < |actions|
    ensures Inv(session, states[k]) && Enabled(session, states[k], actions[k])
    ensures states[k + 1] == Next(session, states[k], actions[k])
  {
    hide Enabled, Next, Inv, Init;
    RunsKeepInv(session, states, actions, k);
  }

  lemma {:induction false} FetchesAreCounted(session: Session, states: seq<State>, actions: seq<Action>, k: nat, i: nat)
    requires session.Valid() && IsRun(session, states, actions) && k < |states|
    ensures FetchesOk(session, states[k], i, Fetches(actions, i, k))
    decreases k
  {
    hide Enabled, Next, Inv, FetchesOk, Init;
    if k == 0 {
      NoFetchesYet(session, states[0], i);
    } else {
      FetchesAreCounted(session, states, actions, k - 1, i);
      RunStep(session, states, actions, k - 1);
      hide IsRun;
      InvParts(session, states[k - 1]);
      StepCountsFetches(session, states[k - 1], actions[k - 1], i, Fetches(actions, i, k - 1));
    }
  }

  lemma NoFetchesYet(session: Session, s: State, i: nat)
    requires session.Valid() && exists life :: s == Init(session, life)
    ensures FetchesOk(session, s, i, 0)
  {
    hide ChunkBytes;
  }

  /** In a whole run no chunk is fetched more often than the retry policy allows. */
  lemma AttemptsAreBounded(session: Session, states: seq<State>, actions: seq<Action>, k: nat, i: nat)
    requires session.Valid() && IsRun(session, states, actions) && k < |states|
    ensures Fetches(actions, i, k) <= session.maxAttempts
  {
    hide Flow, Reported, IsRun, PcOk, Partition;
    RunsKeepInv(session, states, actions, k);
    FetchesAreCounted(session, states, actions, k, i);
    if i in states[k].tasks {
      assert AttemptOk(session, states[k].tasks[i]);
    }
  }

  // ---- finishing ----

  /** `finalize` is reached only when every chunk is committed and nothing is in
      flight, although pausing or cancelling can empty the task set early. */
  lemma FinalizesOnlyWhenComplete(session: Session, states: seq<State>, actions: seq<Action>, k: nat)
    requires session.Valid() && IsRun(session, states, actions) && k < |states| && states[k].pc == Finalizing
    ensures var s := states[k];
            s.pending == [] && s.tasks == map[] && s.queue == [] && s.joined == session.Todo()
            && Protocol.BelongsTo(session.job, s.part.meta) && s.part.meta.bitmap.AllComplete()
            && forall i: nat | i < session.Count() :: Holds(session, s.part.content, s.bodies, i)
  {
    hide Reported, IsRun, CommitsOk, TasksOk, QueueOk, PendingOk, Eventual, ChunkBytes;
    RunsKeepInv(session, states, actions, k);
    var s := states[k];
    AllJoined(session, s);
    AllCompleteIsFull(s.part.meta.bitmap);
  }

  lemma AllJoined(session: Session, s: State)
    requires session.Valid() && Sched(session, s) && s.pc == Finalizing && PartOk(session, s.part, s.bodies, s.history)
    ensures s.joined == session.Todo()
    ensures forall i: nat | i < session.Count() :: i in s.part.meta.Complete() && s.part.meta.bitmap.BitSet(i)
  {
    hide Sized, Holds, InFlight;
    assert Placed(session, s);
    forall i: nat | i < session.Count()
      ensures i in s.part.meta.Complete() && s.part.meta.bitmap.BitSet(i)
    {
      assert i in session.Todo() || i in session.found.meta.Complete();
    }
  }

  /** The phase is Completed only after the file was promoted, whole and
      accepted, and late pause and cancel events leave it there. */
  lemma CompletedMeansPromoted(session: Session, states: seq<State>, actions: seq<Action>, k: nat)
    requires session.Valid() && IsRun(session, states, actions) && k < |states| && states[k].life == Completed
    ensures states[k].promoted && states[k].part.meta.bitmap.Sized() && states[k].part.meta.bitmap.AllComplete()
    ensures Accepts(session.job.ext, session.job.hash, states[k].part.content)
    ensures exists j | 0 <= j < k :: states[j].pc == Finalizing && actions[j].Promote? && actions[j].r.Success?
    ensures k < |actions| ==> states[k + 1].life == Completed
  {
    hide FlowOf, Sched, Enabled, Next, Accepts, Bits.AllComplete;
    RunsKeepInv(session, states, actions, k);
    PromotedOnce(session, states, actions, k);
    if k < |actions| {
      assert Enabled(session, states[k], actions[k]) && states[k + 1] == Next(session, states[k], actions[k]);
      CompletedStays(session, states[k], actions[k]);
    }
  }

  lemma CompletedStays(session: Session, s: State, a: Action)
    requires session.Valid() && Reported(session, s) && Enabled(session, s, a) && s.life == Completed
    ensures Next(session, s, a).life == Completed
  {
    hide MainNext, Accepts, ProgressOf, Bits.AllComplete, ChunkLen, PutBytes;
    assert s.pc.Ended?;
    assert !a.Main? && !a.Promote? && !a.Join?;
  }

  lemma {:induction false} PromotedOnce(session: Session, states: seq<State>, actions: seq<Action>, k: nat)
    requires session.Valid() && IsRun(session, states, actions) && k < |states| && states[k].promoted
    ensures exists j | 0 <= j < k :: states[j].pc == Finalizing && actions[j].Promote? && actions[j].r.Success?
    decreases k
  {
    hide Enabled, Next;
    assert k > 0;
    StepFrame(session, states[k - 1], actions[k - 1]);
    if states[k - 1].promoted {
      PromotedOnce(session, states, actions, k - 1);
    }
  }

  /** The fields of a snapshot, taken from a record that was durable. */
  ghost predicate Shows(d: Option<PartMetadata>, p: Progress) {
    d.Some? && d.value.Consistent() && p == ProgressOf(d.value)
  }

  ghost predicate WasDurable(states: seq<State>, k: nat, p: Progress) {
    exists j: nat :: j <= k && j < |states| && Shows(states[j].durable, p)
  }

  lemma StoredShows(m: PartMetadata)
    requires m.Consistent()
    ensures Shows(Some(SlotCodec.Stored(m)), ProgressOf(m))
  {
    assert DoneBelow(SlotCodec.Stored(m), m.contentLen) == DoneBelow(m, m.contentLen);
  }

  lemma HistoryStep(session: Session, s: State, a: Action, h: PartMetadata)
    requires session.Valid() && Enabled(session, s, a) && h in Next(session, s, a).history
    ensures h in s.history || Next(session, s, a).durable == Some(SlotCodec.Stored(h))
  {
    if a.WriterCommit? {
      hide TaskReady, TaskNext, SignalReady, SignalNext, AfterCommit;
      CommitFrame(session, s, a.r);
    } else {
      hide Enabled, Next;
      StepFrame(session, s, a);
    }
  }

  lemma {:induction false} HistoryWasDurable(session: Session, states: seq<State>, actions: seq<Action>, k: nat,
                                             h: PartMetadata)
    requires session.Valid() && IsRun(session, states, actions) && k < |states| && h in states[k].history
    ensures h == session.found.meta || exists j: nat :: j <= k && states[j].durable == Some(SlotCodec.Stored(h))
    decreases k
  {
    hide Enabled, Next;
    if k > 0 {
      HistoryStep(session, states[k - 1], actions[k - 1], h);
      if h in states[k - 1].history {
        HistoryWasDurable(session, states, actions, k - 1, h);
      }
    }
  }

  /** What opening publishes is durable. */
  ghost predicate OpensDurably(session: Session)
    requires session.Valid()
  {
    Shows(session.durable, ProgressOf(session.found.meta))
  }

  /** Reported progress is real: the fields of every snapshot come together from
      one record. If it is not the opening record, the durable bytes recovered to
      it by then; the opening record is as durable as opening found it. */
  lemma ProgressIsDurable(session: Session, states: seq<State>, actions: seq<Action>, k: nat)
    requires session.Valid() && IsRun(session, states, actions) && k < |states| && states[k].progress.Some?
    ensures states[k].progress == Some(ProgressOf(session.found.meta))
            || WasDurable(states, k, states[k].progress.value)
    ensures OpensDurably(session) ==> WasDurable(states, k, states[k].progress.value)
  {
    hide FlowOf, Sched, ProgressOf, IsRun, PartMetadata.Consistent;
    RunsKeepInv(session, states, actions, k);
    var h :| h in states[k].history && h.Consistent() && states[k].progress == Some(ProgressOf(h));
    HistoryWasDurable(session, states, actions, k, h);
    StoredShows(h);
    if h != session.found.meta {
      var j: nat :| j <= k && states[j].durable == Some(SlotCodec.Stored(h));
      assert Shows(states[j].durable, ProgressOf(h));
    } else if OpensDurably(session) {
      InitIsDurable(session, states, actions);
      assert Shows(states[0].durable, ProgressOf(h));
    }
  }

  lemma InitIsDurable(session: Session, states: seq<State>, actions: seq<Action>)
    requires session.Valid() && IsRun(session, states, actions)
    ensures states[0].durable == session.durable
  {
  }

  /** Until a commit succeeds, the durable record is the one that opening found. */
  lemma DurableStep(session: Session, s: State, a: Action)
    requires session.Valid() && Enabled(session, s, a)
    ensures |Next(session, s, a).history| >= |s.history|
    ensures |Next(session, s, a).history| == |s.history| ==> Next(session, s, a).durable == s.durable
  {
    if a.WriterCommit? {
      hide TaskReady, TaskNext, SignalReady, SignalNext, AfterCommit;
      CommitFrame(session, s, a.r);
    } else {
      hide Enabled, Next;
      StepFrame(session, s, a);
    }
  }

  lemma {:induction false} EarlyDurable(session: Session, states: seq<State>, actions: seq<Action>, k: nat)
    requires session.Valid() && IsRun(session, states, actions) && k < |states| && |states[k].history| <= 1
    ensures forall j | 0 <= j <= k :: states[j].durable == session.durable
    decreases k
  {
    hide Enabled, Next;
    if k > 0 {
      DurableStep(session, states[k - 1], actions[k - 1]);
      EarlyHistory(session, states, actions, k - 1);
      EarlyDurable(session, states, actions, k - 1);
    }
  }

  lemma {:induction false} EarlyHistory(session: Session, states: seq<State>, actions: seq<Action>, k: nat)
    requires session.Valid() && IsRun(session, states, actions) && k < |states|
    ensures |states[k].history| >= 1
    decreases k
  {
    hide Enabled, Next;
    if k > 0 {
      EarlyHistory(session, states, actions, k - 1);
      DurableStep(session, states[k - 1], actions[k - 1]);
    }
  }

  // ---- runs that complete ----

  ghost predicate Reachable(session: Session, s: State)
    requires session.Valid()
  {
    exists states, actions :: IsRun(session, states, actions) && states[|states| - 1] == s
  }

  lemma InitReachable(session: Session, life: Lifecycle)
    requires session.Valid()
    ensures Reachable(session, Init(session, life))
  {
    assert IsRun(session, [Init(session, life)], []);
  }

  lemma StepReachable(session: Session, s: State, a: Action, n: State)
    requires session.Valid() && Reachable(session, s) && Enabled(session, s, a) && Next(session, s, a) == n
    ensures Reachable(session, n)
  {
    hide Enabled, Next;
    var states, actions :| IsRun(session, states, actions) && states[|states| - 1] == s;
    assert IsRun(session, states + [n], actions + [a]);
  }

  /** A main step that only moves on. */
  lemma MoveReachable(session: Session, s: State, pc: Pc, life: Lifecycle)
    requires session.Valid() && Reachable(session, s) && MainReady(s) && !Spawns(session, s)
    requires NextPc(session, s) == pc && NextLife(session, s) == life
    ensures Reachable(session, s.(pc := pc, life := life))
  {
    hide Reachable, NextPc, NextLife, TaskReady, TaskNext, SignalReady, SignalNext;
    StepReachable(session, s, Main, s.(pc := pc, life := life));
  }

  /** Passing one pair of flag checks while nobody pauses or cancels. */
  lemma ChecksPass(session: Session, s: State, stage: Stage)
    requires session.Valid() && Reachable(session, s) && s.pc == CheckCancel(stage) && !s.pause && !s.cancel
    ensures var c := s.(pc := CheckPause(stage));
            Reachable(session, c.(pc := NextPc(session, c), life := NextLife(session, c)))
  {
    hide Reachable;
    var c := s.(pc := CheckPause(stage));
    MoveReachable(session, s, CheckPause(stage), s.life);
    assert s.(pc := CheckPause(stage), life := s.life) == c;
    MoveReachable(session, c, NextPc(session, c), NextLife(session, c));
  }

  /** The state in which a download has just been opened. */
  ghost function JustOpened(session: Session): State
    requires session.Valid()
  {
    Init(session, Created).(pc := CheckCancel(BeforeLoop), life := Allocating,
      pending := session.found.meta.bitmap.IncompleteIndices(), progress := Some(ProgressOf(session.found.meta)))
  }

  lemma OpenReachable(session: Session)
    requires session.Valid()
    ensures Reachable(session, JustOpened(session))
  {
    hide Reachable, ProgressOf, Accepts, ChunkLen, ChunkBytes, Bits.IncompleteIndices;
    var s0 := Init(session, Created);
    InitReachable(session, Created);
    ChecksPass(session, s0, BeforeProbe);
    var s1 := s0.(pc := Probing);
    var s2 := s0.(pc := CheckCancel(BeforeOpen));
    StepReachable(session, s1, Probe(Success(())), s2);
    ChecksPass(session, s2, BeforeOpen);
    var s3 := s2.(pc := Opening, life := Allocating);
    StepReachable(session, s3, Open(Success(())), JustOpened(session));
  }

  /** Exactly when: every snapshot of every run shows a record that was durable by
      then, if and only if the opening record was. */
  lemma ProgressIsDurableExactly(session: Session)
    requires session.Valid()
    ensures (forall states: seq<State>, actions: seq<Action>, k: nat
               | IsRun(session, states, actions) && k < |states| && states[k].progress.Some? ::
               WasDurable(states, k, states[k].progress.value))
            <==> OpensDurably(session)
  {
    hide Enabled, Next, ProgressOf, Init, Shows;
    if OpensDurably(session) {
      hide IsRun;
      forall states: seq<State>, actions: seq<Action>, k: nat
        | IsRun(session, states, actions) && k < |states| && states[k].progress.Some?
        ensures WasDurable(states, k, states[k].progress.value)
      {
        ProgressIsDurable(session, states, actions, k);
      }
    } else {
      OpenReachable(session);
      var s := JustOpened(session);
      var states, actions :| IsRun(session, states, actions) && states[|states| - 1] == s;
      OpenedHistory(session);
      EarlyDurable(session, states, actions, |states| - 1);
    }
  }

  lemma OpenedHistory(session: Session)
    requires session.Valid()
    ensures |JustOpened(session).history| == 1
  {
    hide ChunkBytes, ProgressOf;
  }
}
