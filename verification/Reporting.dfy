/** What is published while chunks are joined. Every report comes from the record
    that answered a commit, but tasks need not be joined in the order of their
    commits. */
module Reporting {
  import opened Bytes
  import opened Basics
  import opened Bitmap
  import opened Metadata
  import Protocol
  import ProtocolSafety
  import opened Lifecycles
  import opened Accounting
  import opened DownloadRun
  import opened DownloadSafety
  import opened DownloadRuns
  import opened Completions
  import opened Endings

  // ---- the records of a run ----

  /** Each record marks everything that those before it mark, and more. */
  ghost predicate Growing(history: seq<PartMetadata>) {
    (forall h | h in history :: h.bitmap.Sized())
    && forall a, b | 0 <= a < b < |history| ::
         history[a].generation < history[b].generation && history[a].Complete() < history[b].Complete()
  }

  /** Every answer is one of the records, and marks the chunk that it answers. */
  ghost predicate AnswersOk(s: State) {
    |s.history| > 0 && s.history[|s.history| - 1] == s.part.meta
    && forall i | i in s.tasks && s.tasks[i].Done? && s.tasks[i].outcome.Committed? ::
         var m := s.tasks[i].outcome.meta; m in s.history && m.bitmap.Sized() && m.bitmap.Has(i)
  }

  lemma CommitAppends(session: Session, s: State, a: Action)
    requires session.Valid() && FlowOf(session, s) && Enabled(session, s, a) && a.WriterCommit?
    ensures var n := Next(session, s, a);
            (n.history == s.history && n.part == s.part)
            || (n.history == s.history + [n.part.meta] && Protocol.BelongsTo(session.job, s.part.meta)
                && n.part.meta.generation == s.part.meta.generation + 1 && n.part.meta.bitmap.Sized()
                && s.part.meta.Complete() < n.part.meta.Complete())
    ensures forall i | i in Next(session, s, a).tasks ::
              (i in s.tasks && Next(session, s, a).tasks[i] == s.tasks[i])
              || (Next(session, s, a).tasks[i].Done?
                  && (Next(session, s, a).tasks[i].outcome.Committed? ==>
                        Next(session, s, a).tasks[i].outcome.meta == Next(session, s, a).part.meta
                        && Next(session, s, a).part.meta.bitmap.Sized() && Next(session, s, a).part.meta.bitmap.Has(i)
                        && Next(session, s, a).part.meta in Next(session, s, a).history))
  {
    hide FlowOf, TaskReady, TaskNext, SignalReady, SignalNext, MainNext, AfterJoin, AfterPut, CommitInto;
    WriterNeedsQueue(session, s, a);
    HeadMissing(session, s);
    FileBelongs(session, s);
    CommitMarks(session, s, a);
  }

  lemma CommitMarks(session: Session, s: State, a: Action)
    requires session.Valid() && a.WriterCommit? && CommitWaits(s, a.r) && Protocol.BelongsTo(session.job, s.part.meta)
    requires InRange(session.job, s.queue[0]) && Protocol.Missing(s.part.meta, s.queue[0].index)
    ensures a.r.Success? ==>
              var m := CommitInto(s.part, s.queue[0].index).meta;
              m.generation == s.part.meta.generation + 1 && m.bitmap.Sized() && s.part.meta.Complete() < m.Complete()
              && m.bitmap.Has(s.queue[0].index)
  {
    var i := s.queue[0].index;
    if a.r.Success? {
      ProtocolSafety.NextBelongs(session.job, s.part.meta, i);
      assert i in CommitInto(s.part, i).meta.Complete();
      assert i !in s.part.meta.Complete();
    }
  }

  lemma GrowingAppend(history: seq<PartMetadata>, m: PartMetadata)
    requires Growing(history) && |history| > 0 && m.bitmap.Sized()
    requires var last := history[|history| - 1];
             last.bitmap.Sized() && last.generation < m.generation && last.Complete() < m.Complete()
    ensures Growing(history + [m])
  {
    hide Bits.Members;
    var longer := history + [m];
    forall a, b | 0 <= a < b < |longer|
      ensures longer[a].generation < longer[b].generation && longer[a].Complete() < longer[b].Complete()
    {
      if b == |history| && a < |history| - 1 {
        assert history[a].Complete() < history[|history| - 1].Complete();
      }
    }
  }

  ghost predicate RecordsOk(s: State) {
    Growing(s.history) && AnswersOk(s)
  }

  predicate Answer(s: State, i: nat, m: PartMetadata) {
    i in s.tasks && s.tasks[i] == Done(Committed(m))
  }

  /** Only a commit makes an answer. */
  lemma NoNewAnswer(session: Session, s: State, a: Action, i: nat, m: PartMetadata)
    requires session.Valid() && Enabled(session, s, a) && !a.WriterCommit? && Answer(Next(session, s, a), i, m)
    ensures Answer(s, i, m)
  {
    hide Enabled, Next;
    if IsTaskStep(a) {
      TaskMakesNoAnswer(session, s, a, i, m);
    } else if IsSignal(a) {
      SignalIs(session, s, a);
    } else {
      match a
      case Main => MainMakesNoAnswer(session, s, i, m);
      case Open(_) => OpenIs(session, s, a);
      case Promote(_) => PromoteIs(session, s, a);
      case Join(_) => JoinIs(session, s, a);
      case Abort(_) => AbortIs(session, s, a);
      case WriterPut(_) => PutIs(session, s, a);
    }
  }

  lemma TaskMakesNoAnswer(session: Session, s: State, a: Action, i: nat, m: PartMetadata)
    requires session.Valid() && Enabled(session, s, a) && IsTaskStep(a) && Answer(Next(session, s, a), i, m)
    ensures Answer(s, i, m)
  {
    hide RunReady, RunNext, SignalReady, SignalNext, ChunkLen;
  }

  lemma MainMakesNoAnswer(session: Session, s: State, i: nat, m: PartMetadata)
    requires session.Valid() && Enabled(session, s, Main) && Answer(Next(session, s, Main), i, m)
    ensures Answer(s, i, m)
  {
    hide Enabled, Next, NextPc, NextLife;
    MainIs(session, s);
  }

  lemma StepKeepsRecords(session: Session, s: State, a: Action)
    requires session.Valid() && Inv(session, s) && Enabled(session, s, a) && RecordsOk(s)
    ensures RecordsOk(Next(session, s, a))
    ensures forall h | h in s.history :: h in Next(session, s, a).history
  {
    hide Enabled, Next, Inv, FlowOf, Sched, Reported, Growing;
    InvParts(session, s);
    var n := Next(session, s, a);
    if a.WriterCommit? {
      CommitKeepsRecords(session, s, a);
    } else {
      StepFrame(session, s, a);
      if a.WriterPut? {
        PutIs(session, s, a);
        PutKeepsMeta(session, s, a);
      }
      forall i | i in n.tasks && n.tasks[i].Done? && n.tasks[i].outcome.Committed?
        ensures var m := n.tasks[i].outcome.meta; m in n.history && m.bitmap.Sized() && m.bitmap.Has(i)
      {
        NoNewAnswer(session, s, a, i, n.tasks[i].outcome.meta);
      }
    }
  }

  lemma PutKeepsMeta(session: Session, s: State, a: Action)
    requires session.Valid() && Enabled(session, s, a) && a.WriterPut?
    ensures Next(session, s, a).part.meta == s.part.meta
  {
    hide TaskReady, TaskNext, SignalReady, SignalNext, AfterPut;
    PutFrame(session, s, a.count);
  }

  lemma CommitKeepsRecords(session: Session, s: State, a: Action)
    requires session.Valid() && FlowOf(session, s) && Enabled(session, s, a) && RecordsOk(s) && a.WriterCommit?
    ensures RecordsOk(Next(session, s, a))
    ensures forall h | h in s.history :: h in Next(session, s, a).history
  {
    hide Enabled, Next, FlowOf, Growing, Bits.Members, Protocol.BelongsTo;
    var n := Next(session, s, a);
    CommitAppends(session, s, a);
    if n.history != s.history {
      LastSized(s);
      GrowingAppend(s.history, n.part.meta);
    }
    forall i | i in n.tasks && n.tasks[i].Done? && n.tasks[i].outcome.Committed?
      ensures var m := n.tasks[i].outcome.meta; m in n.history && m.bitmap.Sized() && m.bitmap.Has(i)
    {
    }
  }

  lemma LastSized(s: State)
    requires RecordsOk(s)
    ensures s.part.meta.bitmap.Sized() && |s.history| > 0 && s.history[|s.history| - 1] == s.part.meta
  {
    assert s.part.meta in s.history;
  }

  lemma {:induction false} RunsKeepRecords(session: Session, states: seq<State>, actions: seq<Action>, k: nat)
    requires session.Valid() && IsRun(session, states, actions) && k < |states|
    ensures RecordsOk(states[k])
    decreases k
  {
    hide Enabled, Next, Inv, IsRun, RecordsOk;
    RunLength(session, states, actions);
    if k == 0 {
      StartsRecorded(session, states, actions);
    } else {
      RunsKeepRecords(session, states, actions, k - 1);
      RunStep(session, states, actions, k - 1);
      StepKeepsRecords(session, states[k - 1], actions[k - 1]);
    }
  }

  lemma StartsRecorded(session: Session, states: seq<State>, actions: seq<Action>)
    requires session.Valid() && IsRun(session, states, actions)
    ensures RecordsOk(states[0])
  {
    hide Enabled, Next;
  }

  lemma {:induction false} RecordsStay(session: Session, states: seq<State>, actions: seq<Action>, j: nat, k: nat,
                                       h: PartMetadata)
    requires session.Valid() && IsRun(session, states, actions) && j <= k < |states| && h in states[j].history
    ensures h in states[k].history
    decreases k
  {
    hide Enabled, Next, Inv, IsRun, RecordsOk;
    RunLength(session, states, actions);
    if j < k {
      RecordsStay(session, states, actions, j, k - 1, h);
      RunsKeepRecords(session, states, actions, k - 1);
      RunStep(session, states, actions, k - 1);
      StepKeepsRecords(session, states[k - 1], actions[k - 1]);
    }
  }

  // ---- what a join publishes ----

  /** Step k joins a task whose commit was answered with `m`. */
  predicate JoinsAnswer(states: seq<State>, actions: seq<Action>, k: nat, m: PartMetadata) {
    k < |actions| && k < |states| && actions[k].Join? && Answer(states[k], actions[k].i, m)
  }

  /** A join publishes the record that answered its commit, and that marks its
      chunk. */
  lemma JoinPublishes(session: Session, states: seq<State>, actions: seq<Action>, k: nat, m: PartMetadata)
    requires session.Valid() && IsRun(session, states, actions) && JoinsAnswer(states, actions, k, m)
    ensures k + 1 < |states| && m.Consistent() && m.bitmap.Has(actions[k].i) && m in states[k].history
    ensures states[k + 1].progress == Some(ProgressOf(m))
  {
    hide Enabled, Next, Inv, IsRun, FlowOf, Sched, Reported, Growing, PartMetadata.Consistent, ProgressOf;
    RunLength(session, states, actions);
    RunStep(session, states, actions, k);
    RunsKeepRecords(session, states, actions, k);
    InvParts(session, states[k]);
    RecordsBelong(session, states[k], m);
    JoinIs(session, states[k], actions[k]);
  }

  lemma RecordsBelong(session: Session, s: State, m: PartMetadata)
    requires session.Valid() && FlowOf(session, s) && m in s.history
    ensures Protocol.BelongsTo(session.job, m) && m.Consistent()
  {
    hide Eventual, CommitsOk, TasksOk, QueueOk, PendingOk, PartMetadata.Consistent;
  }

  /** Reports go back exactly when tasks are joined out of the order of their
      commits: of two joins, the later one publishes fewer chunks if and only if its
      record is the older one. */
  lemma GoesBackExactly(session: Session, states: seq<State>, actions: seq<Action>, j: nat, k: nat,
                        a: PartMetadata, b: PartMetadata)
    requires session.Valid() && IsRun(session, states, actions) && j < k
             && JoinsAnswer(states, actions, j, a) && JoinsAnswer(states, actions, k, b)
    ensures a.Consistent() && b.Consistent()
    ensures ProgressOf(b).completedChunks < ProgressOf(a).completedChunks <==> b.generation < a.generation
  {
    hide IsRun, JoinsAnswer, Growing, AnswersOk, PartMetadata.Consistent;
    JoinPublishes(session, states, actions, j, a);
    JoinPublishes(session, states, actions, k, b);
    RecordsStay(session, states, actions, j, k, a);
    RunsKeepRecords(session, states, actions, k);
    CountsCompare(states[k].history, a, b);
  }

  lemma CountsCompare(history: seq<PartMetadata>, a: PartMetadata, b: PartMetadata)
    requires Growing(history) && a in history && b in history
    ensures a.bitmap.Sized() && b.bitmap.Sized()
    ensures b.bitmap.CompleteCount() < a.bitmap.CompleteCount() <==> b.generation < a.generation
  {
    hide Bits.Members, Bits.CompleteCount, Bits.AllComplete;
    var x: nat :| x < |history| && history[x] == a;
    var y: nat :| y < |history| && history[y] == b;
    AllCompleteIsFull(a.bitmap);
    AllCompleteIsFull(b.bitmap);
    if x < y {
      SubsetSize(a.Complete(), b.Complete());
    } else if y < x {
      SubsetSize(b.Complete(), a.Complete());
    }
  }

  // ---- and it happens ----

  /** The inner loop takes up what it has room for and leaves the rest alone. */
  lemma {:induction false} RefillReachable(session: Session, s: State)
    requires session.Valid() && Reachable(session, s) && s.pc == Fill && !s.pause && !s.cancel
    ensures exists n :: Reachable(session, n) && n.pc == Filled && n.part == s.part && n.progress == s.progress
                        && forall i | i in s.tasks :: i in n.tasks && n.tasks[i] == s.tasks[i]
    decreases |s.pending|
  {
    hide Reachable;
    MoveReachable(session, s, FillCancel, s.life);
    var t := s.(pc := FillCancel);
    if Spawns(session, t) {
      var u := t.(pc := Fill, pending := t.pending[1..], tasks := t.tasks[t.pending[0] := Trying(1)]);
      SpawnReachable(session, t);
      NextIsNew(session, t);
      RefillReachable(session, u);
    } else {
      MoveReachable(session, t, Filled, t.life);
    }
  }

  lemma NextIsNew(session: Session, s: State)
    requires session.Valid() && Reachable(session, s) && Spawns(session, s)
    ensures s.pending[0] !in s.tasks
  {
    hide Reachable, FlowOf, Reported;
    ReachableInv(session, s);
    InvParts(session, s);
    SpawnKeepsPlaced(session, s);
  }

  /** Some body for the chunk of a task that is about to try. */
  function Blank(n: nat): seq<byte> {
    seq(n, _ => 0)
  }

  /** Chunk `i` is fetched and committed; its task is left to be joined. */
  lemma ServeReachable(session: Session, s: State, i: nat)
    requires session.Valid() && Reachable(session, s) && s.writer == Serving && s.queue == []
    requires i in s.tasks && s.tasks[i] == Trying(1) && s.part.meta.generation + 1 < U64_LIMIT
    ensures exists n :: Reachable(session, n) && n.pc == s.pc && n.pause == s.pause && n.cancel == s.cancel
                        && n.life == s.life && n.writer == Serving && n.queue == [] && n.progress == s.progress
                        && n.tasks == s.tasks[i := Done(Committed(n.part.meta))]
                        && n.part.meta.generation == s.part.meta.generation + 1
  {
    hide Reachable, ChunkLen, InRange, PutInto, CommitInto, Inv, Protocol.BelongsTo, Protocol.Missing;
    ReachableInv(session, s);
    TaskIsMissing(session, s, i);
    PositiveLen(session.job, i);
    var body := Blank(ChunkLen(session.job, i));
    WholeBody(session.job, s.part.content, i, body);
    FetchReachable(session, s, i, body);
    var t := s.(tasks := s.tasks[i := Fetched(1)], queue := [Put(i, 0, body)], bodies := s.bodies[i := body]);
    CommitReachable(session, t, i, body);
    var p := PutInto(session.job, s.part, i, 0, body);
    Again(s.tasks, i, Fetched(1), Done(Committed(CommitInto(p, i).meta)));
    NextGeneration(session, p, i);
    assert Answering(session, t.(part := p), i).part.meta.generation == s.part.meta.generation + 1;
  }

  lemma NextGeneration(session: Session, p: Part, i: nat)
    requires session.Valid() && Protocol.BelongsTo(session.job, p.meta) && Protocol.Missing(p.meta, i)
             && p.meta.generation + 1 < U64_LIMIT && i < session.Count()
    ensures CommitInto(p, i).meta.generation == p.meta.generation + 1
  {
    ProtocolSafety.NextBelongs(session.job, p.meta, i);
  }

  lemma ReachableRecords(session: Session, s: State)
    requires session.Valid() && Reachable(session, s)
    ensures RecordsOk(s) && Inv(session, s)
  {
    hide Inv, IsRun, Reachable, RecordsOk;
    var states, actions := RunTo(session, s);
    ReachableInv(session, s);
    RunsKeepRecords(session, states, actions, |states| - 1);
  }

  lemma TwoKeys(tasks: map<nat, Task>) returns (i: nat, j: nat)
    requires |tasks| >= 2
    ensures i in tasks && j in tasks && i != j
  {
    i :| i in tasks;
    assert |tasks.Keys - {i}| >= 1;
    j :| j in tasks.Keys - {i};
  }

  /** The loop waits for two tasks that are about to try. */
  ghost predicate TwoWait(session: Session, s: State)
    requires session.Valid()
  {
    Calm(session, s) && s.pc == Joining && |s.tasks| >= 2 && s.part == session.found
  }

  lemma TwoReachable(session: Session)
    requires session.Valid() && session.parallelism >= 2 && |session.Todo()| >= 2
    ensures exists s :: TwoWait(session, s)
  {
    hide Reachable, ProgressOf, Bits.IncompleteIndices, Bits.Members, ChunkBytes, FlowOf, Reported, Placed;
    OpenReachable(session);
    var s0 := JustOpened(session);
    ChecksPass(session, s0, BeforeLoop);
    NothingOutstanding(session, s0);
    var s1 := s0.(pc := Top, life := Running);
    EverythingPending(session, s1);
    RoundReachable(session, s1);
    var f :| Calm(session, f) && f.pc == Filled && f.part == s1.part && Outstanding(f) == Outstanding(s1)
             && (f.tasks == map[] ==> f.pending == []);
    ReachableInv(session, f);
    InvParts(session, f);
    MoveReachable(session, f, Joining, f.life);
    assert TwoWait(session, f.(pc := Joining));
  }

  /** A file with something to do has pending chunks when it is opened. */
  lemma NothingOutstanding(session: Session, s: State)
    requires session.Valid() && s == JustOpened(session) && |session.Todo()| > 0
    ensures s.pending != []
  {
    hide ProgressOf, ChunkBytes;
    IncompleteIsComplement(session.found.meta.bitmap, 0);
    var i :| i in session.Todo();
    assert i in session.found.meta.bitmap.IncompleteFrom(0);
  }

  /** The state in which the next join publishes less than is published. */
  ghost predicate AboutToGoBack(session: Session, s: State, i: nat, m: PartMetadata)
    requires session.Valid()
  {
    Reachable(session, s) && s.pc == Joining && Answer(s, i, m) && m.Consistent() && s.progress.Some?
    && ProgressOf(m).completedChunks < s.progress.value.completedChunks
  }

  /** It can happen in every download with two chunks to do and room for two tasks:
      the chunk that was committed second is joined first. */
  lemma ReportsCanGoBack(session: Session)
    requires session.Valid() && session.parallelism >= 2 && |session.Todo()| >= 2
             && session.found.meta.generation + 2 < U64_LIMIT
    ensures exists s, i, m :: AboutToGoBack(session, s, i, m)
  {
    hide Reachable;
    TwoReachable(session);
    var s :| TwoWait(session, s);
    var i, j := TwoKeys(s.tasks);
    ServeReachable(session, s, i);
    var t :| Reachable(session, t) && t.pc == s.pc && t.pause == s.pause && t.cancel == s.cancel && t.life == s.life
             && t.writer == Serving && t.queue == [] && t.progress == s.progress
             && t.tasks == s.tasks[i := Done(Committed(t.part.meta))]
             && t.part.meta.generation == s.part.meta.generation + 1;
    ServeReachable(session, t, j);
    var u :| Reachable(session, u) && u.pc == t.pc && u.pause == t.pause && u.cancel == t.cancel && u.life == t.life
             && u.writer == Serving && u.queue == [] && u.progress == t.progress
             && u.tasks == t.tasks[j := Done(Committed(u.part.meta))]
             && u.part.meta.generation == t.part.meta.generation + 1;
    BothServed(session, u, i, j, t.part.meta, u.part.meta);
  }

  lemma BothServed(session: Session, s: State, i: nat, j: nat, a: PartMetadata, b: PartMetadata)
    requires session.Valid() && Reachable(session, s) && s.pc == Joining && !s.pause && !s.cancel && i != j
    requires Answer(s, i, a) && Answer(s, j, b) && a.generation < b.generation
    ensures exists n, i, m :: AboutToGoBack(session, n, i, m)
  {
    hide Reachable, Inv, FlowOf, Sched, Reported, Growing, ProgressOf, PartMetadata.Consistent, Bits.CompleteCount,
      Bits.Members, Protocol.BelongsTo;
    ReachableRecords(session, s);
    InvParts(session, s);
    RecordsBelong(session, s, a);
    RecordsBelong(session, s, b);
    CountsCompare(s.history, a, b);
    CountsCompare(s.history, b, a);
    PublishedCounts(a, b);
    JoinReachable(session, s, j, b);
    var n := AfterJoin(s, j, Committed(b)).(pc := Top);
    assert Answer(n, i, a) && n.progress == Some(ProgressOf(b));
    hide Answer;
    AgainReachable(session, n, i, a);
    var f :| Reachable(session, f) && f.pc == Joining && f.progress == n.progress && Answer(f, i, a);
    assert AboutToGoBack(session, f, i, a);
  }

  /** From the top the loop comes to wait again, and a task that was answered is
      still there. */
  lemma AgainReachable(session: Session, s: State, i: nat, m: PartMetadata)
    requires session.Valid() && Reachable(session, s) && s.pc == Top && !s.pause && !s.cancel && Answer(s, i, m)
    ensures exists n :: Reachable(session, n) && n.pc == Joining && n.progress == s.progress && Answer(n, i, m)
  {
    hide Reachable;
    BackToFill(session, s);
    RefillReachable(session, s.(pc := Fill));
    var f :| Reachable(session, f) && f.pc == Filled && f.part == s.part && f.progress == s.progress
             && forall x | x in s.tasks :: x in f.tasks && f.tasks[x] == s.tasks[x];
    WaitAgain(session, f, i);
    assert Answer(f.(pc := Joining), i, m);
  }

  lemma BackToFill(session: Session, s: State)
    requires session.Valid() && Reachable(session, s) && s.pc == Top && !s.pause && !s.cancel
    ensures Reachable(session, s.(pc := Fill))
  {
    hide Reachable;
    MoveReachable(session, s, TopPause, s.life);
    MoveReachable(session, s.(pc := TopPause), Fill, s.life);
  }

  lemma WaitAgain(session: Session, s: State, i: nat)
    requires session.Valid() && Reachable(session, s) && s.pc == Filled && i in s.tasks
    ensures Reachable(session, s.(pc := Joining))
  {
    hide Reachable;
    MoveReachable(session, s, Joining, s.life);
  }

  lemma PublishedCounts(a: PartMetadata, b: PartMetadata)
    requires a.Consistent() && b.Consistent()
    ensures ProgressOf(a).completedChunks == a.bitmap.CompleteCount()
    ensures ProgressOf(b).completedChunks == b.bitmap.CompleteCount()
  {
    hide Bits.CompleteCount;
  }
}
