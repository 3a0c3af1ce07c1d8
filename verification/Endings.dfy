/** How a download run stops and ends: what a pause or a cancellation still lets
    happen, why a run failed, what it reports, and in which phase it is left. */
module Endings {
  import opened Bytes
  import opened Basics
  import opened Bitmap
  import opened Metadata
  import opened Verification
  import Protocol
  import opened Lifecycles
  import opened Accounting
  import opened DownloadRun
  import opened DownloadSafety
  import opened DownloadRuns

  // ---- retrying ----

  /** A failed attempt is made again exactly if the error is one of the network or
      a status worth retrying, and the chunk has not been fetched as often as the
      policy allows; otherwise the task fails with this very error. */
  lemma RetriedExactly(session: Session, states: seq<State>, actions: seq<Action>, k: nat)
    requires session.Valid() && IsRun(session, states, actions) && k < |actions| && actions[k].FailAttempt?
    ensures var i, e := actions[k].i, actions[k].error;
            i in states[k + 1].tasks
            && if (e.Network? || e.RetryableHttpStatus?) && Fetches(actions, i, k) < session.maxAttempts
               then states[k + 1].tasks[i] == Backoff(Fetches(actions, i, k))
               else states[k + 1].tasks[i] == Done(TaskFailed(e))
  {
    hide Inv, IsRun, Enabled, Next, FetchesOk;
    RunLength(session, states, actions);
    RunStep(session, states, actions, k);
    FetchesAreCounted(session, states, actions, k, actions[k].i);
    FailedStep(session, states[k], actions[k], Fetches(actions, actions[k].i, k));
  }

  lemma FailedStep(session: Session, s: State, a: Action, n: nat)
    requires session.Valid() && a.FailAttempt? && Enabled(session, s, a) && FetchesOk(session, s, a.i, n)
    ensures a.i in Next(session, s, a).tasks
            && Next(session, s, a).tasks[a.i]
               == if (a.error.Network? || a.error.RetryableHttpStatus?) && n < session.maxAttempts then Backoff(n)
                  else Done(TaskFailed(a.error))
  {
    hide RunReady, RunNext, SignalReady, SignalNext;
  }

  lemma RunLength(session: Session, states: seq<State>, actions: seq<Action>)
    requires session.Valid() && IsRun(session, states, actions)
    ensures |states| == |actions| + 1
  {
    hide Enabled, Next, Init;
  }

  // ---- what single steps do ----

  lemma MainIs(session: Session, s: State)
    requires session.Valid() && Enabled(session, s, Main)
    ensures MainReady(s) && Next(session, s, Main) == MainNext(session, s)
  {
    hide TaskReady, TaskNext, SignalReady, SignalNext, MainNext, MainReady, Accepts;
  }

  lemma MainPc(session: Session, s: State)
    requires session.Valid() && Enabled(session, s, Main)
    ensures MainReady(s)
    ensures var n := Next(session, s, Main);
            n == s.(pc := if Spawns(session, s) then Fill else NextPc(session, s), life := n.life,
                    pending := n.pending, tasks := n.tasks)
  {
    hide Enabled, Next, NextPc, NextLife, MainReady, Spawns;
    MainIs(session, s);
  }

  lemma SignalIs(session: Session, s: State, a: Action)
    requires session.Valid() && Enabled(session, s, a) && IsSignal(a)
    ensures SignalReady(s, a) && Next(session, s, a) == SignalNext(s, a)
  {
    hide TaskReady, TaskNext, RunReady, RunNext, SignalReady, SignalNext;
  }

  lemma OpenIs(session: Session, s: State, a: Action)
    requires session.Valid() && Enabled(session, s, a) && a.Open?
    ensures var n := Next(session, s, a);
            s.pc == Opening
            && n == if a.r.Failure? then End(s, a.r)
                    else s.(pc := CheckCancel(BeforeLoop), pending := n.pending, progress := n.progress)
  {
    hide TaskReady, TaskNext, SignalReady, SignalNext, MainNext, AfterJoin, AfterPut, AfterCommit, ProgressOf, Accepts,
      Bits.AllComplete, Bits.IncompleteIndices, End;
  }

  lemma PromoteIs(session: Session, s: State, a: Action)
    requires session.Valid() && Enabled(session, s, a) && a.Promote?
    ensures s.pc == Finalizing && a.r != Failure(Error.Cancelled)
            && Next(session, s, a) == if a.r.Failure? then End(s, a.r) else s.(pc := Pc.Promoted, promoted := true)
  {
    hide TaskReady, TaskNext, SignalReady, SignalNext, MainNext, AfterJoin, AfterPut, AfterCommit, ProgressOf, Accepts,
      Bits.AllComplete, Bits.IncompleteIndices, End;
  }

  lemma JoinIs(session: Session, s: State, a: Action)
    requires session.Valid() && Enabled(session, s, a) && a.Join?
    ensures s.pc == Joining && a.i in s.tasks && s.tasks[a.i].Done?
    ensures var n := Next(session, s, a);
            n == AfterJoin(s, a.i, s.tasks[a.i].outcome)
            && n == s.(pc := n.pc, tasks := s.tasks - {a.i}, joined := n.joined, lost := n.lost, progress := n.progress)
            && match s.tasks[a.i].outcome
               case Committed(_) => n.pc == Joined
               case TaskPaused => n.pc == Draining(OnPause)
               case TaskFailed(e) => n.pc == Draining(OnError(e))
  {
    hide TaskReady, TaskNext, SignalReady, SignalNext, MainNext, AfterPut, AfterCommit, ProgressOf, Accepts;
  }

  lemma AbortIs(session: Session, s: State, a: Action)
    requires session.Valid() && Enabled(session, s, a) && a.Abort?
    ensures (s.pc.Draining? || s.pc.Killed?)
            && Next(session, s, a) == s.(tasks := s.tasks - {a.i}, lost := s.lost + {a.i})
  {
    hide TaskReady, TaskNext, SignalReady, SignalNext, MainNext, AfterJoin, AfterPut, AfterCommit, Accepts;
  }

  lemma WriterFrame(session: Session, s: State, a: Action)
    requires session.Valid() && Enabled(session, s, a) && (a.WriterPut? || a.WriterCommit?)
    ensures var n := Next(session, s, a);
            n == s.(queue := n.queue, writer := n.writer, part := n.part, history := n.history, durable := n.durable,
                    tasks := n.tasks)
            && n.tasks.Keys == s.tasks.Keys
  {
    hide TaskReady, TaskNext, SignalReady, SignalNext, AfterPut, AfterCommit;
    if a.WriterPut? {
      PutFrame(session, s, a.count);
    } else {
      CommitFrame(session, s, a.r);
    }
  }

  // ---- where the main loop can go ----

  lemma PcOfOthers(session: Session, s: State, a: Action)
    requires session.Valid() && Enabled(session, s, a) && !a.Main?
    ensures var pc := Next(session, s, a).pc;
            pc == s.pc || (pc.Ended? && (a.Probe? || a.Open? || a.Promote?)) || (pc.Killed? && a.Kill?)
            || (a.Probe? && s.pc == Probing && pc == CheckCancel(BeforeOpen))
            || (a.Open? && s.pc == Opening && pc == CheckCancel(BeforeLoop))
            || (a.Join? && s.pc == Joining && (pc == Joined || pc.Draining?))
            || (a.Promote? && s.pc == Finalizing && pc == Pc.Promoted)
    ensures a.Join? ==> s.pc == Joining && Next(session, s, a).pc != Joining
  {
    hide Enabled, Next;
    if IsTaskStep(a) {
      TaskFrame(session, s, a);
    } else if IsSignal(a) {
      SignalIs(session, s, a);
    } else {
      match a
      case Open(_) => OpenIs(session, s, a);
      case Promote(_) => PromoteIs(session, s, a);
      case Join(_) => JoinIs(session, s, a);
      case Abort(_) => AbortIs(session, s, a);
      case _ => WriterFrame(session, s, a);
    }
  }

  // ---- stopping ----

  predicate PastPause(pc: Pc) {
    pc.Finalizing? || pc.Promoted?
  }

  predicate PastCancel(pc: Pc) {
    PastPause(pc) || pc == CheckPause(BeforeFinalize)
  }

  /** A flag was raised before its last check. */
  predicate StoppedInTime(s: State) {
    !s.promoted && ((s.cancel && !PastCancel(s.pc)) || (s.pause && !PastPause(s.pc)))
  }

  lemma StepStaysStopped(session: Session, s: State, a: Action)
    requires session.Valid() && Enabled(session, s, a) && StoppedInTime(s)
    ensures StoppedInTime(Next(session, s, a))
  {
    hide Enabled, Next;
    StepFrame(session, s, a);
    if a.Main? {
      MainStaysStopped(session, s);
    } else {
      PcOfOthers(session, s, a);
    }
  }

  lemma MainStaysStopped(session: Session, s: State)
    requires session.Valid() && Enabled(session, s, Main) && StoppedInTime(s)
    ensures StoppedInTime(Next(session, s, Main))
  {
    hide Enabled, Next, MainReady, Spawns, WorseError;
    MainPc(session, s);
  }

  /** A run that was paused or cancelled before the last check of the flag never
      promotes the file. */
  lemma {:induction false} StopMeansNoPromotion(session: Session, states: seq<State>, actions: seq<Action>, j: nat,
                                                k: nat)
    requires session.Valid() && IsRun(session, states, actions) && j <= k < |states| && StoppedInTime(states[j])
    ensures StoppedInTime(states[k]) && !states[k].promoted
    decreases k
  {
    hide Enabled, Next, StoppedInTime;
    if j < k {
      StopMeansNoPromotion(session, states, actions, j, k - 1);
      StepStaysStopped(session, states[k - 1], actions[k - 1]);
    }
    assert !states[k].promoted by {
      StoppedIsNot(states[k]);
    }
  }

  lemma StoppedIsNot(s: State)
    ensures StoppedInTime(s) ==> !s.promoted
  {
  }

  predicate Spawned(session: Session, s: State, a: Action) {
    a.Main? && Spawns(session, s)
  }

  /** The joins, and the chunks taken up, from step j to before step k. */
  function Joins(actions: seq<Action>, j: nat, k: nat): nat
    requires j <= k <= |actions|
    decreases k
  {
    if j == k then 0 else Joins(actions, j, k - 1) + if actions[k - 1].Join? then 1 else 0
  }

  function Taken(session: Session, states: seq<State>, actions: seq<Action>, j: nat, k: nat): nat
    requires j <= k <= |actions| && k < |states|
    decreases k
  {
    if j == k then 0
    else Taken(session, states, actions, j, k - 1)
         + if Spawned(session, states[k - 1], actions[k - 1]) then 1 else 0
  }

  /** How many more joins, or chunks, the loop can come to before it looks at the
      flags. */
  function JoinsLeft(s: State): nat {
    if s.pc.Fill? || s.pc.FillCancel? || s.pc.Filled? || s.pc.Joining? || (s.pc.TopPause? && !s.pause) then 1 else 0
  }

  function ChunksLeft(s: State): nat {
    if s.pc.FillCancel? && !s.cancel then 1 else 0
  }

  lemma StepUsesUp(session: Session, s: State, a: Action)
    requires session.Valid() && Enabled(session, s, a) && (s.pause || s.cancel)
    ensures var n := Next(session, s, a);
            (n.pause || n.cancel)
            && (if a.Join? then 1 else 0) + JoinsLeft(n) <= JoinsLeft(s)
            && (s.cancel ==> !Spawned(session, s, a))
            && (s.pause ==> (if Spawned(session, s, a) then 1 else 0) + ChunksLeft(n) <= ChunksLeft(s))
  {
    hide Enabled, Next;
    StepFrame(session, s, a);
    if a.Main? {
      MainUsesUp(session, s);
    } else {
      PcOfOthers(session, s, a);
    }
  }

  lemma MainUsesUp(session: Session, s: State)
    requires session.Valid() && Enabled(session, s, Main) && (s.pause || s.cancel)
    ensures var n := Next(session, s, Main);
            JoinsLeft(n) <= JoinsLeft(s) && (s.cancel ==> !Spawned(session, s, Main))
            && (s.pause ==> (if Spawned(session, s, Main) then 1 else 0) + ChunksLeft(n) <= ChunksLeft(s))
  {
    hide Enabled, Next;
    MainIs(session, s);
  }

  /** A stopped run stops soon: once a flag is up the loop joins one more task at
      most, and takes up one more chunk at most, none if it was cancelled. */
  lemma StopsSoon(session: Session, states: seq<State>, actions: seq<Action>, j: nat, k: nat)
    requires session.Valid() && IsRun(session, states, actions) && j <= k < |states|
             && (states[j].pause || states[j].cancel)
    ensures Joins(actions, j, k) <= 1
    ensures Taken(session, states, actions, j, k) <= if states[j].cancel then 0 else 1
  {
    hide IsRun;
    JoinsUsedUp(session, states, actions, j, k);
    if states[j].cancel {
      NoneTaken(session, states, actions, j, k);
    } else {
      ChunksUsedUp(session, states, actions, j, k);
    }
  }

  lemma {:induction false} JoinsUsedUp(session: Session, states: seq<State>, actions: seq<Action>, j: nat, k: nat)
    requires session.Valid() && IsRun(session, states, actions) && j <= k < |states|
             && (states[j].pause || states[j].cancel)
    ensures (states[k].pause || states[k].cancel) && Joins(actions, j, k) + JoinsLeft(states[k]) <= 1
    decreases k
  {
    hide Enabled, Next, Inv, IsRun, JoinsLeft, ChunksLeft, Spawned;
    RunLength(session, states, actions);
    AtMostOne(states[k]);
    if j < k {
      JoinsUsedUp(session, states, actions, j, k - 1);
      RunStep(session, states, actions, k - 1);
      StepUsesUp(session, states[k - 1], actions[k - 1]);
    }
  }

  lemma {:induction false} NoneTaken(session: Session, states: seq<State>, actions: seq<Action>, j: nat, k: nat)
    requires session.Valid() && IsRun(session, states, actions) && j <= k < |states| && states[j].cancel
    ensures states[k].cancel && Taken(session, states, actions, j, k) == 0
    decreases k
  {
    hide Enabled, Next, Inv, IsRun, JoinsLeft, ChunksLeft, Spawned;
    RunLength(session, states, actions);
    if j < k {
      NoneTaken(session, states, actions, j, k - 1);
      RunStep(session, states, actions, k - 1);
      StepKeepsFlags(session, states[k - 1], actions[k - 1]);
      StepUsesUp(session, states[k - 1], actions[k - 1]);
    }
  }

  lemma {:induction false} ChunksUsedUp(session: Session, states: seq<State>, actions: seq<Action>, j: nat, k: nat)
    requires session.Valid() && IsRun(session, states, actions) && j <= k < |states| && states[j].pause
    ensures states[k].pause && Taken(session, states, actions, j, k) + ChunksLeft(states[k]) <= 1
    decreases k
  {
    hide Enabled, Next, Inv, IsRun, JoinsLeft, ChunksLeft, Spawned;
    RunLength(session, states, actions);
    AtMostOne(states[k]);
    if j < k {
      ChunksUsedUp(session, states, actions, j, k - 1);
      RunStep(session, states, actions, k - 1);
      StepKeepsFlags(session, states[k - 1], actions[k - 1]);
      StepUsesUp(session, states[k - 1], actions[k - 1]);
    }
  }

  lemma StepKeepsFlags(session: Session, s: State, a: Action)
    requires session.Valid() && Enabled(session, s, a)
    ensures (s.pause ==> Next(session, s, a).pause) && (s.cancel ==> Next(session, s, a).cancel)
  {
    hide Enabled, Next;
    StepFrame(session, s, a);
  }

  lemma AtMostOne(s: State)
    ensures JoinsLeft(s) <= 1 && ChunksLeft(s) <= 1
  {
  }

  // ---- why a run ended ----

  /** What the flags and the schedule say about a run that is being stopped. */
  predicate StopsOk(s: State) {
    (s.pc == Draining(OnCancel) || s.pc == Closing(OnCancel) ==> s.cancel)
    && (s.pc == Draining(OnPause) || s.pc == Closing(OnPause) ==> s.pause)
    && (forall i | i in s.tasks && s.tasks[i] == Done(TaskPaused) :: s.pause)
    && (s.pc == Ended(Success(())) && !s.promoted ==> s.pause)
  }

  predicate QuietAtEnd(s: State) {
    s.pc.Ended? ==> s.tasks == map[] && s.queue == []
  }

  lemma StepKeepsStops(session: Session, s: State, a: Action)
    requires session.Valid() && Inv(session, s) && Enabled(session, s, a) && StopsOk(s)
    ensures StopsOk(Next(session, s, a))
  {
    hide Inv, Enabled, Next;
    if IsTaskStep(a) {
      TaskKeepsStops(session, s, a);
    } else if IsSignal(a) {
      SignalKeepsStops(session, s, a);
    } else if a.Main? {
      MainKeepsStops(session, s);
    } else if a.WriterPut? {
      PutKeepsStops(session, s, a);
    } else if a.WriterCommit? {
      CommitKeepsStops(session, s, a);
    } else if a.Join? {
      JoinKeepsStops(session, s, a);
    } else {
      LoopKeepsStops(session, s, a);
    }
  }

  lemma TaskKeepsStops(session: Session, s: State, a: Action)
    requires session.Valid() && Enabled(session, s, a) && StopsOk(s) && IsTaskStep(a)
    ensures StopsOk(Next(session, s, a))
  {
    hide RunReady, RunNext, SignalReady, SignalNext, ChunkLen;
  }

  lemma SignalKeepsStops(session: Session, s: State, a: Action)
    requires session.Valid() && Enabled(session, s, a) && StopsOk(s) && IsSignal(a)
    requires Inv(session, s)
    ensures StopsOk(Next(session, s, a))
  {
    hide Enabled, Next, Inv;
    SignalIs(session, s, a);
    var n := Next(session, s, a);
    assert n.tasks == s.tasks && n.promoted == s.promoted;
    assert n.pc == s.pc || n.pc.CheckCancel? || n.pc.Killed? || (n.pc.Ended? && n.pc.result.Failure?);
  }

  lemma MainKeepsStops(session: Session, s: State)
    requires session.Valid() && Inv(session, s) && Enabled(session, s, Main) && StopsOk(s)
    ensures StopsOk(Next(session, s, Main))
  {
    hide Enabled, Next, FlowOf, Sched, Reported;
    InvParts(session, s);
    PromotedWhere(session, s);
    MainIs(session, s);
  }

  lemma PutIs(session: Session, s: State, a: Action)
    requires session.Valid() && Enabled(session, s, a) && a.WriterPut?
    ensures var n := Next(session, s, a); n == s.(queue := n.queue, writer := n.writer, part := n.part)
  {
    hide TaskReady, TaskNext, SignalReady, SignalNext, AfterPut;
    PutFrame(session, s, a.count);
  }

  lemma PutKeepsStops(session: Session, s: State, a: Action)
    requires session.Valid() && Enabled(session, s, a) && StopsOk(s) && a.WriterPut?
    ensures StopsOk(Next(session, s, a))
  {
    hide Enabled, Next;
    PutIs(session, s, a);
  }

  /** A commit answers one task at most: with a record, or with its own error. */
  lemma CommitAnswers(session: Session, s: State, a: Action)
    requires session.Valid() && Enabled(session, s, a) && a.WriterCommit?
    ensures var n := Next(session, s, a);
            s.queue != [] && s.queue[0].Commit?
            && forall i | i in n.tasks ::
                 (i in s.tasks && n.tasks[i] == s.tasks[i])
                 || (i == s.queue[0].index && n.tasks[i].Done?
                     && (n.tasks[i].outcome.Committed?
                         || (a.r.Failure? && n.tasks[i].outcome == TaskFailed(a.r.error))))
  {
    hide TaskReady, TaskNext, SignalReady, SignalNext, CommitInto, Protocol.Missing, MainNext, AfterJoin, AfterPut,
      Accepts;
  }

  lemma CommitKeepsStops(session: Session, s: State, a: Action)
    requires session.Valid() && Enabled(session, s, a) && StopsOk(s) && a.WriterCommit?
    ensures StopsOk(Next(session, s, a))
  {
    hide Enabled, Next;
    WriterFrame(session, s, a);
    CommitAnswers(session, s, a);
  }

  lemma JoinKeepsStops(session: Session, s: State, a: Action)
    requires session.Valid() && Enabled(session, s, a) && StopsOk(s) && a.Join?
    ensures StopsOk(Next(session, s, a))
  {
    hide Enabled, Next;
    JoinIs(session, s, a);
  }

  lemma EndFailed(s: State, r: Result<()>)
    ensures End(s, r) == s.(pc := Ended(r), life := End(s, r).life)
  {
  }

  lemma LoopKeepsStops(session: Session, s: State, a: Action)
    requires session.Valid() && Enabled(session, s, a) && StopsOk(s) && (a.Open? || a.Promote? || a.Abort?)
    ensures StopsOk(Next(session, s, a))
  {
    hide Enabled, Next, End;
    match a
    case Open(_) => OpenIs(session, s, a); EndFailed(s, a.r);
    case Promote(_) => PromoteIs(session, s, a); EndFailed(s, a.r);
    case Abort(_) => AbortIs(session, s, a);
  }

  // ---- nothing is left over ----

  /** A run ends with no task in flight and no command queued. */
  lemma StepKeepsQuiet(session: Session, s: State, a: Action)
    requires session.Valid() && Inv(session, s) && Enabled(session, s, a) && QuietAtEnd(s)
    ensures QuietAtEnd(Next(session, s, a))
  {
    hide Inv, Enabled, Next;
    InvParts(session, s);
    if IsTaskStep(a) {
      TaskKeepsQuiet(session, s, a);
    } else if a.WriterPut? || a.WriterCommit? {
      WriterKeepsQuiet(session, s, a);
    } else {
      EndIsQuiet(session, s, a);
    }
  }

  lemma TaskKeepsQuiet(session: Session, s: State, a: Action)
    requires session.Valid() && Enabled(session, s, a) && QuietAtEnd(s) && IsTaskStep(a)
    ensures QuietAtEnd(Next(session, s, a))
  {
    hide TaskNext, RunReady, RunNext, SignalReady, SignalNext, ChunkLen;
    hide Next;
    TaskFrame(session, s, a);
  }

  lemma WriterKeepsQuiet(session: Session, s: State, a: Action)
    requires session.Valid() && Enabled(session, s, a) && QuietAtEnd(s) && (a.WriterPut? || a.WriterCommit?)
    ensures QuietAtEnd(Next(session, s, a))
  {
    hide Enabled, Next;
    WriterNeedsQueue(session, s, a);
    WriterFrame(session, s, a);
  }

  lemma EndIsQuiet(session: Session, s: State, a: Action)
    requires session.Valid() && FlowOf(session, s) && Sched(session, s) && Enabled(session, s, a) && QuietAtEnd(s)
    requires !IsTaskStep(a) && !a.WriterPut? && !a.WriterCommit?
    ensures QuietAtEnd(Next(session, s, a))
  {
    hide FlowOf, Enabled, Next;
    if a.Main? {
      MainEndsQuiet(session, s);
    } else {
      PcOfOthers(session, s, a);
      OthersEndQuiet(session, s, a);
    }
  }

  lemma MainEndsQuiet(session: Session, s: State)
    requires session.Valid() && FlowOf(session, s) && Sched(session, s) && Enabled(session, s, Main) && QuietAtEnd(s)
    ensures QuietAtEnd(Next(session, s, Main))
  {
    hide FlowOf, Enabled, Next, NextLife, Placed, InFlight;
    MainIs(session, s);
    ServingQueue(session, s);
  }

  lemma ServingQueue(session: Session, s: State)
    requires session.Valid() && FlowOf(session, s)
    ensures s.writer != Serving ==> s.queue == []
  {
    hide PartOk, QueueOk, CommitsOk, TasksOk, PendingOk, Eventual;
  }

  lemma OthersEndQuiet(session: Session, s: State, a: Action)
    requires session.Valid() && Sched(session, s) && Enabled(session, s, a) && QuietAtEnd(s)
    requires !IsTaskStep(a) && !a.Main? && !a.WriterPut? && !a.WriterCommit?
    ensures QuietAtEnd(Next(session, s, a))
  {
    hide Enabled, Next, Placed, InFlight;
    if IsSignal(a) {
      SignalIs(session, s, a);
    } else {
      match a
      case Open(_) => OpenIs(session, s, a);
      case Promote(_) => PromoteIs(session, s, a);
      case Abort(_) => AbortIs(session, s, a);
      case Join(_) => JoinIs(session, s, a);
    }
  }

  lemma {:induction false} RunsKeepStops(session: Session, states: seq<State>, actions: seq<Action>, k: nat)
    requires session.Valid() && IsRun(session, states, actions) && k < |states|
    ensures StopsOk(states[k]) && QuietAtEnd(states[k])
    decreases k
  {
    hide Enabled, Next, Inv, StopsOk, QuietAtEnd, IsRun;
    RunLength(session, states, actions);
    if k == 0 {
      StartStops(session, states, actions);
    } else {
      RunsKeepStops(session, states, actions, k - 1);
      RunStep(session, states, actions, k - 1);
      StepKeepsStops(session, states[k - 1], actions[k - 1]);
      StepKeepsQuiet(session, states[k - 1], actions[k - 1]);
    }
  }

  lemma StartStops(session: Session, states: seq<State>, actions: seq<Action>)
    requires session.Valid() && IsRun(session, states, actions)
    ensures StopsOk(states[0]) && QuietAtEnd(states[0])
  {
    hide Enabled, Next;
  }

  /** A run that ends well without having promoted the file was paused. */
  lemma EndedWellMeansPaused(session: Session, states: seq<State>, actions: seq<Action>, k: nat)
    requires session.Valid() && IsRun(session, states, actions) && k < |states|
    requires states[k].pc == Ended(Success(())) && !states[k].promoted
    ensures states[k].pause
  {
    hide IsRun;
    RunsKeepStops(session, states, actions, k);
  }

  /** What can make the task of chunk `i` fail with `e`: its own attempt, a
      cancellation that it saw, a writer that was gone, or a commit that failed. */
  predicate Fault(s: State, a: Action, i: nat, e: Error) {
    a == FailAttempt(i, e)
    || (a == Stop(i, TaskFailed(e)) && e == Error.Cancelled && s.cancel)
    || (a == LoseReply(i) && e == Ffi && s.writer.Broken?)
    || (a == WriterCommit(Failure(e)) && s.queue != [] && s.queue[0] == Commit(i))
  }

  ghost predicate HadFault(states: seq<State>, actions: seq<Action>, k: nat, i: nat, e: Error)
  {
    exists j: nat :: j < k && j < |states| && j < |actions| && Fault(states[j], actions[j], i, e)
  }

  predicate FailedWith(s: State, i: nat, e: Error) {
    i in s.tasks && s.tasks[i] == Done(TaskFailed(e))
  }

  lemma NewFailure(session: Session, s: State, a: Action, i: nat, e: Error)
    requires session.Valid() && Enabled(session, s, a) && FailedWith(Next(session, s, a), i, e) && !FailedWith(s, i, e)
    ensures Fault(s, a, i, e)
  {
    hide Enabled, Next;
    if IsTaskStep(a) {
      TaskNewFailure(session, s, a, i, e);
    } else if IsSignal(a) {
      SignalFrame(session, s, a);
    } else if a.WriterCommit? {
      CommitNewFailure(session, s, a, i, e);
    } else {
      NoNewFailure(session, s, a, i, e);
    }
  }

  lemma TaskNewFailure(session: Session, s: State, a: Action, i: nat, e: Error)
    requires session.Valid() && Enabled(session, s, a) && IsTaskStep(a)
    requires FailedWith(Next(session, s, a), i, e) && !FailedWith(s, i, e)
    ensures Fault(s, a, i, e)
  {
    hide RunReady, RunNext, SignalReady, SignalNext, ChunkLen;
  }

  lemma CommitNewFailure(session: Session, s: State, a: Action, i: nat, e: Error)
    requires session.Valid() && Enabled(session, s, a) && a.WriterCommit?
    requires FailedWith(Next(session, s, a), i, e) && !FailedWith(s, i, e)
    ensures Fault(s, a, i, e)
  {
    hide Enabled, Next;
    CommitAnswers(session, s, a);
    assert s.queue[0] == Commit(s.queue[0].index);
  }

  lemma SpawnNewFailure(session: Session, s: State, i: nat, e: Error)
    requires session.Valid() && Enabled(session, s, Main) && FailedWith(Next(session, s, Main), i, e)
    ensures FailedWith(s, i, e)
  {
    hide Enabled, Next, NextPc, NextLife;
    MainIs(session, s);
  }

  lemma NoNewFailure(session: Session, s: State, a: Action, i: nat, e: Error)
    requires session.Valid() && Enabled(session, s, a) && !IsTaskStep(a) && !IsSignal(a) && !a.WriterCommit?
    requires FailedWith(Next(session, s, a), i, e)
    ensures FailedWith(s, i, e)
  {
    hide Enabled, Next;
    match a
    case Main => SpawnNewFailure(session, s, i, e);
    case Open(_) => OpenIs(session, s, a);
    case Promote(_) => PromoteIs(session, s, a);
    case Join(_) => JoinIs(session, s, a);
    case Abort(_) => AbortIs(session, s, a);
    case WriterPut(_) => PutIs(session, s, a);
  }

  /** A task that failed has a fault of its own chunk behind it. */
  lemma {:induction false} WhyTaskFailed(session: Session, states: seq<State>, actions: seq<Action>, k: nat, i: nat,
                                         e: Error)
    requires session.Valid() && IsRun(session, states, actions) && k < |states| && FailedWith(states[k], i, e)
    ensures HadFault(states, actions, k, i, e)
    decreases k
  {
    hide Enabled, Next, Inv, IsRun, Fault, FailedWith;
    RunLength(session, states, actions);
    if k == 0 {
      StartsWithout(session, states, actions, i, e);
    } else {
      RunStep(session, states, actions, k - 1);
      if FailedWith(states[k - 1], i, e) {
        WhyTaskFailed(session, states, actions, k - 1, i, e);
      } else {
        NewFailure(session, states[k - 1], actions[k - 1], i, e);
      }
    }
  }

  lemma StartsWithout(session: Session, states: seq<State>, actions: seq<Action>, i: nat, e: Error)
    requires session.Valid() && IsRun(session, states, actions)
    ensures !FailedWith(states[0], i, e)
  {
    hide Enabled, Next;
  }

  /** A task that failed with `e` was joined before state k. */
  ghost predicate JoinedFailure(states: seq<State>, actions: seq<Action>, k: nat, e: Error) {
    exists j: nat :: j < k && j < |states| && j < |actions| && actions[j].Join?
                     && FailedWith(states[j], actions[j].i, e)
  }

  /** The run is being closed because a task failed with `e`. */
  predicate ClosingOn(s: State, e: Error) {
    s.pc == Draining(OnError(e)) || s.pc == Closing(OnError(e))
  }

  lemma NewClosing(session: Session, s: State, a: Action, e: Error)
    requires session.Valid() && Enabled(session, s, a) && ClosingOn(Next(session, s, a), e) && !ClosingOn(s, e)
    ensures a.Join? && FailedWith(s, a.i, e)
  {
    hide Enabled, Next;
    if a.Main? {
      MainNeverCloses(session, s, e);
    } else {
      PcOfOthers(session, s, a);
      if a.Join? {
        JoinCloses(session, s, a, e);
      }
    }
  }

  lemma MainNeverCloses(session: Session, s: State, e: Error)
    requires session.Valid() && Enabled(session, s, Main) && ClosingOn(Next(session, s, Main), e)
    ensures ClosingOn(s, e)
  {
    hide Enabled, Next, WorseError, MainReady, Spawns;
    MainPc(session, s);
  }

  lemma JoinCloses(session: Session, s: State, a: Action, e: Error)
    requires session.Valid() && Enabled(session, s, a) && a.Join? && ClosingOn(Next(session, s, a), e)
    ensures FailedWith(s, a.i, e)
  {
    hide Enabled, Next;
    JoinIs(session, s, a);
  }

  lemma {:induction false} WhyClosing(session: Session, states: seq<State>, actions: seq<Action>, k: nat, e: Error)
    requires session.Valid() && IsRun(session, states, actions) && k < |states| && ClosingOn(states[k], e)
    ensures JoinedFailure(states, actions, k, e)
    decreases k
  {
    hide Enabled, Next, Inv, IsRun, FailedWith, ClosingOn;
    RunLength(session, states, actions);
    if k == 0 {
      StartsOpen(session, states, actions, e);
    } else {
      RunStep(session, states, actions, k - 1);
      if ClosingOn(states[k - 1], e) {
        WhyClosing(session, states, actions, k - 1, e);
      } else {
        NewClosing(session, states[k - 1], actions[k - 1], e);
      }
    }
  }

  lemma StartsOpen(session: Session, states: seq<State>, actions: seq<Action>, e: Error)
    requires session.Valid() && IsRun(session, states, actions)
    ensures !ClosingOn(states[0], e)
  {
    hide Enabled, Next;
  }

  // ---- the error that is reported ----

  /** The writer may have something to do, or had. */
  predicate Working(pc: Pc) {
    !pc.CheckCancel? && !pc.CheckPause? && !pc.Probing? && !pc.Opening? && !pc.Closed? && !pc.Finalizing?
    && !pc.Promoted?
  }

  /** Where the writer can have failed, and what then is reported in the end: its
      own error, unless it only says that a commit failed. */
  predicate WriterHeard(s: State) {
    s.writer.Broken? ==>
      Working(s.pc)
      && (s.pc.Ended? ==> s.pc.result.Failure? && (s.pc.result.error == s.writer.error || s.writer.error == Ffi))
  }

  lemma StepKeepsHeard(session: Session, s: State, a: Action)
    requires session.Valid() && Inv(session, s) && Enabled(session, s, a) && WriterHeard(s) && QuietAtEnd(s)
    ensures WriterHeard(Next(session, s, a))
  {
    hide Inv, Enabled, Next, FlowOf, Sched, Reported, WriterHeard, QuietAtEnd;
    InvParts(session, s);
    if a.Main? {
      MainKeepsHeard(session, s);
    } else if a.WriterPut? || a.WriterCommit? {
      QueueMeansLoop(session, s);
      WriterNeedsQueue(session, s, a);
      WriterKeepsHeard(session, s, a);
    } else {
      OthersKeepHeard(session, s, a);
    }
  }

  lemma MainKeepsHeard(session: Session, s: State)
    requires session.Valid() && Enabled(session, s, Main) && WriterHeard(s)
    ensures WriterHeard(Next(session, s, Main))
  {
    hide Enabled, Next, MainReady, Spawns;
    MainPc(session, s);
  }

  /** Commands are queued only while the loop runs or is being closed. */
  lemma QueueMeansLoop(session: Session, s: State)
    requires session.Valid() && Sched(session, s) && QuietAtEnd(s)
    ensures s.queue != [] ==> Working(s.pc) && !s.pc.Ended?
  {
    hide Placed, InFlight;
  }

  lemma WriterNeedsQueue(session: Session, s: State, a: Action)
    requires session.Valid() && Enabled(session, s, a) && (a.WriterPut? || a.WriterCommit?)
    ensures s.queue != []
  {
    hide TaskReady, SignalReady, Accepts;
  }

  lemma WriterKeepsHeard(session: Session, s: State, a: Action)
    requires session.Valid() && Enabled(session, s, a) && (a.WriterPut? || a.WriterCommit?)
    requires Working(s.pc) && !s.pc.Ended?
    ensures WriterHeard(Next(session, s, a))
  {
    hide Enabled, Next;
    WriterFrame(session, s, a);
  }

  lemma OthersKeepHeard(session: Session, s: State, a: Action)
    requires session.Valid() && Enabled(session, s, a) && WriterHeard(s)
             && !a.Main? && !a.WriterPut? && !a.WriterCommit?
    ensures WriterHeard(Next(session, s, a))
  {
    hide Enabled, Next;
    PcOfOthers(session, s, a);
    WriterOfOthers(session, s, a);
  }

  lemma WriterOfOthers(session: Session, s: State, a: Action)
    requires session.Valid() && Enabled(session, s, a) && !a.Main? && !a.WriterPut? && !a.WriterCommit?
    ensures Next(session, s, a).writer.Broken? ==> Next(session, s, a).writer == s.writer
    ensures Next(session, s, a).pc.Ended? && !s.pc.Ended? ==> a.Probe? || a.Open? || a.Promote?
    ensures a.Probe? ==> s.pc == Probing
    ensures a.Open? ==> s.pc == Opening
    ensures a.Promote? ==> s.pc == Finalizing
    ensures s.pc.Ended? ==> Next(session, s, a).pc == s.pc
  {
    hide Enabled, Next;
    if IsTaskStep(a) {
      TaskFrame(session, s, a);
      TaskIsNot(s, a);
    } else if IsSignal(a) {
      SignalIs(session, s, a);
    } else {
      match a
      case Open(_) => OpenIs(session, s, a);
      case Promote(_) => PromoteIs(session, s, a);
      case Join(_) => JoinIs(session, s, a);
      case Abort(_) => AbortIs(session, s, a);
    }
  }

  lemma TaskIsNot(s: State, a: Action)
    requires IsTaskStep(a)
    ensures !a.Probe? && !a.Open? && !a.Promote?
  {
  }

  lemma {:induction false} RunsKeepHeard(session: Session, states: seq<State>, actions: seq<Action>, k: nat)
    requires session.Valid() && IsRun(session, states, actions) && k < |states|
    ensures WriterHeard(states[k])
    decreases k
  {
    hide Enabled, Next, Inv, IsRun, WriterHeard, QuietAtEnd, StopsOk;
    RunLength(session, states, actions);
    if k == 0 {
      StartsHeard(session, states, actions);
    } else {
      RunsKeepHeard(session, states, actions, k - 1);
      RunStep(session, states, actions, k - 1);
      RunsKeepStops(session, states, actions, k - 1);
      StepKeepsHeard(session, states[k - 1], actions[k - 1]);
    }
  }

  lemma StartsHeard(session: Session, states: seq<State>, actions: seq<Action>)
    requires session.Valid() && IsRun(session, states, actions)
    ensures WriterHeard(states[0])
  {
    hide Enabled, Next;
  }

  /** Probing, opening or finalizing failed with `e`. */
  ghost predicate CallFailed(actions: seq<Action>, k: nat, e: Error) {
    exists j: nat :: j < k && j < |actions|
                     && (actions[j] == Probe(Failure(e)) || actions[j] == Open(Failure(e))
                         || actions[j] == Promote(Failure(e)))
  }

  predicate Failed(s: State, e: Error) {
    s.pc == Ended(Failure(e))
  }

  lemma NewEnd(session: Session, s: State, a: Action, e: Error)
    requires session.Valid() && Enabled(session, s, a) && Failed(Next(session, s, a), e) && !Failed(s, e)
    ensures a == Probe(Failure(e)) || a == Open(Failure(e)) || a == Promote(Failure(e))
            || (a.Main? && (ClosingOn(s, e) || s.writer == Broken(e)
                            || (e == Error.Cancelled && (s.cancel || s.pc == Closing(OnCancel)))))
    ensures a.Main? ==> Next(session, s, a).writer == s.writer && Next(session, s, a).cancel == s.cancel
  {
    hide Enabled, Next;
    if a.Main? {
      MainNewEnd(session, s, e);
    } else {
      PcOfOthers(session, s, a);
      CallNewEnd(session, s, a, e);
    }
  }

  lemma MainNewEnd(session: Session, s: State, e: Error)
    requires session.Valid() && Enabled(session, s, Main) && Failed(Next(session, s, Main), e)
    ensures Failed(s, e) || ClosingOn(s, e) || s.writer == Broken(e)
            || (e == Error.Cancelled && (s.cancel || s.pc == Closing(OnCancel)))
    ensures Next(session, s, Main).writer == s.writer && Next(session, s, Main).cancel == s.cancel
  {
    hide Enabled, Next, MainReady, Spawns, NextPc;
    MainPc(session, s);
    PcNewEnd(session, s, e);
  }

  lemma PcNewEnd(session: Session, s: State, e: Error)
    ensures NextPc(session, s) == Ended(Failure(e)) ==>
              Failed(s, e) || ClosingOn(s, e) || s.writer == Broken(e)
              || (e == Error.Cancelled && (s.cancel || s.pc == Closing(OnCancel)))
  {
  }

  lemma CallNewEnd(session: Session, s: State, a: Action, e: Error)
    requires session.Valid() && Enabled(session, s, a) && (a.Probe? || a.Open? || a.Promote?)
    requires Failed(Next(session, s, a), e)
    ensures a == Probe(Failure(e)) || a == Open(Failure(e)) || a == Promote(Failure(e))
  {
    hide Enabled, Next;
    if a.Probe? {
      SignalIs(session, s, a);
    } else if a.Open? {
      OpenIs(session, s, a);
    } else {
      PromoteIs(session, s, a);
    }
  }

  /** Where the error of a run can come from. */
  ghost predicate Explained(states: seq<State>, actions: seq<Action>, k: nat, e: Error)
    requires k < |states|
  {
    CallFailed(actions, k, e) || (e == Error.Cancelled && states[k].cancel) || states[k].writer == Broken(e)
    || JoinedFailure(states, actions, k, e)
  }

  lemma EndStays(session: Session, s: State, a: Action, e: Error)
    requires session.Valid() && Enabled(session, s, a) && Failed(s, e) && QuietAtEnd(s)
    ensures s.writer.Broken? ==> Next(session, s, a).writer == s.writer
    ensures s.cancel ==> Next(session, s, a).cancel
  {
    hide Enabled, Next;
    StepFrame(session, s, a);
    if a.WriterPut? || a.WriterCommit? {
      WriterNeedsQueue(session, s, a);
    } else if a.Main? {
      EndedIsNotReady(session, s);
    } else {
      WriterOfOthers(session, s, a);
    }
  }

  lemma EndedIsNotReady(session: Session, s: State)
    requires session.Valid() && s.pc.Ended?
    ensures !Enabled(session, s, Main)
  {
    hide TaskReady, SignalReady, Accepts;
  }

  /** Why a run failed. Its error is that of probing, opening or finalizing, of the
      writer, or of a task that was joined, or the run was cancelled; and if the
      writer failed, its error is reported unless that only says that a commit
      failed. */
  lemma {:induction false} WhyItFailed(session: Session, states: seq<State>, actions: seq<Action>, k: nat, e: Error)
    requires session.Valid() && IsRun(session, states, actions) && k < |states| && Failed(states[k], e)
    ensures Explained(states, actions, k, e)
    ensures states[k].writer.Broken? ==> e == states[k].writer.error || states[k].writer.error == Ffi
    decreases k
  {
    hide Enabled, Next, Inv, IsRun, StopsOk, QuietAtEnd;
    RunLength(session, states, actions);
    RunsKeepHeard(session, states, actions, k);
    if k == 0 {
      StartsRunning(session, states, actions);
    } else {
      hide WriterHeard;
      RunStep(session, states, actions, k - 1);
      RunsKeepStops(session, states, actions, k - 1);
      if Failed(states[k - 1], e) {
        WhyItFailed(session, states, actions, k - 1, e);
        EndStays(session, states[k - 1], actions[k - 1], e);
        StaysExplained(states, actions, k, e);
      } else {
        NewEnd(session, states[k - 1], actions[k - 1], e);
        NewlyExplained(session, states, actions, k, e);
      }
    }
  }

  lemma StartsRunning(session: Session, states: seq<State>, actions: seq<Action>)
    requires session.Valid() && IsRun(session, states, actions)
    ensures !states[0].pc.Ended?
  {
    hide Enabled, Next;
  }

  lemma StaysExplained(states: seq<State>, actions: seq<Action>, k: nat, e: Error)
    requires 0 < k < |states| && Explained(states, actions, k - 1, e)
    requires states[k - 1].writer.Broken? ==> states[k].writer == states[k - 1].writer
    requires states[k - 1].cancel ==> states[k].cancel
    ensures Explained(states, actions, k, e)
  {
    hide FailedWith;
  }

  lemma NewlyExplained(session: Session, states: seq<State>, actions: seq<Action>, k: nat, e: Error)
    requires session.Valid() && IsRun(session, states, actions) && 0 < k < |states| && k <= |actions|
             && StopsOk(states[k - 1])
    requires var s, a := states[k - 1], actions[k - 1];
             a == Probe(Failure(e)) || a == Open(Failure(e)) || a == Promote(Failure(e))
             || (a.Main? && (ClosingOn(s, e) || s.writer == Broken(e)
                             || (e == Error.Cancelled && (s.cancel || s.pc == Closing(OnCancel))))
                 && states[k].writer == s.writer && states[k].cancel == s.cancel)
    ensures Explained(states, actions, k, e)
  {
    hide IsRun, FailedWith;
    var s, a := states[k - 1], actions[k - 1];
    if a.Main? && ClosingOn(s, e) {
      WhyClosing(session, states, actions, k - 1, e);
    }
  }

  // ---- the phase in which it is left ----

  /** The phase that belongs to what the run is doing, or to how it ended. */
  function Usual(s: State): Lifecycle {
    match s.pc
    case CheckCancel(stage) => UsualAt(stage)
    case CheckPause(stage) => UsualAt(stage)
    case Probing => Starting
    case Opening => Allocating
    case Finalizing => Verifying
    case Promoted => Verifying
    case Ended(r) =>
      if r.Failure? then if r.error == Error.Cancelled then Lifecycle.Cancelled else Lifecycle.Failed
      else if s.promoted then Completed
      else Paused
    case _ => Running
  }

  function UsualAt(stage: Stage): Lifecycle {
    match stage
    case BeforeProbe => Starting
    case BeforeOpen => Starting
    case BeforeLoop => Allocating
    case BeforeFinalize => Running
  }

  predicate IsRequest(a: Action) {
    a.RequestPause? || a.RequestCancel? || a.LateCancel?
  }

  predicate Asked(actions: seq<Action>, k: nat)
    requires k <= |actions|
  {
    exists j | 0 <= j < k :: IsRequest(actions[j])
  }

  /** If nobody asked for anything, the phase is the usual one. Otherwise a request
      may be showing; a run that failed or was cancelled says so in any case. */
  predicate PhaseOk(s: State, asked: bool) {
    s.pc.Killed? || s.life == Usual(s)
    || (asked
        && match s.pc
           case Ended(r) =>
             if r.Failure? then false
             else if s.promoted then s.life == Pausing || s.life == Cancelling || s.life == Lifecycle.Cancelled
             else s.life == Cancelling || s.life == Lifecycle.Cancelled
           case _ => s.life == Pausing || s.life == Cancelling)
  }

  lemma StepKeepsPhase(session: Session, s: State, a: Action, asked: bool)
    requires session.Valid() && Reported(session, s) && Enabled(session, s, a) && PhaseOk(s, asked)
    ensures PhaseOk(Next(session, s, a), asked || IsRequest(a))
  {
    hide Enabled, Next, Usual;
    PromotedWhere(session, s);
    if a.Main? {
      MainIs(session, s);
      MainKeepsPhase(session, s, asked);
    } else if IsSignal(a) {
      SignalIs(session, s, a);
      SignalKeepsPhase(s, a, asked);
    } else if IsTaskStep(a) {
      TaskFrame(session, s, a);
      SamePhase(s, Next(session, s, a), asked);
    } else if a.WriterPut? || a.WriterCommit? {
      WriterFrame(session, s, a);
      SamePhase(s, Next(session, s, a), asked);
    } else if a.Join? || a.Abort? {
      JoinKeepsPhase(session, s, a, asked);
    } else {
      CallKeepsPhase(session, s, a, asked);
    }
  }

  lemma PromotedWhere(session: Session, s: State)
    requires session.Valid() && Reported(session, s)
    ensures s.pc.Promoted? ==> s.promoted
    ensures s.promoted ==> s.pc.Promoted? || s.pc == Ended(Success(()))
  {
    hide ProgressOk, Accepts, Bits.AllComplete;
  }

  lemma SamePhase(s: State, n: State, asked: bool)
    requires PhaseOk(s, asked) && n.pc == s.pc && n.life == s.life && n.promoted == s.promoted
    ensures PhaseOk(n, asked)
  {
  }

  lemma MainKeepsPhase(session: Session, s: State, asked: bool)
    requires MainReady(s) && PhaseOk(s, asked) && (s.pc.Promoted? ==> s.promoted)
             && (s.promoted ==> s.pc.Promoted? || s.pc == Ended(Success(())))
    ensures PhaseOk(MainNext(session, s), asked)
  {
    hide NextPc, NextLife;
    if s.life == Usual(s) {
      UsualStays(session, s);
    } else {
      RequestStays(session, s);
    }
  }

  lemma UsualStays(session: Session, s: State)
    requires MainReady(s) && s.life == Usual(s) && (s.pc.Promoted? ==> s.promoted)
             && (s.promoted ==> s.pc.Promoted? || s.pc == Ended(Success(())))
    ensures PhaseOk(MainNext(session, s), false)
  {
    hide WorseError;
  }

  lemma RequestStays(session: Session, s: State)
    requires MainReady(s) && (s.life == Pausing || s.life == Cancelling) && (s.pc.Promoted? ==> s.promoted)
             && (s.promoted ==> s.pc.Promoted? || s.pc == Ended(Success(())))
    ensures PhaseOk(MainNext(session, s), true)
  {
    hide WorseError;
  }

  lemma SignalKeepsPhase(s: State, a: Action, asked: bool)
    requires IsSignal(a) && SignalReady(s, a) && PhaseOk(s, asked)
             && (s.promoted ==> s.pc.Promoted? || s.pc == Ended(Success(())))
    ensures PhaseOk(SignalNext(s, a), asked || IsRequest(a))
  {
  }

  lemma JoinKeepsPhase(session: Session, s: State, a: Action, asked: bool)
    requires session.Valid() && Enabled(session, s, a) && PhaseOk(s, asked) && (a.Join? || a.Abort?)
    ensures PhaseOk(Next(session, s, a), asked)
  {
    hide Enabled, Next;
    if a.Join? {
      JoinIs(session, s, a);
    } else {
      AbortIs(session, s, a);
    }
  }

  lemma CallKeepsPhase(session: Session, s: State, a: Action, asked: bool)
    requires session.Valid() && Enabled(session, s, a) && PhaseOk(s, asked) && (a.Open? || a.Promote?)
    requires s.promoted ==> s.pc.Promoted? || s.pc == Ended(Success(()))
    ensures PhaseOk(Next(session, s, a), asked)
  {
    hide Enabled, Next, PhaseOk, End;
    if a.Open? {
      OpenIs(session, s, a);
      if a.r.Failure? {
        FailureKeepsPhase(s, a.r, asked);
      }
      OpenedPhase(s, Next(session, s, a), asked);
    } else {
      PromoteIs(session, s, a);
      if a.r.Failure? {
        FailureKeepsPhase(s, a.r, asked);
      }
      PromotedPhase(s, Next(session, s, a), asked);
    }
  }

  lemma FailureKeepsPhase(s: State, r: Result<()>, asked: bool)
    requires PhaseOk(s, asked) && r.Failure?
    requires s.pc == Opening || (s.pc == Finalizing && r != Failure(Error.Cancelled))
    ensures PhaseOk(End(s, r), asked)
  {
  }

  lemma OpenedPhase(s: State, n: State, asked: bool)
    requires PhaseOk(s, asked) && s.pc == Opening
    ensures n.pc == CheckCancel(BeforeLoop) && n.life == s.life ==> PhaseOk(n, asked)
  {
  }

  lemma PromotedPhase(s: State, n: State, asked: bool)
    requires PhaseOk(s, asked) && s.pc == Finalizing
    ensures n.pc == Pc.Promoted && n.life == s.life ==> PhaseOk(n, asked)
  {
  }

  /** The phase follows the run. A run that starts from a settled phase shows what
      it is doing, and in the end how it ended: completed if the file was promoted,
      paused if it stopped well without that, cancelled or failed by its error. Only
      a request from outside can show instead, and never over a failure. */
  lemma {:induction false} PhaseFollows(session: Session, states: seq<State>, actions: seq<Action>, k: nat)
    requires session.Valid() && IsRun(session, states, actions) && k < |states| && states[0].life == Starting
    ensures k <= |actions| && PhaseOk(states[k], Asked(actions, k))
    decreases k
  {
    hide Enabled, Next, Inv, IsRun, PhaseOk, FlowOf, Sched, Reported, IsRequest;
    RunLength(session, states, actions);
    if k == 0 {
      StartPhase(session, states, actions);
    } else {
      PhaseFollows(session, states, actions, k - 1);
      RunStep(session, states, actions, k - 1);
      InvParts(session, states[k - 1]);
      StepKeepsPhase(session, states[k - 1], actions[k - 1], Asked(actions, k - 1));
      AskedGrows(actions, k);
    }
  }

  lemma AskedGrows(actions: seq<Action>, k: nat)
    requires 0 < k <= |actions|
    ensures Asked(actions, k) <==> Asked(actions, k - 1) || IsRequest(actions[k - 1])
  {
    hide IsRequest;
  }

  lemma StartPhase(session: Session, states: seq<State>, actions: seq<Action>)
    requires session.Valid() && IsRun(session, states, actions) && states[0].life == Starting
    ensures PhaseOk(states[0], false) && !Asked(actions, 0)
  {
    hide Enabled, Next;
  }

  // ---- requests show ----

  /** A run can be started from any phase in which it is not already busy. */
  lemma StartsFromSettled(session: Session, life: Lifecycle)
    requires session.Valid()
    ensures Init(session, life).life == Starting
            <==> life == Created || life == Starting || life == Paused || life == Lifecycle.Cancelled
                 || life == Completed || life == Lifecycle.Failed
    ensures Init(session, life).life == Starting || Init(session, life).life == life
  {
    hide ChunkBytes;
  }

  /** The phase shows that a pause, or a cancellation, was asked for. */
  predicate Showing(life: Lifecycle, cancelled: bool) {
    life == Cancelling || (!cancelled && life == Pausing)
  }

  /** A request that finds the run busy shows at once, */
  lemma RequestShows(session: Session, s: State, a: Action)
    requires session.Valid() && Enabled(session, s, a) && (a.RequestPause? || a.RequestCancel?)
    requires s.life == Starting || s.life == Allocating || s.life == Running || s.life == Pausing
    ensures Next(session, s, a).life == if a.RequestCancel? then Cancelling else Pausing
  {
    hide Enabled, Next;
    SignalIs(session, s, a);
  }

  /** and goes on showing until the run ends. */
  lemma {:induction false} RequestsStay(session: Session, states: seq<State>, actions: seq<Action>, j: nat, k: nat,
                                        cancelled: bool)
    requires session.Valid() && IsRun(session, states, actions) && j <= k < |states|
    requires Showing(states[j].life, cancelled) && !states[k].pc.Ended?
    ensures Showing(states[k].life, cancelled)
    decreases k
  {
    hide Enabled, Next, Inv, IsRun;
    RunLength(session, states, actions);
    if j < k {
      RunStep(session, states, actions, k - 1);
      if states[k - 1].pc.Ended? {
        EndedStays(session, states[k - 1], actions[k - 1]);
      }
      RequestsStay(session, states, actions, j, k - 1, cancelled);
      StepShows(session, states[k - 1], actions[k - 1], cancelled);
    }
  }

  lemma EndedStays(session: Session, s: State, a: Action)
    requires session.Valid() && Enabled(session, s, a) && s.pc.Ended?
    ensures Next(session, s, a).pc == s.pc
  {
    hide Enabled, Next;
    if a.Main? {
      EndedIsNotReady(session, s);
    } else {
      PcOfOthers(session, s, a);
      if a.Kill? || a.Probe? {
        SignalIs(session, s, a);
      } else if a.Open? {
        OpenIs(session, s, a);
      } else if a.Promote? {
        PromoteIs(session, s, a);
      }
    }
  }

  lemma StepShows(session: Session, s: State, a: Action, cancelled: bool)
    requires session.Valid() && Enabled(session, s, a) && Showing(s.life, cancelled)
    requires !s.pc.Ended? && !Next(session, s, a).pc.Ended?
    ensures Showing(Next(session, s, a).life, cancelled)
  {
    hide Enabled, Next, Showing;
    if a.Main? {
      MainPc(session, s);
      MainShows(session, s, cancelled);
    } else if IsSignal(a) {
      SignalShows(session, s, a, cancelled);
    } else if IsTaskStep(a) {
      TaskFrame(session, s, a);
    } else if a.WriterPut? || a.WriterCommit? {
      WriterFrame(session, s, a);
    } else {
      LoopShows(session, s, a);
    }
  }

  lemma MainShows(session: Session, s: State, cancelled: bool)
    requires session.Valid() && Enabled(session, s, Main) && Showing(s.life, cancelled)
    requires !Next(session, s, Main).pc.Ended?
    ensures Showing(Next(session, s, Main).life, cancelled)
  {
    hide Enabled, Next, NextPc;
    MainIs(session, s);
  }

  lemma SignalShows(session: Session, s: State, a: Action, cancelled: bool)
    requires session.Valid() && Enabled(session, s, a) && Showing(s.life, cancelled) && IsSignal(a)
    requires !s.pc.Ended? && !Next(session, s, a).pc.Ended?
    ensures Showing(Next(session, s, a).life, cancelled)
  {
    hide Enabled, Next;
    SignalIs(session, s, a);
  }

  lemma LoopShows(session: Session, s: State, a: Action)
    requires session.Valid() && Enabled(session, s, a) && (a.Open? || a.Promote? || a.Join? || a.Abort?)
    requires !Next(session, s, a).pc.Ended?
    ensures Next(session, s, a).life == s.life
  {
    hide Enabled, Next;
    match a
    case Open(_) => OpenIs(session, s, a);
    case Promote(_) => PromoteIs(session, s, a);
    case Join(_) => JoinIs(session, s, a);
    case Abort(_) => AbortIs(session, s, a);
  }

  /** A cancellation of a run that has stopped without completing settles it. */
  lemma LateCancelSettles(session: Session, s: State)
    requires session.Valid() && Enabled(session, s, LateCancel)
    requires s.life == Paused || s.life == Pausing || s.life == Cancelling
    ensures Next(session, s, LateCancel).life == Lifecycle.Cancelled
  {
    hide Enabled, Next;
    SignalIs(session, s, LateCancel);
  }

  /** Requests between runs: a pause changes nothing, a cancellation settles a
      download that never started and stops a paused one. */
  lemma RequestsBetweenRuns(life: Lifecycle)
    requires life == Created || life == Paused || life == Lifecycle.Cancelled || life == Completed
             || life == Lifecycle.Failed
    ensures life.RequestPause() == life
    ensures life == Created ==> life.RequestCancel() == Lifecycle.Cancelled
    ensures life == Paused ==>
              life.RequestCancel() == Cancelling
              && life.RequestCancel().MarkCancelled() == Lifecycle.Cancelled
    ensures life != Created && life != Paused ==> life.RequestCancel() == life
  {
  }

  // ---- the flags ----

  lemma StepRaises(session: Session, s: State, a: Action)
    requires session.Valid() && Enabled(session, s, a)
    ensures Next(session, s, a).pause <==> s.pause || a == SetPause
    ensures Next(session, s, a).cancel <==> s.cancel || a == SetCancel
  {
    hide Enabled, Next;
    if IsSignal(a) {
      SignalIs(session, s, a);
    } else if IsTaskStep(a) {
      TaskFrame(session, s, a);
    } else {
      LoopFrame(session, s, a);
    }
  }

  /** A flag is up exactly if somebody has raised it. */
  lemma {:induction false} FlagsAreRaised(session: Session, states: seq<State>, actions: seq<Action>, k: nat)
    requires session.Valid() && IsRun(session, states, actions) && k < |states|
    ensures k <= |actions|
    ensures states[k].pause <==> exists j | 0 <= j < k :: actions[j] == SetPause
    ensures states[k].cancel <==> exists j | 0 <= j < k :: actions[j] == SetCancel
    decreases k
  {
    hide Enabled, Next, Inv, IsRun;
    RunLength(session, states, actions);
    if k == 0 {
      StartsUnflagged(session, states, actions);
    } else {
      FlagsAreRaised(session, states, actions, k - 1);
      RunStep(session, states, actions, k - 1);
      StepRaises(session, states[k - 1], actions[k - 1]);
    }
  }

  lemma StartsUnflagged(session: Session, states: seq<State>, actions: seq<Action>)
    requires session.Valid() && IsRun(session, states, actions)
    ensures !states[0].pause && !states[0].cancel
  {
    hide Enabled, Next;
  }

  // ---- once it is decided ----

  /** How a run that is closed for this reason ends: as the reason says, unless the
      writer failed. Of two errors the one that says more is reported. */
  predicate Verdict(r: Result<()>, writer: Writer, why: Why) {
    match why
    case OnPause => if writer.Broken? then r == Failure(writer.error) else r == Success(())
    case OnCancel => r == Failure(if writer.Broken? then writer.error else Error.Cancelled)
    case OnError(e) =>
      if !writer.Broken? then r == Failure(e)
      else (r == Failure(e) || r == Failure(writer.error)) && (r == Failure(Ffi) ==> e == Ffi && writer.error == Ffi)
           && (writer.error != Ffi ==> r == Failure(writer.error))
    case Emptied => true
  }

  /** It is settled that the run is closed for this reason. */
  predicate Decided(s: State, why: Why) {
    match s.pc
    case Draining(w) => w == why
    case Closing(w) => w == why
    case Ended(r) => Verdict(r, s.writer, why)
    case Killed => true
    case Joined => why == OnPause && s.pause && s.tasks == map[]
    case Closed => why == OnPause && s.pause && !s.writer.Broken?
    case _ => false
  }

  lemma StepStaysDecided(session: Session, s: State, a: Action, why: Why)
    requires session.Valid() && Inv(session, s) && Enabled(session, s, a) && QuietAtEnd(s)
    requires Decided(s, why) && why != Emptied
    ensures Decided(Next(session, s, a), why)
  {
    hide Enabled, Next, Inv, FlowOf, Sched, Reported;
    InvParts(session, s);
    if a.Main? {
      hide Decided;
      MainStaysDecided(session, s, why);
    } else if a.WriterPut? || a.WriterCommit? {
      hide Verdict;
      WriterNeedsQueue(session, s, a);
      QueueMeansLoop(session, s);
      WriterFrame(session, s, a);
    } else {
      hide Verdict;
      PcOfOthers(session, s, a);
      OthersStayDecided(session, s, a);
      CallAt(session, s, a);
      if s.pc.Ended? {
        EndedStays(session, s, a);
        SameVerdict(s.pc.result, s.writer, Next(session, s, a).writer, why);
      }
    }
  }

  lemma SameVerdict(r: Result<()>, writer: Writer, after: Writer, why: Why)
    requires writer == after || (!writer.Broken? && !after.Broken?)
    ensures Verdict(r, writer, why) <==> Verdict(r, after, why)
  {
  }

  lemma MainStaysDecided(session: Session, s: State, why: Why)
    requires session.Valid() && Enabled(session, s, Main) && Decided(s, why) && why != Emptied
    ensures Decided(Next(session, s, Main), why)
  {
    hide Enabled, Next, Spawns;
    MainPc(session, s);
    NeverSpawns(session, s);
  }

  lemma NeverSpawns(session: Session, s: State)
    ensures Spawns(session, s) ==> s.pc.FillCancel?
  {
  }

  lemma OthersStayDecided(session: Session, s: State, a: Action)
    requires session.Valid() && Enabled(session, s, a) && !a.Main? && !a.WriterPut? && !a.WriterCommit?
    ensures s.pause ==> Next(session, s, a).pause
    ensures s.writer.Broken? <==> Next(session, s, a).writer.Broken?
    ensures s.writer.Broken? ==> Next(session, s, a).writer == s.writer
    ensures s.tasks == map[] && !a.Open? ==> Next(session, s, a).tasks == map[]
  {
    hide Enabled, Next;
    StepRaises(session, s, a);
    if IsTaskStep(a) {
      TaskFrame(session, s, a);
      assert Next(session, s, a).tasks.Keys == s.tasks.Keys;
    } else if IsSignal(a) {
      SignalIs(session, s, a);
      WriterOfSignals(s, a);
    } else {
      hide End;
      match a
      case Open(_) => OpenIs(session, s, a); EndFailed(s, a.r);
      case Promote(_) => PromoteIs(session, s, a); EndFailed(s, a.r);
      case Join(_) => JoinIs(session, s, a);
      case Abort(_) => AbortIs(session, s, a);
    }
  }

  lemma WriterOfSignals(s: State, a: Action)
    requires IsSignal(a) && SignalReady(s, a)
    ensures var n := SignalNext(s, a);
            n.tasks == s.tasks && (n.writer == s.writer || (s.writer == Serving && n.writer == Finished))
  {
  }

  /** Once it is decided why a run is closed, nothing changes that any more, and it
      ends accordingly. */
  lemma {:induction false} OnceDecided(session: Session, states: seq<State>, actions: seq<Action>, j: nat, k: nat,
                                       why: Why)
    requires session.Valid() && IsRun(session, states, actions) && j <= k < |states|
    requires Decided(states[j], why) && why != Emptied
    ensures Decided(states[k], why)
    ensures states[k].pc.Ended? ==> Verdict(states[k].pc.result, states[k].writer, why)
    decreases k
  {
    hide Enabled, Next, Inv, IsRun, StopsOk, QuietAtEnd, Verdict;
    RunLength(session, states, actions);
    if j < k {
      OnceDecided(session, states, actions, j, k - 1, why);
      RunStep(session, states, actions, k - 1);
      RunsKeepStops(session, states, actions, k - 1);
      StepStaysDecided(session, states[k - 1], actions[k - 1], why);
    }
  }

  // ---- why the writer failed ----

  lemma NewBroken(session: Session, s: State, a: Action, e: Error)
    requires session.Valid() && Inv(session, s) && Enabled(session, s, a)
    requires Next(session, s, a).writer == Broken(e) && s.writer != Broken(e)
    ensures (a.WriterPut? && e == Io) || (a.WriterCommit? && a.r.Failure? && e == Ffi)
  {
    hide Enabled, Next, Inv, FlowOf, Sched, Reported;
    InvParts(session, s);
    if a.Main? {
      MainPc(session, s);
    } else if a.WriterPut? {
      HeadInRange(session, s, a);
      PutBreaks(session, s, a);
    } else if a.WriterCommit? {
      CommitBreaks(session, s, a);
    } else {
      WriterOfOthers(session, s, a);
    }
  }

  lemma HeadInRange(session: Session, s: State, a: Action)
    requires session.Valid() && FlowOf(session, s) && Enabled(session, s, a) && a.WriterPut?
    ensures s.queue != [] && InRange(session.job, s.queue[0]) && |s.part.content| == session.job.ContentLen()
  {
    hide FlowOf, InRange;
    WriterNeedsQueue(session, s, a);
    HeadMissing(session, s);
  }

  lemma PutBreaks(session: Session, s: State, a: Action)
    requires session.Valid() && Enabled(session, s, a) && a.WriterPut?
    requires s.queue != [] && InRange(session.job, s.queue[0]) && |s.part.content| == session.job.ContentLen()
    ensures Next(session, s, a).writer == s.writer || Next(session, s, a).writer == Broken(Io)
  {
    hide TaskReady, TaskNext, SignalReady, SignalNext, MainNext, AfterJoin, AfterCommit, PutInto, Protocol.Missing,
      InRange, Accepts;
  }

  lemma CommitBreaks(session: Session, s: State, a: Action)
    requires session.Valid() && Enabled(session, s, a) && a.WriterCommit?
    ensures Next(session, s, a).writer == s.writer || (a.r.Failure? && Next(session, s, a).writer == Broken(Ffi))
  {
    hide TaskReady, TaskNext, SignalReady, SignalNext, MainNext, AfterJoin, AfterPut, CommitInto, Protocol.Missing,
      Answered, Accepts;
  }

  /** The writer fails with an I/O error because a write failed, or says that a
      commit failed because one did. */
  lemma {:induction false} WhyWriterFailed(session: Session, states: seq<State>, actions: seq<Action>, k: nat)
    requires session.Valid() && IsRun(session, states, actions) && k < |states| && states[k].writer.Broken?
    ensures k <= |actions|
    ensures (states[k].writer.error == Io && exists j | 0 <= j < k :: actions[j].WriterPut?)
            || (states[k].writer.error == Ffi
                && exists j | 0 <= j < k :: actions[j].WriterCommit? && actions[j].r.Failure?)
    decreases k
  {
    hide Enabled, Next, Inv, IsRun;
    RunLength(session, states, actions);
    if k == 0 {
      StartsServing(session, states, actions);
    } else {
      RunStep(session, states, actions, k - 1);
      if states[k - 1].writer == states[k].writer {
        WhyWriterFailed(session, states, actions, k - 1);
      } else {
        NewBroken(session, states[k - 1], actions[k - 1], states[k].writer.error);
      }
    }
  }

  lemma StartsServing(session: Session, states: seq<State>, actions: seq<Action>)
    requires session.Valid() && IsRun(session, states, actions)
    ensures states[0].writer == Serving
  {
    hide Enabled, Next;
  }

  // ---- no more calls ----

  /** Probing, opening or finalizing. */
  predicate IsCall(a: Action) {
    a.Probe? || a.Open? || a.Promote?
  }

  function Calls(actions: seq<Action>, j: nat, k: nat): nat
    requires j <= k <= |actions|
    decreases k
  {
    if j == k then 0 else Calls(actions, j, k - 1) + if IsCall(actions[k - 1]) then 1 else 0
  }

  /** How many more calls the run can come to before it looks at the flags. */
  function CallsLeft(s: State): nat {
    if s.pc.Probing? || s.pc.Opening? || s.pc.Finalizing? || (s.pc.CheckPause? && !s.pause) then 1 else 0
  }

  lemma StepUsesCall(session: Session, s: State, a: Action)
    requires session.Valid() && Enabled(session, s, a) && (s.pause || s.cancel)
    ensures (if IsCall(a) then 1 else 0) + CallsLeft(Next(session, s, a)) <= CallsLeft(s)
    ensures Next(session, s, a).pause || Next(session, s, a).cancel
  {
    hide Enabled, Next;
    StepRaises(session, s, a);
    if a.Main? {
      hide Spawns;
      NeverSpawns(session, s);
      MainPc(session, s);
    } else {
      PcOfOthers(session, s, a);
      CallAt(session, s, a);
    }
  }

  lemma CallAt(session: Session, s: State, a: Action)
    requires session.Valid() && Enabled(session, s, a) && !a.Main?
    ensures a.Probe? ==> s.pc == Probing && Next(session, s, a).pc != Probing
    ensures a.Open? ==> s.pc == Opening && Next(session, s, a).pc != Opening
    ensures a.Promote? ==> s.pc == Finalizing && Next(session, s, a).pc != Finalizing
  {
    hide Enabled, Next;
    match a
    case Probe(_) => SignalIs(session, s, a);
    case Open(_) => OpenIs(session, s, a);
    case Promote(_) => PromoteIs(session, s, a);
    case _ =>
  }

  /** Once a flag is up, the run makes one more call at most: it does not go on to
      open, to download or to finalize. */
  lemma {:induction false} StopsCalling(session: Session, states: seq<State>, actions: seq<Action>, j: nat, k: nat)
    requires session.Valid() && IsRun(session, states, actions) && j <= k < |states|
             && (states[j].pause || states[j].cancel)
    ensures k <= |actions| && (states[k].pause || states[k].cancel)
    ensures Calls(actions, j, k) + CallsLeft(states[k]) <= CallsLeft(states[j]) <= 1
    decreases k
  {
    hide Enabled, Next, Inv, IsRun;
    RunLength(session, states, actions);
    if j < k {
      StopsCalling(session, states, actions, j, k - 1);
      RunStep(session, states, actions, k - 1);
      hide CallsLeft, IsCall;
      StepUsesCall(session, states[k - 1], actions[k - 1]);
    }
  }
}
