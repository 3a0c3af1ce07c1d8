/** One run of a download (`run_download` in `downloader.rs`) as a step relation:
    the main loop, the chunk tasks it spawns, the writer task behind a bounded
    FIFO channel, and whoever pauses or cancels from outside.

    Chunk tasks read the control flags without synchronisation. A task may
    therefore go on after a flag was set, but it stops only if one was. */
module DownloadRun {
  import opened Bytes
  import opened Basics
  import opened ChunkLayout
  import opened Bitmap
  import opened Metadata
  import opened Disk
  import opened Verification
  import Protocol
  import SlotCodec
  import opened Lifecycles
  import opened Accounting

  /** What a run works on. `found` is what opening the part file yields, and
      `durable` is the record, if any, that its durable bytes recover to then. */
  datatype Session = Session(
    job: Protocol.Job, parallelism: nat, capacity: nat, maxAttempts: nat,
    found: Part, durable: Option<PartMetadata>)
  {

    ghost predicate Valid() {
      job.Valid() && parallelism > 0 && capacity > 0 && maxAttempts > 0
      && Protocol.BelongsTo(job, found.meta) && |found.content| == job.ContentLen()
    }

    function Count(): nat
      requires job.Valid()
    {
      job.Plan().chunkCount
    }

    /** The chunks that are incomplete when the file is opened. */
    ghost function Todo(): set<nat>
      requires Valid()
    {
      set i: nat | i < Count() && i !in found.meta.Complete()
    }
  }

  /** The part file as the writer sees it. */
  datatype Part = Part(content: seq<byte>, meta: PartMetadata)

  datatype Command = Put(index: nat, offset: nat, bytes: seq<byte>) | Commit(index: nat)

  datatype Outcome = Committed(meta: PartMetadata) | TaskPaused | TaskFailed(error: Error)

  /** Where a chunk task is. `sent` is the body of the current attempt so far. */
  datatype Task =
    | Trying(attempt: nat)
    | Fetching(attempt: nat, sent: seq<byte>)
    | Fetched(attempt: nat)
    | Waiting
    | Backoff(attempt: nat)
    | Done(outcome: Outcome)

  datatype Writer = Serving | Finished | Broken(error: Error)

  datatype Stage = BeforeProbe | BeforeOpen | BeforeLoop | BeforeFinalize

  datatype Why = Emptied | OnCancel | OnPause | OnError(error: Error)

  datatype Pc =
    | CheckCancel(stage: Stage) | CheckPause(stage: Stage)
    | Probing | Opening
    | Top | TopPause | Fill | FillCancel | Filled | Joining | Joined
    | Draining(why: Why) | Closing(why: Why) | Closed
    | Finalizing | Promoted
    | Ended(result: Result<()>) | Killed

  datatype State = State(
    pc: Pc, pause: bool, cancel: bool, life: Lifecycle,
    pending: seq<nat>, tasks: map<nat, Task>, joined: set<nat>, lost: set<nat>,
    queue: seq<Command>, writer: Writer, part: Part,
    bodies: map<nat, seq<byte>>, history: seq<PartMetadata>, durable: Option<PartMetadata>,
    progress: Option<Progress>, promoted: bool)

  /** The fields of a snapshot that come from the part file. */
  datatype Progress = Progress(
    contentLen: nat, downloadedBytes: nat, chunkSize: nat, chunkCount: nat, completedChunks: nat, bitmap: seq<byte>)

  ghost function ProgressOf(m: PartMetadata): Progress
    requires m.Consistent()
  {
    Progress(m.contentLen, |DoneBelow(m, m.contentLen)|, m.chunkSize, m.chunkCount, m.bitmap.CompleteCount(),
             m.bitmap.bytes)
  }

  // ---- contents ----

  ghost function ChunkLen(job: Protocol.Job, i: nat): nat
    requires job.Valid() && i < job.Plan().chunkCount
  {
    ChunkInPlan(job.Plan(), i);
    job.Plan().Hi(i) - job.Plan().Lo(i)
  }

  ghost function ChunkBytes(job: Protocol.Job, content: seq<byte>, i: nat): (b: seq<byte>)
    requires job.Valid() && i < job.Plan().chunkCount && |content| == job.ContentLen()
    ensures |b| == ChunkLen(job, i)
  {
    ChunkInPlan(job.Plan(), i);
    content[job.Plan().Lo(i)..job.Plan().Hi(i)]
  }

  ghost predicate InRange(job: Protocol.Job, c: Command)
    requires job.Valid()
  {
    c.index < job.Plan().chunkCount && (c.Put? ==> c.offset + |c.bytes| <= ChunkLen(job, c.index))
  }

  /** `content` after the bytes of one command. */
  ghost function PutBytes(job: Protocol.Job, content: seq<byte>, i: nat, offset: nat, bytes: seq<byte>): (r: seq<byte>)
    requires job.Valid() && i < job.Plan().chunkCount && |content| == job.ContentLen()
    requires offset + |bytes| <= ChunkLen(job, i)
    ensures |r| == |content|
  {
    ChunkInPlan(job.Plan(), i);
    var at := job.Plan().Lo(i) + offset;
    content[..at] + bytes + content[at + |bytes|..]
  }

  ghost function Executed(job: Protocol.Job, content: seq<byte>, c: Command): (r: seq<byte>)
    requires job.Valid() && InRange(job, c) && |content| == job.ContentLen()
    ensures |r| == |content|
  {
    if c.Put? then PutBytes(job, content, c.index, c.offset, c.bytes) else content
  }

  /** `content` once the whole queue is worked off. */
  ghost function Eventual(job: Protocol.Job, content: seq<byte>, queue: seq<Command>): (r: seq<byte>)
    requires job.Valid() && |content| == job.ContentLen() && forall c | c in queue :: InRange(job, c)
    ensures |r| == |content|
    decreases |queue|
  {
    if queue == [] then content else Eventual(job, Executed(job, content, queue[0]), queue[1..])
  }

  // ---- steps ----

  datatype Action =
    | Main
    | Probe(r: Result<()>)
    | Open(r: Result<()>)
    | Join(i: nat)
    | Promote(r: Result<()>)
    | Abort(i: nat)
    | Begin(i: nat)
    | Send(i: nat, fragment: seq<byte>)
    | Receive(i: nat)
    | FailAttempt(i: nat, error: Error)
    | Wake(i: nat)
    | Submit(i: nat)
    | Stop(i: nat, outcome: Outcome)
    | LoseReply(i: nat)
    | WriterPut(count: nat)
    | WriterCommit(r: Result<()>)
    | WriterEnd
    | SetPause | SetCancel | RequestPause | RequestCancel | LateCancel
    | Kill

  ghost function Init(session: Session, life: Lifecycle): State
    requires session.Valid()
  {
    State(CheckCancel(BeforeProbe), false, false, life.RequestStart(), [], map[], {}, {}, [], Serving, session.found,
          map i: nat | i in session.found.meta.Complete() :: ChunkBytes(session.job, session.found.content, i),
          [session.found.meta], session.durable, None, false)
  }

  /** The next command is a write, and `count` of its bytes can be written. */
  predicate PutWaits(s: State, count: nat) {
    |s.queue| > 0 && s.queue[0].Put? && count <= |s.queue[0].bytes|
  }

  predicate CommitWaits(s: State, r: Result<()>) {
    |s.queue| > 0 && s.queue[0].Commit? && s.queue[0].index / 8 < |s.part.meta.bitmap.bytes|
    && s.part.meta.bitmap.Sized() && (r.Success? ==> s.part.meta.generation + 1 < U64_LIMIT)
  }

  predicate IsTaskMove(a: Action) {
    a.Begin? || a.FailAttempt? || a.Wake? || a.Stop? || a.LoseReply?
  }

  /** The steps of a chunk task. */
  predicate IsTaskStep(a: Action) {
    IsTaskMove(a) || a.Send? || a.Receive? || a.Submit?
  }

  /** What happens from outside, or to the run as a whole. */
  predicate IsSignal(a: Action) {
    a.Probe? || a.SetPause? || a.SetCancel? || a.RequestPause? || a.RequestCancel? || a.LateCancel? || a.Kill?
    || a.WriterEnd?
  }

  ghost predicate TaskReady(session: Session, s: State, a: Action)
    requires session.Valid() && IsTaskStep(a)
  {
    a.i in s.tasks
    && match a
       case Begin(i) => s.tasks[i].Trying?
       case Send(i, fragment) =>
         s.tasks[i].Fetching? && s.writer == Serving && |s.queue| < session.capacity && i < session.Count()
         && fragment != [] && |s.tasks[i].sent| + |fragment| <= ChunkLen(session.job, i)
       case Receive(i) => s.tasks[i].Fetching? && i < session.Count() && |s.tasks[i].sent| == ChunkLen(session.job, i)
       case FailAttempt(i, _) => s.tasks[i].Fetching?
       case Wake(i) => s.tasks[i].Backoff?
       case Submit(i) => s.tasks[i].Fetched? && s.writer == Serving && |s.queue| < session.capacity
       case Stop(i, outcome) =>
         (s.tasks[i].Trying? || s.tasks[i].Fetching? || s.tasks[i].Fetched?)
         && ((outcome == TaskPaused && s.pause) || (outcome == TaskFailed(Error.Cancelled) && s.cancel))
       case LoseReply(i) => (s.tasks[i].Waiting? || s.tasks[i].Fetched?) && s.writer.Broken?
  }

  predicate SignalReady(s: State, a: Action)
    requires IsSignal(a)
  {
    match a
    case Probe(_) => s.pc == Probing
    case WriterEnd => s.writer == Serving && s.queue == [] && s.tasks == map[] && (s.pc.Closing? || s.pc.Killed?)
    case LateCancel => s.pc.Ended?
    case Kill => !s.pc.Ended? && !s.pc.Opening? && !s.pc.Finalizing? && !s.pc.Promoted?
    case _ => true
  }

  predicate MainReady(s: State) {
    s.pc.CheckCancel? || s.pc.CheckPause? || s.pc.Top? || s.pc.TopPause? || s.pc.Fill? || s.pc.FillCancel?
    || s.pc.Filled?
    || s.pc.Joined? || (s.pc.Draining? && s.tasks == map[]) || (s.pc.Closing? && s.writer != Serving) || s.pc.Closed?
    || s.pc.Promoted?
  }

  /** The main loop and the writer. */
  ghost predicate RunReady(session: Session, s: State, a: Action)
    requires session.Valid() && !IsTaskStep(a) && !IsSignal(a)
  {
    match a
    case Main => MainReady(s)
    case Open(_) => s.pc == Opening
    case Join(i) => s.pc == Joining && i in s.tasks && s.tasks[i].Done?
    case Promote(r) =>
      s.pc == Finalizing && s.part.meta.bitmap.Sized() && |s.part.content| == session.job.ContentLen()
      && r != Failure(Error.Cancelled)
      && (r.Success? ==> s.part.meta.bitmap.AllComplete() && Accepts(session.job.ext, session.job.hash, s.part.content))
    case Abort(i) => (s.pc.Draining? || s.pc.Killed?) && i in s.tasks
    case WriterPut(count) => s.writer == Serving && PutWaits(s, count)
    case WriterCommit(r) => s.writer == Serving && CommitWaits(s, r)
  }

  ghost predicate Enabled(session: Session, s: State, a: Action)
    requires session.Valid()
  {
    if IsTaskStep(a) then TaskReady(session, s, a)
    else if IsSignal(a) then SignalReady(s, a)
    else RunReady(session, s, a)
  }

  /** How a run that ends reports itself. */
  function Settled(life: Lifecycle, r: Result<()>): Lifecycle {
    if r.Success? then life else if r == Failure(Error.Cancelled) then life.MarkCancelled() else life.MarkFailed()
  }

  function End(s: State, r: Result<()>): State {
    s.(pc := Ended(r), life := Settled(s.life, r))
  }

  /** The error of a run that ended with `e` when the writer may have failed too. */
  function WorseError(writer: Writer, e: Error): Error {
    if writer.Broken? && (e == Ffi || writer.error != Ffi) then writer.error else e
  }

  /** The inner loop takes the next chunk. */
  predicate Spawns(session: Session, s: State) {
    s.pc.FillCancel? && !s.cancel && |s.tasks| < session.parallelism && s.pending != []
  }

  /** Where the main loop goes. */
  function NextPc(session: Session, s: State): Pc {
    match s.pc
    case CheckCancel(stage) => if s.cancel then Ended(Failure(Error.Cancelled)) else CheckPause(stage)
    case CheckPause(stage) =>
      if s.pause then Ended(Success(()))
      else if stage == BeforeProbe then Probing
      else if stage == BeforeOpen then Opening
      else if stage == BeforeFinalize then Finalizing
      else if s.pending == [] then CheckCancel(BeforeFinalize)
      else Top
    case Top => if s.cancel then Draining(OnCancel) else TopPause
    case TopPause => if s.pause then Draining(OnPause) else Fill
    case Fill => if s.pause then Filled else FillCancel
    case FillCancel => if Spawns(session, s) then Fill else Filled
    case Filled => if s.tasks == map[] then Closing(Emptied) else Joining
    case Joined => if s.pause && s.tasks == map[] then Closing(OnPause) else Top
    case Draining(why) => Closing(why)
    case Closing(why) =>
      if why.OnError? then Ended(Failure(WorseError(s.writer, why.error)))
      else if s.writer.Broken? then Ended(Failure(s.writer.error))
      else if why.OnCancel? then Ended(Failure(Error.Cancelled))
      else if why.OnPause? then Ended(Success(()))
      else Closed
    case Closed => if s.pause then Ended(Success(())) else CheckCancel(BeforeFinalize)
    case Promoted => Ended(Success(()))
    case pc => pc
  }

  /** What it reports on the way. Ending well without promoting means pausing. */
  function NextLife(session: Session, s: State): Lifecycle {
    match NextPc(session, s)
    case Ended(r) =>
      if r.Failure? then Settled(s.life, r) else if s.pc.Promoted? then s.life.MarkCompleted() else s.life.MarkPaused()
    case Opening => s.life.MarkAllocating()
    case Finalizing => s.life.MarkVerifying()
    case _ => if s.pc == CheckPause(BeforeLoop) then s.life.MarkRunning() else s.life
  }

  function MainNext(session: Session, s: State): State {
    if Spawns(session, s) then s.(pc := Fill, pending := s.pending[1..], tasks := s.tasks[s.pending[0] := Trying(1)])
    else s.(pc := NextPc(session, s), life := NextLife(session, s))
  }

  ghost function AfterJoin(s: State, i: nat, outcome: Outcome): State {
    var r := s.(tasks := s.tasks - {i});
    match outcome
    case Committed(m) =>
      r.(pc := Joined, joined := s.joined + {i},
         progress := if m.bitmap.Sized() && m.Consistent() then Some(ProgressOf(m)) else None)
    case TaskPaused => r.(pc := Draining(OnPause), lost := s.lost + {i})
    case TaskFailed(e) => r.(pc := Draining(OnError(e)), lost := s.lost + {i})
  }

  function Answered(tasks: map<nat, Task>, i: nat, outcome: Outcome): map<nat, Task> {
    if i in tasks && tasks[i].Waiting? then tasks[i := Done(outcome)] else tasks
  }

  /** The part file after bytes were written into a chunk: a complete chunk is
      left alone. */
  ghost function PutInto(job: Protocol.Job, part: Part, i: nat, offset: nat, bytes: seq<byte>): (r: Part)
    requires job.Valid() && InRange(job, Put(i, offset, bytes)) && |part.content| == job.ContentLen()
    ensures |r.content| == |part.content| && r.meta == part.meta
  {
    if bytes == [] || !Protocol.Missing(part.meta, i) then part
    else part.(content := PutBytes(job, part.content, i, offset, bytes))
  }

  /** The part file after a commit that met no error. */
  function CommitInto(part: Part, i: nat): (r: Part)
    ensures r.content == part.content
  {
    if Protocol.Missing(part.meta, i) && part.meta.generation + 1 < U64_LIMIT && i / 8 < |part.meta.bitmap.bytes|
    then part.(meta := Protocol.NextMetadata(part.meta, i))
    else part
  }

  ghost function AfterPut(session: Session, s: State, count: nat): State
    requires session.Valid() && PutWaits(s, count)
  {
    var c := s.queue[0];
    var fits := InRange(session.job, c) && |s.part.content| == session.job.ContentLen();
    var done := fits && (!Protocol.Missing(s.part.meta, c.index) || count == |c.bytes|);
    s.(part := if fits then PutInto(session.job, s.part, c.index, c.offset, c.bytes[..count]) else s.part,
       queue := if done then s.queue[1..] else [],
       writer := if done then s.writer else Broken(if fits then Io else InvalidConfig))
  }

  /** A commit of a missing chunk that succeeds makes its record durable before it
      is answered. */
  ghost function AfterCommit(session: Session, s: State, r: Result<()>): State
    requires session.Valid() && CommitWaits(s, r)
  {
    var i := s.queue[0].index;
    if !Protocol.Missing(s.part.meta, i)
    then s.(queue := s.queue[1..], tasks := Answered(s.tasks, i, Committed(s.part.meta)))
    else if r.Failure?
    then s.(writer := Broken(Ffi), queue := [], tasks := Answered(s.tasks, i, TaskFailed(r.error)))
    else
      var p := CommitInto(s.part, i);
      s.(queue := s.queue[1..], part := p, history := s.history + [p.meta], durable := Some(SlotCodec.Stored(p.meta)),
         tasks := Answered(s.tasks, i, Committed(p.meta)))
  }

  ghost function TaskNext(session: Session, s: State, a: Action): State
    requires session.Valid() && IsTaskStep(a) && TaskReady(session, s, a)
  {
    match a
    case Begin(i) => s.(tasks := s.tasks[i := Fetching(s.tasks[i].attempt, [])])
    case Send(i, fragment) =>
      s.(queue := s.queue + [Put(i, |s.tasks[i].sent|, fragment)],
         tasks := s.tasks[i := Fetching(s.tasks[i].attempt, s.tasks[i].sent + fragment)])
    case Receive(i) => s.(tasks := s.tasks[i := Fetched(s.tasks[i].attempt)], bodies := s.bodies[i := s.tasks[i].sent])
    case FailAttempt(i, e) =>
      var again := IsRetryable(e) && s.tasks[i].attempt < session.maxAttempts;
      s.(tasks := s.tasks[i := if again then Backoff(s.tasks[i].attempt) else Done(TaskFailed(e))])
    case Wake(i) => s.(tasks := s.tasks[i := Trying(s.tasks[i].attempt + 1)])
    case Submit(i) => s.(queue := s.queue + [Commit(i)], tasks := s.tasks[i := Waiting])
    case Stop(i, outcome) => s.(tasks := s.tasks[i := Done(outcome)])
    case LoseReply(i) => s.(tasks := s.tasks[i := Done(TaskFailed(Ffi))])
  }

  function SignalNext(s: State, a: Action): State
    requires IsSignal(a)
  {
    match a
    case Probe(r) => if r.Success? then s.(pc := CheckCancel(BeforeOpen)) else End(s, r)
    case WriterEnd => s.(writer := Finished)
    case SetPause => s.(pause := true)
    case SetCancel => s.(cancel := true)
    case RequestPause => s.(life := s.life.RequestPause())
    case RequestCancel => s.(life := s.life.RequestCancel())
    case LateCancel => s.(life := s.life.MarkCancelled())
    case Kill => s.(pc := Killed)
  }

  ghost function RunNext(session: Session, s: State, a: Action): State
    requires session.Valid() && !IsTaskStep(a) && !IsSignal(a) && RunReady(session, s, a)
  {
    match a
    case Main => MainNext(session, s)
    case Open(r) =>
      if r.Failure? then End(s, r)
      else s.(pc := CheckCancel(BeforeLoop), pending := session.found.meta.bitmap.IncompleteIndices(),
              progress := Some(ProgressOf(session.found.meta)))
    case Join(i) => AfterJoin(s, i, s.tasks[i].outcome)
    case Promote(r) => if r.Success? then s.(pc := Promoted, promoted := true) else End(s, r)
    case Abort(i) => s.(tasks := s.tasks - {i}, lost := s.lost + {i})
    case WriterPut(count) => AfterPut(session, s, count)
    case WriterCommit(r) => AfterCommit(session, s, r)
  }

  ghost function Next(session: Session, s: State, a: Action): State
    requires session.Valid() && Enabled(session, s, a)
  {
    if IsTaskStep(a) then TaskNext(session, s, a) else if IsSignal(a) then SignalNext(s, a) else RunNext(session, s, a)
  }
}
