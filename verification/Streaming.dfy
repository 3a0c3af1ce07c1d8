/** Streaming one response body to the writer (`stream_body_to_writer` in
    `downloader.rs`). */
module Streaming {
  import opened Bytes
  import opened Basics
  import opened ChunkLayout
  import Protocol
  import opened DownloadRun
  import DownloadSafety

  datatype FetchStatus = Complete | Paused

  /** What comes from outside, by the number of the fragment: the control flags
      when it arrives, and whether the writer still takes commands. */
  datatype Outside = Outside(cancelled: nat -> bool, paused: nat -> bool, serving: nat -> bool)

  predicate Writes(sent: seq<Command>) {
    forall c | c in sent :: c.Put?
  }

  function Body(sent: seq<Command>): seq<byte>
    requires Writes(sent)
  {
    if sent == [] then [] else Body(sent[..|sent| - 1]) + sent[|sent| - 1].bytes
  }

  /** Non-empty writes to one chunk, laid end to end from its first byte. */
  ghost predicate EndToEnd(sent: seq<Command>, index: nat)
    decreases |sent|
  {
    sent == []
    || (var init, last := sent[..|sent| - 1], sent[|sent| - 1];
        EndToEnd(init, index) && Writes(init) && last.Put? && last.bytes != []
        && last == Put(index, |Body(init)|, last.bytes))
  }

  /** The bytes of the first `n` fragments. */
  function Arrived(fragments: seq<Result<seq<byte>>>, n: nat): seq<byte>
    requires n <= |fragments| && forall k | 0 <= k < n :: fragments[k].Success?
  {
    if n == 0 then [] else Arrived(fragments, n - 1) + fragments[n - 1].value
  }

  lemma {:induction false} ArrivedGrows(fragments: seq<Result<seq<byte>>>, a: nat, b: nat)
    requires a <= b <= |fragments| && forall k | 0 <= k < b :: fragments[k].Success?
    ensures |Arrived(fragments, a)| <= |Arrived(fragments, b)|
    decreases b
  {
    if a < b {
      ArrivedGrows(fragments, a, b - 1);
    }
  }

  /** Nothing interfered with the first `n` fragments. */
  predicate Undisturbed(fragments: seq<Result<seq<byte>>>, outside: Outside, n: nat)
    requires n <= |fragments|
  {
    forall k | 0 <= k < n :: fragments[k].Success? && !outside.cancelled(k) && !outside.paused(k)
                             && (fragments[k].value != [] ==> outside.serving(k))
  }

  /** Fragment `n` is the first one that does not pass: something interferes with
      it, or it is more than the chunk holds. */
  ghost predicate StopsAt(fragments: seq<Result<seq<byte>>>, outside: Outside, len: nat, n: nat) {
    n < |fragments| && Undisturbed(fragments, outside, n) && |Arrived(fragments, n)| <= len
    && (!Undisturbed(fragments, outside, n + 1) || |Arrived(fragments, n + 1)| > len)
  }

  lemma EndToEndAppend(sent: seq<Command>, index: nat, bytes: seq<byte>)
    requires EndToEnd(sent, index) && Writes(sent) && bytes != []
    ensures var longer := sent + [Put(index, |Body(sent)|, bytes)];
            EndToEnd(longer, index) && Writes(longer) && Body(longer) == Body(sent) + bytes
  {
    assert (sent + [Put(index, |Body(sent)|, bytes)])[..|sent|] == sent;
  }

  /** There is one such fragment at most, and none if the whole body passes. */
  lemma StopsOnce(fragments: seq<Result<seq<byte>>>, outside: Outside, len: nat, n: nat, m: nat)
    requires StopsAt(fragments, outside, len, n)
    ensures StopsAt(fragments, outside, len, m) ==> m == n
    ensures !(Undisturbed(fragments, outside, |fragments|) && |Arrived(fragments, |fragments|)| <= len)
  {
    if Undisturbed(fragments, outside, |fragments|) {
      ArrivedGrows(fragments, n + 1, |fragments|);
    }
    if StopsAt(fragments, outside, len, m) && m != n {
      var low, high := Min(m, n), Max(m, n);
      ArrivedGrows(fragments, low + 1, high);
    }
  }

  /** What the streaming reports for a fragment that does not pass. */
  predicate Reports(fragments: seq<Result<seq<byte>>>, outside: Outside, n: nat, fits: bool, r: Result<FetchStatus>)
    requires n < |fragments|
  {
    if outside.cancelled(n) then r == Failure(Cancelled)
    else if outside.paused(n) then r == Success(Paused)
    else if fragments[n].Failure? then r == Failure(fragments[n].error)
    else if !fits then r == Failure(HttpProtocol)
    else r == Failure(Ffi)
  }

  /** Sends the fragments on as they arrive. `n` is how many it sent, end to end,
      and never more than the chunk holds. If it went through all of them, it
      reports completion exactly when the body has the length of the chunk;
      otherwise it says what kept the next fragment from passing. */
  method StreamBody(fragments: seq<Result<seq<byte>>>, outside: Outside, index: nat, len: u64)
      returns (r: Result<FetchStatus>, sent: seq<Command>, ghost n: nat)
    ensures EndToEnd(sent, index) && Writes(sent)
    ensures n <= |fragments| && Undisturbed(fragments, outside, n) && Body(sent) == Arrived(fragments, n)
            && |Body(sent)| <= len
    ensures r == Success(Complete) <==>
              Undisturbed(fragments, outside, |fragments|) && |Arrived(fragments, |fragments|)| == len
    ensures n == |fragments| ==>
              r == if |Arrived(fragments, n)| == len then Success(Complete) else Failure(HttpProtocol)
    ensures n < |fragments| ==>
              StopsAt(fragments, outside, len, n)
              && Reports(fragments, outside, n,
                         fragments[n].Success? && |Arrived(fragments, n)| + |fragments[n].value| <= len, r)
  {
    hide Body, EndToEnd;
    sent := [];
    EmptyBody(index);
    var written := 0;
    var k := 0;
    n := 0;
    while k < |fragments|
      invariant 0 <= k <= |fragments| && n == k && Undisturbed(fragments, outside, k)
      invariant EndToEnd(sent, index) && Writes(sent) && written == |Body(sent)| <= len
      invariant Body(sent) == Arrived(fragments, k)
    {
      if outside.cancelled(k) {
        return Failure(Cancelled), sent, n;
      }
      if outside.paused(k) {
        return Success(Paused), sent, n;
      }
      if fragments[k].Failure? {
        return Failure(fragments[k].error), sent, n;
      }
      var bytes := fragments[k].value;
      if bytes != [] {
        if written + |bytes| >= U64_LIMIT || written + |bytes| > len {
          if Undisturbed(fragments, outside, |fragments|) {
            ArrivedGrows(fragments, k + 1, |fragments|);
          }
          return Failure(HttpProtocol), sent, n;
        }
        if !outside.serving(k) {
          return Failure(Ffi), sent, n;
        }
        EndToEndAppend(sent, index, bytes);
        sent := sent + [Put(index, written, bytes)];
        written := written + |bytes|;
      }
      k := k + 1;
      n := k;
    }
    if written != len {
      return Failure(HttpProtocol), sent, n;
    }
    return Success(Complete), sent, n;
  }

  lemma EmptyBody(index: nat)
    ensures Body([]) == [] && EndToEnd([], index)
  {
  }

  // ---- what the writer makes of it ----

  lemma {:induction false} StartFills(job: Protocol.Job, content: seq<byte>, sent: seq<Command>, index: nat)
    requires job.Valid() && index < job.Plan().chunkCount && |content| == job.ContentLen()
    requires EndToEnd(sent, index) && Writes(sent) && |Body(sent)| <= ChunkLen(job, index)
    ensures DownloadSafety.AllInRange(job, sent)
    ensures ChunkBytes(job, Eventual(job, content, sent), index)[..|Body(sent)|] == Body(sent)
    decreases |sent|
  {
    hide ChunkLen, ChunkBytes, PutBytes, Eventual;
    if sent != [] {
      var init, last := sent[..|sent| - 1], sent[|sent| - 1];
      assert sent == init + [last];
      StartFills(job, content, init, index);
      DownloadSafety.EventualAppend(job, content, init, last);
      DownloadSafety.PutExtends(job, Eventual(job, content, init), index, Body(init), last.bytes);
    }
  }

  /** A body that was streamed to its end is what its chunk holds once the
      writer has worked the commands off, and nothing else has moved. */
  lemma StreamFillsChunk(job: Protocol.Job, content: seq<byte>, sent: seq<Command>, index: nat, other: nat)
    requires job.Valid() && index < job.Plan().chunkCount && other < job.Plan().chunkCount && other != index
    requires |content| == job.ContentLen()
    requires EndToEnd(sent, index) && Writes(sent) && |Body(sent)| == ChunkLen(job, index)
    ensures DownloadSafety.AllInRange(job, sent)
    ensures ChunkBytes(job, Eventual(job, content, sent), index) == Body(sent)
    ensures ChunkBytes(job, Eventual(job, content, sent), other) == ChunkBytes(job, content, other)
  {
    hide ChunkLen, ChunkBytes, PutBytes, Eventual, Body, EndToEnd;
    StartFills(job, content, sent, index);
    var chunk := ChunkBytes(job, Eventual(job, content, sent), index);
    assert chunk[..|Body(sent)|] == chunk;
    SentToOne(sent, index);
    DownloadSafety.EventualSpares(job, content, sent, other);
  }

  lemma {:induction false} SentToOne(sent: seq<Command>, index: nat)
    requires EndToEnd(sent, index)
    ensures forall k | 0 <= k < |sent| :: sent[k].index == index
    decreases |sent|
  {
    if sent != [] {
      SentToOne(sent[..|sent| - 1], index);
    }
  }
}
