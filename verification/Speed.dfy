/** The speed window (`SpeedProgress` in `state.rs`): bytes received during the
    last second. Old samples are discarded for good; times are in nanoseconds
    from the earliest instant that the platform can represent. Bytes per second, a
    floating-point quotient of two of these fields, is left out. */
module Speed {
  import opened Basics

  const WINDOW: nat := 1_000_000_000
  const U64_MAX: nat := U64_LIMIT - 1

  datatype Sample = Sample(at: nat, bytes: u64)

  function SaturatingAdd(a: u64, b: u64): u64 {
    if a + b > U64_MAX then U64_MAX else a + b
  }

  /** What the fields of the object are worth. */
  datatype Window = Window(interval: u64, samples: seq<Sample>, startedAt: Option<nat>)

  /** The earliest time that still counts. A subtraction that would leave the range
      of representable instants falls back to `now` itself; where that range is
      signed, no running program comes near it. */
  function Cutoff(now: nat): nat {
    if now >= WINDOW then now - WINDOW else now
  }

  function DropOld(samples: seq<Sample>, cutoff: nat): seq<Sample> {
    if samples != [] && samples[0].at < cutoff then DropOld(samples[1..], cutoff) else samples
  }

  function Total(samples: seq<Sample>): nat {
    if samples == [] then 0 else samples[0].bytes + Total(samples[1..])
  }

  function Saturated(n: nat): u64 {
    Min(n, U64_MAX)
  }

  function Refreshed(w: Window, now: nat): Window {
    var kept := DropOld(w.samples, Cutoff(now));
    w.(interval := Saturated(Total(kept)), samples := kept)
  }

  function Recorded(w: Window, bytes: u64, now: nat): Window {
    var started := if w.startedAt.Some? then w.startedAt.value else now;
    Refreshed(w.(samples := w.samples + [Sample(now, bytes)], startedAt := Some(started)), now)
  }

  function Cleared(now: nat): Window {
    Window(0, [], Some(now))
  }

  // ---- the object ----

  lemma {:induction false} TotalAppend(a: seq<Sample>, b: seq<Sample>)
    ensures Total(a + b) == Total(a) + Total(b)
    decreases |a|
  {
    if a == [] {
      assert a + b == b;
    } else {
      assert (a + b)[1..] == a[1..] + b;
      TotalAppend(a[1..], b);
    }
  }

  class SpeedProgress {
    var receivedBytes: u64
    var intervalBytes: u64
    var elapsedMillis: nat
    var samples: seq<Sample>
    var startedAt: Option<nat>

    function Value(): Window
      reads this
    {
      Window(intervalBytes, samples, startedAt)
    }

    constructor ()
      ensures Value() == Window(0, [], None) && receivedBytes == 0
    {
      receivedBytes, intervalBytes, elapsedMillis := 0, 0, 0;
      samples, startedAt := [], None;
    }

    method RecordBodyBytes(bytes: u64, now: nat)
      modifies this
      ensures Value() == Recorded(old(Value()), bytes, now)
      ensures receivedBytes == Min(old(receivedBytes) + bytes, U64_MAX)
      ensures now >= WINDOW ==> elapsedMillis == Max(Min(now - startedAt.value, WINDOW), 0) / 1_000_000
    {
      receivedBytes := SaturatingAdd(receivedBytes, bytes);
      startedAt := Some(if startedAt.Some? then startedAt.value else now);
      samples := samples + [Sample(now, bytes)];
      RefreshWindow(now);
    }

    /** Drops samples from the front and adds up the rest, saturating. */
    method RefreshWindow(now: nat)
      modifies this
      ensures Value() == Refreshed(old(Value()), now) && receivedBytes == old(receivedBytes)
      ensures now >= WINDOW ==> elapsedMillis <= 1000
      ensures old(startedAt) == None && now >= WINDOW ==> elapsedMillis == 1000
      ensures now >= WINDOW && old(startedAt).Some? ==>
                elapsedMillis == Max(Min(now - old(startedAt).value, WINDOW), 0) / 1_000_000
      ensures now < WINDOW ==> elapsedMillis == 0
    {
      var cutoff := Cutoff(now);
      while samples != [] && samples[0].at < cutoff
        invariant DropOld(samples, cutoff) == DropOld(old(samples), cutoff)
        invariant startedAt == old(startedAt) && receivedBytes == old(receivedBytes)
        decreases |samples|
      {
        samples := samples[1..];
      }
      var sum: u64 := 0;
      var k := 0;
      while k < |samples|
        invariant 0 <= k <= |samples|
        invariant sum == Saturated(Total(samples[..k]))
        invariant samples == DropOld(old(samples), cutoff) && startedAt == old(startedAt)
                  && receivedBytes == old(receivedBytes)
      {
        assert samples[..k + 1] == samples[..k] + [samples[k]];
        TotalAppend(samples[..k], [samples[k]]);
        assert Total([samples[k]]) == samples[k].bytes;
        sum := SaturatingAdd(sum, samples[k].bytes);
        k := k + 1;
      }
      assert samples[..|samples|] == samples;
      var start := if startedAt.Some? then Max(startedAt.value, cutoff) else cutoff;
      intervalBytes := sum;
      elapsedMillis := Max(now - start, 0) / 1_000_000;
    }

    method ResetWindow(now: nat)
      modifies this
      ensures Value() == Cleared(now) && receivedBytes == old(receivedBytes) && elapsedMillis == 0
    {
      intervalBytes, elapsedMillis := 0, 0;
      samples, startedAt := [], Some(now);
    }
  }

  // ---- histories ----

  datatype Event = Record(bytes: u64, at: nat) | Refresh(at: nat) | Reset(at: nat)

  function After(w: Window, e: Event): Window {
    match e
    case Record(bytes, at) => Recorded(w, bytes, at)
    case Refresh(at) => Refreshed(w, at)
    case Reset(at) => Cleared(at)
  }

  function Run(events: seq<Event>): Window {
    if events == [] then Window(0, [], None)
    else After(Run(events[..|events| - 1]), events[|events| - 1])
  }

  /** Everything recorded since the last reset. */
  function History(events: seq<Event>): seq<Sample> {
    if events == [] then []
    else
      var before := History(events[..|events| - 1]);
      match events[|events| - 1]
      case Record(bytes, at) => before + [Sample(at, bytes)]
      case Refresh(_) => before
      case Reset(_) => []
  }

  predicate InOrder(events: seq<Event>) {
    forall i, j | 0 <= i < j < |events| :: events[i].at <= events[j].at
  }

  predicate Sorted(samples: seq<Sample>) {
    forall i, j | 0 <= i < j < |samples| :: samples[i].at <= samples[j].at
  }

  /** The samples at or after `from`, wherever they stand. */
  function Since(samples: seq<Sample>, from: nat): seq<Sample> {
    if samples == [] then []
    else if samples[0].at >= from then [samples[0]] + Since(samples[1..], from)
    else Since(samples[1..], from)
  }

  lemma {:induction false} SinceAppend(a: seq<Sample>, b: seq<Sample>, from: nat)
    ensures Since(a + b, from) == Since(a, from) + Since(b, from)
    decreases |a|
  {
    if a == [] {
      assert a + b == b;
    } else {
      assert (a + b)[1..] == a[1..] + b;
      SinceAppend(a[1..], b, from);
    }
  }

  lemma {:induction false} SinceAll(samples: seq<Sample>, from: nat)
    requires forall s | s in samples :: s.at >= from
    ensures Since(samples, from) == samples
  {
    if samples != [] {
      SinceAll(samples[1..], from);
    }
  }

  /** Discarding from the front finds everything that is too old. */
  lemma {:induction false} DropOldIsSince(samples: seq<Sample>, from: nat)
    requires Sorted(samples)
    ensures DropOld(samples, from) == Since(samples, from)
  {
    if samples != [] {
      if samples[0].at < from {
        DropOldIsSince(samples[1..], from);
      } else {
        SinceAll(samples, from);
      }
    }
  }

  /** What an earlier, lower cutoff removed is not missed later. */
  lemma {:induction false} SinceTwice(samples: seq<Sample>, low: nat, high: nat)
    requires low <= high
    ensures Since(Since(samples, low), high) == Since(samples, high)
  {
    if samples != [] {
      SinceTwice(samples[1..], low, high);
    }
  }

  lemma {:induction false} SinceSorted(samples: seq<Sample>, from: nat)
    requires Sorted(samples)
    ensures Sorted(Since(samples, from)) && forall s | s in Since(samples, from) :: s in samples
  {
    if samples != [] {
      SinceSorted(samples[1..], from);
    }
  }

  lemma {:induction false} HistorySorted(events: seq<Event>)
    requires InOrder(events)
    ensures Sorted(History(events))
    ensures forall s | s in History(events) :: exists k :: 0 <= k < |events| && events[k].at == s.at
  {
    if events != [] {
      var init, last := events[..|events| - 1], events[|events| - 1];
      HistorySorted(init);
      forall s | s in History(events)
        ensures exists k :: 0 <= k < |events| && events[k].at == s.at
      {
        if s in History(init) {
          var k :| 0 <= k < |init| && init[k].at == s.at;
          assert events[k].at == s.at;
        } else {
          assert events[|events| - 1].at == s.at;
        }
      }
    }
  }

  function Now(events: seq<Event>): nat {
    if events == [] then 0 else events[|events| - 1].at
  }

  /** The start of the last second. */
  function LowWater(events: seq<Event>): nat {
    Max(Now(events) - WINDOW, 0)
  }

  /** The highest cutoff since the last reset. */
  function Mark(events: seq<Event>): nat {
    if events == [] then 0
    else
      var e := events[|events| - 1];
      if e.Reset? then 0 else Max(Mark(events[..|events| - 1]), Cutoff(e.at))
  }

  lemma RefreshKeeps(h: seq<Sample>, low: nat, high: nat)
    requires Sorted(h)
    ensures DropOld(Since(h, low), high) == Since(h, Max(low, high))
  {
    SinceSorted(h, low);
    DropOldIsSince(Since(h, low), high);
    if low <= high {
      SinceTwice(h, low, high);
    } else {
      SinceIsHigh(h, low);
      SinceAll(Since(h, low), high);
    }
  }

  lemma {:induction false} SinceIsHigh(samples: seq<Sample>, from: nat)
    ensures forall s | s in Since(samples, from) :: s.at >= from
  {
    if samples != [] {
      SinceIsHigh(samples[1..], from);
    }
  }

  lemma RecordKeeps(h: seq<Sample>, sample: Sample, low: nat, high: nat)
    requires Sorted(h + [sample]) && low <= sample.at
    ensures DropOld(Since(h, low) + [sample], high) == Since(h + [sample], Max(low, high))
  {
    SinceAppend(h, [sample], low);
    assert Since([sample], low) == [sample] by {
      SinceAll([sample], low);
    }
    assert Since(h + [sample], low) == Since(h, low) + [sample];
    RefreshKeeps(h + [sample], low, high);
  }

  lemma HistoryIsSorted(events: seq<Event>)
    requires InOrder(events)
    ensures Sorted(History(events))
  {
    HistorySorted(events);
  }

  function Extended(h: seq<Sample>, e: Event): seq<Sample> {
    match e
    case Record(bytes, at) => h + [Sample(at, bytes)]
    case Refresh(_) => h
    case Reset(_) => []
  }

  /** One event keeps the window and the history in agreement. */
  lemma EventKeeps(w: Window, h: seq<Sample>, e: Event, low: nat)
    requires w.samples == Since(h, low) && Sorted(Extended(h, e)) && low <= e.at
    ensures After(w, e).samples == Since(Extended(h, e), if e.Reset? then 0 else Max(low, Cutoff(e.at)))
    ensures After(w, e).interval == Saturated(Total(After(w, e).samples))
  {
    match e
    case Record(bytes, at) => RecordKeeps(h, Sample(at, bytes), low, Cutoff(at));
    case Refresh(at) => RefreshKeeps(h, low, Cutoff(at));
    case Reset(_) =>
  }

  lemma {:induction false} MarkIsPast(events: seq<Event>)
    requires InOrder(events)
    ensures Mark(events) <= Now(events)
  {
    if events != [] {
      MarkIsPast(events[..|events| - 1]);
      if |events| > 1 {
        assert Now(events[..|events| - 1]) == events[|events| - 2].at;
      }
    }
  }

  /** What the window holds. After any sequence of events with non-decreasing times
      it has exactly the samples since the last reset that no cutoff has passed,
      and reports their saturating sum. */
  lemma {:induction false} WindowIsSinceMark(events: seq<Event>)
    requires InOrder(events)
    ensures Run(events).samples == Since(History(events), Mark(events))
    ensures Run(events).interval == Saturated(Total(Since(History(events), Mark(events))))
  {
    hide Since, DropOld;
    if events == [] {
      SinceAll([], 0);
    } else {
      var init := events[..|events| - 1];
      WindowIsSinceMark(init);
      HistoryIsSorted(events);
      MarkIsPast(init);
      assert Now(init) <= events[|events| - 1].at;
      EventKeeps(Run(init), History(init), events[|events| - 1], Mark(init));
    }
  }

  lemma {:induction false} SinceDiffers(h: seq<Sample>, low: nat, high: nat)
    requires low <= high
    ensures |Since(h, high)| <= |Since(h, low)|
    ensures Since(h, low) == Since(h, high) <==> forall s | s in h :: !(low <= s.at < high)
  {
    if h != [] {
      SinceDiffers(h[1..], low, high);
      if h[0].at >= high {
        assert Since(h, low)[1..] == Since(h[1..], low) && Since(h, high)[1..] == Since(h[1..], high);
      }
      assert forall s :: s in h <==> s == h[0] || s in h[1..];
    }
  }

  lemma MarkIsHigh(events: seq<Event>)
    requires events != [] && !events[|events| - 1].Reset?
    ensures LowWater(events) <= Mark(events)
  {
  }

  /** The window agrees with the history of the last second, exactly: it holds the
      samples of the last second since the last reset, although everything older
      was thrown away, if and only if none of them is older than a cutoff that was
      set before the clock had shown one second. */
  lemma WindowIsLastSecond(events: seq<Event>)
    requires InOrder(events)
    ensures Run(events).samples == Since(History(events), LowWater(events))
            <==> forall s | s in History(events) :: !(LowWater(events) <= s.at < Mark(events))
  {
    WindowIsSinceMark(events);
    if events != [] && !events[|events| - 1].Reset? {
      MarkIsHigh(events);
      SinceDiffers(History(events), LowWater(events), Mark(events));
    } else {
      assert History(events) == [];
    }
  }

  /** Once the clock has shown one second before the first event, that is always. */
  lemma {:induction false} MarkAfterFirstSecond(events: seq<Event>)
    requires InOrder(events) && forall e | e in events :: e.at >= WINDOW
    ensures Mark(events) <= LowWater(events)
  {
    if events != [] {
      var init, last := events[..|events| - 1], events[|events| - 1];
      assert last in events && forall e | e in init :: e in events;
      MarkAfterFirstSecond(init);
      if init != [] {
        assert Now(init) == events[|events| - 2].at;
      }
    }
  }

  lemma WindowAfterFirstSecond(events: seq<Event>)
    requires InOrder(events) && forall e | e in events :: e.at >= WINDOW
    ensures Run(events).samples == Since(History(events), LowWater(events))
    ensures Run(events).interval == Saturated(Total(Since(History(events), LowWater(events))))
  {
    hide Since, Run, History;
    MarkAfterFirstSecond(events);
    WindowIsLastSecond(events);
    WindowIsSinceMark(events);
  }

  // ---- the first second of representable time ----

  /** What `Refreshed` keeps is what the last second holds. */
  predicate KeepsLastSecond(samples: seq<Sample>, now: nat) {
    Refreshed(Window(0, samples, None), now).interval == Saturated(Total(Since(samples, Max(now - WINDOW, 0))))
  }

  /** The fallback of the cutoff is exact only outside the first second: for a
      given time, every sample list is summed correctly if and only if that time is
      zero or at least one second after the earliest instant. */
  lemma CutoffExact(now: nat)
    ensures (forall samples: seq<Sample> | Sorted(samples) && (forall s | s in samples :: s.at <= now) ::
               KeepsLastSecond(samples, now))
            <==> now == 0 || now >= WINDOW
  {
    if now == 0 || now >= WINDOW {
      forall samples: seq<Sample> | Sorted(samples) && (forall s | s in samples :: s.at <= now)
        ensures KeepsLastSecond(samples, now)
      {
        DropOldIsSince(samples, Cutoff(now));
      }
    } else {
      var samples := [Sample(0, 1)];
      assert DropOld(samples, now) == [];
      assert Since(samples, 0) == samples && Total(samples) == 1;
      assert !KeepsLastSecond(samples, now);
    }
  }
}
