/** The bandwidth limiter (`BandwidthLimiter` in `downloader.rs`): every fragment
    reserves the line for as long as it takes at the configured rate. Times are
    in nanoseconds on an unbounded clock. */
module Bandwidth {
  import opened Basics
  import opened ChunkLayout

  const SECOND: nat := 1_000_000_000
  const U64_MAX: nat := U64_LIMIT - 1

  /** How long `bytes` occupy the line at `rate` bytes per second, clamped to 64
      bits. The product fits the 128 bits it is computed in. */
  function Occupied(bytes: u64, rate: u64): (d: u64)
    requires rate > 0
    ensures bytes * SECOND < U64_LIMIT * U64_LIMIT
  {
    var nanos := DivCeil(bytes * SECOND, rate);
    if nanos > U64_MAX then U64_MAX else nanos
  }

  predicate Clamped(bytes: u64, rate: u64)
    requires rate > 0
  {
    DivCeil(bytes * SECOND, rate) > U64_MAX
  }

  /** One call of `throttle` that has something to reserve. The calls are in the
      order in which they took the lock; `now` was read before that. */
  datatype Call = Call(bytes: u64, now: nat)

  function Start(nextAvailable: nat, now: nat): nat {
    Max(nextAvailable, now)
  }

  /** When the line becomes free after the first `k` calls. */
  function Free(rate: u64, first: nat, calls: seq<Call>, k: nat): nat
    requires rate > 0 && k <= |calls|
    decreases k, 0
  {
    if k == 0 then first else StartOf(rate, first, calls, k - 1) + Occupied(calls[k - 1].bytes, rate)
  }

  /** When call `k` may go on. */
  function StartOf(rate: u64, first: nat, calls: seq<Call>, k: nat): nat
    requires rate > 0 && k < |calls|
    decreases k, 1
  {
    Start(Free(rate, first, calls, k), calls[k].now)
  }

  /** The bytes of the calls in [i, j). */
  function Bytes(calls: seq<Call>, i: nat, j: nat): nat
    requires i <= j <= |calls|
    decreases j
  {
    if i == j then 0 else Bytes(calls, i, j - 1) + calls[j - 1].bytes
  }

  /** Reservations never overlap, and they follow the order of the lock. */
  lemma {:induction false} ReservationsAreDisjoint(rate: u64, first: nat, calls: seq<Call>, i: nat, j: nat)
    requires rate > 0 && i < j < |calls|
    ensures StartOf(rate, first, calls, i) + Occupied(calls[i].bytes, rate) <= StartOf(rate, first, calls, j)
    decreases j
  {
    if i < j - 1 {
      ReservationsAreDisjoint(rate, first, calls, i, j - 1);
    }
  }

  /** A reservation is long enough for its bytes exactly if it was not clamped. */
  lemma LongEnoughUnlessClamped(bytes: u64, rate: u64)
    requires rate > 0
    ensures bytes * SECOND <= rate * Occupied(bytes, rate) <==> !Clamped(bytes, rate)
  {
    var n := bytes * SECOND;
    DivCeilBound(n, rate);
    if Clamped(bytes, rate) {
      MulMonotone(U64_MAX, DivCeil(n, rate) - 1, rate);
      assert (DivCeil(n, rate) - 1) * rate == DivCeil(n, rate) * rate - rate;
    }
  }

  /** And no longer than its bytes need: one nanosecond less would be too short. */
  lemma NoLongerThanNeeded(bytes: u64, rate: u64)
    requires rate > 0
    ensures Occupied(bytes, rate) > 0 ==> rate * (Occupied(bytes, rate) - 1) < bytes * SECOND
    ensures Clamped(bytes, rate) ==> Occupied(bytes, rate) == U64_MAX && rate * U64_MAX < bytes * SECOND
  {
    var n, d := bytes * SECOND, DivCeil(bytes * SECOND, rate);
    DivCeilBound(n, rate);
    if d > 0 {
      assert (d - 1) * rate == d * rate - rate;
      MulMonotone(Min(d, U64_MAX) - 1, d - 1, rate);
      if Clamped(bytes, rate) {
        MulMonotone(U64_MAX, d - 1, rate);
      }
    }
  }

  /** The line is never kept idle: a call starts when it asks, or as soon as the
      reservation before it ends, whichever is later. */
  lemma StartsAtOnce(rate: u64, first: nat, calls: seq<Call>, j: nat)
    requires rate > 0 && j < |calls|
    ensures var start := StartOf(rate, first, calls, j);
            start >= calls[j].now
            && (start == calls[j].now
                || (j == 0 && start == first)
                || (j > 0 && start == StartOf(rate, first, calls, j - 1) + Occupied(calls[j - 1].bytes, rate)))
  {
  }

  /** Rate bound: as long as nothing is clamped, the bytes of all calls from the
      i-th to before the j-th took their time on the line before the j-th starts. */
  lemma {:induction false} RateBound(rate: u64, first: nat, calls: seq<Call>, i: nat, j: nat)
    requires rate > 0 && i <= j < |calls|
    requires forall k | i <= k < j :: !Clamped(calls[k].bytes, rate)
    ensures StartOf(rate, first, calls, i) <= StartOf(rate, first, calls, j)
    ensures Bytes(calls, i, j) * SECOND <= rate * (StartOf(rate, first, calls, j) - StartOf(rate, first, calls, i))
    decreases j
  {
    hide Occupied, StartOf, Clamped;
    if i < j {
      RateBound(rate, first, calls, i, j - 1);
      ReservationsAreDisjoint(rate, first, calls, j - 1, j);
      LongEnoughUnlessClamped(calls[j - 1].bytes, rate);
      AddFragment(rate, Bytes(calls, i, j - 1), calls[j - 1].bytes, StartOf(rate, first, calls, i),
                  StartOf(rate, first, calls, j - 1),
                  Occupied(calls[j - 1].bytes, rate), StartOf(rate, first, calls, j));
    }
  }

  lemma AddFragment(rate: nat, before: nat, bytes: nat, a: nat, b: nat, d: nat, c: nat)
    requires before * SECOND <= rate * (b - a) && bytes * SECOND <= rate * d && a <= b && b + d <= c
    ensures (before + bytes) * SECOND <= rate * (c - a)
  {
    Distribute(rate, b - a, d);
    MulMonotone(b - a + d, c - a, rate);
    Distribute(rate, c - a, 0);
  }

  lemma Distribute(rate: nat, x: nat, y: nat)
    ensures rate * x + rate * y == rate * (x + y)
    ensures rate * (x + y) == (x + y) * rate
  {
  }

  /** In any stretch of time the line exceeds its rate by at most one fragment. */
  lemma WindowBound(rate: u64, first: nat, calls: seq<Call>, i: nat, j: nat, length: nat)
    requires rate > 0 && i <= j < |calls|
    requires forall k | i <= k < j :: !Clamped(calls[k].bytes, rate)
    requires StartOf(rate, first, calls, j) <= StartOf(rate, first, calls, i) + length
    ensures Bytes(calls, i, j + 1) * SECOND <= rate * length + calls[j].bytes * SECOND
  {
    RateBound(rate, first, calls, i, j);
    var d := StartOf(rate, first, calls, j) - StartOf(rate, first, calls, i);
    MulMonotone(d, length, rate);
    Distribute(rate, d, 0);
    Distribute(rate, length, 0);
    assert Bytes(calls, i, j + 1) * SECOND == Bytes(calls, i, j) * SECOND + calls[j].bytes * SECOND;
  }

  // ---- the object ----

  lemma {:induction false} FreePrefix(rate: u64, first: nat, calls: seq<Call>, c: Call, k: nat)
    requires rate > 0 && k <= |calls|
    ensures Free(rate, first, calls + [c], k) == Free(rate, first, calls, k)
    decreases k
  {
    if k > 0 {
      FreePrefix(rate, first, calls, c, k - 1);
    }
  }

  class BandwidthLimiter {
    const bytesPerSecond: u64
    var nextAvailable: nat
    ghost const first: nat
    ghost var calls: seq<Call>

    ghost predicate Valid()
      reads this
    {
      bytesPerSecond > 0 ==> nextAvailable == Free(bytesPerSecond, first, calls, |calls|)
    }

    constructor (rate: u64, now: nat)
      ensures Valid() && bytesPerSecond == rate && calls == []
    {
      bytesPerSecond, nextAvailable, first, calls := rate, now, now, [];
    }

    /** Reserves the line and says when the caller may go on. */
    method Throttle(bytes: u64, now: nat) returns (waitUntil: nat)
      requires Valid()
      modifies this
      ensures Valid() && waitUntil >= now
      ensures bytesPerSecond == 0 || bytes == 0 ==>
                calls == old(calls) && nextAvailable == old(nextAvailable) && waitUntil == now
      ensures bytesPerSecond > 0 && bytes > 0 ==>
                calls == old(calls) + [Call(bytes, now)]
                && waitUntil == StartOf(bytesPerSecond, first, calls, |calls| - 1)
    {
      if bytesPerSecond == 0 || bytes == 0 {
        return now;
      }
      FreePrefix(bytesPerSecond, first, calls, Call(bytes, now), |calls|);
      calls := calls + [Call(bytes, now)];
      waitUntil := Max(nextAvailable, now);
      nextAvailable := waitUntil + Occupied(bytes, bytesPerSecond);
    }
  }
}
