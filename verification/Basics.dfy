/** Bytes and their numeric value. */
module Bytes {

  type byte = bv8

  function ByteValue(b: byte): (n: nat)
    ensures n < 256
  {
    b as nat
  }

  lemma ByteRoundTrip(n: nat)
    requires n < 256
    ensures ByteValue(n as byte) == n
  {
  }
}

/** Shared vocabulary: failure-compatible results, fixed-width integers and
    the little-endian encoding used by the on-disk format. */
module Basics {

  import opened Bytes

  const U64_LIMIT: nat := 0x1_0000_0000_0000_0000

  type u64 = n: nat | n < 0x1_0000_0000_0000_0000

  type u32 = n: nat | n < 0x1_0000_0000

  datatype Option<+T> = None | Some(value: T)

  /** The error variants of `TakanawaError` that the modelled code returns.
      `Panic` stands for a Rust panic, which unwinds instead of returning. */
  datatype Error =
    | InvalidConfig
    | TargetExists
    | PartSizeMismatch(expected: nat, actual: nat)
    | PartCorrupt
    | RemoteChanged
    | HttpProtocol
    | RetryableHttpStatus
    | Network
    | HashMismatch
    | Cancelled
    | Ffi
    | Io
    | Panic

  datatype Result<+T> = Success(value: T) | Failure(error: Error) {
    predicate IsFailure() { Failure? }

    function PropagateFailure<U>(): Result<U>
      requires Failure?
    {
      Failure(error)
    }

    function Extract(): T
      requires Success?
    {
      value
    }
  }

  /** Only network failures and retryable statuses are worth another attempt. */
  predicate IsRetryable(e: Error) {
    e.Network? || e.RetryableHttpStatus?
  }

  function Min(a: int, b: int): int {
    if a <= b then a else b
  }

  function Max(a: int, b: int): int {
    if a >= b then a else b
  }

  function DivCeil(a: nat, b: nat): nat
    requires b > 0
  {
    (a + b - 1) / b
  }

  function Zeros(n: nat): (s: seq<byte>)
    ensures |s| == n
  {
    seq(n, _ => 0)
  }

  // ---- little-endian integers ----

  function Pow256(n: nat): (p: nat)
    ensures p > 0
  {
    if n == 0 then 1 else 256 * Pow256(n - 1)
  }

  function LittleEndian(v: nat, width: nat): (s: seq<byte>)
    ensures |s| == width
    decreases width, v
  {
    if width == 0 then [] else [(v % 256) as byte] + LittleEndian(v / 256, width - 1)
  }

  function FromLittleEndian(s: seq<byte>): (v: nat)
    ensures v < Pow256(|s|)
  {
    if |s| == 0 then 0 else ByteValue(s[0]) + 256 * FromLittleEndian(s[1..])
  }

  lemma {:induction false} LittleEndianRoundTrip(v: nat, width: nat)
    requires v < Pow256(width)
    ensures FromLittleEndian(LittleEndian(v, width)) == v
    decreases width, v
  {
    if width > 0 {
      ByteRoundTrip(v % 256);
      LittleEndianRoundTrip(v / 256, width - 1);
      assert LittleEndian(v, width)[1..] == LittleEndian(v / 256, width - 1);
    }
  }

  /** The widths the slot codec uses hold the values it stores. */
  lemma FixedWidths()
    ensures Pow256(2) == 0x1_0000
    ensures Pow256(4) == 0x1_0000_0000
    ensures Pow256(8) == U64_LIMIT
  {
    assert Pow256(0) == 1;
    assert Pow256(1) == 256;
    assert Pow256(2) == 0x1_0000;
    assert Pow256(3) == 0x100_0000;
    assert Pow256(4) == 0x1_0000_0000;
    assert Pow256(5) == 0x100_0000_0000;
    assert Pow256(6) == 0x1_0000_0000_0000;
    assert Pow256(7) == 0x100_0000_0000_0000;
  }
}
