/** A file as a crash sees it: bytes that are durable, and operations that are
    not. Reads see both; a crash keeps an arbitrary part of what was pending,
    byte by byte; a sync makes everything durable. */
module Disk {
  import opened Bytes
  import opened Basics

  datatype Op = Write(offset: nat, bytes: seq<byte>) | Resize(len: nat)

  datatype File = File(durable: seq<byte>, pending: seq<Op>)

  function Resized(img: seq<byte>, len: nat): (r: seq<byte>)
    ensures |r| == len
  {
    if len <= |img| then img[..len] else img + Zeros(len - |img|)
  }

  function Apply(img: seq<byte>, op: Op): (r: seq<byte>)
    ensures op.Write? && op.offset + |op.bytes| <= |img| ==> |r| == |img|
  {
    match op
    case Write(offset, bytes) =>
      var base := Resized(img, Max(|img|, offset + |bytes|));
      base[..offset] + bytes + base[offset + |bytes|..]
    case Resize(len) => Resized(img, len)
  }

  function ApplyAll(img: seq<byte>, ops: seq<Op>): seq<byte>
    decreases |ops|
  {
    if ops == [] then img else Apply(ApplyAll(img, ops[..|ops| - 1]), ops[|ops| - 1])
  }

  /** What a read sees. */
  function View(f: File): seq<byte> {
    ApplyAll(f.durable, f.pending)
  }

  function Submit(f: File, op: Op): File {
    File(f.durable, f.pending + [op])
  }

  function Synced(f: File): File {
    File(View(f), [])
  }

  /** `img` keeps each byte of `before` or of `after`, and either length. */
  ghost predicate Torn(before: seq<byte>, after: seq<byte>, img: seq<byte>) {
    (|img| == |before| || |img| == |after|)
    && forall p {:trigger img[p]} | 0 <= p < |img| ::
         (p < |before| && img[p] == before[p]) || (p < |after| && img[p] == after[p])
  }

  /** The contents a crash may leave: every pending operation independently
      reaches the disk whole, in part, or not at all. */
  ghost predicate CrashImage(durable: seq<byte>, ops: seq<Op>, img: seq<byte>)
    decreases |ops|
  {
    if ops == [] then img == durable
    else exists base: seq<byte> {:trigger CrashImage(durable, ops[..|ops| - 1], base)} ::
      CrashImage(durable, ops[..|ops| - 1], base) && Torn(base, Apply(base, ops[|ops| - 1]), img)
  }

  /** No operation writes into [a, b) or cuts it off. */
  predicate Spares(op: Op, a: nat, b: nat) {
    match op
    case Write(offset, bytes) => offset + |bytes| <= a || b <= offset
    case Resize(len) => b <= len
  }

  predicate Quiet(ops: seq<Op>, a: nat, b: nat) {
    forall k | 0 <= k < |ops| :: Spares(ops[k], a, b)
  }

  /** No operation changes the length of a file that is `len` bytes long. */
  predicate Within(ops: seq<Op>, len: nat) {
    forall k | 0 <= k < |ops| :: ops[k].Write? && ops[k].offset + |ops[k].bytes| <= len
  }

  lemma ApplySpares(img: seq<byte>, op: Op, a: nat, b: nat)
    requires a <= b <= |img| && Spares(op, a, b)
    ensures b <= |Apply(img, op)| && Apply(img, op)[a..b] == img[a..b]
  {
  }

  lemma TornSpares(before: seq<byte>, after: seq<byte>, img: seq<byte>, a: nat, b: nat)
    requires Torn(before, after, img) && a <= b <= |before| && b <= |after| && before[a..b] == after[a..b]
    ensures b <= |img| && img[a..b] == before[a..b]
  {
    forall p | a <= p < b
      ensures img[p] == before[p]
    {
      assert before[p] == before[a..b][p - a] && after[p] == after[a..b][p - a];
    }
  }

  /** A crash leaves a quiet range as it was. */
  lemma {:induction false} CrashKeepsQuiet(durable: seq<byte>, ops: seq<Op>, img: seq<byte>, a: nat, b: nat)
    requires CrashImage(durable, ops, img) && Quiet(ops, a, b) && a <= b <= |durable|
    ensures b <= |img| && img[a..b] == durable[a..b]
    decreases |ops|
  {
    if ops != [] {
      var init, last := ops[..|ops| - 1], ops[|ops| - 1];
      var base :| CrashImage(durable, init, base) && Torn(base, Apply(base, last), img);
      CrashKeepsQuiet(durable, init, base, a, b);
      ApplySpares(base, last, a, b);
      TornSpares(base, Apply(base, last), img, a, b);
    }
  }

  /** Writes inside the file never change its length, crash or no crash. */
  lemma {:induction false} CrashKeepsLength(durable: seq<byte>, ops: seq<Op>, img: seq<byte>)
    requires CrashImage(durable, ops, img) && Within(ops, |durable|)
    ensures |img| == |durable|
    decreases |ops|
  {
    if ops != [] {
      var init, last := ops[..|ops| - 1], ops[|ops| - 1];
      var base :| CrashImage(durable, init, base) && Torn(base, Apply(base, last), img);
      CrashKeepsLength(durable, init, base);
    }
  }

  /** Losing nothing is one of the outcomes. */
  lemma {:induction false} ViewIsCrashImage(durable: seq<byte>, ops: seq<Op>)
    ensures CrashImage(durable, ops, ApplyAll(durable, ops))
    decreases |ops|
  {
    if ops != [] {
      ViewIsCrashImage(durable, ops[..|ops| - 1]);
    }
  }

  /** Whatever a crash may leave now, it may still leave after one more
      operation: submitting work takes no outcome away. */
  lemma MoreOpsMoreImages(durable: seq<byte>, ops: seq<Op>, op: Op, img: seq<byte>)
    requires CrashImage(durable, ops, img)
    ensures CrashImage(durable, ops + [op], img)
  {
    assert (ops + [op])[..|ops|] == ops;
    assert Torn(img, Apply(img, op), img);
  }

  /** So everything that is pending may be lost, */
  lemma {:induction false} AllMayBeLost(durable: seq<byte>, ops: seq<Op>)
    ensures CrashImage(durable, ops, durable)
    decreases |ops|
  {
    hide CrashImage;
    if ops == [] {
      NothingPendingNothingLost(durable);
    } else {
      var init := ops[..|ops| - 1];
      AllMayBeLost(durable, init);
      MoreOpsMoreImages(durable, init, ops[|ops| - 1], durable);
      assert init + [ops[|ops| - 1]] == ops;
    }
  }

  lemma NothingPendingNothingLost(durable: seq<byte>)
    ensures CrashImage(durable, [], durable)
  {
  }

  /** and of a write any bytes may arrive while the others do not. */
  lemma AnyBytesMayArrive(durable: seq<byte>, offset: nat, bytes: seq<byte>, img: seq<byte>)
    requires offset + |bytes| <= |durable| == |img|
    requires forall p | 0 <= p < |img| ::
               img[p] == durable[p] || (offset <= p < offset + |bytes| && img[p] == bytes[p - offset])
    ensures CrashImage(durable, [Write(offset, bytes)], img)
  {
    hide CrashImage, Apply;
    var op := Write(offset, bytes);
    var after := Apply(durable, op);
    ApplyWrite(durable, offset, bytes);
    assert forall p | offset <= p < offset + |bytes| :: after[p] == bytes[p - offset];
    OneMoreTorn(durable, op, img);
  }

  lemma OneMoreTorn(durable: seq<byte>, op: Op, img: seq<byte>)
    requires Torn(durable, Apply(durable, op), img)
    ensures CrashImage(durable, [op], img)
  {
    hide Torn, Apply;
    assert [op][..0] == [] && CrashImage(durable, [op][..0], durable);
  }

  lemma ViewOfSynced(f: File)
    ensures View(Synced(f)) == View(f)
  {
  }

  lemma ViewAfterSubmit(f: File, op: Op)
    ensures View(Submit(f, op)) == Apply(View(f), op)
  {
    assert (f.pending + [op])[..|f.pending|] == f.pending;
  }

  /** Reads of a quiet range see the durable bytes. */
  lemma ViewOfQuiet(f: File, a: nat, b: nat)
    requires Quiet(f.pending, a, b) && a <= b <= |f.durable|
    ensures b <= |View(f)| && View(f)[a..b] == f.durable[a..b]
  {
    ViewIsCrashImage(f.durable, f.pending);
    CrashKeepsQuiet(f.durable, f.pending, View(f), a, b);
  }

  lemma ViewLength(f: File)
    requires Within(f.pending, |f.durable|)
    ensures |View(f)| == |f.durable|
  {
    ViewIsCrashImage(f.durable, f.pending);
    CrashKeepsLength(f.durable, f.pending, View(f));
  }

  /** A write is read back, and nothing else moves. */
  lemma ApplyWrite(img: seq<byte>, offset: nat, bytes: seq<byte>)
    requires offset + |bytes| <= |img|
    ensures var r := Apply(img, Write(offset, bytes));
            |r| == |img| && r == img[..offset] + bytes + img[offset + |bytes|..]
  {
  }
}
