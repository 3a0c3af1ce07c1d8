/** Verifying a finished file against an expected digest (`HashVerifier` in
    `hash.rs`). SHA-1 and MD5 are the hashers above; the other digests come from
    other crates and enter as arbitrary functions. */
module Verification {
  import opened Bytes
  import opened Basics
  import opened Metadata
  import SlotReading
  import BlockHash
  import Sha1Standard
  import Md5Standard
  import opened Sha1Hashing
  import opened Md5Hashing

  datatype External = External(crc32: Crc, sha256: seq<byte> -> seq<byte>, sha512: seq<byte> -> seq<byte>)

  function OutsideDigest(ext: External, kind: HashKind, message: seq<byte>): seq<byte> {
    match kind
    case KindSha256 => ext.sha256(message)
    case KindSha512 => ext.sha512(message)
    case KindCrc32 => var v := BlockHash.BigEndian8(ext.crc32(message)); v[4..]
    case _ => []
  }

  /** The number that four bytes stand for, most significant first. */
  function Number32(s: seq<byte>): nat
    requires |s| == 4
  {
    ByteValue(s[0]) * 0x100_0000 + ByteValue(s[1]) * 0x1_0000 + ByteValue(s[2]) * 0x100 + ByteValue(s[3])
  }

  /** What it means that `expected` is the digest of `content`, kind by kind. */
  ghost predicate Matches(ext: External, kind: HashKind, expected: seq<byte>, content: seq<byte>) {
    match kind
    case KindNone => true
    case KindSha256 => ext.sha256(content) == expected
    case KindSha1 => Sha1Standard.Sha1(content) == expected
    case KindSha512 => ext.sha512(content) == expected
    case KindMd5 => Md5Standard.Md5(content) == expected
    case KindCrc32 => |expected| == 4 && Number32(expected) == ext.crc32(content)
  }

  /** The configured check on the content of a download. */
  ghost predicate Accepts(ext: External, config: HashConfig, content: seq<byte>) {
    Matches(ext, config.kind, config.expected, content)
  }

  /** `BigEndian8` writes a number most significant byte first. */
  lemma BigEndianIsNumber(v: u64)
    ensures var s := BlockHash.BigEndian8(v); Number32(s[..4]) * 0x1_0000_0000 + Number32(s[4..]) == v
  {
    hide ByteValue, LittleEndian;
    var le, s := LittleEndian(v, 8), BlockHash.BigEndian8(v);
    FixedWidths();
    LittleEndianRoundTrip(v, 8);
    SlotReading.FromFour(le);
    SlotReading.FromFour(le[4..]);
    assert le[4..][4..] == [];
    assert s[..4] == [le[7], le[6], le[5], le[4]] && s[4..] == [le[3], le[2], le[1], le[0]];
  }

  lemma BytesOfNumber(v: u32)
    ensures var s := BlockHash.BigEndian8(v)[4..];
            |s| == 4 && Number32(s) == v
  {
    hide ByteValue, BlockHash.BigEndian8;
    BigEndianIsNumber(v);
  }

  lemma SameNumber32(s: seq<byte>, t: seq<byte>)
    requires |s| == |t| == 4
    ensures s == t <==> Number32(s) == Number32(t)
  {
    hide ByteValue, Number32;
    if Number32(s) == Number32(t) {
      var x, y := Tail(s), Tail(t);
      SameDigits(x.0, y.0, ByteValue(s[3]), ByteValue(t[3]));
      SameDigits(x.1, y.1, ByteValue(s[2]), ByteValue(t[2]));
      SameDigits(ByteValue(s[0]), ByteValue(t[0]), ByteValue(s[1]), ByteValue(t[1]));
      SameByte(s[0], t[0]);
      SameByte(s[1], t[1]);
      SameByte(s[2], t[2]);
      SameByte(s[3], t[3]);
      assert s == [s[0], s[1], s[2], s[3]] && t == [t[0], t[1], t[2], t[3]];
    }
  }

  /** The number without its last byte, and without its last two. */
  function Tail(s: seq<byte>): (r: (nat, nat))
    requires |s| == 4
    ensures Number32(s) == 0x100 * r.0 + ByteValue(s[3]) && r.0 == 0x100 * r.1 + ByteValue(s[2])
    ensures r.1 == 0x100 * ByteValue(s[0]) + ByteValue(s[1])
  {
    assert Number32(s) == 0x100 * (0x100 * (0x100 * ByteValue(s[0]) + ByteValue(s[1])) + ByteValue(s[2]))
           + ByteValue(s[3]);
    var high := 0x100 * ByteValue(s[0]) + ByteValue(s[1]);
    (0x100 * high + ByteValue(s[2]), high)
  }

  lemma SameDigits(x: nat, y: nat, a: nat, b: nat)
    requires 0x100 * x + a == 0x100 * y + b && a < 0x100 && b < 0x100
    ensures x == y && a == b
  {
  }

  lemma SameByte(a: byte, b: byte)
    requires ByteValue(a) == ByteValue(b)
    ensures a == b
  {
  }

  /** No kind accepts everything: a content passes for one expected digest only. */
  lemma OneDigestPasses(ext: External, kind: HashKind, a: seq<byte>, b: seq<byte>, content: seq<byte>)
    requires kind != KindNone && Matches(ext, kind, a, content) && Matches(ext, kind, b, content)
    ensures a == b
  {
    if kind == KindCrc32 {
      SameNumber32(a, b);
    }
  }

  /** A digest from another crate: it sees the message, slice by slice. */
  class OutsideHasher {
    var message: seq<byte>

    constructor ()
      ensures message == []
    {
      message := [];
    }

    method Update(bytes: seq<byte>)
      modifies this
      ensures message == old(message) + bytes
    {
      message := message + bytes;
    }
  }

  datatype HashVerifier =
    | Sha1Verifier(sha1: Sha1Hasher, expected: seq<byte>)
    | Md5Verifier(md5: Md5Hasher, expected: seq<byte>)
    | OutsideVerifier(kind: HashKind, outside: OutsideHasher, expected: seq<byte>)
  {
    ghost function Repr(): set<object> {
      match this
      case Sha1Verifier(h, _) => {h, h.state, h.buffer}
      case Md5Verifier(h, _) => {h, h.state, h.buffer}
      case OutsideVerifier(_, h, _) => {h}
    }

    ghost predicate Valid()
      reads Repr()
    {
      match this
      case Sha1Verifier(h, _) => h.Valid()
      case Md5Verifier(h, _) => h.Valid()
      case OutsideVerifier(kind, _, _) => kind == KindSha256 || kind == KindSha512 || kind == KindCrc32
    }

    ghost function Message(): seq<byte>
      reads Repr()
    {
      match this
      case Sha1Verifier(h, _) => h.message
      case Md5Verifier(h, _) => h.message
      case OutsideVerifier(_, h, _) => h.message
    }

    ghost function Kind(): HashKind {
      match this
      case Sha1Verifier(_, _) => KindSha1
      case Md5Verifier(_, _) => KindMd5
      case OutsideVerifier(kind, _, _) => kind
    }
  }

  method NewVerifier(config: HashConfig) returns (v: Option<HashVerifier>)
    ensures v.None? <==> config.kind == KindNone
    ensures v.Some? ==> v.value.Valid() && v.value.Message() == [] && fresh(v.value.Repr())
                        && v.value.Kind() == config.kind && v.value.expected == config.expected
  {
    match config.kind
    case KindNone =>
      return None;
    case KindSha1 =>
      var h := new Sha1Hasher();
      return Some(Sha1Verifier(h, config.expected));
    case KindMd5 =>
      var h := new Md5Hasher();
      return Some(Md5Verifier(h, config.expected));
    case _ =>
      var h := new OutsideHasher();
      return Some(OutsideVerifier(config.kind, h, config.expected));
  }

  method UpdateVerifier(v: HashVerifier, bytes: seq<byte>)
    requires v.Valid()
    modifies v.Repr()
    ensures v.Valid() && v.Message() == old(v.Message()) + bytes
  {
    hide Sha1Standard.Absorbed, Md5Standard.Absorbed;
    match v
    case Sha1Verifier(h, _) => h.Update(bytes);
    case Md5Verifier(h, _) => h.Update(bytes);
    case OutsideVerifier(_, h, _) => h.Update(bytes);
  }

  lemma CrcBytes(ext: External, message: seq<byte>, expected: seq<byte>)
    ensures OutsideDigest(ext, KindCrc32, message) == expected
            <==> |expected| == 4 && Number32(expected) == ext.crc32(message)
  {
    BytesOfNumber(ext.crc32(message));
    if |expected| == 4 {
      SameNumber32(expected, OutsideDigest(ext, KindCrc32, message));
    }
  }

  /** True exactly when the digest of everything fed in is the expected one. */
  method FinishVerifier(ext: External, v: HashVerifier) returns (ok: bool)
    requires v.Valid()
    modifies v.Repr()
    ensures ok <==> Matches(ext, v.Kind(), v.expected, old(v.Message()))
  {
    hide Sha1Standard.Absorbed, Md5Standard.Absorbed;
    match v
    case Sha1Verifier(h, expected) =>
      var digest := h.Finalize();
      return digest == expected;
    case Md5Verifier(h, expected) =>
      var digest := h.Finalize();
      return digest == expected;
    case OutsideVerifier(kind, h, expected) =>
      var digest := OutsideDigest(ext, kind, h.message);
      CrcBytes(ext, h.message, expected);
      return digest == expected;
  }
}
