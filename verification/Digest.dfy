/** Block-wise hashing in general: a compression function folded over the 64-byte
    blocks of a padded message. SHA-1 and MD5 differ only in the compression
    function and in the byte order of words. */
module BlockHash {
  import opened Bytes
  import opened Basics

  type Block = b: seq<byte> | |b| == 64 witness Zeros(64)

  type Word = bv32

  /** Folds `f` over the whole blocks of `bytes`; a partial last block is left. */
  function Fold<S>(f: (S, Block) -> S, s: S, bytes: seq<byte>): S
    decreases |bytes|
  {
    if |bytes| < 64 then s else Fold(f, f(s, bytes[..64]), bytes[64..])
  }

  lemma {:induction false} FoldSplit<S>(f: (S, Block) -> S, s: S, a: seq<byte>, b: seq<byte>)
    requires |a| % 64 == 0
    ensures Fold(f, s, a + b) == Fold(f, Fold(f, s, a), b)
    decreases |a|
  {
    if |a| == 0 {
      assert a + b == b;
    } else {
      assert |a| >= 64;
      assert (a + b)[..64] == a[..64] && (a + b)[64..] == a[64..] + b;
      FoldSplit(f, f(s, a[..64]), a[64..], b);
    }
  }

  /** A remainder shorter than a block does not change the fold. */
  lemma FoldDropsRest<S>(f: (S, Block) -> S, s: S, a: seq<byte>, b: seq<byte>)
    requires |a| % 64 == 0 && |b| < 64
    ensures Fold(f, s, a + b) == Fold(f, s, a)
  {
    FoldSplit(f, s, a, b);
  }

  /** A block buffer: the whole blocks of `message` have been folded into
      `state`, and `tail` is what is left over. */
  ghost predicate Buffered<S(!new)>(f: (S, Block) -> S, init: S, message: seq<byte>, state: S, tail: seq<byte>) {
    |tail| == |message| % 64 && state == Fold(f, init, message) && tail == message[|message| - |tail|..]
  }

  lemma AbsorbPart<S(!new)>(f: (S, Block) -> S, init: S, message: seq<byte>, state: S, tail: seq<byte>,
                            bytes: seq<byte>)
    requires Buffered(f, init, message, state, tail) && |tail| + |bytes| < 64
    ensures Buffered(f, init, message + bytes, state, tail + bytes)
  {
    var whole := message[..|message| - |tail|];
    assert message == whole + tail && message + bytes == whole + (tail + bytes);
    FoldDropsRest(f, init, whole, tail);
    FoldDropsRest(f, init, whole, tail + bytes);
  }

  lemma AbsorbBlock<S(!new)>(f: (S, Block) -> S, init: S, message: seq<byte>, state: S, tail: seq<byte>,
                             bytes: seq<byte>)
    requires Buffered(f, init, message, state, tail) && |tail| + |bytes| == 64
    ensures Buffered(f, init, message + bytes, f(state, tail + bytes), [])
  {
    var whole, block := message[..|message| - |tail|], tail + bytes;
    assert message == whole + tail && message + bytes == whole + block;
    FoldDropsRest(f, init, whole, tail);
    FoldSplit(f, init, whole, block);
    assert block[..64] == block && block[64..] == [];
  }

  /** The number of zero bytes after 0x80: the least one that brings the length
      to 56 modulo 64 (section 5.1.1 of FIPS 180-4, section 3.1 of RFC 1321). */
  function ZeroCount(len: nat): (k: nat)
    ensures k < 64 && (len + 1 + k) % 64 == 56
  {
    (55 - len) % 64
  }

  /** The code's padding length: 0x80 and the zeros, from the buffered length. */
  function PadLen(bufferLen: nat): nat
    requires bufferLen < 64
  {
    if bufferLen < 56 then 56 - bufferLen else 120 - bufferLen
  }

  lemma PadLenMeetsStandard(len: nat)
    ensures PadLen(len % 64) == 1 + ZeroCount(len)
  {
  }

  function BitLength(len: nat): u64 {
    len * 8 % U64_LIMIT
  }

  lemma WrappingAdd(len: nat, n: nat)
    ensures (len % U64_LIMIT + n) % U64_LIMIT == (len + n) % U64_LIMIT
  {
  }

  /** The byte counter wraps, and its low 61 bits are all that the length needs. */
  lemma BitLengthWraps(len: nat)
    ensures len % U64_LIMIT * 8 % U64_LIMIT == BitLength(len)
  {
    assert len == len / U64_LIMIT * U64_LIMIT + len % U64_LIMIT;
    assert len * 8 == len / U64_LIMIT * 8 * U64_LIMIT + len % U64_LIMIT * 8;
  }

  /** 0x80 followed by zeros, `n` bytes in all. */
  function PadTo80(n: nat): seq<byte>
    requires n > 0
  {
    [0x80] + Zeros(n - 1)
  }

  /** 0x80, zeros, and the 64-bit bit length in the given byte order. */
  function Padding(len: nat, lengthField: seq<byte>): seq<byte> {
    [0x80] + Zeros(ZeroCount(len)) + lengthField
  }

  function BigEndian8(v: u64): (s: seq<byte>)
    ensures |s| == 8
  {
    var le := LittleEndian(v, 8);
    [le[7], le[6], le[5], le[4], le[3], le[2], le[1], le[0]]
  }

  // ---- words ----

  /** Four bytes as a word, the most significant one first. */
  function Word4(a: byte, b: byte, c: byte, d: byte): Word {
    (a as Word << 24) | (b as Word << 16) | (c as Word << 8) | d as Word
  }

  function WordBE(b: Block, t: nat): Word
    requires t < 16
  {
    Word4(b[4 * t], b[4 * t + 1], b[4 * t + 2], b[4 * t + 3])
  }

  function WordLE(b: Block, t: nat): Word
    requires t < 16
  {
    Word4(b[4 * t + 3], b[4 * t + 2], b[4 * t + 1], b[4 * t])
  }

  /** `wrapping_add`: addition modulo 2^32. */
  function Add(x: Word, y: Word): Word {
    x + y
  }

  function Sum4(a: Word, b: Word, c: Word, d: Word): Word {
    a + b + c + d
  }

  function RotOne(w: Word): Word {
    (w << 1) | (w >> 31)
  }

  /** ROTL^n: n rotations by one bit. */
  function RotL(w: Word, n: nat): Word
    decreases n, w
  {
    if n == 0 then w else RotL(RotOne(w), n - 1)
  }

  function ByteOf(w: Word, shift: nat): byte
    requires shift <= 24
  {
    ((w >> shift) & 0xff) as byte
  }

  function WordBytesBE(w: Word): seq<byte> {
    [ByteOf(w, 24), ByteOf(w, 16), ByteOf(w, 8), ByteOf(w, 0)]
  }

  function WordBytesLE(w: Word): seq<byte> {
    [ByteOf(w, 0), ByteOf(w, 8), ByteOf(w, 16), ByteOf(w, 24)]
  }

  lemma Word4Bytes(a: byte, b: byte, c: byte, d: byte)
    ensures ByteOf(Word4(a, b, c, d), 24) == a && ByteOf(Word4(a, b, c, d), 16) == b
    ensures ByteOf(Word4(a, b, c, d), 8) == c && ByteOf(Word4(a, b, c, d), 0) == d
  {
  }

  /** Writing a word gives back the bytes it was read from. */
  lemma WordsWrittenBack(b: Block, t: nat)
    requires t < 16
    ensures WordBytesBE(WordBE(b, t)) == b[4 * t..4 * t + 4]
    ensures WordBytesLE(WordLE(b, t)) == b[4 * t..4 * t + 4]
  {
    hide Word4, ByteOf;
    Word4Bytes(b[4 * t], b[4 * t + 1], b[4 * t + 2], b[4 * t + 3]);
    Word4Bytes(b[4 * t + 3], b[4 * t + 2], b[4 * t + 1], b[4 * t]);
  }

  /** Adding is counting on, and it wraps: these two leave no other choice. */
  lemma SumsCountOn(x: Word, y: Word)
    ensures Add(x, 0) == x
    ensures Add(x, y + 1) == Add(x, y) + 1
  {
  }

  lemma {:induction false} RotationsAdd(w: Word, m: nat, n: nat)
    ensures RotL(RotL(w, m), n) == RotL(w, m + n)
    decreases m
  {
    hide RotOne;
    if m > 0 {
      RotationsAdd(RotOne(w), m - 1, n);
    }
  }

  lemma EightSteps(w: Word)
    ensures RotOne(RotOne(RotOne(RotOne(RotOne(RotOne(RotOne(RotOne(w)))))))) == (w << 8) | (w >> 24)
  {
  }

  lemma RotateEight(w: Word)
    ensures RotL(w, 8) == RotOne(RotOne(RotOne(RotOne(RotOne(RotOne(RotOne(RotOne(w))))))))
  {
    hide RotOne;
    var a := RotOne(RotOne(w));
    var b := RotOne(RotOne(a));
    var c := RotOne(RotOne(b));
    assert RotL(w, 8) == RotL(RotOne(w), 7) == RotL(a, 6);
    assert RotL(a, 6) == RotL(RotOne(a), 5) == RotL(b, 4);
    assert RotL(b, 4) == RotL(RotOne(b), 3) == RotL(c, 2);
    assert RotL(c, 2) == RotL(RotOne(c), 1) == RotL(RotOne(RotOne(c)), 0);
  }

  lemma ByteMoves(w: Word)
    ensures var r := (w << 8) | (w >> 24);
            ByteOf(r, 24) == ByteOf(w, 16) && ByteOf(r, 16) == ByteOf(w, 8) && ByteOf(r, 8) == ByteOf(w, 0)
            && ByteOf(r, 0) == ByteOf(w, 24)
  {
  }

  /** A rotation by eight bits moves every byte up, and the highest to the bottom. */
  lemma RotateMovesBytes(w: Word)
    ensures WordBytesBE(RotL(w, 8)) == [ByteOf(w, 16), ByteOf(w, 8), ByteOf(w, 0), ByteOf(w, 24)]
  {
    EightSteps(w);
    ByteMoves(w);
    MovedBytes(w, (w << 8) | (w >> 24));
  }

  lemma MovedBytes(w: Word, r: Word)
    requires RotOne(RotOne(RotOne(RotOne(RotOne(RotOne(RotOne(RotOne(w)))))))) == r
    requires ByteOf(r, 24) == ByteOf(w, 16) && ByteOf(r, 16) == ByteOf(w, 8) && ByteOf(r, 8) == ByteOf(w, 0)
             && ByteOf(r, 0) == ByteOf(w, 24)
    ensures WordBytesBE(RotL(w, 8)) == [ByteOf(w, 16), ByteOf(w, 8), ByteOf(w, 0), ByteOf(w, 24)]
  {
    hide RotOne, ByteOf;
    RotateEight(w);
  }
}

/** SHA-1 as sections 4.1.1, 4.2.1, 5.3.1 and 6.1.2 of FIPS 180-4 define it. */
module Sha1Standard {
  import opened Bytes
  import opened Basics
  import opened BlockHash

  type State = s: seq<Word> | |s| == 5 witness [0, 0, 0, 0, 0]

  const INITIAL: State := [0x67452301, 0xefcdab89, 0x98badcfe, 0x10325476, 0xc3d2e1f0]

  function Ch(x: Word, y: Word, z: Word): Word { (x & y) ^ (!x & z) }
  function Parity(x: Word, y: Word, z: Word): Word { x ^ y ^ z }
  function Maj(x: Word, y: Word, z: Word): Word { (x & y) ^ (x & z) ^ (y & z) }

  function F(t: nat, x: Word, y: Word, z: Word): Word {
    if t < 20 then Ch(x, y, z) else if t < 40 then Parity(x, y, z) else if t < 60 then Maj(x, y, z) else Parity(x, y, z)
  }

  function K(t: nat): Word {
    if t < 20 then 0x5a827999 else if t < 40 then 0x6ed9eba1 else if t < 60 then 0x8f1bbcdc else 0xca62c1d6
  }

  function Expand(w3: Word, w8: Word, w14: Word, w16: Word): Word {
    RotL(w3 ^ w8 ^ w14 ^ w16, 1)
  }

  /** The message schedule. */
  ghost function Schedule(block: Block, t: nat): Word
    requires t < 80
    decreases t, block
  {
    if t < 16 then WordBE(block, t)
    else Expand(Schedule(block, t - 3), Schedule(block, t - 8), Schedule(block, t - 14), Schedule(block, t - 16))
  }

  datatype Regs = Regs(a: Word, b: Word, c: Word, d: Word, e: Word)

  /** T = ROTL5(a) + f(b, c, d) + e + K + W, modulo 2^32. */
  function Temp(a: Word, f: Word, e: Word, k: Word, w: Word): Word {
    RotL(a, 5) + f + e + k + w
  }

  function Round(t: nat, w: Word, r: Regs): Regs {
    Regs(Temp(r.a, F(t, r.b, r.c, r.d), r.e, K(t), w), r.a, RotL(r.b, 30), r.c, r.d)
  }

  ghost function Rounds(state: State, block: Block, t: nat): Regs
    requires t <= 80
    decreases t, block
  {
    if t == 0 then Regs(state[0], state[1], state[2], state[3], state[4])
    else Round(t - 1, Schedule(block, t - 1), Rounds(state, block, t - 1))
  }

  ghost function Compress(state: State, block: Block): State {
    var r := Rounds(state, block, 80);
    [Add(state[0], r.a), Add(state[1], r.b), Add(state[2], r.c), Add(state[3], r.d), Add(state[4], r.e)]
  }

  function Output(s: State): seq<byte> {
    WordBytesBE(s[0]) + WordBytesBE(s[1]) + WordBytesBE(s[2]) + WordBytesBE(s[3]) + WordBytesBE(s[4])
  }

  function Pad(len: nat): seq<byte> {
    Padding(len, BigEndian8(BitLength(len)))
  }

  ghost function Sha1(message: seq<byte>): seq<byte> {
    Output(Fold(Compress, INITIAL, message + Pad(|message|)))
  }

  // ---- the streaming view ----

  /** The hasher has seen `message`: whole blocks in `words`, the rest in `tail`. */
  ghost predicate Absorbed(message: seq<byte>, words: seq<Word>, tail: seq<byte>) {
    |words| == 5 && Buffered<State>(Compress, INITIAL, message, words, tail)
  }

  lemma AbsorbedNothing()
    ensures Absorbed([], INITIAL, [])
  {
  }

  lemma AbsorbedTail(message: seq<byte>, words: seq<Word>, tail: seq<byte>)
    requires Absorbed(message, words, tail)
    ensures |tail| == |message| % 64
  {
  }

  lemma AbsorbedPart(message: seq<byte>, words: seq<Word>, tail: seq<byte>, bytes: seq<byte>)
    requires Absorbed(message, words, tail) && |tail| + |bytes| < 64
    ensures Absorbed(message + bytes, words, tail + bytes)
  {
    AbsorbPart<State>(Compress, INITIAL, message, words, tail, bytes);
  }

  lemma AbsorbedBlock(message: seq<byte>, words: seq<Word>, tail: seq<byte>, bytes: seq<byte>)
    requires Absorbed(message, words, tail) && |tail| + |bytes| == 64
    ensures Absorbed(message + bytes, Compress(words, tail + bytes), [])
  {
    AbsorbBlock<State>(Compress, INITIAL, message, words, tail, bytes);
  }

  lemma AbsorbedPadded(message: seq<byte>, words: seq<Word>, tail: seq<byte>)
    requires Absorbed(message + Pad(|message|), words, tail)
    ensures Output(words) == Sha1(message)
  {
  }

  /** The two updates that `finalize` makes append exactly the padding. */
  lemma PadSplits(len: nat)
    ensures PadTo80(PadLen(len % 64)) + BigEndian8(len % U64_LIMIT * 8 % U64_LIMIT) == Pad(len)
  {
    PadLenMeetsStandard(len);
    BitLengthWraps(len);
  }
}

/** MD5 as sections 3.1 to 3.5 of RFC 1321 define it. */
module Md5Standard {
  import opened Bytes
  import opened Basics
  import opened BlockHash

  type State = s: seq<Word> | |s| == 4 witness [0, 0, 0, 0]

  const INITIAL: State := [0x67452301, 0xefcdab89, 0x98badcfe, 0x10325476]

  function F(x: Word, y: Word, z: Word): Word { (x & y) | (!x & z) }
  function G(x: Word, y: Word, z: Word): Word { (x & z) | (y & !z) }
  function H(x: Word, y: Word, z: Word): Word { x ^ y ^ z }
  function I(x: Word, y: Word, z: Word): Word { y ^ (x | !z) }

  function Mix(i: nat, x: Word, y: Word, z: Word): Word {
    if i < 16 then F(x, y, z) else if i < 32 then G(x, y, z) else if i < 48 then H(x, y, z) else I(x, y, z)
  }

  type WordIndex = n: nat | n < 16

  /** The word each of the 64 operations reads, one row a round. */
  const SOURCE: seq<seq<WordIndex>> := [
    [0, 1, 2, 3, 4, 5, 6, 7, 8, 9, 10, 11, 12, 13, 14, 15],
    [1, 6, 11, 0, 5, 10, 15, 4, 9, 14, 3, 8, 13, 2, 7, 12],
    [5, 8, 11, 14, 1, 4, 7, 10, 13, 0, 3, 6, 9, 12, 15, 2],
    [0, 7, 14, 5, 12, 3, 10, 1, 8, 15, 6, 13, 4, 11, 2, 9]]

  function Source(i: nat): WordIndex
    requires i < 64
  {
    SOURCE[i / 16][i % 16]
  }

  /** The four shift amounts of each round, used in turn. */
  function Shift(i: nat): nat
    requires i < 64
  {
    [[7, 12, 17, 22], [5, 9, 14, 20], [4, 11, 16, 23], [6, 10, 15, 21]][i / 16][i % 4]
  }

  /** T[1..64]: the integer parts of 2^32 times abs(sin(i)). */
  const T: seq<Word> := [
    0xd76aa478, 0xe8c7b756, 0x242070db, 0xc1bdceee, 0xf57c0faf, 0x4787c62a, 0xa8304613, 0xfd469501,
    0x698098d8, 0x8b44f7af, 0xffff5bb1, 0x895cd7be, 0x6b901122, 0xfd987193, 0xa679438e, 0x49b40821,
    0xf61e2562, 0xc040b340, 0x265e5a51, 0xe9b6c7aa, 0xd62f105d, 0x02441453, 0xd8a1e681, 0xe7d3fbc8,
    0x21e1cde6, 0xc33707d6, 0xf4d50d87, 0x455a14ed, 0xa9e3e905, 0xfcefa3f8, 0x676f02d9, 0x8d2a4c8a,
    0xfffa3942, 0x8771f681, 0x6d9d6122, 0xfde5380c, 0xa4beea44, 0x4bdecfa9, 0xf6bb4b60, 0xbebfbc70,
    0x289b7ec6, 0xeaa127fa, 0xd4ef3085, 0x04881d05, 0xd9d4d039, 0xe6db99e5, 0x1fa27cf8, 0xc4ac5665,
    0xf4292244, 0x432aff97, 0xab9423a7, 0xfc93a039, 0x655b59c3, 0x8f0ccc92, 0xffeff47d, 0x85845dd1,
    0x6fa87e4f, 0xfe2ce6e0, 0xa3014314, 0x4e0811a1, 0xf7537e82, 0xbd3af235, 0x2ad7d2bb, 0xeb86d391]

  /** The register that operation `i` assigns: A, D, C, B, A, D, ... */
  function Register(i: nat): nat {
    (64 - i % 4) % 4
  }

  /** b + ((a + f + x + t) <<< s), modulo 2^32. */
  function Turn(a: Word, b: Word, f: Word, x: Word, t: Word, s: nat): Word {
    Add(b, RotL(Sum4(a, f, x, t), s))
  }

  /** One operation `[abcd k s i]`: a = b + ((a + f(b,c,d) + X[k] + T[i]) <<< s),
      where a, b, c, d name the registers starting at `Register(i)`. */
  function Operation(i: nat, block: Block, regs: State): State
    requires i < 64
  {
    var p := Register(i);
    var a, b, c, d := regs[p], regs[(p + 1) % 4], regs[(p + 2) % 4], regs[(p + 3) % 4];
    regs[p := Turn(a, b, Mix(i, b, c, d), WordLE(block, Source(i)), T[i], Shift(i))]
  }

  ghost function Operations(state: State, block: Block, i: nat): State
    requires i <= 64
    decreases i, block
  {
    if i == 0 then state else Operation(i - 1, block, Operations(state, block, i - 1))
  }

  ghost function Compress(state: State, block: Block): State {
    var r := Operations(state, block, 64);
    [Add(state[0], r[0]), Add(state[1], r[1]), Add(state[2], r[2]), Add(state[3], r[3])]
  }

  function Output(s: State): seq<byte> {
    WordBytesLE(s[0]) + WordBytesLE(s[1]) + WordBytesLE(s[2]) + WordBytesLE(s[3])
  }

  function Pad(len: nat): seq<byte> {
    Padding(len, LittleEndian(BitLength(len), 8))
  }

  ghost function Md5(message: seq<byte>): seq<byte> {
    Output(Fold(Compress, INITIAL, message + Pad(|message|)))
  }

  // ---- the streaming view ----

  /** The hasher has seen `message`: whole blocks in `words`, the rest in `tail`. */
  ghost predicate Absorbed(message: seq<byte>, words: seq<Word>, tail: seq<byte>) {
    |words| == 4 && Buffered<State>(Compress, INITIAL, message, words, tail)
  }

  lemma AbsorbedNothing()
    ensures Absorbed([], INITIAL, [])
  {
  }

  lemma AbsorbedTail(message: seq<byte>, words: seq<Word>, tail: seq<byte>)
    requires Absorbed(message, words, tail)
    ensures |tail| == |message| % 64
  {
  }

  lemma AbsorbedPart(message: seq<byte>, words: seq<Word>, tail: seq<byte>, bytes: seq<byte>)
    requires Absorbed(message, words, tail) && |tail| + |bytes| < 64
    ensures Absorbed(message + bytes, words, tail + bytes)
  {
    AbsorbPart<State>(Compress, INITIAL, message, words, tail, bytes);
  }

  lemma AbsorbedBlock(message: seq<byte>, words: seq<Word>, tail: seq<byte>, bytes: seq<byte>)
    requires Absorbed(message, words, tail) && |tail| + |bytes| == 64
    ensures Absorbed(message + bytes, Compress(words, tail + bytes), [])
  {
    AbsorbBlock<State>(Compress, INITIAL, message, words, tail, bytes);
  }

  lemma AbsorbedPadded(message: seq<byte>, words: seq<Word>, tail: seq<byte>)
    requires Absorbed(message + Pad(|message|), words, tail)
    ensures Output(words) == Md5(message)
  {
  }

  /** The two updates that `finalize` makes append exactly the padding. */
  lemma PadSplits(len: nat)
    ensures PadTo80(PadLen(len % 64)) + LittleEndian(len % U64_LIMIT * 8 % U64_LIMIT, 8) == Pad(len)
  {
    PadLenMeetsStandard(len);
    BitLengthWraps(len);
  }
}
