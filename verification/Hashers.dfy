/** The hand-written streaming hashers (`hash.rs`): block-buffered, in place. */
module Sha1Stream {
  import opened Bytes
  import opened Basics
  import opened BlockHash
  import opened Sha1Standard

  /** The OR forms in the code agree with the XOR forms of the standard. */
  lemma OrForms(b: Word, c: Word, d: Word)
    ensures (b & c) | (!b & d) == Ch(b, c, d)
    ensures (b & c) | (b & d) | (c & d) == Maj(b, c, d)
  {
  }

  /** The function value and constant of round `i`, as the code selects them. */
  function RoundTerm(i: nat, b: Word, c: Word, d: Word): (Word, Word) {
    if i <= 19 then ((b & c) | (!b & d), 0x5a827999)
    else if i <= 39 then (b ^ c ^ d, 0x6ed9eba1)
    else if i <= 59 then ((b & c) | (b & d) | (c & d), 0x8f1bbcdc)
    else (b ^ c ^ d, 0xca62c1d6)
  }

  lemma RoundTermMeetsStandard(i: nat, b: Word, c: Word, d: Word)
    ensures RoundTerm(i, b, c, d) == (F(i, b, c, d), K(i))
  {
    OrForms(b, c, d);
  }

  /** The word that the code puts into the schedule, and the sum it forms. */
  function NextWord(w3: Word, w8: Word, w14: Word, w16: Word): Word {
    RotL(w3 ^ w8 ^ w14 ^ w16, 1)
  }

  function RoundSum(a: Word, f: Word, e: Word, k: Word, w: Word): Word {
    RotL(a, 5) + f + e + k + w
  }

  lemma NextWordMeetsStandard(w3: Word, w8: Word, w14: Word, w16: Word)
    ensures NextWord(w3, w8, w14, w16) == Expand(w3, w8, w14, w16)
  {
  }

  lemma RoundSumMeetsStandard(a: Word, f: Word, e: Word, k: Word, w: Word)
    ensures RoundSum(a, f, e, k, w) == Temp(a, f, e, k, w)
  {
  }

  method Sha1Schedule(block: Block) returns (words: seq<Word>)
    ensures |words| == 80
    ensures forall t | 0 <= t < 80 :: words[t] == Schedule(block, t)
  {
    hide Expand, NextWord;
    var w := new Word[80];
    for i := 0 to 16
      invariant forall k | 0 <= k < i :: w[k] == Schedule(block, k)
    {
      w[i] := WordBE(block, i);
    }
    for i := 16 to 80
      invariant forall k | 0 <= k < i :: w[k] == Schedule(block, k)
    {
      NextWordMeetsStandard(w[i - 3], w[i - 8], w[i - 14], w[i - 16]);
      w[i] := NextWord(w[i - 3], w[i - 8], w[i - 14], w[i - 16]);
    }
    return w[..];
  }

  /** One round over the five working variables. */
  method Sha1Round(i: nat, wi: Word, a: Word, b: Word, c: Word, d: Word, e: Word)
    returns (a': Word, b': Word, c': Word, d': Word, e': Word)
    ensures Regs(a', b', c', d', e') == Round(i, wi, Regs(a, b, c, d, e))
  {
    hide Temp, RoundSum, RoundTerm, F, K;
    var term := RoundTerm(i, b, c, d);
    RoundTermMeetsStandard(i, b, c, d);
    var temp := RoundSum(a, term.0, e, term.1, wi);
    RoundSumMeetsStandard(a, term.0, e, term.1, wi);
    return temp, a, RotL(b, 30), c, d;
  }

  /** One block, in place: the 80-word schedule, then 80 rounds over five
      rotating variables. */
  method Sha1Compress(state: array<Word>, block: Block)
    requires state.Length == 5
    modifies state
    ensures state[..] == Compress(old(state[..]), block)
  {
    var w := Sha1Schedule(block);
    ghost var start: State := state[..];
    var a, b, c, d, e := state[0], state[1], state[2], state[3], state[4];
    for i := 0 to 80
      invariant state[..] == start
      invariant Regs(a, b, c, d, e) == Rounds(start, block, i)
    {
      a, b, c, d, e := Sha1Round(i, w[i], a, b, c, d, e);
    }
    state[0] := Add(state[0], a);
    state[1] := Add(state[1], b);
    state[2] := Add(state[2], c);
    state[3] := Add(state[3], d);
    state[4] := Add(state[4], e);
  }
}

module Md5Stream {
  import opened Bytes
  import opened Basics
  import opened BlockHash
  import opened Md5Standard

  const MD5_S: seq<seq<nat>> := [
    [7, 12, 17, 22, 7, 12, 17, 22, 7, 12, 17, 22, 7, 12, 17, 22],
    [5, 9, 14, 20, 5, 9, 14, 20, 5, 9, 14, 20, 5, 9, 14, 20],
    [4, 11, 16, 23, 4, 11, 16, 23, 4, 11, 16, 23, 4, 11, 16, 23],
    [6, 10, 15, 21, 6, 10, 15, 21, 6, 10, 15, 21, 6, 10, 15, 21]]

  const MD5_K: seq<Word> := [
    0xd76aa478, 0xe8c7b756, 0x242070db, 0xc1bdceee, 0xf57c0faf, 0x4787c62a, 0xa8304613, 0xfd469501,
    0x698098d8, 0x8b44f7af, 0xffff5bb1, 0x895cd7be, 0x6b901122, 0xfd987193, 0xa679438e, 0x49b40821,
    0xf61e2562, 0xc040b340, 0x265e5a51, 0xe9b6c7aa, 0xd62f105d, 0x02441453, 0xd8a1e681, 0xe7d3fbc8,
    0x21e1cde6, 0xc33707d6, 0xf4d50d87, 0x455a14ed, 0xa9e3e905, 0xfcefa3f8, 0x676f02d9, 0x8d2a4c8a,
    0xfffa3942, 0x8771f681, 0x6d9d6122, 0xfde5380c, 0xa4beea44, 0x4bdecfa9, 0xf6bb4b60, 0xbebfbc70,
    0x289b7ec6, 0xeaa127fa, 0xd4ef3085, 0x04881d05, 0xd9d4d039, 0xe6db99e5, 0x1fa27cf8, 0xc4ac5665,
    0xf4292244, 0x432aff97, 0xab9423a7, 0xfc93a039, 0x655b59c3, 0x8f0ccc92, 0xffeff47d, 0x85845dd1,
    0x6fa87e4f, 0xfe2ce6e0, 0xa3014314, 0x4e0811a1, 0xf7537e82, 0xbd3af235, 0x2ad7d2bb, 0xeb86d391]

  lemma ConstantsMeetStandard()
    ensures MD5_K == T
  {
  }

  /** The word that step `i` reads, as the code computes it. */
  function Select(i: nat): WordIndex
    requires i < 64
  {
    if i <= 15 then i else if i <= 31 then (5 * i + 1) % 16 else if i <= 47 then (3 * i + 5) % 16 else 7 * i % 16
  }

  /** The function value of step `i`, as the code computes it. */
  function StepTerm(i: nat, b: Word, c: Word, d: Word): Word
    requires i < 64
  {
    if i <= 15 then (b & c) | (!b & d)
    else if i <= 31 then (d & b) | (!d & c)
    else if i <= 47 then b ^ c ^ d
    else c ^ (b | !d)
  }

  lemma SelectSecond(j: nat)
    requires j < 16
    ensures (5 * (j + 16) + 1) % 16 == SOURCE[1][j]
  {
    assert 5 * (j + 16) + 1 == 5 * j + 1 + 16 * 5;
  }

  lemma SelectThird(j: nat)
    requires j < 16
    ensures (3 * (j + 32) + 5) % 16 == SOURCE[2][j]
  {
    assert 3 * (j + 32) + 5 == 3 * j + 5 + 16 * 6;
  }

  lemma SelectFourth(j: nat)
    requires j < 16
    ensures 7 * (j + 48) % 16 == SOURCE[3][j]
  {
    assert 7 * (j + 48) == 7 * j + 16 * 21;
  }

  /** The index formulas of the code produce the table of the standard. */
  lemma SelectMeetsStandard(i: nat)
    requires i < 64
    ensures Select(i) == Source(i)
  {
    if i >= 48 {
      SelectFourth(i - 48);
    } else if i >= 32 {
      SelectThird(i - 32);
    } else if i >= 16 {
      SelectSecond(i - 16);
    }
  }

  lemma ShiftRow(i: nat)
    requires i < 64
    ensures MD5_S[i / 16][i % 16] == Shift(i)
  {
    assert i % 4 == i % 16 % 4;
  }

  lemma StepTermMeetsStandard(i: nat, b: Word, c: Word, d: Word)
    requires i < 64
    ensures StepTerm(i, b, c, d) == Mix(i, b, c, d)
  {
    if 16 <= i <= 31 {
      OrCommutes(b, c, d);
    }
  }

  lemma OrCommutes(b: Word, c: Word, d: Word)
    ensures (d & b) | (!d & c) == (b & d) | (c & !d)
  {
  }

  /** What the code adds up, in its order. */
  function StepSum(a: Word, f: Word, t: Word, x: Word): Word {
    a + f + t + x
  }

  lemma SumReorders(a: Word, f: Word, t: Word, x: Word)
    ensures StepSum(a, f, t, x) == Sum4(a, f, x, t)
  {
  }

  /** The code adds the constant before the message word. */
  lemma TurnReorders(a: Word, b: Word, f: Word, x: Word, t: Word, s: nat)
    ensures Add(b, RotL(StepSum(a, f, t, x), s)) == Turn(a, b, f, x, t, s)
  {
    SumReorders(a, f, t, x);
  }

  /** The registers in the order of their roles in operation `i`. */
  function Roles(regs: State, i: nat): State {
    var p := Register(i);
    [regs[p], regs[(p + 1) % 4], regs[(p + 2) % 4], regs[(p + 3) % 4]]
  }

  /** Assigning role a and moving on by one operation rotates the roles. */
  lemma RolesRotate(regs: State, i: nat, v: Word)
    ensures Roles(regs[Register(i) := v], i + 1) == [Roles(regs, i)[3], v, Roles(regs, i)[1], Roles(regs, i)[2]]
  {
    assert i % 4 < 3 ==> (i + 1) % 4 == i % 4 + 1;
    assert i % 4 == 3 ==> (i + 1) % 4 == 0;
    assert i % 4 == 0 || i % 4 == 1 || i % 4 == 2 || i % 4 == 3;
  }

  lemma RolesAtStart(start: State, block: Block)
    ensures Roles(Operations(start, block, 0), 0) == start
  {
  }

  lemma RolesAtEnd(regs: State)
    ensures Roles(regs, 64) == regs
  {
  }

  method Md5Step(i: nat, a: Word, b: Word, f: Word, x: Word) returns (sum: Word)
    requires i < 64
    ensures sum == Turn(a, b, f, x, T[i], Shift(i))
  {
    ShiftRow(i);
    TurnReorders(a, b, f, x, T[i], Shift(i));
    ConstantsMeetStandard();
    return Add(b, RotL(StepSum(a, f, MD5_K[i], x), MD5_S[i / 16][i % 16]));
  }

  /** One step over the four rotating variables. */
  method Md5Round(i: nat, ghost block: Block, m: seq<Word>, ghost start: State, a: Word, b: Word, c: Word, d: Word)
    returns (a': Word, b': Word, c': Word, d': Word)
    requires i < 64 && |m| == 16 && forall t | 0 <= t < 16 :: m[t] == WordLE(block, t)
    requires Roles(Operations(start, block, i), i) == [a, b, c, d]
    ensures Roles(Operations(start, block, i + 1), i + 1) == [a', b', c', d']
  {
    var f, g := StepTerm(i, b, c, d), Select(i);
    StepTermMeetsStandard(i, b, c, d);
    SelectMeetsStandard(i);
    var sum := Md5Step(i, a, b, f, m[g]);
    RolesRotate(Operations(start, block, i), i, sum);
    return d, sum, b, c;
  }

  method Md5Words(block: Block) returns (words: seq<Word>)
    ensures |words| == 16
    ensures forall t | 0 <= t < 16 :: words[t] == WordLE(block, t)
  {
    var m := new Word[16];
    for i := 0 to 16
      invariant forall k | 0 <= k < i :: m[k] == WordLE(block, k)
    {
      m[i] := WordLE(block, i);
    }
    return m[..];
  }

  method Md5Rounds(block: Block, m: seq<Word>, start: State) returns (r: State)
    requires |m| == 16 && forall t | 0 <= t < 16 :: m[t] == WordLE(block, t)
    ensures r == Operations(start, block, 64)
  {
    hide Operations, Roles;
    var a, b, c, d := start[0], start[1], start[2], start[3];
    RolesAtStart(start, block);
    for i := 0 to 64
      invariant Roles(Operations(start, block, i), i) == [a, b, c, d]
    {
      a, b, c, d := Md5Round(i, block, m, start, a, b, c, d);
    }
    RolesAtEnd(Operations(start, block, 64));
    return [a, b, c, d];
  }

  /** One block, in place. The code rotates four variables through one role;
      the standard rotates the roles over four registers. */
  method Md5Compress(state: array<Word>, block: Block)
    requires state.Length == 4
    modifies state
    ensures state[..] == Compress(old(state[..]), block)
  {
    hide Operations, Add;
    var m := Md5Words(block);
    var r := Md5Rounds(block, m, state[..]);
    state[0] := Add(state[0], r[0]);
    state[1] := Add(state[1], r[1]);
    state[2] := Add(state[2], r[2]);
    state[3] := Add(state[3], r[3]);
  }
}

/** Sha1 over a stream of slices. */
module Sha1Hashing {
  import opened Bytes
  import opened Basics
  import opened BlockHash
  import opened Sha1Standard
  import opened Sha1Stream

  /** The bytes of the first `n` words. */
  ghost function WordsUpTo(words: State, n: nat): seq<byte>
    requires n <= 5
  {
    if n == 0 then [] else WordsUpTo(words, n - 1) + WordBytesBE(words[n - 1])
  }

  lemma AllWords(words: State)
    ensures WordsUpTo(words, 5) == Output(words)
  {
    hide ByteOf;
    assert WordsUpTo(words, 1) == WordBytesBE(words[0]);
    assert WordsUpTo(words, 2) == WordBytesBE(words[0]) + WordBytesBE(words[1]);
    assert WordsUpTo(words, 3) == WordsUpTo(words, 2) + WordBytesBE(words[2]);
    assert WordsUpTo(words, 4) == WordsUpTo(words, 3) + WordBytesBE(words[3]);
  }

  class Sha1Hasher {
    const state: array<Word>
    var len: u64
    const buffer: array<byte>
    var bufferLen: nat
    /** Everything passed to `Update` so far. */
    ghost var message: seq<byte>

    ghost predicate Buffering()
      reads this, state, buffer
    {
      state.Length == 5 && buffer.Length == 64 && bufferLen < 64 && state as object != buffer
      && Absorbed(message, state[..], buffer[..bufferLen])
    }

    ghost predicate Valid()
      reads this, state, buffer
    {
      Buffering() && len == |message| % U64_LIMIT
    }

    constructor ()
      ensures Valid() && message == [] && fresh(state) && fresh(buffer)
    {
      hide Absorbed, Compress;
      state := new Word[5] [0x67452301, 0xefcdab89, 0x98badcfe, 0x10325476, 0xc3d2e1f0];
      buffer := new byte[64](_ => 0);
      len, bufferLen, message := 0, 0, [];
      new;
      AbsorbedNothing();
      assert state[..] == INITIAL && buffer[..0] == [];
    }

    /** Tops up a partly filled buffer and hashes it when it is full. */
    method FillBuffer(bytes: seq<byte>) returns (rest: seq<byte>)
      requires Buffering() && bufferLen > 0
      modifies this`bufferLen, this`message, state, buffer
      ensures Buffering() && message + rest == old(message) + bytes
      ensures bufferLen > 0 ==> rest == []
    {
      hide Absorbed, Compress;
      var take := Min(64 - bufferLen, |bytes|);
      ghost var tail, words := buffer[..bufferLen], state[..];
      forall i | 0 <= i < take {
        buffer[bufferLen + i] := bytes[i];
      }
      assert buffer[..bufferLen + take] == tail + bytes[..take] && state[..] == words;
      if bufferLen + take == 64 {
        AbsorbedBlock(message, state[..], tail, bytes[..take]);
        assert buffer[..] == tail + bytes[..take];
        Sha1Compress(state, buffer[..]);
        bufferLen := 0;
        assert buffer[..0] == [];
      } else {
        AbsorbedPart(message, state[..], tail, bytes[..take]);
        bufferLen := bufferLen + take;
      }
      message := message + bytes[..take];
      return bytes[take..];
    }

    /** Hashes one block straight from the input. */
    method HashBlock(block: Block)
      requires Buffering() && bufferLen == 0
      modifies this`message, state
      ensures Buffering() && message == old(message) + block
    {
      hide Absorbed, Compress;
      AbsorbedBlock(message, state[..], buffer[..0], block);
      assert buffer[..0] + block == block;
      Sha1Compress(state, block);
      message := message + block;
      assert buffer[..0] == [];
    }

    /** Keeps what is shorter than a block for later. */
    method KeepRemainder(rest: seq<byte>)
      requires Buffering() && bufferLen == 0 && |rest| < 64
      modifies this`bufferLen, this`message, buffer
      ensures Buffering() && message == old(message) + rest
    {
      hide Absorbed, Compress;
      ghost var words := state[..];
      AbsorbedPart(message, words, buffer[..0], rest);
      forall i | 0 <= i < |rest| {
        buffer[i] := rest[i];
      }
      assert buffer[..|rest|] == old(buffer[..0]) + rest && state[..] == words;
      bufferLen := |rest|;
      message := message + rest;
    }

    method Update(input: seq<byte>)
      requires Valid()
      modifies this, state, buffer
      ensures Valid() && message == old(message) + input
    {
      hide Absorbed, Compress;
      var bytes := input;
      WrappingAdd(|message|, |bytes|);
      len := (len + |bytes|) % U64_LIMIT;
      ghost var total := len;
      if bufferLen > 0 {
        bytes := FillBuffer(bytes);
      }
      while |bytes| >= 64
        invariant Buffering() && message + bytes == old(message) + input
        invariant len == total
        invariant bufferLen > 0 ==> bytes == []
      {
        HashBlock(bytes[..64]);
        bytes := bytes[64..];
      }
      if bytes != [] {
        KeepRemainder(bytes);
      }
    }

    /** The words of the state, one after the other. */
    method WriteWords() returns (out: seq<byte>)
      requires state.Length == 5
      ensures out == Output(state[..])
    {
      hide ByteOf;
      out := [];
      for i := 0 to 5
        invariant out == WordsUpTo(state[..], i)
      {
        out := out + WordBytesBE(state[i]);
      }
      AllWords(state[..]);
    }

    /** The digest of everything hashed, whatever slices it came in. */
    method Finalize() returns (digest: seq<byte>)
      requires Valid()
      modifies this, state, buffer
      ensures digest == Sha1(old(message))
    {
      hide Absorbed, Compress, Pad, Output;
      var bitLen := len * 8 % U64_LIMIT;
      var padLen := PadLen(bufferLen);
      AbsorbedTail(message, state[..], buffer[..bufferLen]);
      PadSplits(|message|);
      Update(PadTo80(padLen));
      Update(BigEndian8(bitLen));
      assert message == old(message) + Pad(|old(message)|);
      AbsorbedPadded(old(message), state[..], buffer[..bufferLen]);
      digest := WriteWords();
    }
  }
}

/** Md5 over a stream of slices. */
module Md5Hashing {
  import opened Bytes
  import opened Basics
  import opened BlockHash
  import opened Md5Standard
  import opened Md5Stream

  /** The bytes of the first `n` words. */
  ghost function WordsUpTo(words: State, n: nat): seq<byte>
    requires n <= 4
  {
    if n == 0 then [] else WordsUpTo(words, n - 1) + WordBytesLE(words[n - 1])
  }

  lemma AllWords(words: State)
    ensures WordsUpTo(words, 4) == Output(words)
  {
    hide ByteOf;
    assert WordsUpTo(words, 1) == WordBytesLE(words[0]);
    assert WordsUpTo(words, 2) == WordBytesLE(words[0]) + WordBytesLE(words[1]);
    assert WordsUpTo(words, 3) == WordsUpTo(words, 2) + WordBytesLE(words[2]);
  }

  class Md5Hasher {
    const state: array<Word>
    var len: u64
    const buffer: array<byte>
    var bufferLen: nat
    /** Everything passed to `Update` so far. */
    ghost var message: seq<byte>

    ghost predicate Buffering()
      reads this, state, buffer
    {
      state.Length == 4 && buffer.Length == 64 && bufferLen < 64 && state as object != buffer
      && Absorbed(message, state[..], buffer[..bufferLen])
    }

    ghost predicate Valid()
      reads this, state, buffer
    {
      Buffering() && len == |message| % U64_LIMIT
    }

    constructor ()
      ensures Valid() && message == [] && fresh(state) && fresh(buffer)
    {
      hide Absorbed, Compress;
      state := new Word[4] [0x67452301, 0xefcdab89, 0x98badcfe, 0x10325476];
      buffer := new byte[64](_ => 0);
      len, bufferLen, message := 0, 0, [];
      new;
      AbsorbedNothing();
      assert state[..] == INITIAL && buffer[..0] == [];
    }

    /** Tops up a partly filled buffer and hashes it when it is full. */
    method FillBuffer(bytes: seq<byte>) returns (rest: seq<byte>)
      requires Buffering() && bufferLen > 0
      modifies this`bufferLen, this`message, state, buffer
      ensures Buffering() && message + rest == old(message) + bytes
      ensures bufferLen > 0 ==> rest == []
    {
      hide Absorbed, Compress;
      var take := Min(64 - bufferLen, |bytes|);
      ghost var tail, words := buffer[..bufferLen], state[..];
      forall i | 0 <= i < take {
        buffer[bufferLen + i] := bytes[i];
      }
      assert buffer[..bufferLen + take] == tail + bytes[..take] && state[..] == words;
      if bufferLen + take == 64 {
        AbsorbedBlock(message, state[..], tail, bytes[..take]);
        assert buffer[..] == tail + bytes[..take];
        Md5Compress(state, buffer[..]);
        bufferLen := 0;
        assert buffer[..0] == [];
      } else {
        AbsorbedPart(message, state[..], tail, bytes[..take]);
        bufferLen := bufferLen + take;
      }
      message := message + bytes[..take];
      return bytes[take..];
    }

    /** Hashes one block straight from the input. */
    method HashBlock(block: Block)
      requires Buffering() && bufferLen == 0
      modifies this`message, state
      ensures Buffering() && message == old(message) + block
    {
      hide Absorbed, Compress;
      AbsorbedBlock(message, state[..], buffer[..0], block);
      assert buffer[..0] + block == block;
      Md5Compress(state, block);
      message := message + block;
      assert buffer[..0] == [];
    }

    /** Keeps what is shorter than a block for later. */
    method KeepRemainder(rest: seq<byte>)
      requires Buffering() && bufferLen == 0 && |rest| < 64
      modifies this`bufferLen, this`message, buffer
      ensures Buffering() && message == old(message) + rest
    {
      hide Absorbed, Compress;
      ghost var words := state[..];
      AbsorbedPart(message, words, buffer[..0], rest);
      forall i | 0 <= i < |rest| {
        buffer[i] := rest[i];
      }
      assert buffer[..|rest|] == old(buffer[..0]) + rest && state[..] == words;
      bufferLen := |rest|;
      message := message + rest;
    }

    method Update(input: seq<byte>)
      requires Valid()
      modifies this, state, buffer
      ensures Valid() && message == old(message) + input
    {
      hide Absorbed, Compress;
      var bytes := input;
      WrappingAdd(|message|, |bytes|);
      len := (len + |bytes|) % U64_LIMIT;
      ghost var total := len;
      if bufferLen > 0 {
        bytes := FillBuffer(bytes);
      }
      while |bytes| >= 64
        invariant Buffering() && message + bytes == old(message) + input
        invariant len == total
        invariant bufferLen > 0 ==> bytes == []
      {
        HashBlock(bytes[..64]);
        bytes := bytes[64..];
      }
      if bytes != [] {
        KeepRemainder(bytes);
      }
    }

    /** The words of the state, one after the other. */
    method WriteWords() returns (out: seq<byte>)
      requires state.Length == 4
      ensures out == Output(state[..])
    {
      hide ByteOf;
      out := [];
      for i := 0 to 4
        invariant out == WordsUpTo(state[..], i)
      {
        out := out + WordBytesLE(state[i]);
      }
      AllWords(state[..]);
    }

    /** The digest of everything hashed, whatever slices it came in. */
    method Finalize() returns (digest: seq<byte>)
      requires Valid()
      modifies this, state, buffer
      ensures digest == Md5(old(message))
    {
      hide Absorbed, Compress, Pad, Output;
      var bitLen := len * 8 % U64_LIMIT;
      var padLen := PadLen(bufferLen);
      AbsorbedTail(message, state[..], buffer[..bufferLen]);
      PadSplits(|message|);
      Update(PadTo80(padLen));
      Update(LittleEndian(bitLen, 8));
      assert message == old(message) + Pad(|old(message)|);
      AbsorbedPadded(old(message), state[..], buffer[..bufferLen]);
      digest := WriteWords();
    }
  }
}
