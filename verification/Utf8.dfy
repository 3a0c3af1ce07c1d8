/** Header values are Rust strings: byte sequences that are valid UTF-8
    (section 4 of RFC 3629). */
module Utf8 {
  import opened Bytes

  predicate Tail(b: byte) {
    0x80 <= b <= 0xbf
  }

  /** Length of the well-formed character at the front of `s`, or 0. */
  function CharLen(s: seq<byte>): (n: nat)
    ensures n <= |s|
  {
    if |s| >= 1 && s[0] <= 0x7f then 1
    else if |s| >= 2 && 0xc2 <= s[0] <= 0xdf && Tail(s[1]) then 2
    else if |s| >= 3 && s[0] == 0xe0 && 0xa0 <= s[1] <= 0xbf && Tail(s[2]) then 3
    else if |s| >= 3 && (0xe1 <= s[0] <= 0xec || 0xee <= s[0] <= 0xef) && Tail(s[1]) && Tail(s[2]) then 3
    else if |s| >= 3 && s[0] == 0xed && 0x80 <= s[1] <= 0x9f && Tail(s[2]) then 3
    else if |s| >= 4 && s[0] == 0xf0 && 0x90 <= s[1] <= 0xbf && Tail(s[2]) && Tail(s[3]) then 4
    else if |s| >= 4 && 0xf1 <= s[0] <= 0xf3 && Tail(s[1]) && Tail(s[2]) && Tail(s[3]) then 4
    else if |s| >= 4 && s[0] == 0xf4 && 0x80 <= s[1] <= 0x8f && Tail(s[2]) && Tail(s[3]) then 4
    else 0
  }

  predicate ValidUtf8(s: seq<byte>)
    decreases |s|
  {
    |s| == 0 || (CharLen(s) > 0 && ValidUtf8(s[CharLen(s)..]))
  }

  type Text = s: seq<byte> | ValidUtf8(s)

  // ---- what it encodes (section 3 of RFC 3629) ----

  /** A code point that is not a surrogate. */
  predicate Scalar(c: nat) {
    c < 0xd800 || 0xe000 <= c < 0x11_0000
  }

  /** The shortest form of a character. */
  function ShortestForm(c: nat): (s: seq<nat>)
    ensures 1 <= |s| <= 4
  {
    if c < 0x80 then [c]
    else if c < 0x800 then [0xc0 + c / 64, 0x80 + c % 64]
    else if c < 0x1_0000 then [0xe0 + c / 64 / 64, 0x80 + c / 64 % 64, 0x80 + c % 64]
    else [0xf0 + c / 64 / 64 / 64, 0x80 + c / 64 / 64 % 64, 0x80 + c / 64 % 64, 0x80 + c % 64]
  }

  predicate StartsWith(s: seq<byte>, c: nat) {
    |ShortestForm(c)| <= |s| && forall i | 0 <= i < |ShortestForm(c)| :: ByteValue(s[i]) == ShortestForm(c)[i]
  }

  /** `s` is the encoding of these characters, one after the other. */
  predicate Spells(s: seq<byte>, text: seq<nat>)
    decreases |text|
  {
    if text == [] then s == []
    else Scalar(text[0]) && StartsWith(s, text[0]) && Spells(s[|ShortestForm(text[0])|..], text[1..])
  }

  /** The length in terms of the values of the bytes. */
  function LenOf(a: nat, b: nat, c: nat, d: nat, len: nat): nat {
    if len >= 1 && a <= 0x7f then 1
    else if len >= 2 && 0xc2 <= a <= 0xdf && 0x80 <= b <= 0xbf then 2
    else if len >= 3 && a == 0xe0 && 0xa0 <= b <= 0xbf && 0x80 <= c <= 0xbf then 3
    else if len >= 3 && (0xe1 <= a <= 0xec || 0xee <= a <= 0xef) && 0x80 <= b <= 0xbf && 0x80 <= c <= 0xbf then 3
    else if len >= 3 && a == 0xed && 0x80 <= b <= 0x9f && 0x80 <= c <= 0xbf then 3
    else if len >= 4 && a == 0xf0 && 0x90 <= b <= 0xbf && 0x80 <= c <= 0xbf && 0x80 <= d <= 0xbf then 4
    else if len >= 4 && 0xf1 <= a <= 0xf3 && 0x80 <= b <= 0xbf && 0x80 <= c <= 0xbf && 0x80 <= d <= 0xbf then 4
    else if len >= 4 && a == 0xf4 && 0x80 <= b <= 0x8f && 0x80 <= c <= 0xbf && 0x80 <= d <= 0xbf then 4
    else 0
  }

  function ValueAt(s: seq<byte>, k: nat): nat {
    if k < |s| then ByteValue(s[k]) else 0
  }

  lemma LenByValue(s: seq<byte>)
    ensures CharLen(s) == LenOf(ValueAt(s, 0), ValueAt(s, 1), ValueAt(s, 2), ValueAt(s, 3), |s|)
  {
  }

  /** The character that up to four bytes stand for. */
  function CodePoint(a: nat, b: nat, c: nat, d: nat, n: nat): int {
    if n == 1 then a
    else if n == 2 then (a - 0xc0) * 64 + (b - 0x80)
    else if n == 3 then ((a - 0xe0) * 64 + (b - 0x80)) * 64 + (c - 0x80)
    else (((a - 0xf0) * 64 + (b - 0x80)) * 64 + (c - 0x80)) * 64 + (d - 0x80)
  }

  lemma Digits(high: nat, low: nat)
    requires low < 64
    ensures (high * 64 + low) / 64 == high && (high * 64 + low) % 64 == low
  {
  }

  lemma CodePointEncodes(a: nat, b: nat, c: nat, d: nat, len: nat)
    requires LenOf(a, b, c, d, len) > 0
    ensures var n := LenOf(a, b, c, d, len); var x := CodePoint(a, b, c, d, n);
            n <= 4 && x >= 0 && Scalar(x) && ShortestForm(x) == [a, b, c, d][..n]
  {
    var n := LenOf(a, b, c, d, len);
    if n == 2 {
      Digits(a - 0xc0, b - 0x80);
    } else if n == 3 {
      Digits(a - 0xe0, b - 0x80);
      Digits((a - 0xe0) * 64 + (b - 0x80), c - 0x80);
    } else if n == 4 {
      FourEncode(a, b, c, d);
    }
  }

  lemma FourEncode(a: nat, b: nat, c: nat, d: nat)
    requires LenOf(a, b, c, d, 4) == 4
    ensures var x := CodePoint(a, b, c, d, 4); x >= 0 && Scalar(x) && ShortestForm(x) == [a, b, c, d]
  {
    var p := a - 0xf0;
    var q := p * 64 + (b - 0x80);
    var r := q * 64 + (c - 0x80);
    Digits(p, b - 0x80);
    Digits(q, c - 0x80);
    Digits(r, d - 0x80);
    assert CodePoint(a, b, c, d, 4) == r * 64 + (d - 0x80);
    assert 0x10 <= q < 0x110;
  }

  lemma EncodedHasLen(x: nat, a: nat, b: nat, c: nat, d: nat, len: nat)
    requires Scalar(x) && |ShortestForm(x)| <= len && ShortestForm(x) == [a, b, c, d][..|ShortestForm(x)|]
    ensures LenOf(a, b, c, d, len) == |ShortestForm(x)| && CodePoint(a, b, c, d, |ShortestForm(x)|) == x
  {
    var e := ShortestForm(x);
    assert e[0] == [a, b, c, d][0];
    assert |e| >= 2 ==> e[1] == [a, b, c, d][1];
    assert |e| >= 3 ==> e[2] == [a, b, c, d][2];
    assert |e| >= 4 ==> e[3] == [a, b, c, d][3];
  }

  /** The values of the first bytes. */
  lemma StartsByValue(s: seq<byte>, x: nat)
    requires |ShortestForm(x)| <= |s|
    ensures StartsWith(s, x)
            <==> ShortestForm(x) == [ValueAt(s, 0), ValueAt(s, 1), ValueAt(s, 2), ValueAt(s, 3)][..|ShortestForm(x)|]
  {
    hide ShortestForm;
    var front := [ValueAt(s, 0), ValueAt(s, 1), ValueAt(s, 2), ValueAt(s, 3)];
    assert forall i | 0 <= i < |ShortestForm(x)| :: front[i] == ByteValue(s[i]);
    assert forall i | 0 <= i < |ShortestForm(x)| :: front[..|ShortestForm(x)|][i] == front[i];
  }

  /** A character is accepted at the front exactly if it is the shortest form of a
      code point that is not a surrogate, and that code point is the only one. */
  lemma CharExactly(s: seq<byte>, x: nat)
    ensures Scalar(x) && StartsWith(s, x) ==> CharLen(s) == |ShortestForm(x)|
    ensures CharLen(s) > 0 ==> exists y :: Scalar(y) && StartsWith(s, y) && CharLen(s) == |ShortestForm(y)|
  {
    hide ShortestForm, Scalar, LenOf, CharLen, CodePoint;
    var a, b, c, d := ValueAt(s, 0), ValueAt(s, 1), ValueAt(s, 2), ValueAt(s, 3);
    LenByValue(s);
    if Scalar(x) && StartsWith(s, x) {
      StartsByValue(s, x);
      EncodedHasLen(x, a, b, c, d, |s|);
    }
    if CharLen(s) > 0 {
      CodePointEncodes(a, b, c, d, |s|);
      var y: nat := CodePoint(a, b, c, d, CharLen(s));
      StartsByValue(s, y);
    }
  }

  /** Valid UTF-8, exactly: the bytes spell some text. */
  lemma ValidExactly(s: seq<byte>)
    ensures ValidUtf8(s) <==> exists text :: Spells(s, text)
  {
    hide ShortestForm, Scalar, StartsWith;
    if ValidUtf8(s) {
      ValidSpells(s);
    }
    if exists text :: Spells(s, text) {
      var text :| Spells(s, text);
      SpelledIsValid(s, text);
    }
  }

  lemma {:induction false} ValidSpells(s: seq<byte>)
    requires ValidUtf8(s)
    ensures exists text :: Spells(s, text)
    decreases |s|
  {
    hide ShortestForm, Scalar, StartsWith, CharLen;
    if s == [] {
      assert Spells(s, []);
    } else {
      CharExactly(s, 0);
      var x: nat :| Scalar(x) && StartsWith(s, x) && CharLen(s) == |ShortestForm(x)|;
      ValidSpells(s[CharLen(s)..]);
      var rest :| Spells(s[CharLen(s)..], rest);
      assert ([x] + rest)[1..] == rest;
      assert Spells(s, [x] + rest);
    }
  }

  lemma {:induction false} SpelledIsValid(s: seq<byte>, text: seq<nat>)
    requires Spells(s, text)
    ensures ValidUtf8(s)
    decreases |text|
  {
    hide ShortestForm, Scalar, StartsWith, CharLen;
    if text != [] {
      CharExactly(s, text[0]);
      SpelledIsValid(s[|ShortestForm(text[0])|..], text[1..]);
    }
  }
}
