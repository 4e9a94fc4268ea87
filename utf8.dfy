/**
 * Well-formed UTF-8, as Rust's `String::from_utf8` accepts it: the byte
 * sequences of table 3-7 of the Unicode Standard (no overlong forms, no
 * surrogates, nothing above U+10FFFF), and an encoder from Dafny strings
 * (sequences of Unicode scalar values) whose output is always well formed.
 */
module Utf8 {

  newtype Byte = b: int | 0 <= b < 0x100

  predicate IsContinuation(b: Byte) {
    0x80 <= b <= 0xBF
  }

  /** Length of the well-formed sequence that starts `s`, or 0 when `s` does not start with one. */
  function LeadingSequenceLength(s: seq<Byte>): (n: nat)
    ensures n <= 4 && n <= |s|
    ensures n > 0 ==> |s| > 0
  {
    if |s| == 0 then 0
    else
      var b0 := s[0];
      if b0 <= 0x7F then 1
      else if 0xC2 <= b0 <= 0xDF then
        if |s| >= 2 && IsContinuation(s[1]) then 2 else 0
      else if b0 == 0xE0 then
        if |s| >= 3 && 0xA0 <= s[1] <= 0xBF && IsContinuation(s[2]) then 3 else 0
      else if (0xE1 <= b0 <= 0xEC) || (0xEE <= b0 <= 0xEF) then
        if |s| >= 3 && IsContinuation(s[1]) && IsContinuation(s[2]) then 3 else 0
      else if b0 == 0xED then
        if |s| >= 3 && 0x80 <= s[1] <= 0x9F && IsContinuation(s[2]) then 3 else 0
      else if b0 == 0xF0 then
        if |s| >= 4 && 0x90 <= s[1] <= 0xBF && IsContinuation(s[2]) && IsContinuation(s[3]) then 4 else 0
      else if 0xF1 <= b0 <= 0xF3 then
        if |s| >= 4 && IsContinuation(s[1]) && IsContinuation(s[2]) && IsContinuation(s[3]) then 4 else 0
      else if b0 == 0xF4 then
        if |s| >= 4 && 0x80 <= s[1] <= 0x8F && IsContinuation(s[2]) && IsContinuation(s[3]) then 4 else 0
      else 0
  }

  /** `s` is a concatenation of well-formed UTF-8 sequences. */
  predicate ValidUtf8(s: seq<Byte>)
    decreases |s|
  {
    |s| == 0 || (var n := LeadingSequenceLength(s); n > 0 && ValidUtf8(s[n..]))
  }

  /** The bytes of a Rust `String`: always well-formed UTF-8. */
  type Utf8String = s: seq<Byte> | ValidUtf8(s) witness []

  /** The UTF-8 encoding of one Unicode scalar value. */
  function EncodeChar(c: char): (b: seq<Byte>)
    ensures 1 <= |b| <= 4
  {
    var v := c as int;
    if v < 0x80 then
      [v as Byte]
    else if v < 0x800 then
      [(0xC0 + v / 0x40) as Byte, (0x80 + v % 0x40) as Byte]
    else if v < 0x1_0000 then
      [(0xE0 + v / 0x1000) as Byte, (0x80 + v / 0x40 % 0x40) as Byte, (0x80 + v % 0x40) as Byte]
    else
      [(0xF0 + v / 0x4_0000) as Byte, (0x80 + v / 0x1000 % 0x40) as Byte,
       (0x80 + v / 0x40 % 0x40) as Byte, (0x80 + v % 0x40) as Byte]
  }

  function EncodeUtf8(s: string): seq<Byte>
  {
    if |s| == 0 then [] else EncodeChar(s[0]) + EncodeUtf8(s[1..])
  }

  /** `String::from`: the bytes of a Dafny string, known to be well formed. */
  function FromStr(s: string): (r: Utf8String)
    ensures |r| <= 4 * |s|
  {
    EncodeUtf8IsValid(s);
    EncodeUtf8Length(s);
    EncodeUtf8(s)
  }

  lemma {:induction false} EncodeUtf8Length(s: string)
    ensures |EncodeUtf8(s)| <= 4 * |s|
  {
    if |s| > 0 {
      EncodeUtf8Length(s[1..]);
    }
  }

  /** The encoding of a character is read back as exactly one well-formed sequence. */
  lemma EncodeCharIsOneSequence(c: char, rest: seq<Byte>)
    ensures LeadingSequenceLength(EncodeChar(c) + rest) == |EncodeChar(c)|
  {
    var v := c as int;
    if v < 0x80 {
    } else if v < 0x800 {
      TwoByteSequence(v, EncodeChar(c) + rest);
    } else if v < 0x1_0000 {
      ThreeByteSequence(v, EncodeChar(c) + rest);
    } else {
      FourByteSequence(v, EncodeChar(c) + rest);
    }
  }

  lemma TwoByteSequence(v: int, s: seq<Byte>)
    requires 0x80 <= v < 0x800 && |s| >= 2
    requires s[0] == (0xC0 + v / 0x40) as Byte && s[1] == (0x80 + v % 0x40) as Byte
    ensures LeadingSequenceLength(s) == 2
  {
    assert 0xC2 <= s[0] <= 0xDF;
  }

  lemma ThreeByteSequence(v: int, s: seq<Byte>)
    requires 0x800 <= v < 0x1_0000 && !(0xD800 <= v < 0xE000) && |s| >= 3
    requires s[0] == (0xE0 + v / 0x1000) as Byte && s[1] == (0x80 + v / 0x40 % 0x40) as Byte
    requires s[2] == (0x80 + v % 0x40) as Byte
    ensures LeadingSequenceLength(s) == 3
  {
    assert IsContinuation(s[1]) && IsContinuation(s[2]);
    if v < 0x1000 {
      assert v / 0x40 % 0x40 >= 0x20;
      assert s[0] == 0xE0 && 0xA0 <= s[1];
    } else if 0xD000 <= v < 0xE000 {
      assert v / 0x40 % 0x40 < 0x20;
      assert s[0] == 0xED && s[1] <= 0x9F;
    } else {
      assert (0xE1 <= s[0] <= 0xEC) || (0xEE <= s[0] <= 0xEF);
    }
  }

  lemma FourByteSequence(v: int, s: seq<Byte>)
    requires 0x1_0000 <= v <= 0x10_FFFF && |s| >= 4
    requires s[0] == (0xF0 + v / 0x4_0000) as Byte && s[1] == (0x80 + v / 0x1000 % 0x40) as Byte
    requires s[2] == (0x80 + v / 0x40 % 0x40) as Byte && s[3] == (0x80 + v % 0x40) as Byte
    ensures LeadingSequenceLength(s) == 4
  {
    assert IsContinuation(s[1]) && IsContinuation(s[2]) && IsContinuation(s[3]);
    var k := v / 0x1000;
    assert 0x10 <= k <= 0x10F;
    if v < 0x4_0000 {
      assert k < 0x40 && k % 0x40 == k;
      assert s[0] == 0xF0 && 0x90 <= s[1];
    } else if v >= 0x10_0000 {
      assert 0x100 <= k && k % 0x40 == k - 0x100;
      assert s[0] == 0xF4 && s[1] <= 0x8F;
    } else {
      assert 1 <= v / 0x4_0000 <= 3;
      assert 0xF1 <= s[0] <= 0xF3;
    }
  }

  /** Every Dafny string encodes to well-formed UTF-8. */
  lemma {:induction false} EncodeUtf8IsValid(s: string)
    ensures ValidUtf8(EncodeUtf8(s))
  {
    if |s| > 0 {
      var head := EncodeChar(s[0]);
      EncodeCharIsOneSequence(s[0], EncodeUtf8(s[1..]));
      assert (head + EncodeUtf8(s[1..]))[|head|..] == EncodeUtf8(s[1..]);
      EncodeUtf8IsValid(s[1..]);
    }
  }
}
