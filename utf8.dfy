/**
 * Python's `bytes.decode('utf-8', 'ignore')`. The decoder reads well-formed
 * UTF-8 sequences (table 3-7 of the Unicode Standard, section 3.9) and drops
 * each maximal ill-formed subpart, as Python's decoder does under the
 * `'ignore'` error handler. It never fails. `Encode` is the encoder the
 * round-trip lemma runs it against.
 */
module Utf8 {
  import opened DataSets

  predicate Continuation(b: byte) {
    0x80 <= b <= 0xBF
  }

  /**
   * How many bytes the decoder consumes at the start of `b`: the whole sequence
   * when it is well formed, otherwise its maximal ill-formed subpart (at least one byte).
   */
  function ValidPrefix(b: seq<byte>): (n: nat)
    requires |b| > 0
    ensures 1 <= n <= |b| && n <= 4
  {
    var b0 := b[0];
    if b0 < 0x80 then 1
    else if 0xC2 <= b0 <= 0xDF then
      if |b| >= 2 && Continuation(b[1]) then 2 else 1
    else if 0xE0 <= b0 <= 0xEF then
      var lo := if b0 == 0xE0 then 0xA0 else 0x80;
      var hi := if b0 == 0xED then 0x9F else 0xBF;
      if |b| < 2 || !(lo <= b[1] <= hi) then 1
      else if |b| < 3 || !Continuation(b[2]) then 2
      else 3
    else if 0xF0 <= b0 <= 0xF4 then
      var lo := if b0 == 0xF0 then 0x90 else 0x80;
      var hi := if b0 == 0xF4 then 0x8F else 0xBF;
      if |b| < 2 || !(lo <= b[1] <= hi) then 1
      else if |b| < 3 || !Continuation(b[2]) then 2
      else if |b| < 4 || !Continuation(b[3]) then 3
      else 4
    else 1
  }

  /** The number of bytes a well-formed sequence starting with `b0` has. */
  function SequenceLength(b0: byte): nat {
    if b0 < 0x80 then 1
    else if 0xC2 <= b0 <= 0xDF then 2
    else if 0xE0 <= b0 <= 0xEF then 3
    else if 0xF0 <= b0 <= 0xF4 then 4
    else 0
  }

  /** The first sequence of `b` is well formed. */
  predicate WellFormedAt(b: seq<byte>)
    requires |b| > 0
  {
    SequenceLength(b[0]) > 0 && ValidPrefix(b) == SequenceLength(b[0])
  }

  /** The scalar value of a well-formed sequence. */
  function ScalarOf(b: seq<byte>): (c: char)
    requires |b| > 0 && WellFormedAt(b)
  {
    var b0 := b[0] as int;
    if b0 < 0x80 then b0 as char
    else if b0 <= 0xDF then ((b0 - 0xC0) * 64 + (b[1] as int - 0x80)) as char
    else if b0 <= 0xEF then
      var v := (b0 - 0xE0) * 4096 + (b[1] as int - 0x80) * 64 + (b[2] as int - 0x80);
      assert v < 0xD800 || 0xE000 <= v < 0x10000;
      v as char
    else
      var v := (b0 - 0xF0) * 262144 + (b[1] as int - 0x80) * 4096 + (b[2] as int - 0x80) * 64 + (b[3] as int - 0x80);
      assert 0x10000 <= v <= 0x10FFFF;
      v as char
  }

  /** `bytes.decode('utf-8', 'ignore')`. */
  function Decode(b: seq<byte>): (s: string)
    ensures |s| <= |b|
    decreases |b|
  {
    if b == [] then []
    else if WellFormedAt(b) then [ScalarOf(b)] + Decode(b[SequenceLength(b[0])..])
    else Decode(b[ValidPrefix(b)..])
  }

  /** The UTF-8 encoding of one character. */
  function EncodeChar(c: char): (e: seq<byte>)
    ensures 1 <= |e| <= 4
  {
    var v := c as int;
    if v < 0x80 then [v]
    else if v < 0x800 then [0xC0 + v / 64, 0x80 + v % 64]
    else if v < 0x10000 then [0xE0 + v / 4096, 0x80 + v / 64 % 64, 0x80 + v % 64]
    else [0xF0 + v / 262144, 0x80 + v / 4096 % 64, 0x80 + v / 64 % 64, 0x80 + v % 64]
  }

  /** The UTF-8 encoding of a string (`str.encode('utf-8')`). */
  function Encode(s: string): seq<byte> {
    if s == [] then [] else EncodeChar(s[0]) + Encode(s[1..])
  }

  /** The encoding of a character is a well-formed sequence that decodes back to it. */
  lemma DecodeChar(c: char, rest: seq<byte>)
    ensures WellFormedAt(EncodeChar(c) + rest)
    ensures SequenceLength(EncodeChar(c)[0]) == |EncodeChar(c)|
    ensures ScalarOf(EncodeChar(c) + rest) == c
  {
    var v := c as int;
    if v < 0x80 {
    } else if v < 0x800 {
      DecodeTwo(v, rest);
    } else if v < 0x10000 {
      DecodeThree(v, rest);
    } else {
      DecodeFour(v, rest);
    }
  }

  lemma DecodeTwo(v: int, rest: seq<byte>)
    requires 0x80 <= v < 0x800
    ensures var b := [0xC0 + v / 64, 0x80 + v % 64] + rest;
      && WellFormedAt(b) && SequenceLength(b[0]) == 2 && ScalarOf(b) as int == v
  {
    var hi, lo := v / 64, v % 64;
    assert v == hi * 64 + lo;
  }

  lemma DecodeThree(v: int, rest: seq<byte>)
    requires 0x800 <= v < 0x10000 && !(0xD800 <= v < 0xE000)
    ensures var b := [0xE0 + v / 4096, 0x80 + v / 64 % 64, 0x80 + v % 64] + rest;
      && WellFormedAt(b) && SequenceLength(b[0]) == 3 && ScalarOf(b) as int == v
  {
    var x, y, z := v / 4096, v / 64 % 64, v % 64;
    assert v / 64 == x * 64 + y;
    assert v == x * 4096 + y * 64 + z;
  }

  lemma DecodeFour(v: int, rest: seq<byte>)
    requires 0x10000 <= v <= 0x10FFFF
    ensures var b := [0xF0 + v / 262144, 0x80 + v / 4096 % 64, 0x80 + v / 64 % 64, 0x80 + v % 64] + rest;
      && WellFormedAt(b) && SequenceLength(b[0]) == 4 && ScalarOf(b) as int == v
  {
    var w, x, y, z := v / 262144, v / 4096 % 64, v / 64 % 64, v % 64;
    assert v / 4096 == w * 64 + x;
    assert v / 64 == (w * 64 + x) * 64 + y;
    assert v == w * 262144 + x * 4096 + y * 64 + z;
  }

  /** Decoding an encoding gives the string back: the decoder drops nothing from well-formed input. */
  lemma {:induction false} DecodeEncode(s: string)
    ensures Decode(Encode(s)) == s
  {
    if s != [] {
      var e := EncodeChar(s[0]);
      var rest := Encode(s[1..]);
      DecodeChar(s[0], rest);
      assert (e + rest)[|e|..] == rest;
      DecodeEncode(s[1..]);
    }
  }

  /** ASCII bytes decode one character each. */
  lemma {:induction false} DecodeAscii(b: seq<byte>)
    requires forall i | 0 <= i < |b| :: b[i] < 0x80
    ensures |Decode(b)| == |b|
    ensures forall i | 0 <= i < |b| :: Decode(b)[i] as int == b[i]
  {
    if b != [] {
      DecodeAscii(b[1..]);
    }
  }
}
