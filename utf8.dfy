/** Go strings are byte sequences.  This module models `strings.ToValidUTF8`
    with an empty replacement, which drops every byte that does not begin a
    well-formed UTF-8 sequence, and the UTF-8 encoding of Dafny text. */
module Utf8 {

  newtype byte = x: int | 0 <= x < 256

  predicate Cont(s: seq<byte>, i: nat)
  {
    i < |s| && 0x80 <= s[i] <= 0xBF
  }

  predicate Between(s: seq<byte>, i: nat, lo: byte, hi: byte)
  {
    i < |s| && lo <= s[i] <= hi
  }

  /** Length of the well-formed sequence `s` starts with (as
      `utf8.DecodeRuneInString` accepts it), or 0 when it starts with none. */
  function Width(s: seq<byte>): (w: nat)
    ensures w <= 4 && w <= |s|
  {
    if |s| == 0 then 0
    else
      var b := s[0];
      if b < 0x80 then 1
      else if 0xC2 <= b <= 0xDF then (if Cont(s, 1) then 2 else 0)
      else if b == 0xE0 then (if Between(s, 1, 0xA0, 0xBF) && Cont(s, 2) then 3 else 0)
      else if b == 0xED then (if Between(s, 1, 0x80, 0x9F) && Cont(s, 2) then 3 else 0)
      else if 0xE1 <= b <= 0xEF then (if Cont(s, 1) && Cont(s, 2) then 3 else 0)
      else if b == 0xF0 then (if Between(s, 1, 0x90, 0xBF) && Cont(s, 2) && Cont(s, 3) then 4 else 0)
      else if b == 0xF4 then (if Between(s, 1, 0x80, 0x8F) && Cont(s, 2) && Cont(s, 3) then 4 else 0)
      else if 0xF1 <= b <= 0xF3 then (if Cont(s, 1) && Cont(s, 2) && Cont(s, 3) then 4 else 0)
      else 0
  }

  /** `utf8.ValidString`: the bytes split into well-formed sequences. */
  predicate Valid(s: seq<byte>)
    decreases |s|
  {
    |s| == 0 || (Width(s) > 0 && Valid(s[Width(s)..]))
  }

  /** The width of a well-formed sequence depends only on its own bytes. */
  lemma WidthPrefix(s: seq<byte>, rest: seq<byte>)
    requires Width(s) > 0
    ensures Width(s[..Width(s)] + rest) == Width(s)
  {
    var w := Width(s);
    var t := s[..w] + rest;
    assert forall i :: 0 <= i < w ==> t[i] == s[i];
  }

  /** `strings.ToValidUTF8(s, "")`. */
  function ToValid(s: seq<byte>): (t: seq<byte>)
    ensures Valid(t)
    ensures |t| <= |s|
    decreases |s|
  {
    if |s| == 0 then []
    else if Width(s) == 0 then ToValid(s[1..])
    else
      var w := Width(s);
      var rest := ToValid(s[w..]);
      WidthPrefix(s, rest);
      assert (s[..w] + rest)[w..] == rest;
      s[..w] + rest
  }

  /** Well-formed input passes through unchanged. */
  lemma {:induction false} ToValidOfValid(s: seq<byte>)
    requires Valid(s)
    ensures ToValid(s) == s
    decreases |s|
  {
    if |s| > 0 {
      ToValidOfValid(s[Width(s)..]);
    }
  }

  /** Dropping invalid bytes twice drops nothing more. */
  lemma ToValidIdempotent(s: seq<byte>)
    ensures ToValid(ToValid(s)) == ToValid(s)
  {
    ToValidOfValid(ToValid(s));
  }

  /** The UTF-8 encoding of one Unicode scalar value. */
  function EncodeChar(c: char): (b: seq<byte>)
    ensures 1 <= |b| <= 4
  {
    var cp := c as int;
    if cp < 0x80 then [cp as byte]
    else if cp < 0x800 then [(0xC0 + cp / 64) as byte, (0x80 + cp % 64) as byte]
    else if cp < 0x10000 then
      [(0xE0 + cp / 4096) as byte, (0x80 + (cp / 64) % 64) as byte, (0x80 + cp % 64) as byte]
    else
      [(0xF0 + cp / 262144) as byte, (0x80 + (cp / 4096) % 64) as byte,
       (0x80 + (cp / 64) % 64) as byte, (0x80 + cp % 64) as byte]
  }

  /** An encoded scalar value is one well-formed sequence. */
  lemma EncodeCharWidth(c: char, rest: seq<byte>)
    ensures Width(EncodeChar(c) + rest) == |EncodeChar(c)|
  {
    var cp := c as int;
    if cp < 0x80 {
    } else if cp < 0x800 {
      assert (EncodeChar(c) + rest)[0] == (0xC0 + cp / 64) as byte;
    } else if cp < 0x10000 {
      assert cp < 0xD800 || 0xDFFF < cp;
      ThreeByteWidth(cp, rest);
    } else {
      FourByteWidth(cp, rest);
    }
  }

  lemma ThreeByteWidth(cp: int, rest: seq<byte>)
    requires 0x800 <= cp < 0xD800 || 0xDFFF < cp < 0x10000
    ensures Width([(0xE0 + cp / 4096) as byte, (0x80 + (cp / 64) % 64) as byte, (0x80 + cp % 64) as byte] + rest) == 3
  {
    var b := [(0xE0 + cp / 4096) as byte, (0x80 + (cp / 64) % 64) as byte, (0x80 + cp % 64) as byte] + rest;
    assert b[0] == (0xE0 + cp / 4096) as byte;
    assert b[1] == (0x80 + (cp / 64) % 64) as byte;
  }

  lemma FourByteWidth(cp: int, rest: seq<byte>)
    requires 0x10000 <= cp < 0x110000
    ensures Width([(0xF0 + cp / 262144) as byte, (0x80 + (cp / 4096) % 64) as byte,
                   (0x80 + (cp / 64) % 64) as byte, (0x80 + cp % 64) as byte] + rest) == 4
  {
    var b := [(0xF0 + cp / 262144) as byte, (0x80 + (cp / 4096) % 64) as byte,
              (0x80 + (cp / 64) % 64) as byte, (0x80 + cp % 64) as byte] + rest;
    assert b[0] == (0xF0 + cp / 262144) as byte;
    assert b[1] == (0x80 + (cp / 4096) % 64) as byte;
  }

  /** The UTF-8 encoding of a text. */
  function Encode(s: string): seq<byte>
  {
    if |s| == 0 then [] else EncodeChar(s[0]) + Encode(s[1..])
  }

  /** Encoded text is well-formed, so `ToValidUTF8` leaves text received as
      a JSON string unchanged. */
  lemma {:induction false} EncodeValid(s: string)
    ensures Valid(Encode(s))
    ensures ToValid(Encode(s)) == Encode(s)
  {
    if |s| > 0 {
      var e, rest := EncodeChar(s[0]), Encode(s[1..]);
      EncodeCharWidth(s[0], rest);
      assert (e + rest)[|e|..] == rest;
      EncodeValid(s[1..]);
    }
    ToValidOfValid(Encode(s));
  }
}
