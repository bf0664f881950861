/** UTF-8 (RFC 3629) on sequences of bytes. */
module Utf8 {

  type Byte = x: nat | x < 256

  function Encode(c: char): (b: seq<Byte>)
    ensures 1 <= |b| <= 4
  {
    var v := c as int;
    if v < 0x80 then [v]
    else if v < 0x800 then [0xC0 + v / 64, 0x80 + v % 64]
    else if v < 0x10000 then [0xE0 + v / 4096, 0x80 + v / 64 % 64, 0x80 + v % 64]
    else [0xF0 + v / 262144, 0x80 + v / 4096 % 64, 0x80 + v / 64 % 64, 0x80 + v % 64]
  }

  function EncodeAll(s: string): seq<Byte> {
    if s == "" then [] else Encode(s[0]) + EncodeAll(s[1..])
  }

  predicate Continues(b: Byte) { 0x80 <= b < 0xC0 }

  /** How long a sequence its first byte announces; 0 when no sequence starts like this. */
  function Width(b: Byte): nat {
    if b < 0x80 then 1
    else if 0xC2 <= b < 0xE0 then 2
    else if 0xE0 <= b < 0xF0 then 3
    else if 0xF0 <= b < 0xF5 then 4
    else 0
  }

  /** The code point of a sequence of the right width: shortest form only, no surrogates. */
  function Point(b: seq<Byte>): int
    requires b != []
  {
    if |b| != Width(b[0]) || (|b| > 1 && !Continues(b[1])) || (|b| > 2 && !Continues(b[2]))
      || (|b| > 3 && !Continues(b[3])) then -1
    else
      var v :=
        if |b| == 1 then b[0]
        else if |b| == 2 then (b[0] as int - 0xC0) * 64 + (b[1] as int - 0x80)
        else if |b| == 3 then (b[0] as int - 0xE0) * 4096 + (b[1] as int - 0x80) * 64 + (b[2] as int - 0x80)
        else if |b| == 4
          then (b[0] as int - 0xF0) * 262144 + (b[1] as int - 0x80) * 4096 + (b[2] as int - 0x80) * 64
            + (b[3] as int - 0x80)
        else -1;
      if (|b| == 3 && v < 0x800) || (|b| == 4 && v < 0x10000) || 0xD800 <= v < 0xE000 || v >= 0x110000 then -1 else v
  }

  predicate IsPoint(v: int) { 0 <= v < 0xD800 || 0xE000 <= v < 0x110000 }

  /** Decoding with a replacement character for a byte that starts no sequence. */
  function DecodeAll(b: seq<Byte>): string {
    if b == [] then ""
    else
      var w := Width(b[0]);
      if w == 0 || w > |b| || !IsPoint(Point(b[..w])) then ['\U{FFFD}'] + DecodeAll(b[1..])
      else [Point(b[..w]) as char] + DecodeAll(b[w..])
  }

  /** Base-64 digits, the way UTF-8 distributes them. */
  lemma Digits(v: nat)
    ensures v == v / 64 * 64 + v % 64
    ensures v / 64 == v / 4096 * 64 + v / 64 % 64
    ensures v / 4096 == v / 262144 * 64 + v / 4096 % 64
  {
    assert v / 64 / 64 == v / 4096;
    assert v / 4096 / 64 == v / 262144;
  }

  lemma PointOfShort(c: char)
    requires c as int < 0x800
    ensures var b := Encode(c); Width(b[0]) == |b| && Point(b) == c as int
  {
    Digits(c as int);
  }

  lemma PointOfMiddle(c: char)
    requires 0x800 <= c as int < 0x10000
    ensures var b := Encode(c); Width(b[0]) == |b| && Point(b) == c as int
  {
    Digits(c as int);
  }

  lemma PointOfLong(c: char)
    requires 0x10000 <= c as int
    ensures var b := Encode(c); Width(b[0]) == |b| && Point(b) == c as int
  {
    Digits(c as int);
  }

  lemma PointOfEncode(c: char)
    ensures var b := Encode(c); Width(b[0]) == |b| && Point(b) == c as int
  {
    hide Point, Width, Encode;
    if c as int < 0x800 {
      PointOfShort(c);
    } else if c as int < 0x10000 {
      PointOfMiddle(c);
    } else {
      PointOfLong(c);
    }
  }

  lemma {:induction false} Utf8RoundTrip(s: string)
    ensures DecodeAll(EncodeAll(s)) == s
  {
    if s != "" {
      var head, tail := Encode(s[0]), EncodeAll(s[1..]);
      PointOfEncode(s[0]);
      assert (head + tail)[..|head|] == head && (head + tail)[|head|..] == tail;
      hide Point, Width, Encode;
      Utf8RoundTrip(s[1..]);
      assert (head + tail)[0] == head[0];
      assert IsPoint(s[0] as int);
    }
  }

  /** Every byte belongs to a well-formed sequence. */
  predicate Valid(b: seq<Byte>) {
    b == [] ||
    var w := Width(b[0]);
    w != 0 && w <= |b| && IsPoint(Point(b[..w])) && Valid(b[w..])
  }

  lemma {:induction false} EncodedIsValid(s: string)
    ensures Valid(EncodeAll(s))
  {
    if s != "" {
      var head, tail := Encode(s[0]), EncodeAll(s[1..]);
      PointOfEncode(s[0]);
      assert (head + tail)[..|head|] == head && (head + tail)[|head|..] == tail;
      hide Point, Width, Encode;
      EncodedIsValid(s[1..]);
      assert (head + tail)[0] == head[0];
      assert IsPoint(s[0] as int);
    }
  }

  /** Different texts have different bytes. */
  lemma EncodingIsInjective(s: string, t: string)
    requires EncodeAll(s) == EncodeAll(t)
    ensures s == t
  {
    Utf8RoundTrip(s);
    Utf8RoundTrip(t);
  }
}
