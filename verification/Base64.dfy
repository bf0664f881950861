/** Unpadded base64url (sections 3.2 and 5 of RFC 4648), written and read as
    core/credential_crypto.py does: written with "-" and "_", read in either alphabet, with
    padding completed and everything else refused. */
module Base64 {
  import opened Basics
  import opened Text
  import opened Utf8

  // ---- six bits and a character -----------------------------------------------------------------

  function Symbol(d: nat): char
    requires d < 64
  {
    if d < 26 then ('A' as int + d) as char
    else if d < 52 then ('a' as int + d - 26) as char
    else if d < 62 then ('0' as int + d - 52) as char
    else if d == 62 then '-' else '_'
  }

  /** 64 for a character that is in neither alphabet. */
  function Sextet(c: char): (d: nat)
    ensures d <= 64
  {
    if 'A' <= c <= 'Z' then c as int - 'A' as int
    else if 'a' <= c <= 'z' then c as int - 'a' as int + 26
    else if '0' <= c <= '9' then c as int - '0' as int + 52
    else if c == '-' || c == '+' then 62
    else if c == '_' || c == '/' then 63
    else 64
  }

  lemma SymbolRoundTrip(d: nat)
    requires d < 64
    ensures Sextet(Symbol(d)) == d && !IsSpace(Symbol(d)) && Symbol(d) != '=' && Symbol(d) < '\U{80}'
  {
  }

  // ---- encoding --------------------------------------------------------------------------------------

  function Triple(x: Byte, y: Byte, z: Byte): string {
    [Symbol(x / 4), Symbol(x % 4 * 16 + y / 16), Symbol(y % 16 * 4 + z / 64), Symbol(z % 64)]
  }

  function Encode(b: seq<Byte>): string {
    if |b| == 0 then ""
    else if |b| == 1 then Triple(b[0], 0, 0)[..2]
    else if |b| == 2 then Triple(b[0], b[1], 0)[..3]
    else Triple(b[0], b[1], b[2]) + Encode(b[3..])
  }

  // ---- decoding ----------------------------------------------------------------------------------------

  predicate IsData(s: string) { forall i :: 0 <= i < |s| ==> Sextet(s[i]) < 64 }

  function Bytes(a: nat, b: nat, c: nat, d: nat): seq<Byte>
    requires a < 64 && b < 64 && c < 64 && d < 64
  {
    [a * 4 + b / 16, b % 16 * 16 + c / 4, c % 4 * 64 + d]
  }

  /** Data characters without padding; left-over low bits are ignored. */
  function DecodeData(s: string): seq<Byte>
    requires IsData(s) && |s| % 4 != 1
  {
    if |s| == 0 then []
    else if |s| == 2 then Bytes(Sextet(s[0]), Sextet(s[1]), 0, 0)[..1]
    else if |s| == 3 then Bytes(Sextet(s[0]), Sextet(s[1]), Sextet(s[2]), 0)[..2]
    else Bytes(Sextet(s[0]), Sextet(s[1]), Sextet(s[2]), Sextet(s[3])) + DecodeData(s[4..])
  }

  /** How many of the last characters are "=". */
  function Padding(s: string): (n: nat)
    ensures n <= |s|
  {
    if s == "" || s[|s| - 1] != '=' then 0 else 1 + Padding(s[..|s| - 1])
  }

  /** The strict decoder: data, then exactly the padding that completes the last group. */
  function Strict(s: string): Option<seq<Byte>> {
    var p := Padding(s);
    var data := s[..|s| - p];
    if IsData(data) && |data| % 4 != 1 && p == (4 - |data| % 4) % 4 then Some(DecodeData(data)) else None
  }

  function Pad(n: nat): string { seq(n, _ => '=') }

  /** `_b64decode`; `None` stands for its errors. */
  function Decode(value: string): Option<seq<Byte>> {
    var encoded := Strip(value);
    if encoded == "" then None else Strict(encoded + Pad((4 - |encoded| % 4) % 4))
  }

  // ---- the round trip ---------------------------------------------------------------------------------------

  lemma TripleRoundTrip(x: Byte, y: Byte, z: Byte)
    ensures var t := Triple(x, y, z);
      |t| == 4 && Sextet(t[0]) < 64 && Sextet(t[1]) < 64 && Sextet(t[2]) < 64 && Sextet(t[3]) < 64
      && Bytes(Sextet(t[0]), Sextet(t[1]), Sextet(t[2]), Sextet(t[3])) == [x, y, z]
  {
    SymbolRoundTrip(x / 4);
    SymbolRoundTrip(x % 4 * 16 + y / 16);
    SymbolRoundTrip(y % 16 * 4 + z / 64);
    SymbolRoundTrip(z % 64);
    hide Symbol, Sextet;
    Regroup(x, y, z);
  }

  lemma Regroup(x: Byte, y: Byte, z: Byte)
    ensures Bytes(x / 4, x % 4 * 16 + y / 16, y % 16 * 4 + z / 64, z % 64) == [x, y, z]
  {
    assert (x % 4 * 16 + y / 16) / 16 == x % 4;
    assert (y % 16 * 4 + z / 64) / 4 == y % 16;
  }

  lemma DataOfSum(s: string, t: string)
    ensures IsData(s + t) <==> IsData(s) && IsData(t)
  {
    forall i | 0 <= i < |s| ensures (s + t)[i] == s[i] {}
    forall i | 0 <= i < |t| ensures (s + t)[|s| + i] == t[i] {}
  }

  lemma OneByte(x: Byte)
    ensures var s := Triple(x, 0, 0)[..2]; IsData(s) && DecodeData(s) == [x]
  {
    TripleRoundTrip(x, 0, 0);
    var t := Triple(x, 0, 0);
    hide Sextet, Triple;
    assert Bytes(Sextet(t[0]), Sextet(t[1]), Sextet(t[2]), Sextet(t[3]))[0] == x;
  }

  lemma TwoBytes(x: Byte, y: Byte)
    ensures var s := Triple(x, y, 0)[..3]; IsData(s) && DecodeData(s) == [x, y]
  {
    TripleRoundTrip(x, y, 0);
    var t := Triple(x, y, 0);
    hide Sextet, Triple;
    assert Bytes(Sextet(t[0]), Sextet(t[1]), Sextet(t[2]), Sextet(t[3]))[0] == x;
    assert Bytes(Sextet(t[0]), Sextet(t[1]), Sextet(t[2]), Sextet(t[3]))[1] == y;
  }

  lemma ThreeBytes(x: Byte, y: Byte, z: Byte, rest: string)
    requires IsData(rest) && |rest| % 4 != 1
    ensures var s := Triple(x, y, z) + rest; IsData(s) && |s| % 4 != 1 && DecodeData(s) == [x, y, z] + DecodeData(rest)
  {
    hide Sextet, Triple, Bytes;
    TripleRoundTrip(x, y, z);
    var t := Triple(x, y, z);
    DataOfSum(t, rest);
    assert (t + rest)[4..] == rest;
  }

  /** Only alphabet characters are written, four of them for three bytes, and they decode to
      what was written. */
  lemma {:induction false} DataRoundTrip(b: seq<Byte>)
    ensures IsData(Encode(b)) && |Encode(b)| == (4 * |b| + 2) / 3
    ensures |Encode(b)| % 4 != 1 && DecodeData(Encode(b)) == b
  {
    hide DecodeData, IsData;
    if |b| == 0 {
      NoBytes();
    } else if |b| == 1 {
      OneByte(b[0]);
    } else if |b| == 2 {
      TwoBytes(b[0], b[1]);
    } else {
      DataRoundTrip(b[3..]);
      ThreeBytes(b[0], b[1], b[2], Encode(b[3..]));
      assert b == [b[0], b[1], b[2]] + b[3..];
    }
  }

  lemma NoBytes()
    ensures IsData("") && DecodeData("") == []
  {
  }

  lemma {:induction false} PaddingOfSum(s: string, n: nat)
    requires IsData(s)
    ensures Padding(s + Pad(n)) == n
    decreases n
  {
    if n == 0 {
      assert s + Pad(0) == s;
    } else {
      assert (s + Pad(n))[..|s| + n - 1] == s + Pad(n - 1);
      PaddingOfSum(s, n - 1);
    }
  }

  lemma DataIsSolid(s: string)
    requires IsData(s)
    ensures Strip(s) == s && Strip(s + "\n") == s
  {
    TrimTwice(s, IsSpace);
    if s == "" {
      assert s + "\n" == "\n";
      assert "\n"[1..] == "";
    } else {
      NewlineIsStripped(s);
    }
  }

  lemma NewlineIsStripped(s: string)
    requires s != "" && !IsSpace(s[0]) && !IsSpace(s[|s| - 1])
    ensures Strip(s + "\n") == s
  {
    var t := s + "\n";
    assert t[0] == s[0];
    assert TrimLeft(t, IsSpace) == t;
    assert t[..|t| - 1] == s;
    assert TrimRight(t, IsSpace) == TrimRight(s, IsSpace) == s;
  }

  /** Data decodes to itself without its padding. */
  lemma DecodeOfData(s: string)
    requires IsData(s) && s != "" && |s| % 4 != 1
    ensures Decode(s) == Some(DecodeData(s))
  {
    hide Strip, DecodeData, Padding, IsData, Strict, Pad;
    DataIsSolid(s);
    var n := (4 - |s| % 4) % 4;
    PaddingOfSum(s, n);
    StrictOfPadded(s, n);
  }

  lemma StrictOfPadded(s: string, n: nat)
    requires IsData(s) && |s| % 4 != 1 && n == (4 - |s| % 4) % 4 && Padding(s + Pad(n)) == n
    ensures Strict(s + Pad(n)) == Some(DecodeData(s))
  {
    hide DecodeData, Padding, IsData;
    assert (s + Pad(n))[..|s|] == s;
  }

  /** Every byte string but the empty one comes back; the empty one is written as the empty
      text, which is refused. */
  lemma RoundTripExactly(b: seq<Byte>)
    ensures Decode(Encode(b)) == Some(b) <==> b != []
    ensures b == [] ==> Decode(Encode(b)) == None
  {
    DataRoundTrip(b);
    if b != [] {
      DecodeOfData(Encode(b));
    }
  }

  lemma {:induction false} DecodedLength(s: string)
    requires IsData(s) && |s| % 4 != 1
    ensures |DecodeData(s)| == 3 * |s| / 4
  {
    hide Sextet;
    if |s| >= 4 {
      DecodedLength(s[4..]);
    }
  }
}
