/** The encodings as their standards write them: alphabets, digits and the examples given there
    (RFC 3629, RFC 3986, RFC 4648), and the text of an envelope (core/credential_crypto.py). */
module Encodings {
  import opened Basics
  import opened Text
  import opened Utf8
  import PercentCode
  import Base64
  import CredentialEnvelope

  // ---- UTF-8 (sections 3 and 7 of RFC 3629) ----------------------------------------------------------

  /** The standard's first example: "A", "not identical to", "Alpha", full stop. */
  lemma NotIdenticalToAlpha()
    ensures EncodeAll("A\U{2262}\U{391}.") == [0x41, 0xE2, 0x89, 0xA2, 0xCE, 0x91, 0x2E]
  {
    var s := "A\U{2262}\U{391}.";
    assert s[1..] == "\U{2262}\U{391}." && s[2..] == "\U{391}." && s[3..] == "." && s[4..] == "";
    assert s[1..][1..] == s[2..] && s[2..][1..] == s[3..] && s[3..][1..] == s[4..];
    assert EncodeAll(s[3..]) == [0x2E];
    assert EncodeAll(s[2..]) == [0xCE, 0x91] + EncodeAll(s[3..]);
    assert EncodeAll(s[1..]) == [0xE2, 0x89, 0xA2] + EncodeAll(s[2..]);
  }

  /** Its last example, without the byte order mark: the ideograph for a stump of a tree, beyond the
      first plane. */
  lemma StumpOfATree()
    ensures EncodeAll("\U{233B4}") == [0xF0, 0xA3, 0x8E, 0xB4]
  {
    assert "\U{233B4}"[1..] == "";
  }

  // ---- percent-encoding (sections 2.1 and 2.3 of RFC 3986) ---------------------------------------------------

  const HEX_DIGITS := "0123456789ABCDEF"

  predicate NeedsNoEscape(c: char) {
    ('a' <= c <= 'z') || ('A' <= c <= 'Z') || ('0' <= c <= '9') || c in "-._~"
  }

  lemma QuoteOfOne(c: char)
    requires c < '\U{80}'
    ensures PercentCode.Quote([c]) ==
      if NeedsNoEscape(c) then [c] else ['%', HEX_DIGITS[c as int / 16], HEX_DIGITS[c as int % 16]]
  {
    assert [c][1..] == [];
    assert EncodeAll([c]) == [c as int];
    assert [c as int][1..] == [];
    assert PercentCode.QuoteBytes([c as int]) == PercentCode.QuoteByte(c as int);
    HexDigits(c as int / 16);
    HexDigits(c as int % 16);
  }

  lemma HexDigits(d: nat)
    requires d < 16
    ensures PercentCode.HexDigit(d) == HEX_DIGITS[d]
  {
  }

  lemma {:induction false} EncodeAllOfSum(a: string, b: string)
    ensures EncodeAll(a + b) == EncodeAll(a) + EncodeAll(b)
  {
    if a == "" {
      assert a + b == b;
    } else {
      assert (a + b)[1..] == a[1..] + b;
      EncodeAllOfSum(a[1..], b);
    }
  }

  lemma {:induction false} QuoteBytesOfSum(a: seq<Byte>, b: seq<Byte>)
    ensures PercentCode.QuoteBytes(a + b) == PercentCode.QuoteBytes(a) + PercentCode.QuoteBytes(b)
  {
    if a == [] {
      assert a + b == b;
    } else {
      assert (a + b)[1..] == a[1..] + b;
      QuoteBytesOfSum(a[1..], b);
    }
  }

  /** Quoting goes character by character: unreserved characters stand for themselves, any other
      ASCII character becomes a percent sign and its two hexadecimal digits. */
  lemma {:induction false} QuoteOfAscii(s: string, i: nat)
    requires i < |s| && s[i] < '\U{80}'
    ensures PercentCode.Quote(s) == PercentCode.Quote(s[..i])
      + (if NeedsNoEscape(s[i]) then [s[i]] else ['%', HEX_DIGITS[s[i] as int / 16], HEX_DIGITS[s[i] as int % 16]])
      + PercentCode.Quote(s[i + 1..])
  {
    assert s == s[..i] + ([s[i]] + s[i + 1..]);
    QuoteOfOne(s[i]);
    hide PercentCode.QuoteBytes, EncodeAll;
    EncodeAllOfSum(s[..i], [s[i]] + s[i + 1..]);
    EncodeAllOfSum([s[i]], s[i + 1..]);
    QuoteBytesOfSum(EncodeAll(s[..i]), EncodeAll([s[i]]) + EncodeAll(s[i + 1..]));
    QuoteBytesOfSum(EncodeAll([s[i]]), EncodeAll(s[i + 1..]));
  }

  // ---- base64url (sections 4, 5 and 10 of RFC 4648) --------------------------------------------------------------

  /** The alphabet, in four rows. */
  function Digit64(d: nat): char
    requires d < 64
  {
    if d < 16 then "ABCDEFGHIJKLMNOP"[d]
    else if d < 32 then "QRSTUVWXYZabcdef"[d - 16]
    else if d < 48 then "ghijklmnopqrstuv"[d - 32]
    else "wxyz0123456789-_"[d - 48]
  }

  lemma SymbolsAreTheAlphabet(d: nat)
    requires d < 64
    ensures Base64.Symbol(d) == Digit64(d)
  {
    if d < 16 {
      FirstRow(d);
    } else if d < 32 {
      SecondRow(d);
    } else if d < 48 {
      ThirdRow(d);
    } else {
      FourthRow(d);
    }
  }

  lemma FirstRow(d: nat)
    requires d < 16
    ensures Base64.Symbol(d) == "ABCDEFGHIJKLMNOP"[d]
  {
  }

  lemma SecondRow(d: nat)
    requires 16 <= d < 32
    ensures Base64.Symbol(d) == "QRSTUVWXYZabcdef"[d - 16]
  {
  }

  lemma ThirdRow(d: nat)
    requires 32 <= d < 48
    ensures Base64.Symbol(d) == "ghijklmnopqrstuv"[d - 32]
  {
  }

  lemma FourthRow(d: nat)
    requires 48 <= d < 64
    ensures Base64.Symbol(d) == "wxyz0123456789-_"[d - 48]
  {
  }

  /** Three bytes are one number of 24 bits, written with four digits of six bits, the first digit
      first. */
  lemma FourDigits(x: Byte, y: Byte, z: Byte) returns (a: nat, b: nat, c: nat, d: nat)
    ensures a < 64 && b < 64 && c < 64 && d < 64
    ensures Base64.Triple(x, y, z) == [Digit64(a), Digit64(b), Digit64(c), Digit64(d)]
    ensures 262144 * a + 4096 * b + 64 * c + d == 65536 * x + 256 * y + z
  {
    a, b, c, d := x / 4, x % 4 * 16 + y / 16, y % 16 * 4 + z / 64, z % 64;
    SymbolsAreTheAlphabet(a);
    SymbolsAreTheAlphabet(b);
    SymbolsAreTheAlphabet(c);
    SymbolsAreTheAlphabet(d);
    hide Base64.Symbol, Digit64;
    assert x == x / 4 * 4 + x % 4 && y == y / 16 * 16 + y % 16 && z == z / 64 * 64 + z % 64;
  }

  /** The standard's examples, without their padding, and a pair that shows the two characters in
      which this alphabet differs from the other one. */
  lemma Foobar()
    ensures Base64.Encode(EncodeAll("f")) == "Zg"
    ensures Base64.Encode(EncodeAll("fo")) == "Zm8"
    ensures Base64.Encode(EncodeAll("foo")) == "Zm9v"
    ensures Base64.Encode([0xFB, 0xFF]) == "-_8"
  {
    assert "f"[1..] == "" && EncodeAll("f") == [0x66];
    assert "o"[1..] == "" && EncodeAll("o") == [0x6F];
    assert "fo"[1..] == "o" && EncodeAll("fo") == [0x66, 0x6F];
    assert "oo"[1..] == "o" && EncodeAll("oo") == [0x6F, 0x6F];
    assert "foo"[1..] == "oo" && EncodeAll("foo") == [0x66, 0x6F, 0x6F];
    assert [0x66, 0x6F, 0x6F][3..] == [];
    assert Base64.Encode([]) == "";
    assert Base64.Triple(0x66, 0x6F, 0x6F) == "Zm9v";
    assert Base64.Triple(0x66, 0x6F, 0) == "Zm8A";
    assert Base64.Triple(0x66, 0, 0) == "ZgAA";
    assert Base64.Triple(0xFB, 0xFF, 0) == "-_8A";
  }

  /** The same digit in either alphabet. */
  predicate SameDigit(a: char, b: char) { a == b || (a == '-' && b == '+') || (a == '_' && b == '/') }

  /** A text in the ordinary alphabet is read as the same text in the URL-safe one. */
  lemma SameValue(a: char, b: char)
    requires SameDigit(a, b)
    ensures Base64.Sextet(a) == Base64.Sextet(b)
  {
  }

  predicate SameDigits(s: string, t: string) { |s| == |t| && forall i :: 0 <= i < |s| ==> SameDigit(s[i], t[i]) }

  lemma {:induction false} EitherAlphabetIsRead(s: string, t: string)
    requires SameDigits(s, t) && Base64.IsData(s) && |s| % 4 != 1
    ensures Base64.IsData(t) && Base64.DecodeData(t) == Base64.DecodeData(s)
  {
    hide Base64.Sextet, Base64.Bytes, Base64.DecodeData;
    forall i | 0 <= i < |s| ensures Base64.Sextet(t[i]) == Base64.Sextet(s[i]) {
      SameValue(s[i], t[i]);
    }
    if |s| >= 4 {
      assert forall i :: 0 <= i < |s| - 4 ==> s[4..][i] == s[i + 4] && t[4..][i] == t[i + 4];
      EitherAlphabetIsRead(s[4..], t[4..]);
    }
    SameBytes(s, t);
  }

  lemma SameBytes(s: string, t: string)
    requires |s| == |t| && Base64.IsData(s) && Base64.IsData(t) && |s| % 4 != 1
    requires forall i :: 0 <= i < |s| ==> Base64.Sextet(t[i]) == Base64.Sextet(s[i])
    requires |s| >= 4 ==> Base64.DecodeData(t[4..]) == Base64.DecodeData(s[4..])
    ensures Base64.DecodeData(t) == Base64.DecodeData(s)
  {
    hide Base64.Sextet, Base64.Bytes;
  }

  lemma {:induction false} OnlyPaddingIsCut(s: string, i: nat)
    requires |s| - Base64.Padding(s) <= i < |s|
    ensures s[i] == '='
  {
    if i < |s| - 1 {
      OnlyPaddingIsCut(s[..|s| - 1], i);
    }
  }

  /** A character of neither alphabet makes a text unreadable, wherever it stands. */
  lemma ForeignCharacterIsRefused(value: string, i: nat)
    requires i < |Strip(value)| && Base64.Sextet(Strip(value)[i]) == 64 && Strip(value)[i] != '='
    ensures Base64.Decode(value) == None
  {
    hide Strip, Base64.DecodeData, Base64.Sextet;
    var encoded := Strip(value);
    var padded := encoded + Base64.Pad((4 - |encoded| % 4) % 4);
    assert padded[i] == encoded[i];
    var data := padded[..|padded| - Base64.Padding(padded)];
    if i >= |data| {
      OnlyPaddingIsCut(padded, i);
    } else {
      assert data[i] == encoded[i];
      assert !Base64.IsData(data);
    }
  }

  // ---- envelopes ------------------------------------------------------------

  /** What is written for a credential: the version tag and, in base64url, the nonce and the text
      sealed under an address and a field that are spelled in one way only. */
  lemma EnvelopeHolds(
      c: CredentialEnvelope.Aead, normalise: string -> string, key: seq<Byte>, nonce: seq<Byte>, email: string,
      field: string, plain: string)
    requires CredentialEnvelope.Encrypt(c, normalise, key, nonce, email, field, plain).Ok?
    ensures var bound := "chatgpt-account-security:v1:" + normalise(email) + ":" + Lower(Strip(field));
      CredentialEnvelope.Encrypt(c, normalise, key, nonce, email, field, plain).value
      == "aesgcm:v1:" + Base64.Encode(nonce + c.seal(key, nonce, EncodeAll(plain), EncodeAll(bound)))
  {
    hide EncodeAll, Base64.Encode, Strip, Lower;
  }

  /** A text without the tag, or with too little behind it for a nonce and an authentication tag, is
      no envelope. */
  lemma NoEnvelope(
      c: CredentialEnvelope.Aead, normalise: string -> string, key: seq<Byte>, email: string, field: string,
      text: string)
    requires !("aesgcm:v1:" <= text) || Base64.Decode(text[10..]).None? || |Base64.Decode(text[10..]).value| < 12 + 16
    ensures CredentialEnvelope.Decrypt(c, normalise, key, email, field, text) == Err(CredentialEnvelope.CryptoError)
  {
    hide Base64.Decode;
  }

  /** Key material is accepted exactly when it is 64 hexadecimal digits or unpadded or padded
      base64 of 32 bytes; a key is never of another length. */
  lemma KeysAreThirtyTwoBytes(value: string)
    ensures CredentialEnvelope.KeyOf(value).Ok? ==> |CredentialEnvelope.KeyOf(value).value| == 32
    ensures CredentialEnvelope.KeyOf(value).Ok? <==>
      (|Strip(value)| == 64 && CredentialEnvelope.IsHex(Strip(value)))
      || (Base64.Decode(Strip(value)).Some? && |Base64.Decode(Strip(value)).value| == 32)
  {
    hide Strip, Base64.Decode;
    var text := Strip(value);
    if |text| == 64 && CredentialEnvelope.IsHex(text) {
      HexLength(text);
      CredentialEnvelope.HexIsNoBase64Key(text);
    }
  }

  lemma {:induction false} HexLength(s: string)
    requires CredentialEnvelope.IsHex(s) && |s| % 2 == 0
    ensures |CredentialEnvelope.FromHex(s)| == |s| / 2
  {
    if s != "" {
      HexLength(s[2..]);
    }
  }
}
