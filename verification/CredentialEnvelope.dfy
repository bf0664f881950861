/** Credential envelopes: key material, associated data, and sealing under an ideal cipher
    (core/credential_crypto.py). */
module CredentialEnvelope {
  import opened Basics
  import opened Text
  import opened Utf8
  import Base64

  datatype Failure = KeyError | ValueError | CryptoError

  // ---- key material --------------------------------------------------------------------------------

  predicate HexChar(c: char) { ('0' <= c <= '9') || ('a' <= c <= 'f') || ('A' <= c <= 'F') }

  function HexValue(c: char): (n: nat)
    requires HexChar(c)
    ensures n < 16
  {
    if c <= '9' then c as int - '0' as int
    else if c <= 'F' then c as int - 'A' as int + 10
    else c as int - 'a' as int + 10
  }

  function HexDigit(d: nat): (c: char)
    requires d < 16
    ensures HexChar(c) && HexValue(c) == d
  {
    if d < 10 then ('0' as int + d) as char else ('a' as int + d - 10) as char
  }

  predicate IsHex(s: string) { forall i :: 0 <= i < |s| ==> HexChar(s[i]) }

  /** `bytes.fromhex` on hexadecimal digits only. */
  function FromHex(s: string): seq<Byte>
    requires IsHex(s) && |s| % 2 == 0
  {
    if s == "" then [] else [16 * HexValue(s[0]) + HexValue(s[1])] + FromHex(s[2..])
  }

  function Hex(b: seq<Byte>): string {
    if b == [] then "" else [HexDigit(b[0] / 16), HexDigit(b[0] % 16)] + Hex(b[1..])
  }

  /** `_decode_key_material` on ASCII text. */
  function KeyOf(value: string): Result<seq<Byte>, Failure> {
    var text := Strip(value);
    var key := if |text| == 64 && IsHex(text) then Some(FromHex(text)) else Base64.Decode(text);
    if key.None? || |key.value| != 32 then Err(KeyError) else Ok(key.value)
  }

  lemma {:induction false} HexRoundTrip(b: seq<Byte>)
    ensures IsHex(Hex(b)) && |Hex(b)| == 2 * |b| && FromHex(Hex(b)) == b
  {
    if b != [] {
      HexRoundTrip(b[1..]);
      assert Hex(b)[2..] == Hex(b[1..]);
      assert 16 * (b[0] / 16) + b[0] % 16 == b[0];
    }
  }

  /** A key survives the three ways of writing it: base64url, as in the environment; with a line
      feed, as in the key file; and as 64 hexadecimal digits. */
  lemma KeyRoundTrip(key: seq<Byte>)
    requires |key| == 32
    ensures |Base64.Encode(key)| == 43
    ensures KeyOf(Base64.Encode(key)) == Ok(key)
    ensures KeyOf(Base64.Encode(key) + "\n") == Ok(key)
    ensures KeyOf(Hex(key)) == Ok(key)
  {
    Base64.DataRoundTrip(key);
    Base64.DataIsSolid(Base64.Encode(key));
    Base64.RoundTripExactly(key);
    HexRoundTrip(key);
    HexIsSolid(Hex(key));
    hide Strip, Base64.Encode, Base64.Decode, Hex, IsHex, FromHex, Base64.IsData;
  }

  lemma HexIsSolid(s: string)
    requires IsHex(s)
    ensures Strip(s) == s
  {
    TrimTwice(s, IsSpace);
  }

  /** The two readings cannot be confused: what is read as 64 hexadecimal digits would be 48
      bytes, not a key, in base64url. */
  lemma HexIsNoBase64Key(text: string)
    requires |text| == 64 && IsHex(text)
    ensures Base64.Decode(text).Some? ==> |Base64.Decode(text).value| == 48
  {
    assert Base64.IsData(text);
    Base64.DecodeOfData(text);
    Base64.DecodedLength(text);
  }

  // ---- associated data ----------------------------------------------------------------------------------

  /** `normalise` is NFKC, trimming and case folding. */
  function NormalEmail(normalise: string -> string, email: string): Result<string, Failure> {
    var e := normalise(email);
    if e == "" || |e| > 320 then Err(ValueError) else Ok(e)
  }

  function NormalField(field: string): Result<string, Failure> {
    var f := Lower(Strip(field));
    if f == "password" || f == "totp_secret" || f == "recovery_codes" || f == "api_secret" then Ok(f)
    else Err(ValueError)
  }

  /** Normalised email and field. */
  function Identity(normalise: string -> string, email: string, field: string): Result<(string, string), Failure> {
    var e, f := NormalEmail(normalise, email), NormalField(field);
    if e.Err? || f.Err? then Err(ValueError) else Ok((e.value, f.value))
  }

  function AadText(email: string, field: string): string {
    "chatgpt-account-security:v1:" + email + ":" + field
  }

  /** `_associated_data`. */
  function AssociatedData(normalise: string -> string, email: string, field: string): Result<seq<Byte>, Failure> {
    var id := Identity(normalise, email, field);
    if id.Err? then Err(ValueError) else Ok(EncodeAll(AadText(id.value.0, id.value.1)))
  }

  lemma FieldHasNoColon(field: string)
    requires NormalField(field).Ok?
    ensures ':' !in NormalField(field).value
  {
  }

  lemma AadTextIsInjective(e: string, f: string, e': string, f': string)
    requires ':' !in f && ':' !in f' && AadText(e, f) == AadText(e', f')
    ensures e == e' && f == f'
  {
    var head := "chatgpt-account-security:v1:";
    AfterLastOfSum(head + e, ':', f);
    AfterLastOfSum(head + e', ':', f');
    assert head + e + ":" + f == head + e + [':'] + f;
    assert head + e' + ":" + f' == head + e' + [':'] + f';
    var n := |AadText(e, f)| - |f| - 1;
    assert AadText(e, f)[|head|..n] == e;
    assert AadText(e', f')[|head|..n] == e';
  }

  /** Equal associated data means equal normalised email and field, even when the email contains
      colons. */
  lemma AssociatedDataIsInjective(normalise: string -> string, e: string, f: string, e': string, f': string)
    requires AssociatedData(normalise, e, f).Ok? && AssociatedData(normalise, e', f').Ok?
    ensures AssociatedData(normalise, e, f) == AssociatedData(normalise, e', f')
       <==> Identity(normalise, e, f) == Identity(normalise, e', f')
  {
    FieldHasNoColon(f);
    FieldHasNoColon(f');
    var i, j := Identity(normalise, e, f).value, Identity(normalise, e', f').value;
    hide AadText, EncodeAll, NormalField, NormalEmail;
    if AssociatedData(normalise, e, f) == AssociatedData(normalise, e', f') {
      EncodingIsInjective(AadText(i.0, i.1), AadText(j.0, j.1));
      AadTextIsInjective(i.0, i.1, j.0, j.1);
    }
  }

  // ---- sealing ---------------------------------------------------------------------------------------------

  datatype Aead = Aead(
    seal: (seq<Byte>, seq<Byte>, seq<Byte>, seq<Byte>) -> seq<Byte>,
    open: (seq<Byte>, seq<Byte>, seq<Byte>, seq<Byte>) -> Option<seq<Byte>>)

  /** The ideal cipher: what was sealed opens under its own key and associated data and no other,
      and is at least as long as a tag.  (A ciphertext of exactly the length of the plaintext plus
      the tag could not keep apart all associated data.) */
  ghost predicate Ideal(c: Aead) {
    forall key, nonce, plain, aad, key', aad' :: OpensOnlyOwn(c, key, nonce, plain, aad, key', aad')
  }

  predicate OpensOnlyOwn(
      c: Aead, key: seq<Byte>, nonce: seq<Byte>, plain: seq<Byte>, aad: seq<Byte>, key': seq<Byte>, aad': seq<Byte>) {
    |c.seal(key, nonce, plain, aad)| >= 16
    && c.open(key', nonce, c.seal(key, nonce, plain, aad), aad')
       == if key' == key && aad' == aad then Some(plain) else None
  }

  // A toy that is ideal in this sense, so that the assumption is not an empty one.

  function Unary(n: nat): seq<Byte> { seq(n, _ => 1) + [0] }

  function LeadingOnes(b: seq<Byte>): (n: nat)
    ensures n <= |b|
  {
    if b == [] || b[0] != 1 then 0 else 1 + LeadingOnes(b[1..])
  }

  lemma {:induction false} LeadingOnesOfUnary(n: nat, rest: seq<Byte>)
    ensures LeadingOnes(Unary(n) + rest) == n
  {
    if n > 0 {
      assert (Unary(n) + rest)[1..] == Unary(n - 1) + rest;
      LeadingOnesOfUnary(n - 1, rest);
    }
  }

  function ToySeal(key: seq<Byte>, nonce: seq<Byte>, plain: seq<Byte>, aad: seq<Byte>): seq<Byte> {
    Unary(16 + |plain|) + (plain + (Unary(|key|) + (key + aad)))
  }

  function ToyOpen(key: seq<Byte>, nonce: seq<Byte>, sealed: seq<Byte>, aad: seq<Byte>): Option<seq<Byte>> {
    var n := LeadingOnes(sealed);
    if n < 16 || |sealed| < n + 1 + (n - 16) then None
    else
      var plain := sealed[n + 1..n + 1 + (n - 16)];
      if sealed == ToySeal(key, nonce, plain, aad) then Some(plain) else None
  }

  lemma ToyOpens(key: seq<Byte>, nonce: seq<Byte>, plain: seq<Byte>, aad: seq<Byte>, key': seq<Byte>, aad': seq<Byte>)
    ensures ToyOpen(key', nonce, ToySeal(key, nonce, plain, aad), aad')
       == if key' == key && aad' == aad then Some(plain) else None
  {
    var tail, tail' := Unary(|key|) + (key + aad), Unary(|key'|) + (key' + aad');
    var sealed := ToySeal(key, nonce, plain, aad);
    var head := Unary(16 + |plain|);
    LeadingOnesOfUnary(16 + |plain|, plain + tail);
    assert sealed == head + plain + tail;
    assert sealed[|head|..|head| + |plain|] == plain;
    if sealed == ToySeal(key', nonce, plain, aad') {
      assert sealed[|head| + |plain|..] == tail;
      assert ToySeal(key', nonce, plain, aad')[|head| + |plain|..] == tail';
      LeadingOnesOfUnary(|key|, key + aad);
      LeadingOnesOfUnary(|key'|, key' + aad');
      var k := |Unary(|key|)|;
      assert tail[k..k + |key|] == key && tail'[k..k + |key|] == key';
      assert tail[k + |key|..] == aad && tail'[k + |key|..] == aad';
    }
  }

  lemma IdealIsPossible() returns (c: Aead)
    ensures Ideal(c)
  {
    c := Aead(ToySeal, ToyOpen);
    forall key, nonce, plain, aad, key', aad' ensures OpensOnlyOwn(c, key, nonce, plain, aad, key', aad') {
      ToyOpens(key, nonce, plain, aad, key', aad');
    }
  }

  /** The version tag in front of every envelope. */
  function Envelope(payload: seq<Byte>): string { "aesgcm:v1:" + Base64.Encode(payload) }

  /** `encrypt_credential`, with its random nonce as a parameter. */
  function Encrypt(
      c: Aead, normalise: string -> string, key: seq<Byte>, nonce: seq<Byte>, email: string, field: string,
      plain: string)
      : Result<string, Failure>
  {
    match AssociatedData(normalise, email, field)
    case Err(e) => Err(e)
    case Ok(aad) => Ok(Envelope(nonce + c.seal(key, nonce, EncodeAll(plain), aad)))
  }

  /** The payload of an envelope. */
  function Payload(envelope: string): (p: Option<seq<Byte>>)
    ensures p.Some? ==> |p.value| >= 28
  {
    if |envelope| < 10 || envelope[..10] != "aesgcm:v1:" then None
    else
      var payload := Base64.Decode(envelope[10..]);
      if payload.None? || |payload.value| < 28 then None else payload
  }

  /** `decrypt_credential`. */
  function Decrypt(c: Aead, normalise: string -> string, key: seq<Byte>, email: string, field: string, envelope: string)
      : Result<string, Failure>
  {
    var payload := Payload(envelope);
    if payload.None? then Err(CryptoError)
    else match AssociatedData(normalise, email, field)
      case Err(e) => Err(e)
      case Ok(aad) =>
        var plain := c.open(key, payload.value[..12], payload.value[12..], aad);
        if plain.None? || !Valid(plain.value) then Err(CryptoError) else Ok(DecodeAll(plain.value))
  }

  lemma EnvelopeRoundTrip(payload: seq<Byte>)
    requires |payload| >= 28
    ensures Payload(Envelope(payload)) == Some(payload)
  {
    Base64.RoundTripExactly(payload);
    var e := Envelope(payload);
    assert e[..10] == "aesgcm:v1:" && e[10..] == Base64.Encode(payload);
  }

  /** What was encrypted for one email and field decrypts to the same text exactly for the same
      key and the same normalised email and field, and to nothing else at all. */
  lemma OpensExactlyForItsIdentity(
      c: Aead, normalise: string -> string, key: seq<Byte>, nonce: seq<Byte>, email: string, field: string,
      plain: string,
      key': seq<Byte>, email': string, field': string)
    requires Ideal(c) && |nonce| == 12
    requires Encrypt(c, normalise, key, nonce, email, field, plain).Ok?
    ensures var r := Decrypt(c, normalise, key', email', field',
      Encrypt(c, normalise, key, nonce, email, field, plain).value);
      (r == Ok(plain) <==> key' == key && Identity(normalise, email', field') == Identity(normalise, email, field))
      && (r.Ok? ==> r == Ok(plain))
  {
    hide Payload, Envelope, AadText, EncodeAll, DecodeAll, Valid, NormalField, NormalEmail, Ideal;
    var aad := AssociatedData(normalise, email, field).value;
    SealedPayload(c, key, nonce, plain, aad);
    EncodedIsValid(plain);
    Utf8RoundTrip(plain);
    var other := AssociatedData(normalise, email', field');
    if other.Ok? {
      AssociatedDataIsInjective(normalise, email, field, email', field');
      IdealOpens(c, key, nonce, EncodeAll(plain), aad, key', other.value);
    }
  }

  lemma IdealOpens(
      c: Aead, key: seq<Byte>, nonce: seq<Byte>, plain: seq<Byte>, aad: seq<Byte>, key': seq<Byte>, aad': seq<Byte>)
    requires Ideal(c)
    ensures |c.seal(key, nonce, plain, aad)| >= 16
    ensures c.open(key', nonce, c.seal(key, nonce, plain, aad), aad')
       == if key' == key && aad' == aad then Some(plain) else None
  {
    assert OpensOnlyOwn(c, key, nonce, plain, aad, key', aad');
  }

  lemma SealedPayload(c: Aead, key: seq<Byte>, nonce: seq<Byte>, plain: string, aad: seq<Byte>)
    requires Ideal(c) && |nonce| == 12
    ensures var sealed := c.seal(key, nonce, EncodeAll(plain), aad);
      var payload := Payload(Envelope(nonce + sealed));
      payload.Some? && payload.value[..12] == nonce && payload.value[12..] == sealed
  {
    hide Payload, Envelope, Ideal, EncodeAll;
    IdealOpens(c, key, nonce, EncodeAll(plain), aad, key, aad);
    EnvelopeRoundTrip(nonce + c.seal(key, nonce, EncodeAll(plain), aad));
  }

  /** Encryption refuses exactly the identities that have no associated data. */
  lemma EncryptsExactlyKnownIdentities(
      c: Aead, normalise: string -> string, key: seq<Byte>, nonce: seq<Byte>, email: string, field: string,
      plain: string)
    ensures Encrypt(c, normalise, key, nonce, email, field, plain).Ok? <==>
      0 < |normalise(email)| <= 320
        && Lower(Strip(field)) in {"password", "totp_secret", "recovery_codes", "api_secret"}
  {
    hide AadText, EncodeAll, Envelope, Strip;
    assert NormalField(field).Ok? <==>
      Lower(Strip(field)) in {"password", "totp_secret", "recovery_codes", "api_secret"};
    hide NormalField;
  }
}
