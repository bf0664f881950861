/** Percent-encoding (section 2.1 of RFC 3986), as Python's `quote(s, safe="")` and `unquote`
    apply it. */
module PercentCode {

  import opened Utf8

  // ---- percent-encoding --------------------------------------------------------------------------------

  predicate Unreserved(b: Byte) {
    ('a' as int <= b <= 'z' as int) || ('A' as int <= b <= 'Z' as int) || ('0' as int <= b <= '9' as int)
    || b == '_' as int || b == '.' as int || b == '-' as int || b == '~' as int
  }

  function HexDigit(d: nat): char
    requires d < 16
  {
    if d < 10 then ('0' as int + d) as char else ('A' as int + d - 10) as char
  }

  /** The value of a hexadecimal digit of either case, or 16. */
  function HexValue(c: char): nat {
    if '0' <= c <= '9' then c as int - '0' as int
    else if 'A' <= c <= 'F' then c as int - 'A' as int + 10
    else if 'a' <= c <= 'f' then c as int - 'a' as int + 10
    else 16
  }

  function QuoteByte(b: Byte): string {
    if Unreserved(b) then [b as char] else ['%', HexDigit(b / 16), HexDigit(b % 16)]
  }

  function QuoteBytes(b: seq<Byte>): string {
    if b == [] then "" else QuoteByte(b[0]) + QuoteBytes(b[1..])
  }

  function Quote(s: string): string { QuoteBytes(EncodeAll(s)) }

  /** The bytes of an ASCII text; a percent sign that no two digits follow stands for itself. */
  function UnquoteBytes(s: string): seq<Byte>
    requires IsAscii(s)
  {
    if s == "" then []
    else if s[0] == '%' && |s| >= 3 && HexValue(s[1]) < 16 && HexValue(s[2]) < 16
    then [16 * HexValue(s[1]) + HexValue(s[2])] + UnquoteBytes(s[3..])
    else [s[0] as int] + UnquoteBytes(s[1..])
  }

  predicate IsAscii(s: string) { forall i :: 0 <= i < |s| ==> s[i] < '\U{80}' }

  /** The length of the longest ASCII prefix. */
  function AsciiRun(s: string): (n: nat)
    ensures n <= |s| && IsAscii(s[..n])
  {
    if s == "" || s[0] >= '\U{80}' then 0 else 1 + AsciiRun(s[1..])
  }

  /** Each run of ASCII characters is decoded by itself. */
  function Unquote(s: string): string
    decreases |s|
  {
    var n := AsciiRun(s);
    DecodeAll(UnquoteBytes(s[..n])) + if n < |s| then [s[n]] + Unquote(s[n + 1..]) else ""
  }

  // ---- the round trip ---------------------------------------------------------------------------------------

  predicate SafeChar(c: char) {
    c == '%' || ('a' <= c <= 'z') || ('A' <= c <= 'Z') || ('0' <= c <= '9') || c == '_' || c == '.' || c == '-'
      || c == '~'
  }

  predicate IsSafe(s: string) { forall i :: 0 <= i < |s| ==> SafeChar(s[i]) }

  lemma {:induction false} QuoteBytesIsSafe(b: seq<Byte>)
    ensures IsSafe(QuoteBytes(b)) && (QuoteBytes(b) == "" <==> b == [])
  {
    if b != [] {
      QuoteBytesIsSafe(b[1..]);
      assert IsSafe(QuoteByte(b[0]));
    }
  }

  /** Quoting leaves only unreserved characters and percent signs. */
  lemma QuoteIsSafe(s: string)
    ensures IsSafe(Quote(s)) && (Quote(s) == "" <==> s == "")
  {
    QuoteBytesIsSafe(EncodeAll(s));
  }

  lemma {:induction false} BytesRoundTrip(b: seq<Byte>)
    ensures IsAscii(QuoteBytes(b)) && UnquoteBytes(QuoteBytes(b)) == b
  {
    QuoteBytesIsSafe(b);
    if b != [] {
      BytesRoundTrip(b[1..]);
      var head, tail := QuoteByte(b[0]), QuoteBytes(b[1..]);
      assert (head + tail)[|head|..] == tail;
      assert b == [b[0]] + b[1..];
      if !Unreserved(b[0]) {
        assert 16 * (b[0] / 16) + b[0] % 16 == b[0];
      }
    }
  }

  lemma {:induction false} AsciiRunIsAll(s: string)
    requires IsAscii(s)
    ensures AsciiRun(s) == |s|
  {
    if s != "" {
      AsciiRunIsAll(s[1..]);
    }
  }

  /** Every text survives quoting. */
  lemma QuoteRoundTrip(s: string)
    ensures Unquote(Quote(s)) == s
  {
    var b := EncodeAll(s);
    BytesRoundTrip(b);
    AsciiRunIsAll(Quote(s));
    assert Quote(s)[..|Quote(s)|] == Quote(s);
    Utf8RoundTrip(s);
  }
}
