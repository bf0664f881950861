/** Exactly which texts `host:port:user:password` survive, those with "@" or "://" included
    (core/proxy_utils.py).

    The argument for "@" is a count: percent-decoding never makes the number of "@" and "%" grow,
    and reading a user name back from an authority uses up one "@". */
module ProxyLimits {
  import opened Basics
  import opened Decimal
  import opened Text
  import opened Utf8
  import opened PercentCode
  import opened ProxyText
  import opened ProxyRoundTrip
  import opened ProxyTheorems

  // ---- counting "@" and "%" -----------------------------------------------------------------------

  function CharWeight(c: char): nat { if c == '@' || c == '%' then 1 else 0 }

  function Weight(s: string): nat {
    if s == "" then 0 else CharWeight(s[0]) + Weight(s[1..])
  }

  lemma {:induction false} WeightSum(a: string, b: string)
    ensures Weight(a + b) == Weight(a) + Weight(b)
  {
    if a == "" {
      assert a + b == b;
    } else {
      assert (a + b)[1..] == a[1..] + b;
      WeightSum(a[1..], b);
    }
  }

  /** A piece weighs no more than the whole. */
  lemma WeightCut(s: string, i: nat)
    requires i <= |s|
    ensures Weight(s) == Weight(s[..i]) + Weight(s[i..])
  {
    assert s == s[..i] + s[i..];
    WeightSum(s[..i], s[i..]);
  }

  lemma {:induction false} Weightless(s: string)
    requires forall i :: 0 <= i < |s| ==> CharWeight(s[i]) == 0
    ensures Weight(s) == 0
  {
    if s != "" {
      Weightless(s[1..]);
    }
  }

  lemma {:induction false} WeightOfSome(s: string, c: char)
    requires c in s && CharWeight(c) == 1
    ensures Weight(s) >= 1
  {
    if s[0] != c {
      WeightOfSome(s[1..], c);
    }
  }

  lemma {:induction false} WeightOfCleaned(s: string)
    ensures Weight(Cleaned(s)) == Weight(s)
  {
    if s != "" {
      WeightOfCleaned(s[1..]);
      WeightSum(if s[0] == '\t' || s[0] == '\r' || s[0] == '\n' then "" else [s[0]], Cleaned(s[1..]));
      assert [s[0]][1..] == "";
    }
  }

  lemma {:induction false} WeightOfTrimLeft(s: string, drop: char -> bool)
    requires forall c :: drop(c) ==> CharWeight(c) == 0
    ensures Weight(TrimLeft(s, drop)) == Weight(s)
  {
    if s != "" && drop(s[0]) {
      WeightOfTrimLeft(s[1..], drop);
    }
  }

  lemma {:induction false} WeightOfTrimRight(s: string, drop: char -> bool)
    requires forall c :: drop(c) ==> CharWeight(c) == 0
    ensures Weight(TrimRight(s, drop)) == Weight(s)
    decreases |s|
  {
    if s != "" && drop(s[|s| - 1]) {
      var init := s[..|s| - 1];
      WeightOfTrimRight(init, drop);
      WeightCut(s, |s| - 1);
      Weightless(s[|s| - 1..]);
    }
  }

  lemma WeightOfStrip(s: string)
    ensures Weight(Strip(s)) == Weight(s)
  {
    WeightOfTrimLeft(s, IsSpace);
    WeightOfTrimRight(TrimLeft(s, IsSpace), IsSpace);
  }

  lemma {:induction false} WeightOfLower(s: string)
    ensures Weight(Lower(s)) == Weight(s)
  {
    if s != "" {
      assert Lower(s)[1..] == Lower(s[1..]);
      WeightOfLower(s[1..]);
    }
  }

  lemma WeightOfHostName(host: string)
    ensures Weight(HostName(host)) == Weight(host)
  {
    var n := Until(host, "%");
    WeightOfLower(Before(host, "%"));
    WeightSum(Lower(Before(host, "%")), host[n..]);
    WeightCut(host, n);
  }

  // ---- percent-decoding ---------------------------------------------------------------------------------

  function ByteWeight(b: seq<Byte>): nat {
    if b == [] then 0 else (if b[0] == 64 || b[0] == 37 then 1 else 0) + ByteWeight(b[1..])
  }

  lemma {:induction false} ByteWeightCut(b: seq<Byte>, i: nat)
    requires i <= |b|
    ensures ByteWeight(b) == ByteWeight(b[..i]) + ByteWeight(b[i..])
  {
    if i > 0 {
      ByteWeightCut(b[1..], i - 1);
      assert b[..i][1..] == b[1..][..i - 1] && b[i..] == b[1..][i - 1..];
    } else {
      assert b[..0] == [] && b[0..] == b;
    }
  }

  /** A sequence of more than one byte stands for a character beyond ASCII. */
  lemma WideIsNotAscii(b: seq<Byte>)
    requires b != [] && |b| == Width(b[0]) && IsPoint(Point(b))
    ensures if |b| == 1 then Point(b) == b[0] else Point(b) >= 0x80
  {
  }

  lemma {:induction false} WeightOfDecoded(b: seq<Byte>)
    ensures Weight(DecodeAll(b)) <= ByteWeight(b)
    decreases |b|
  {
    if b != [] {
      var w := Width(b[0]);
      if w == 0 || w > |b| || !IsPoint(Point(b[..w])) {
        WeightOfDecoded(b[1..]);
        assert (['\U{FFFD}'] + DecodeAll(b[1..]))[1..] == DecodeAll(b[1..]);
      } else {
        var c := Point(b[..w]) as char;
        WideIsNotAscii(b[..w]);
        WeightOfDecoded(b[w..]);
        ByteWeightCut(b, w);
        assert ([c] + DecodeAll(b[w..]))[1..] == DecodeAll(b[w..]);
        assert CharWeight(c) <= ByteWeight(b[..w]);
      }
    }
  }

  lemma {:induction false} WeightOfUnquotedBytes(s: string)
    requires IsAscii(s)
    ensures ByteWeight(UnquoteBytes(s)) <= Weight(s)
  {
    if s != "" {
      if s[0] == '%' && |s| >= 3 && HexValue(s[1]) < 16 && HexValue(s[2]) < 16 {
        WeightOfUnquotedBytes(s[3..]);
        WeightCut(s, 3);
        WeightOfSome(s[..3], '%');
        var b: Byte := 16 * HexValue(s[1]) + HexValue(s[2]);
        assert ([b] + UnquoteBytes(s[3..]))[1..] == UnquoteBytes(s[3..]);
      } else {
        WeightOfUnquotedBytes(s[1..]);
        var b: Byte := s[0] as int;
        assert ([b] + UnquoteBytes(s[1..]))[1..] == UnquoteBytes(s[1..]);
      }
    }
  }

  /** Percent-decoding never adds weight: an escape costs its own "%". */
  lemma {:induction false} WeightOfUnquoted(s: string)
    ensures Weight(Unquote(s)) <= Weight(s)
    decreases |s|
  {
    var n := AsciiRun(s);
    var head := DecodeAll(UnquoteBytes(s[..n]));
    WeightOfUnquotedBytes(s[..n]);
    WeightOfDecoded(UnquoteBytes(s[..n]));
    WeightCut(s, n);
    if n < |s| {
      WeightOfUnquoted(s[n + 1..]);
      WeightSum(head, [s[n]] + Unquote(s[n + 1..]));
      assert ([s[n]] + Unquote(s[n + 1..]))[1..] == Unquote(s[n + 1..]);
      assert s[n..][1..] == s[n + 1..];
    } else {
      assert head + "" == head;
    }
  }

  // ---- URLs -------------------------------------------------------------------------------------------------

  function UrlWeight(u: Url): nat {
    Weight(u.scheme) + Weight(u.netloc) + Weight(u.path) + Weight(u.query) + Weight(u.fragment)
  }

  lemma WeightOfScheme(url: string)
    ensures Weight(SplitScheme(url).0) + Weight(SplitScheme(url).1) <= Weight(url)
  {
    var i := Until(url, ":");
    WeightCut(url, i);
    if i < |url| {
      WeightCut(url[i..], 1);
      assert url[i..][1..] == url[i + 1..];
      WeightOfLower(url[..i]);
    }
    assert Weight("") == 0;
  }

  lemma WeightOfNetloc(rest: string)
    ensures Weight(SplitNetloc(rest).0) + Weight(SplitNetloc(rest).1) <= Weight(rest)
  {
    if |rest| >= 2 {
      WeightCut(rest, 2);
      WeightCut(rest[2..], Until(rest[2..], "/?#"));
    }
    assert Weight("") == 0;
  }

  lemma WeightOfTail(tail: string)
    ensures var (path, query, fragment) := SplitTail(tail);
      Weight(path) + Weight(query) + Weight(fragment) <= Weight(tail)
  {
    hide Weight, Before, After;
    TailInPieces(tail);
    WeightOfBefore(tail, "#");
    WeightOfBefore(Before(tail, "#"), "?");
  }

  lemma TailInPieces(tail: string)
    ensures SplitTail(tail) == (Before(Before(tail, "#"), "?"), After(Before(tail, "#"), "?"), After(tail, "#"))
  {
    var f := Until(tail, "#");
    var q := Until(tail[..f], "?");
    assert tail[..f][..q] == tail[..q];
    if q < f {
      assert tail[..f][q + 1..] == tail[q + 1..f];
    }
  }

  lemma WeightOfSplit(text: string, bracketed: string -> bool)
    ensures UrlSplit(text, bracketed).Ok? ==> UrlWeight(UrlSplit(text, bracketed).value) <= Weight(text)
  {
    hide SplitScheme, SplitNetloc, SplitTail, BadBrackets, Weight, Cleaned, TrimLeft;
    var front := TrimLeft(text, IsBlankOrControl);
    WeightOfTrimLeft(text, IsBlankOrControl);
    WeightOfCleaned(front);
    var (scheme, rest) := SplitScheme(Cleaned(front));
    WeightOfScheme(Cleaned(front));
    var (netloc, tail) := SplitNetloc(rest);
    WeightOfNetloc(rest);
    WeightOfTail(tail);
  }

  lemma WeightOfUnsplit(u: Url)
    ensures Weight(UrlUnsplit(u)) <= UrlWeight(u)
  {
    var slash := if u.path != "" && u.path[0] != '/' then "/" else "";
    var path := if u.netloc == "" then u.path else "//" + u.netloc + slash + u.path;
    var a, b, c := if u.scheme == "" then "" else u.scheme + ":", if u.query == "" then "" else "?" + u.query,
                   if u.fragment == "" then "" else "#" + u.fragment;
    Weightless(":");
    Weightless("//");
    Weightless(slash);
    Weightless("?");
    Weightless("#");
    Weightless("");
    hide Weight;
    WeightSum(u.scheme, ":");
    WeightSum("//", u.netloc);
    WeightSum("//" + u.netloc, slash);
    WeightSum("//" + u.netloc + slash, u.path);
    WeightSum("?", u.query);
    WeightSum("#", u.fragment);
    WeightSum(a, path);
    WeightSum(a + path, b);
    WeightSum(a + path + b, c);
  }

  lemma WeightOfNormalized(text: string, bracketed: string -> bool)
    ensures var r := Normalize(text, bracketed); r.Ok? && r.value.Some? ==> Weight(r.value.value) <= Weight(text)
  {
    hide UrlSplit, UrlUnsplit, Weight, Strip;
    var value := Strip(text);
    WeightOfStrip(text);
    WeightOfSplit(value, bracketed);
    if UrlSplit(value, bracketed).Ok? {
      var u := UrlSplit(value, bracketed).value;
      WeightOfUnsplit(u.(scheme := "socks5h"));
      SchemeIsWeightless();
    }
  }

  lemma SchemeIsWeightless()
    ensures Weight("socks5h") == 0
  {
    Weightless("socks5h");
  }

  // ---- reading back costs one ------------------------------------------------------------------------------------

  lemma {:induction false} HostInfoHasNoAt(netloc: string)
    ensures |HostInfo(netloc)| <= |netloc| && netloc[|netloc| - |HostInfo(netloc)|..] == HostInfo(netloc)
    ensures |HostInfo(netloc)| < |netloc| ==> netloc[|netloc| - |HostInfo(netloc)| - 1] == '@'
  {
    if netloc != "" && netloc[|netloc| - 1] != '@' {
      var init := netloc[..|netloc| - 1];
      HostInfoHasNoAt(init);
      var n := |HostInfo(init)|;
      assert netloc[|netloc| - n - 1..] == init[|init| - n..] + [netloc[|netloc| - 1]];
    }
  }

  /** User information, one "@" and host information make up the authority. */
  lemma WeightOfUserInfo(netloc: string)
    requires UserInfo(netloc).Some?
    ensures Weight(netloc) == Weight(UserInfo(netloc).value) + 1 + Weight(HostInfo(netloc))
  {
    HostInfoHasNoAt(netloc);
    var n := |netloc| - |HostInfo(netloc)| - 1;
    WeightCut(netloc, n);
    WeightCut(netloc[n..], 1);
    assert netloc[n..][..1] == "@" && netloc[n..][1..] == netloc[n + 1..];
    assert Weight("@") == 1;
  }

  lemma WeightOfBefore(s: string, stops: string)
    ensures Weight(Before(s, stops)) + Weight(After(s, stops)) <= Weight(s)
  {
    var n := Until(s, stops);
    WeightCut(s, n);
    if n < |s| {
      WeightCut(s[n..], 1);
      assert s[n..][1..] == s[n + 1..];
    }
    assert Weight("") == 0;
  }

  lemma WeightOfHost(info: string)
    ensures Weight(HostPort(info).0) <= Weight(info)
  {
    hide Before, After;
    WeightOfBefore(info, "[");
    WeightOfBefore(After(info, "["), "]");
    WeightOfBefore(info, ":");
  }

  function CredentialText(c: Option<string>): string { if c.Some? then c.value else "" }

  lemma WeightOfCredential(text: string)
    ensures Weight(CredentialText(Credential(text))) <= Weight(text)
  {
    hide Unquote;
    WeightOfUnquoted(text);
    assert Weight("") == 0;
  }

  function ConfigWeight(c: Config): nat {
    Weight(c.server) + Weight(CredentialText(c.username)) + Weight(CredentialText(c.password))
  }

  lemma WeightOfServer(scheme: string, host: string, port: nat)
    ensures Weight(Server(scheme, host, port)) == Weight(scheme) + Weight(host)
  {
    Weightless("://");
    Weightless(":");
    Weightless(Numeral(port));
    hide Weight, Numeral;
    WeightSum(scheme, "://");
    WeightSum(scheme + "://", host);
    WeightSum(scheme + "://" + host, ":");
    WeightSum(scheme + "://" + host + ":", Numeral(port));
  }

  lemma PartsWeigh(url: string, scheme: string, user: string, info: string)
    requires FromParts(url, scheme, user, info).Ok? && FromParts(url, scheme, user, info).value.username.Some?
    ensures user != ""
      && ConfigWeight(FromParts(url, scheme, user, info).value) <= Weight(scheme) + Weight(user) + Weight(info)
  {
    hide Weight, HostPort, HostName, Before, After, Server, Credential, CredentialText, Port;
    var (host, port) := HostPort(info);
    WeightOfHost(info);
    WeightOfHostName(host);
    WeightOfServer(scheme, HostName(host), Port(port).value.value);
    WeightOfBefore(user, ":");
    WeightOfCredential(Before(user, ":"));
    WeightOfCredential(After(user, ":"));
    NothingFromNothing();
  }

  lemma NothingFromNothing()
    ensures Credential(Before("", ":")) == None
  {
  }

  /** Settings with a user name weigh less than the URL they were read from. */
  lemma SettingsWeighLess(url: string, bracketed: string -> bool)
    requires Playwright(url, bracketed).Ok? && Playwright(url, bracketed).value.username.Some?
    ensures ConfigWeight(Playwright(url, bracketed).value) < Weight(url)
  {
    hide Weight, UrlSplit, FromParts, UserInfo, HostInfo, ConfigWeight;
    WeightOfSplit(url, bracketed);
    var u := UrlSplit(url, bracketed).value;
    PartsWeigh(url, u.scheme, if UserInfo(u.netloc).Some? then UserInfo(u.netloc).value else "", HostInfo(u.netloc));
    WeightOfUserInfo(u.netloc);
  }

  // ---- texts with "@" or "://" ------------------------------------------------------------------

  lemma WeightOfJoin(a: string, b: string)
    ensures Weight(a + ":" + b) == Weight(a) + Weight(b)
  {
    WeightSum(a, ":");
    WeightSum(a + ":", b);
    Weightless(":");
  }

  /** A four-part text weighs what its host, user and password weigh. */
  lemma WeightOfFourParts(text: string)
    requires IsFourPart(text)
    ensures Weight(Strip(text)) == Weight(HostOf(text)) + Weight(UserOf(text)) + Weight(PasswordOf(text))
  {
    var parts := Split(Strip(text));
    JoinOfSplit(Strip(text));
    Weightless(PortOf(text));
    hide Weight, Split, Strip;
    WeightOfJoin(parts[0], Join(parts[1..]));
    WeightOfJoin(parts[1], Join(parts[1..][1..]));
    WeightOfJoin(parts[2], Join(parts[2..][1..]));
    assert parts[1..][1..] == parts[2..] && parts[2..][1..] == parts[3..];
    WeightOfStrip(parts[0]);
    WeightOfStrip(parts[2]);
    WeightOfStrip(Join(parts[3..]));
  }

  lemma WeightOfExpected(scheme: string, text: string)
    requires IsFourPart(text) && AllDigits(PortOf(text)) && Known(scheme)
    ensures ConfigWeight(Expected(Final(scheme), UserOf(text), PasswordOf(text), HostOf(text), PortOf(text)))
      == Weight(Strip(text))
  {
    FinalIsWeightless(scheme);
    WeightOfFourParts(text);
    hide Weight, IsFourPart, HostOf, UserOf, PasswordOf, PortOf, Strip, Server, HostName, Value, AllDigits;
    WeightOfHostName(HostOf(text));
    WeightOfServer(Final(scheme), HostName(HostOf(text)), Value(PortOf(text)));
    Empty();
  }

  lemma Empty()
    ensures Weight("") == 0
  {
  }

  lemma FinalIsWeightless(scheme: string)
    requires Known(scheme)
    ensures Weight(Final(scheme)) == 0 && Weight(scheme) == 0
  {
    Weightless("http");
    Weightless("https");
    Weightless("socks5");
    Weightless("socks5h");
  }

  /** A URL that weighs no more than the text can not give the expected settings. */
  lemma TooLight(url: string, scheme: string, text: string, bracketed: string -> bool)
    requires IsFourPart(text) && AllDigits(PortOf(text)) && Known(scheme) && Weight(url) <= Weight(Strip(text))
    ensures Playwright(url, bracketed)
      != Ok(Expected(Final(scheme), UserOf(text), PasswordOf(text), HostOf(text), PortOf(text)))
  {
    WeightOfExpected(scheme, text);
    hide Weight, Playwright, HostOf, UserOf, PasswordOf, PortOf, IsFourPart, Server, ConfigWeight, AllDigits;
    if Playwright(url, bracketed).Ok? && Playwright(url, bracketed).value.username.Some? {
      SettingsWeighLess(url, bracketed);
    }
  }

  /** A text with "@" or "://" is read as a URL, and no such URL gives the parts back. */
  lemma UrlMarksBreakTheRoundTrip(text: string, defaultScheme: string, bracketed: string -> bool)
    requires IsFourPart(text) && AllDigits(PortOf(text)) && !NoUrlMarks(text)
    ensures Settings(text, defaultScheme, bracketed)
      != Ok(Some(Expected(Final(Scheme(defaultScheme)), UserOf(text), PasswordOf(text), HostOf(text), PortOf(text))))
  {
    hide Weight, Playwright, HostOf, UserOf, PasswordOf, PortOf, Expected, Normalize, Contains, FourPart, AllDigits;
    hide Strip, Scheme, Known, Final;
    var value, scheme := Strip(text), Scheme(defaultScheme);
    SchemeIsKnown(defaultScheme);
    SolidStrip(text);
    var x := if Contains(value, "://") then value else scheme + "://" + value;
    WeightOfMarked(scheme, value);
    WeightOfNormalized(x, bracketed);
    var r := Normalize(x, bracketed);
    assert Coerce(text, defaultScheme, bracketed) == r || value == "";
    if r.Ok? && r.value.Some? {
      TooLight(r.value.value, scheme, text, bracketed);
    }
    hide Coerce;
  }

  lemma WeightOfMarked(scheme: string, value: string)
    requires Known(scheme)
    ensures Weight(scheme + "://" + value) == Weight(value)
  {
    FinalIsWeightless(scheme);
    Weightless("://");
    hide Weight;
    WeightSum(scheme, "://");
    WeightSum(scheme + "://", value);
  }

  lemma SolidStrip(text: string)
    ensures Strip(Strip(text)) == Strip(text)
  {
    TrimShape(text, IsSpace);
    TrimTwice(Strip(text), IsSpace);
  }

  // ---- the round trip, for every text -----------------------------------------------------------

  /** For every text `host:port:user:password` and every default scheme: coercing it to a URL and
      extracting the browser settings gives back the trimmed user and password, the port as a
      number and the host exactly when the text contains neither "@" nor "://", the host has no
      character that ends, brackets or is deleted from an authority, and the port is at most
      65535.  The host comes back in lower case (up to a percent sign). */
  lemma RoundTripExactly(text: string, defaultScheme: string, bracketed: string -> bool)
    requires IsFourPart(text) && AllDigits(PortOf(text))
    ensures Settings(text, defaultScheme, bracketed)
            == Ok(Some(Expected(Final(Scheme(defaultScheme)), UserOf(text), PasswordOf(text), HostOf(text),
              PortOf(text))))
            <==> NoUrlMarks(text) && PlainHost(HostOf(text)) && Value(PortOf(text)) <= 65535
    ensures Free(HostOf(text), "%") ==>
      Expected(Final(Scheme(defaultScheme)), UserOf(text), PasswordOf(text), HostOf(text), PortOf(text)).server
      == Final(Scheme(defaultScheme)) + "://" + Lower(HostOf(text)) + ":" + Numeral(Value(PortOf(text)))
  {
    if Free(HostOf(text), "%") {
      HostNameIsLower(HostOf(text));
    }
    hide HostOf, UserOf, PasswordOf, PortOf, IsFourPart, Settings, PlainHost, NoUrlMarks, HostName, Scheme, Lower;
    hide Numeral;
    if NoUrlMarks(text) {
      RoundTripInBranch(text, defaultScheme, bracketed);
    } else {
      UrlMarksBreakTheRoundTrip(text, defaultScheme, bracketed);
    }
  }

  /** The concrete case: a password with "@", a plain host and a small port. */
  lemma AtSignBreaksTheRoundTrip(text: string, bracketed: string -> bool)
    requires text == "h:80:u:p@s"
    ensures IsFourPart(text) && AllDigits(PortOf(text)) && PlainHost(HostOf(text)) && Value(PortOf(text)) <= 65535
    ensures HostOf(text) == "h" && UserOf(text) == "u" && PasswordOf(text) == "p@s"
    ensures Settings(text, "http", bracketed)
      != Ok(Some(Expected(Final(Scheme("http")), UserOf(text), PasswordOf(text), HostOf(text), PortOf(text))))
  {
    hide Split, Strip, Settings, Expected, Join, Scheme, Contains;
    StripOfSolid(text);
    StripOfSolid("h");
    StripOfSolid("u");
    StripOfSolid("p@s");
    PartsOfText("h", "80", "u", "p@s");
    assert "h" + ":" + "80" + ":" + "u" + ":" + "p@s" == text;
    SmallPort();
    assert text[8] == '@';
    UrlMarksBreakTheRoundTrip(text, "http", bracketed);
  }

  lemma SmallPort()
    ensures Value("80") == 80 && AllDigits("80") && PlainHost("h")
  {
    assert "80"[..1] == "8" && "8"[..0] == "";
    assert Value("8") == 8;
  }
}
