/** The round trip of `host:port:user:password` and exactly when it works (core/proxy_utils.py). */
module ProxyTheorems {
  import opened Basics
  import opened Decimal
  import opened Text
  import opened PercentCode
  import opened ProxyText
  import opened ProxyRoundTrip

  // ---- small facts about cutting -----------------------------------------------------------------

  lemma {:induction false} BeforeOfSum(a: string, b: string, stops: string)
    requires Free(a, stops)
    ensures Before(a + b, stops) == a + Before(b, stops)
  {
    if a == "" {
      assert a + b == b;
    } else {
      assert (a + b)[1..] == a[1..] + b;
      BeforeOfSum(a[1..], b, stops);
      assert (a + b)[0] == a[0];
    }
  }

  lemma CutAt(a: string, stop: char, b: string)
    requires Free(a, [stop])
    ensures Before(a + [stop] + b, [stop]) == a && After(a + [stop] + b, [stop]) == b
  {
    assert a + [stop] + b == a + ([stop] + b);
    UntilOfSum(a, [stop] + b, [stop]);
  }

  lemma NothingAfter(a: string, stops: string)
    requires Free(a, stops)
    ensures After(a, stops) == "" && Before(a, stops) == a
  {
    UntilOfSum(a, "", stops);
    assert a + "" == a;
  }

  lemma HostInfoOfSum(a: string, b: string)
    requires Free(b, "@")
    ensures HostInfo(a + "@" + b) == b
  {
    FreeMeans(b, "@");
    AfterLastOfSum(a, '@', b);
  }

  lemma LowerKeepsFree(s: string, stops: string)
    requires Free(s, stops) && (forall i :: 0 <= i < |stops| ==> !('a' <= stops[i] <= 'z'))
    ensures Free(Lower(s), stops)
  {
    forall i | 0 <= i < |s| ensures Lower(s)[i] !in stops {
      assert s[i] !in stops;
    }
  }

  lemma HostNameShape(host: string)
    ensures |HostName(host)| == |host| && (Free(host, ":") ==> Free(HostName(host), ":"))
  {
    if Free(host, ":") {
      FreeOfSlice(host, 0, Until(host, "%"), ":");
      FreeOfSlice(host, Until(host, "%"), |host|, ":");
      LowerKeepsFree(Before(host, "%"), ":");
      FreeOfSum(Lower(Before(host, "%")), host[Until(host, "%")..], ":");
    }
  }

  /** Without a zone the host is simply in lower case. */
  lemma HostNameIsLower(host: string)
    requires Free(host, "%")
    ensures HostName(host) == Lower(host)
  {
    NothingAfter(host, "%");
    UntilOfSum(host, "", "%");
    assert host + "" == host;
  }

  // ---- the parts of the authority ----------------------------------------------------------------------

  function Authority(user: string, password: string, host: string, port: string): string {
    user + ":" + password + "@" + host + ":" + port
  }

  /** Host and port text as they are read back. */
  function ReadBack(host: string, port: string): string { Before(Cleaned(host) + ":" + port, "/?#") }

  lemma DigitsAreFree(port: string)
    requires AllDigits(port)
    ensures Free(port, "/?#") && Free(port, "@") && Free(port, "[") && Free(port, "]") && Free(port, ":") && Clean(port)
  {
  }

  lemma SafeIsFree(s: string)
    requires IsSafe(s)
    ensures Free(s, "/?#") && Free(s, "@") && Free(s, "[") && Free(s, "]") && Free(s, ":") && Clean(s)
  {
  }

  function Front(user: string, password: string): string { user + ":" + password + "@" }

  lemma FrontIsPlain(user: string, password: string)
    requires IsSafe(user) && IsSafe(password)
    ensures Clean(Front(user, password)) && Free(Front(user, password), "/?#")
  {
    SafeIsFree(user);
    SafeIsFree(password);
    FreeOfSum(user, ":", "\t\r\n");
    FreeOfSum(user + ":", password, "\t\r\n");
    FreeOfSum(user + ":" + password, "@", "\t\r\n");
    FreeOfSum(user, ":", "/?#");
    FreeOfSum(user + ":", password, "/?#");
    FreeOfSum(user + ":" + password, "@", "/?#");
  }

  lemma CleanedAuthority(front: string, host: string, port: string)
    requires Clean(front) && Clean(port)
    ensures Cleaned(front + (host + ":" + port)) == front + (Cleaned(host) + ":" + port)
  {
    CleanedSum(front, host + ":" + port);
    CleanedSum(host + ":", port);
    CleanedSum(host, ":");
    CleanedMeans(front);
    CleanedMeans(port);
    CleanedColon();
  }

  lemma NetlocShape(user: string, password: string, host: string, port: string)
    requires IsSafe(user) && IsSafe(password) && AllDigits(port) && Free(host, "@")
    ensures Netloc(Authority(user, password, host, port)) == Front(user, password) + ReadBack(host, port)
  {
    DigitsAreFree(port);
    FrontIsPlain(user, password);
    var front := Front(user, password);
    hide Cleaned, Until, IsSafe, AllDigits, Front, Before;
    assert Authority(user, password, host, port) == front + (host + ":" + port) by {
      AuthorityShape(user, password, host, port);
    }
    CleanedAuthority(front, host, port);
    BeforeOfSum(front, Cleaned(host) + ":" + port, "/?#");
  }

  lemma AuthorityShape(user: string, password: string, host: string, port: string)
    ensures Authority(user, password, host, port) == Front(user, password) + (host + ":" + port)
  {
  }

  lemma InfoShape(user: string, password: string, host: string, port: string)
    requires Free(host, "@") && Free(port, "@")
    ensures var n := Front(user, password) + ReadBack(host, port);
      HostInfo(n) == ReadBack(host, port) && UserInfo(n) == Some(user + ":" + password)
  {
    hide Free;
    ReadBackIsFree(host, port);
    HostInfoOfSum(user + ":" + password, ReadBack(host, port));
    var n := Front(user, password) + ReadBack(host, port);
    assert n[..|n| - |ReadBack(host, port)| - 1] == user + ":" + password;
  }

  lemma CleanedColon()
    ensures Cleaned(":") == ":"
  {
    CleanedMeans(":");
  }

  lemma ReadBackIsFree(host: string, port: string)
    requires Free(host, "@") && Free(port, "@")
    ensures Free(ReadBack(host, port), "@")
  {
    var s := Cleaned(host) + ":" + port;
    CleanedMeans(host);
    FreeMeans(host, "@");
    FreeMeans(Cleaned(host), "@");
    FreeOfSum(Cleaned(host), ":", "@");
    FreeOfSum(Cleaned(host) + ":", port, "@");
    FreeOfSlice(s, 0, Until(s, "/?#"), "@");
  }

  /** The credentials come back from the authority whatever the host is. */
  lemma CredentialsOf(user: string, password: string)
    requires IsSafe(user) && IsSafe(password)
    ensures Before(user + ":" + password, ":") == user && After(user + ":" + password, ":") == password
  {
    SafeIsFree(user);
    CutAt(user, ':', password);
  }

  // ---- what the browser gets ---------------------------------------------------------------------------------

  /** Two servers are the same text only when their hosts are. */
  lemma ServersDiffer(scheme: string, a: string, m: nat, b: string, n: nat)
    requires Free(a, ":") && Free(b, ":") && a != b
    ensures Server(scheme, a, m) != Server(scheme, b, n)
  {
    var x, y := Server(scheme, a, m), Server(scheme, b, n);
    var k := |scheme| + 3;
    assert x[k..] == a + [':'] + Numeral(m) && y[k..] == b + [':'] + Numeral(n);
    CutAt(a, ':', Numeral(m));
    CutAt(b, ':', Numeral(n));
    hide Before, After, Numeral;
  }

  /** Nothing in the host ends the authority early, opens a literal address, or is deleted. */
  predicate PlainHost(host: string) { Free(host, "/?#[]\t\r\n") }

  predicate Cut(host: string) { !Free(host, "/?#") }

  predicate Bracketed(host: string) { !Free(host, "[") || !Free(host, "]") }

  lemma PlainHostMeans(host: string)
    ensures PlainHost(host) <==> !Cut(host) && !Bracketed(host) && Clean(host)
  {
    if !PlainHost(host) {
      var i :| 0 <= i < |host| && host[i] in "/?#[]\t\r\n";
      assert host[i] in "/?#" || host[i] in "[" || host[i] in "]" || host[i] in "\t\r\n";
    }
    assert forall c :: c in "/?#" || c in "[" || c in "]" || c in "\t\r\n" ==> c in "/?#[]\t\r\n";
  }

  lemma CleanedHost(host: string)
    requires Free(host, ":") && Free(host, "@")
    ensures var h := Cleaned(host);
      Free(h, ":") && Free(h, "@") && (Cut(h) <==> Cut(host)) && (Bracketed(h) <==> Bracketed(host))
  {
    CleanedMeans(host);
    var h := Cleaned(host);
    FreeMeans(host, ":");
    FreeMeans(h, ":");
    FreeMeans(host, "@");
    FreeMeans(h, "@");
    FreeMeans(host, "/?#");
    FreeMeans(h, "/?#");
    FreeMeans(host, "[");
    FreeMeans(h, "[");
    FreeMeans(host, "]");
    FreeMeans(h, "]");
  }

  /** A host that ends the authority early leaves no port. */
  lemma CutHasNoPort(h: string, port: string)
    requires Free(h, ":") && Cut(h)
    ensures var x := Before(h + ":" + port, "/?#"); x == Before(h, "/?#") && Free(x, ":")
  {
    var n := Until(h, "/?#");
    UntilStops(h, "/?#");
    assert h[..|h|] == h;
    assert n < |h|;
    assert h + ":" + port == h[..n] + (h[n..] + ":" + port);
    UntilOfSum(h[..n], h[n..] + ":" + port, "/?#");
    FreeOfSlice(h, 0, n, ":");
  }

  lemma WholeHost(h: string, port: string)
    requires !Cut(h) && AllDigits(port)
    ensures Before(h + ":" + port, "/?#") == h + ":" + port
  {
    DigitsAreFree(port);
    FreeOfSum(h, ":", "/?#");
    FreeOfSum(h + ":", port, "/?#");
    NothingAfter(h + ":" + port, "/?#");
  }

  lemma FreeAfter(s: string, stops: string, stop: string)
    requires Free(s, stops)
    ensures Free(After(s, stop), stops) && Free(Before(s, stop), stops)
  {
    FreeOfSlice(s, 0, Until(s, stop), stops);
    if Until(s, stop) < |s| {
      FreeOfSlice(s, Until(s, stop) + 1, |s|, stops);
    }
  }

  lemma NoColonNoPort(x: string)
    requires Free(x, ":")
    ensures HostPort(x).1 == ""
  {
    FreeAfter(x, ":", "[");
    FreeAfter(After(x, "["), ":", "]");
    NothingAfter(After(After(x, "["), "]"), ":");
    NothingAfter(x, ":");
  }

  lemma PlainParts(h: string, port: string)
    requires !Bracketed(h) && Free(h, ":") && AllDigits(port)
    ensures HostPort(h + ":" + port) == (h, port) && '[' !in h + ":" + port && ']' !in h + ":" + port
  {
    DigitsAreFree(port);
    CutAt(h, ':', port);
    assert h + ":" + port == h + [':'] + port;
    FreeOfSum(h, ":", "[");
    FreeOfSum(h + ":", port, "[");
    FreeOfSum(h, ":", "]");
    FreeOfSum(h + ":", port, "]");
    FreeMeans(h + ":" + port, "[");
    FreeMeans(h + ":" + port, "]");
  }

  lemma BracketedParts(h: string, port: string)
    requires Free(h, ":") && AllDigits(port) && '[' in h + ":" + port && ']' in h + ":" + port
    ensures var (host, rest) := HostPort(h + ":" + port); rest == "" || (Free(host, ":") && |host| < |h|)
  {
    DigitsAreFree(port);
    var tail := ":" + port;
    FreeOfSum(":", port, "[");
    FreeOfSum(":", port, "]");
    FreeMeans(tail, "[");
    FreeMeans(tail, "]");
    assert h + ":" + port == h + tail;
    assert '[' in h;
    var i := Until(h, "[");
    UntilStops(h, "[");
    assert i == |h| ==> h[..i] == h;
    FreeMeans(h, "[");
    assert h == h[..i] + ['['] + h[i + 1..];
    assert h + tail == h[..i] + ['['] + (h[i + 1..] + tail);
    CutAt(h[..i], '[', h[i + 1..] + tail);
    BracketTail(h[i + 1..], tail, |h|);
  }

  lemma BracketTail(y: string, tail: string, size: nat)
    requires Free(tail, "]") && |y| < size
    requires forall k :: 0 <= k < |y| ==> y[k] != ':'
    ensures After(After(y + tail, "]"), ":") == ""
      || (Free(Before(y + tail, "]"), ":") && |Before(y + tail, "]")| < size)
  {
    var j := Until(y, "]");
    UntilStops(y, "]");
    if j < |y| {
      assert y == y[..j] + [']'] + y[j + 1..];
      assert y + tail == y[..j] + [']'] + (y[j + 1..] + tail);
      CutAt(y[..j], ']', y[j + 1..] + tail);
    } else {
      assert y[..j] == y;
      FreeOfSum(y, tail, "]");
      NothingAfter(y + tail, "]");
      NothingAfter("", ":");
    }
  }

  /** The settings as a function of what is read back from the authority. */
  function Outcome(scheme: string, x: string, user: string, password: string, url: string): Result<Config, Failure> {
    FromParts(url, scheme, user + ":" + password, x)
  }

  lemma PlaywrightIsOutcome(
      url: string, scheme: string, user: string, password: string, host: string, port: string,
      bracketed: string -> bool)
    requires var u := UrlSplit(url, bracketed);
      u.Ok? && u.value.scheme == scheme && u.value.netloc == Front(user, password) + ReadBack(host, port)
    requires Free(host, "@") && AllDigits(port)
    ensures Playwright(url, bracketed) == Outcome(scheme, ReadBack(host, port), user, password, url)
  {
    DigitsAreFree(port);
    InfoShape(user, password, host, port);
    hide UrlSplit, FromParts, ReadBack, HostInfo, UserInfo, AllDigits, Free, Front;
  }

  function Expected(scheme: string, user: string, password: string, host: string, port: string): Config
    requires AllDigits(port)
  {
    Config(Server(scheme, HostName(host), Value(port)), Some(user), if password == "" then None else Some(password))
  }

  lemma OutcomeOfPlain(scheme: string, user: string, password: string, host: string, port: string, url: string)
    requires scheme != "" && user != "" && host != "" && PlainHost(host) && Free(host, ":") && Free(host, "@")
      && AllDigits(port)
    ensures Outcome(scheme, ReadBack(host, port), Quote(user), Quote(password), url) ==
      if Value(port) <= 65535 then Ok(Expected(scheme, user, password, host, port)) else Err(ValueError)
  {
    PlainHostMeans(host);
    CleanedMeans(host);
    WholeHost(host, port);
    PlainParts(host, port);
    HostNameShape(host);
    QuoteRoundTrip(user);
    QuoteRoundTrip(password);
    QuoteIsSafe(user);
    QuoteIsSafe(password);
    CredentialsOf(Quote(user), Quote(password));
    hide HostPort, HostName, Unquote, Quote, Server, Free, Cleaned, Value, AllDigits;
  }

  lemma OutcomeOfOther(scheme: string, user: string, password: string, host: string, port: string, url: string)
    requires user != "" && !PlainHost(host) && Free(host, ":") && Free(host, "@") && AllDigits(port)
    requires ('[' in ReadBack(host, port)) == (']' in ReadBack(host, port))
    ensures Outcome(scheme, ReadBack(host, port), Quote(user), Quote(password), url)
      != Ok(Expected(scheme, user, password, host, port))
  {
    var h := Cleaned(host);
    PlainHostMeans(host);
    CleanedHost(host);
    CleanedMeans(host);
    HostNameShape(host);
    if Cut(host) {
      CutHasNoPort(h, port);
      NoColonNoPort(ReadBack(host, port));
    } else {
      WholeHost(h, port);
      if Bracketed(host) {
        BracketedMeans(h, port);
        BracketedParts(h, port);
      } else {
        PlainParts(h, port);
      }
      var (a, rest) := HostPort(h + ":" + port);
      HostNameShape(a);
      if rest != "" && AllDigits(rest) {
        ServersDiffer(scheme, HostName(a), Value(rest), HostName(host), Value(port));
      }
    }
    hide HostPort, HostName, Unquote, Quote, Server, Free, Cleaned, Value, AllDigits, Before;
  }

  lemma BracketedMeans(h: string, port: string)
    requires Bracketed(h)
    ensures '[' in h + ":" + port || ']' in h + ":" + port
  {
    FreeMeans(h, "[");
    FreeMeans(h, "]");
  }

  // ---- the round trip -----------------------------------------------------------------------------------------------

  /** The text is `host:port:user:password`. */
  predicate IsFourPart(text: string) { FourPart(Strip(text)) }

  /** Neither of the two forms that are read as URLs before the four-part form is tried. */
  predicate NoUrlMarks(text: string) { '@' !in Strip(text) && !Contains(Strip(text), "://") }

  /** The branch for `host:port:user:password` is taken. */
  predicate InBranch(text: string) { IsFourPart(text) && NoUrlMarks(text) }

  function HostOf(text: string): string { Strip(Split(Strip(text))[0]) }
  function PortOf(text: string): string
    requires IsFourPart(text)
  {
    Split(Strip(text))[1]
  }
  function UserOf(text: string): string
    requires IsFourPart(text)
  {
    Strip(Split(Strip(text))[2])
  }
  function PasswordOf(text: string): string
    requires IsFourPart(text)
  {
    Strip(Join(Split(Strip(text))[3..]))
  }

  lemma FreeOfStrip(s: string, stops: string)
    requires Free(s, stops)
    ensures Free(Strip(s), stops)
  {
    TrimShape(s, IsSpace);
    FreeMeans(s, stops);
    FreeMeans(Strip(s), stops);
  }

  lemma HostIsPlainEnough(text: string)
    requires IsFourPart(text)
    ensures Free(HostOf(text), ":") && ('@' !in Strip(text) ==> Free(HostOf(text), "@"))
    ensures HostOf(text) != "" && UserOf(text) != ""
    ensures AllDigits(PortOf(text)) && Strip(PortOf(text)) == PortOf(text)
  {
    hide Contains, Trim;
    var value := Strip(text);
    var n := Until(value, ":");
    UntilStops(value, ":");
    assert Split(value)[0] == value[..n];
    FreeOfStrip(value[..n], ":");
    if '@' !in value {
      FreeMeans(value, "@");
      FreeOfSlice(value, 0, n, "@");
      FreeOfStrip(value[..n], "@");
    }
    var port := PortOf(text);
    assert !IsSpace(port[0]) && !IsSpace(port[|port| - 1]);
    StripOfSolid(port);
  }

  function TextAuthority(text: string): string
    requires InBranch(text)
  {
    Authority(Quote(UserOf(text)), Quote(PasswordOf(text)), HostOf(text), PortOf(text))
  }

  lemma SchemeIsKnown(scheme: string)
    ensures Known(Scheme(scheme))
  {
    hide Strip, Lower;
  }

  lemma CoerceTakesTheBranch(text: string, defaultScheme: string, bracketed: string -> bool)
    requires InBranch(text)
    ensures Coerce(text, defaultScheme, bracketed)
      == Normalize(Scheme(defaultScheme) + "://" + TextAuthority(text), bracketed)
  {
    HostIsPlainEnough(text);
    UrlIsAuthority(Scheme(defaultScheme), Quote(UserOf(text)), Quote(PasswordOf(text)), HostOf(text), PortOf(text));
    assert Split("") == [""];
    assert Strip(text) != "";
    hide Contains, Strip, Split, Join, Quote, AllDigits, Normalize, Scheme, Authority;
  }

  lemma UrlIsAuthority(scheme: string, user: string, password: string, host: string, port: string)
    ensures scheme + "://" + user + ":" + password + "@" + host + ":" + port
      == scheme + "://" + Authority(user, password, host, port)
  {
  }

  lemma AuthorityEnd(user: string, password: string, host: string, port: string)
    requires AllDigits(port)
    ensures var a := Authority(user, password, host, port); a != "" && !IsSpace(a[|a| - 1])
  {
    var a := Authority(user, password, host, port);
    assert a[|a| - 1] == port[|port| - 1];
  }

  lemma BracketsAreInTheHost(user: string, password: string, x: string)
    requires IsSafe(user) && IsSafe(password)
    ensures ('[' in Front(user, password) + x <==> '[' in x) && (']' in Front(user, password) + x <==> ']' in x)
  {
    SafeIsFree(user);
    SafeIsFree(password);
    FreeMeans(user, "[");
    FreeMeans(user, "]");
    FreeMeans(password, "[");
    FreeMeans(password, "]");
  }

  lemma SettingsInTwoSteps(
      text: string, defaultScheme: string, bracketed: string -> bool, r: Result<Option<string>, Failure>)
    requires Coerce(text, defaultScheme, bracketed) == r
    ensures r.Err? ==> Settings(text, defaultScheme, bracketed) == Err(ValueError)
    ensures r.Ok? && r.value.Some? ==>
      var p := Playwright(r.value.value, bracketed);
      Settings(text, defaultScheme, bracketed) == if p.Ok? then Ok(Some(p.value)) else Err(ValueError)
  {
    hide Coerce, Playwright;
    var got := Settings(text, defaultScheme, bracketed);
    match r
    case Err(ValueError) =>
    case Ok(None) =>
    case Ok(Some(url)) =>
      match Playwright(url, bracketed)
      case Err(ValueError) =>
      case Ok(_) =>
  }

  /** Coercing and reading back is a function of the authority: an error for mismatched or
      refused brackets, else what the parts of the authority give. */
  lemma SettingsOfBranch(text: string, defaultScheme: string, bracketed: string -> bool) returns (url: string)
    requires InBranch(text)
    ensures var netloc := Front(Quote(UserOf(text)), Quote(PasswordOf(text))) + ReadBack(HostOf(text), PortOf(text));
      if BadBrackets(netloc, bracketed) then Settings(text, defaultScheme, bracketed) == Err(ValueError)
      else
        var r := Outcome(Final(Scheme(defaultScheme)), ReadBack(HostOf(text), PortOf(text)), Quote(UserOf(text)),
          Quote(PasswordOf(text)), url);
        Settings(text, defaultScheme, bracketed) == if r.Ok? then Ok(Some(r.value)) else Err(ValueError)
  {
    var scheme, user, password, host, port :=
      Scheme(defaultScheme), Quote(UserOf(text)), Quote(PasswordOf(text)), HostOf(text), PortOf(text);
    HostIsPlainEnough(text);
    QuoteIsSafe(UserOf(text));
    QuoteIsSafe(PasswordOf(text));
    CoerceTakesTheBranch(text, defaultScheme, bracketed);
    SchemeIsKnown(defaultScheme);
    AuthorityEnd(user, password, host, port);
    NetlocShape(user, password, host, port);
    SettingsInTwoSteps(text, defaultScheme, bracketed, Normalize(scheme + "://" + TextAuthority(text), bracketed));
    hide Quote, HostOf, PortOf, UserOf, PasswordOf, InBranch, Free, IsSafe, AllDigits, Authority, ReadBack, UrlSplit;
    hide Scheme, Known, Netloc, BadBrackets, Outcome, Normalize, Coerce, Playwright, Settings;
    NormalizeKeepsNetloc(scheme, TextAuthority(text), bracketed);
    url := "";
    var r := Normalize(scheme + "://" + TextAuthority(text), bracketed);
    if r.Ok? {
      url := r.value.value;
      PlaywrightIsOutcome(url, Final(scheme), user, password, host, port, bracketed);
    }
  }

  /** In the branch: coercing to a URL and extracting the browser settings gives back the trimmed
      user and password, the port as a number and the host exactly when the host has no character
      that ends, brackets or is deleted from an authority, and the port is at most 65535. */
  lemma RoundTripInBranch(text: string, defaultScheme: string, bracketed: string -> bool)
    requires InBranch(text) && AllDigits(PortOf(text))
    ensures Settings(text, defaultScheme, bracketed)
            == Ok(Some(Expected(Final(Scheme(defaultScheme)), UserOf(text), PasswordOf(text), HostOf(text),
              PortOf(text))))
            <==> PlainHost(HostOf(text)) && Value(PortOf(text)) <= 65535
  {
    var scheme, user, password, host, port := Final(Scheme(defaultScheme)), UserOf(text), PasswordOf(text),
      HostOf(text), PortOf(text);
    HostIsPlainEnough(text);
    SchemeIsKnown(defaultScheme);
    var url := SettingsOfBranch(text, defaultScheme, bracketed);
    QuoteIsSafe(user);
    QuoteIsSafe(password);
    BracketsAreInTheHost(Quote(user), Quote(password), ReadBack(host, port));
    assert scheme != "";
    hide Quote, HostOf, PortOf, UserOf, PasswordOf, InBranch, Free, IsSafe, Scheme, Settings, Outcome, Expected, Value;
    if PlainHost(host) {
      OutcomeOfPlain(scheme, user, password, host, port, url);
      NoBrackets(host, port);
    } else if !BadBrackets(Front(Quote(user), Quote(password)) + ReadBack(host, port), bracketed) {
      OutcomeOfOther(scheme, user, password, host, port, url);
    }
  }

  lemma NoBrackets(host: string, port: string)
    requires PlainHost(host) && Free(host, ":") && AllDigits(port)
    ensures '[' !in ReadBack(host, port) && ']' !in ReadBack(host, port)
  {
    PlainHostMeans(host);
    CleanedMeans(host);
    WholeHost(host, port);
    PlainParts(host, port);
  }

  // ---- the text is composed and taken apart uniquely ----------------------------------------------------------------

  lemma SplitStep(a: string, rest: string)
    requires Free(a, ":")
    ensures Split(a + ":" + rest) == [a] + Split(rest)
  {
    var s := a + ":" + rest;
    assert s == a + (":" + rest);
    UntilOfSum(a, ":" + rest, ":");
    assert s[..|a|] == a && s[|a| + 1..] == rest;
  }

  lemma {:induction false} JoinOfSplit(s: string)
    ensures Join(Split(s)) == s
    decreases |s|
  {
    var n := Until(s, ":");
    UntilStops(s, ":");
    if n < |s| {
      JoinOfSplit(s[n + 1..]);
      assert Split(s)[1..] == Split(s[n + 1..]);
      assert s == s[..n] + ":" + s[n + 1..];
    } else {
      assert s[..n] == s;
    }
  }

  /** Host, port and user without colons and any password are found again in the text. */
  lemma PartsOfText(host: string, port: string, user: string, password: string)
    requires Free(host, ":") && Free(port, ":") && Free(user, ":")
    ensures var parts := Split(host + ":" + port + ":" + user + ":" + password);
      |parts| >= 4 && parts[0] == host && parts[1] == port && parts[2] == user && Join(parts[3..]) == password
  {
    hide Split, Join, Free;
    Associate(host, port, user, password);
    SplitStep(host, port + ":" + (user + ":" + password));
    SplitStep(port, user + ":" + password);
    SplitStep(user, password);
    JoinOfSplit(password);
    var parts := Split(host + ":" + port + ":" + user + ":" + password);
    assert parts == [host] + ([port] + ([user] + Split(password)));
    assert parts[3..] == Split(password);
  }

  lemma Associate(a: string, b: string, c: string, d: string)
    ensures a + ":" + b + ":" + c + ":" + d == a + ":" + (b + ":" + (c + ":" + d))
  {
    var x, y := a + ":" + b + ":" + c, b + ":" + (c + ":" + d);
    assert x == a + ":" + (b + ":" + c);
    assert b + ":" + c + (":" + d) == y;
    assert x + (":" + d) == a + ":" + y;
  }

  lemma {:induction false} ContainsNeeds(s: string, part: string, c: char)
    requires Contains(s, part) && c in part
    ensures c in s
  {
    if !(|part| <= |s| && s[..|part|] == part) {
      ContainsNeeds(s[1..], part, c);
    }
  }

  lemma QuestionMarkText(text: string)
    requires text == "a?b:80:u:p"
    ensures Strip(text) == text && Strip("a?b") == "a?b" && Strip("u") == "u"
    ensures '@' !in text && '/' !in text && AllDigits("80") && !PlainHost("a?b")
  {
    hide Strip;
    StripOfSolid(text);
    StripOfSolid("a?b");
    StripOfSolid("u");
    assert "a?b"[1] in "/?#[]\t\r\n";
  }

  lemma StripOfSolid(s: string)
    requires s != "" && !IsSpace(s[0]) && !IsSpace(s[|s| - 1])
    ensures Strip(s) == s
  {
    TrimTwice(s, IsSpace);
  }

  /** A concrete text of the four-part form that does not come back. */
  lemma QuestionMarkBreaksTheRoundTrip(text: string, bracketed: string -> bool)
    requires text == "a?b:80:u:p"
    ensures InBranch(text) && AllDigits(PortOf(text)) && HostOf(text) == "a?b"
    ensures Settings(text, "http", bracketed)
      != Ok(Some(Expected(Final(Scheme("http")), UserOf(text), PasswordOf(text), HostOf(text), PortOf(text))))
  {
    hide Split, Strip, Contains, Settings, Expected, PlainHost, AllDigits, Join, Scheme, Value;
    QuestionMarkText(text);
    PartsOfText("a?b", "80", "u", "p");
    assert "a?b" + ":" + "80" + ":" + "u" + ":" + "p" == text;
    if Contains(text, "://") {
      ContainsNeeds(text, "://", '/');
    }
    RoundTripInBranch(text, "http", bracketed);
  }
}
