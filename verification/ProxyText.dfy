/** Hand-written proxy texts, proxy URLs and browser proxy settings (core/proxy_utils.py).
    Splitting a URL follows `urllib.parse.urlsplit`; names of parts are those of section 3 of
    RFC 3986. */
module ProxyText {
  import opened Basics
  import opened Decimal
  import opened Text
  import opened PercentCode

  // ---- pieces of text -------------------------------------------------------------------------

  /** The length of the longest prefix without any of the characters of `stops`. */
  function Until(s: string, stops: string): (n: nat)
    ensures n <= |s|
  {
    if s == "" || s[0] in stops then 0 else 1 + Until(s[1..], stops)
  }

  predicate Free(s: string, stops: string) { forall i :: 0 <= i < |s| ==> s[i] !in stops }

  lemma {:induction false} UntilOfSum(a: string, b: string, stops: string)
    requires Free(a, stops) && (b == "" || b[0] in stops)
    ensures Until(a + b, stops) == |a|
  {
    if a == "" {
      assert a + b == b;
    } else {
      assert (a + b)[1..] == a[1..] + b;
      UntilOfSum(a[1..], b, stops);
    }
  }

  lemma {:induction false} UntilStops(s: string, stops: string)
    ensures Free(s[..Until(s, stops)], stops)
    ensures Until(s, stops) < |s| ==> s[Until(s, stops)] in stops
  {
    if s != "" && s[0] !in stops {
      UntilStops(s[1..], stops);
      var n := Until(s, stops);
      assert forall i :: 0 < i < n ==> s[..n][i] == s[1..][..n - 1][i - 1];
    }
  }

  /** `s.split(":")`. */
  function Split(s: string): (parts: seq<string>)
    ensures |parts| >= 1
    decreases |s|
  {
    var n := Until(s, ":");
    if n == |s| then [s] else [s[..n]] + Split(s[n + 1..])
  }

  /** `":".join(parts)`. */
  function Join(parts: seq<string>): string {
    if |parts| == 0 then "" else if |parts| == 1 then parts[0] else parts[0] + ":" + Join(parts[1..])
  }

  predicate AllDigits(s: string) { s != "" && forall i :: 0 <= i < |s| ==> IsDigit(s[i]) }

  // ---- URLs ---------------------------------------------------------------------------------------

  datatype Url = Url(scheme: string, netloc: string, path: string, query: string, fragment: string)

  datatype Failure = ValueError

  predicate SchemeChar(c: char) {
    ('a' <= c <= 'z') || ('A' <= c <= 'Z') || IsDigit(c) || c == '+' || c == '-' || c == '.'
  }

  predicate IsScheme(s: string) {
    s != "" && (('a' <= s[0] <= 'z') || ('A' <= s[0] <= 'Z')) && forall i :: 0 <= i < |s| ==> SchemeChar(s[i])
  }

  /** Tabs and line ends are deleted anywhere in a URL. */
  function Cleaned(s: string): string {
    if s == "" then ""
    else (if s[0] == '\t' || s[0] == '\r' || s[0] == '\n' then "" else [s[0]]) + Cleaned(s[1..])
  }

  predicate IsBlankOrControl(c: char) { c <= ' ' }

  /** Scheme and rest; no scheme when the text before the first colon is none. */
  function SplitScheme(url: string): (string, string) {
    var i := Until(url, ":");
    if i < |url| && IsScheme(url[..i]) then (Lower(url[..i]), url[i + 1..]) else ("", url)
  }

  /** Authority and rest. */
  function SplitNetloc(rest: string): (string, string) {
    if |rest| >= 2 && rest[..2] == "//" then
      var n := Until(rest[2..], "/?#");
      (rest[2..][..n], rest[2..][n..])
    else ("", rest)
  }

  /** Path, query and fragment. */
  function SplitTail(tail: string): (string, string, string) {
    var f := Until(tail, "#");
    var q := Until(tail[..f], "?");
    (tail[..q], if q < f then tail[q + 1..f] else "", if f < |tail| then tail[f + 1..] else "")
  }

  predicate BadBrackets(netloc: string, bracketed: string -> bool) {
    ('[' in netloc) != (']' in netloc) || ('[' in netloc && !bracketed(netloc))
  }

  /** `bracketed` says whether an authority with both brackets holds a valid literal address. */
  function UrlSplit(text: string, bracketed: string -> bool): Result<Url, Failure> {
    var (scheme, rest) := SplitScheme(Cleaned(TrimLeft(text, IsBlankOrControl)));
    var (netloc, tail) := SplitNetloc(rest);
    var (path, query, fragment) := SplitTail(tail);
    if BadBrackets(netloc, bracketed) then Err(ValueError) else Ok(Url(scheme, netloc, path, query, fragment))
  }

  /** `urlunsplit` for a URL with an authority or without one. */
  function UrlUnsplit(u: Url): string {
    var path := if u.netloc == "" then u.path
                else "//" + u.netloc + (if u.path != "" && u.path[0] != '/' then "/" else "") + u.path;
    (if u.scheme == "" then "" else u.scheme + ":") + path
    + (if u.query == "" then "" else "?" + u.query) + (if u.fragment == "" then "" else "#" + u.fragment)
  }

  /** The part of the authority after its last "@". */
  function HostInfo(netloc: string): string { AfterLast(netloc, '@') }

  /** The part before the last "@", absent when there is none. */
  function UserInfo(netloc: string): Option<string> {
    var n := |HostInfo(netloc)|;
    if n < |netloc| then Some(netloc[..|netloc| - n - 1]) else None
  }

  function After(s: string, stop: string): string {
    if Until(s, stop) < |s| then s[Until(s, stop) + 1..] else ""
  }

  function Before(s: string, stop: string): string { s[..Until(s, stop)] }

  /** Host text and port text of the part of an authority after its last "@". */
  function HostPort(info: string): (string, string) {
    if '[' in info then (Before(After(info, "["), "]"), After(After(After(info, "["), "]"), ":"))
    else (Before(info, ":"), After(info, ":"))
  }

  /** Lower case, but not past a percent sign. */
  function HostName(host: string): string {
    Lower(Before(host, "%")) + host[Until(host, "%")..]
  }

  /** `parts.port`: none, a number up to 65535, or an error. */
  function Port(text: string): Result<Option<nat>, Failure> {
    if text == "" then Ok(None)
    else if !AllDigits(text) || Value(text) > 65535 then Err(ValueError)
    else Ok(Some(Value(text)))
  }

  // ---- the three functions ---------------------------------------------------------------------------

  /** `normalize_proxy_url`: `None` for blank text. */
  function Normalize(text: string, bracketed: string -> bool): Result<Option<string>, Failure> {
    var value := Strip(text);
    if value == "" then Ok(None)
    else match UrlSplit(value, bracketed)
      case Err(e) => Err(e)
      case Ok(u) =>
        if Lower(u.scheme) == "socks5" then Ok(Some(UrlUnsplit(u.(scheme := "socks5h")))) else Ok(Some(value))
  }

  function Scheme(text: string): string {
    var scheme := Lower(Strip(if text == "" then "http" else text));
    if scheme == "http" || scheme == "https" || scheme == "socks5" || scheme == "socks5h" then scheme else "http"
  }

  /** `host:port:user:password`, where the password may contain colons. */
  predicate FourPart(value: string) {
    var parts := Split(value);
    |parts| >= 4 && AllDigits(parts[1]) && Strip(parts[0]) != "" && Strip(parts[2]) != ""
  }

  function FourPartUrl(value: string, scheme: string): string
    requires FourPart(value)
  {
    var parts := Split(value);
    scheme + "://" + Quote(Strip(parts[2])) + ":" + Quote(Strip(Join(parts[3..]))) + "@" + Strip(parts[0]) + ":"
      + Strip(parts[1])
  }

  /** `coerce_proxy_url`. */
  function Coerce(text: string, defaultScheme: string, bracketed: string -> bool): Result<Option<string>, Failure> {
    var value := Strip(text);
    var scheme := Scheme(defaultScheme);
    if value == "" then Ok(None)
    else if Contains(value, "://") then Normalize(value, bracketed)
    else if '@' in value then Normalize(scheme + "://" + value, bracketed)
    else if FourPart(value) then Normalize(FourPartUrl(value, scheme), bracketed)
    else if |Split(value)| == 2 && AllDigits(Split(value)[1]) then Normalize(scheme + "://" + value, bracketed)
    else Normalize(value, bracketed)
  }

  datatype Config = Config(server: string, username: Option<string>, password: Option<string>)

  function Server(scheme: string, host: string, port: nat): string { scheme + "://" + host + ":" + Numeral(port) }

  function Credential(text: string): Option<string> { if text == "" then None else Some(Unquote(text)) }

  /** The settings for an authority with this user information and this host information. */
  function FromParts(url: string, scheme: string, user: string, info: string): Result<Config, Failure> {
    var (host, port) := HostPort(info);
    if scheme == "" || HostName(host) == "" then Ok(Config(url, None, None))
    else match Port(port)
      case Err(e) => Err(e)
      case Ok(None) => Ok(Config(url, None, None))
      case Ok(Some(n)) =>
        Ok(Config(Server(scheme, HostName(host), n), Credential(Before(user, ":")), Credential(After(user, ":"))))
  }

  /** `build_playwright_proxy_config`. */
  function Playwright(url: string, bracketed: string -> bool): Result<Config, Failure> {
    match UrlSplit(url, bracketed)
    case Err(e) => Err(e)
    case Ok(u) =>
      var user := if UserInfo(u.netloc).Some? then UserInfo(u.netloc).value else "";
      FromParts(url, u.scheme, user, HostInfo(u.netloc))
  }

  /** Both in a row, as the callers do. */
  function Settings(text: string, defaultScheme: string, bracketed: string -> bool): Result<Option<Config>, Failure> {
    match Coerce(text, defaultScheme, bracketed)
    case Err(e) => Err(e)
    case Ok(None) => Ok(None)
    case Ok(Some(url)) =>
      match Playwright(url, bracketed)
      case Err(e) => Err(e)
      case Ok(config) => Ok(Some(config))
  }
}
