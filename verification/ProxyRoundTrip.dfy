/** When a hand-written `host:port:user:password` comes back unharmed (core/proxy_utils.py). */
module ProxyRoundTrip {
  import opened Basics
  import opened Decimal
  import opened Text
  import opened PercentCode
  import opened ProxyText

  // ---- deleting control characters ------------------------------------------------------------

  predicate Clean(s: string) { Free(s, "\t\r\n") }

  lemma {:induction false} CleanedSum(a: string, b: string)
    ensures Cleaned(a + b) == Cleaned(a) + Cleaned(b)
  {
    if a == "" {
      assert a + b == b;
    } else {
      assert (a + b)[1..] == a[1..] + b;
      CleanedSum(a[1..], b);
    }
  }

  lemma {:induction false} CleanedMeans(s: string)
    ensures Clean(Cleaned(s)) && |Cleaned(s)| <= |s|
    ensures |Cleaned(s)| == |s| <==> Clean(s)
    ensures Clean(s) ==> Cleaned(s) == s
    ensures forall c :: c in Cleaned(s) <==> c in s && c !in "\t\r\n"
  {
    if s != "" {
      CleanedMeans(s[1..]);
      assert s == [s[0]] + s[1..];
      assert Clean(s) <==> s[0] !in "\t\r\n" && Clean(s[1..]);
    }
  }

  lemma FreeOfSum(a: string, b: string, stops: string)
    ensures Free(a + b, stops) <==> Free(a, stops) && Free(b, stops)
  {
    forall i | 0 <= i < |a| ensures (a + b)[i] == a[i] {}
    forall i | 0 <= i < |b| ensures (a + b)[|a| + i] == b[i] {}
  }

  lemma FreeMeans(s: string, stops: string)
    ensures Free(s, stops) <==> forall c :: c in s ==> c !in stops
  {
  }

  // ---- splitting a known URL ------------------------------------------------------------------------

  predicate CleanScheme(scheme: string) {
    IsScheme(scheme) && Lower(scheme) == scheme && Clean(scheme) && Free(scheme, ":")
  }

  predicate IsTail(tail: string) { tail == "" || tail[0] in "/?#" }

  /** What follows the authority when a URL is put together. */
  function TailOf(u: Url): string {
    u.path + (if u.query == "" then "" else "?" + u.query) + (if u.fragment == "" then "" else "#" + u.fragment)
  }

  lemma TrimmedFront(s: string, drop: char -> bool)
    requires s != "" && !drop(s[0])
    ensures TrimLeft(s, drop) == s
  {
  }

  lemma SchemeOfKnown(scheme: string, rest: string)
    requires CleanScheme(scheme)
    ensures SplitScheme(scheme + ":" + rest) == (scheme, rest)
  {
    var url := scheme + ":" + rest;
    assert url == scheme + (":" + rest);
    UntilOfSum(scheme, ":" + rest, ":");
    assert url[..|scheme|] == scheme && url[|scheme| + 1..] == rest;
  }

  lemma NetlocOfKnown(netloc: string, tail: string)
    requires Free(netloc, "/?#") && IsTail(tail)
    ensures SplitNetloc("//" + netloc + tail) == (netloc, tail)
  {
    var rest := "//" + netloc + tail;
    assert rest[..2] == "//" && rest[2..] == netloc + tail;
    UntilOfSum(netloc, tail, "/?#");
    assert (netloc + tail)[..|netloc|] == netloc && (netloc + tail)[|netloc|..] == tail;
  }

  lemma FreeOfSlice(s: string, i: nat, j: nat, stops: string)
    requires Free(s, stops) && i <= j <= |s|
    ensures Free(s[i..j], stops)
  {
  }

  lemma {:induction false} CleanSums(scheme: string, netloc: string, tail: string)
    ensures Clean(scheme + "://" + netloc + tail) <==> Clean(scheme) && Clean(netloc) && Clean(tail)
  {
    FreeOfSum(scheme, "://", "\t\r\n");
    FreeOfSum(scheme + "://", netloc, "\t\r\n");
    FreeOfSum(scheme + "://" + netloc, tail, "\t\r\n");
  }

  lemma FrontAndClean(url: string, scheme: string)
    requires CleanScheme(scheme) && |scheme| <= |url| && url[..|scheme|] == scheme
    ensures Cleaned(TrimLeft(url, IsBlankOrControl)) == Cleaned(url)
    ensures Clean(url) ==> Cleaned(url) == url
  {
    assert url[0] == scheme[0];
    TrimmedFront(url, IsBlankOrControl);
    CleanedMeans(url);
  }

  lemma SplitClean(scheme: string, netloc: string, tail: string, bracketed: string -> bool)
    requires CleanScheme(scheme) && Free(netloc, "/?#") && IsTail(tail) && Clean(netloc) && Clean(tail)
    ensures UrlSplit(scheme + "://" + netloc + tail, bracketed) ==
      if BadBrackets(netloc, bracketed) then Err(ValueError)
      else Ok(Url(scheme, netloc, SplitTail(tail).0, SplitTail(tail).1, SplitTail(tail).2))
  {
    hide SplitScheme, SplitNetloc, SplitTail, BadBrackets, Cleaned, Free, IsTail;
    var url := scheme + "://" + netloc + tail;
    CleanSums(scheme, netloc, tail);
    UrlShape(scheme, netloc, tail);
    FrontAndClean(url, scheme);
    hide Clean, CleanScheme;
    SchemeOfKnown(scheme, "//" + netloc + tail);
    NetlocOfKnown(netloc, tail);
  }

  lemma UrlShape(scheme: string, netloc: string, tail: string)
    ensures var url := scheme + "://" + netloc + tail;
      url == scheme + ":" + ("//" + netloc + tail) && |scheme| <= |url| && url[..|scheme|] == scheme
  {
  }

  /** A tail taken apart and put together again is still a clean tail. */
  lemma TailShape(u: Url, tail: string)
    requires IsTail(tail) && Clean(tail) && SplitTail(tail) == (u.path, u.query, u.fragment)
    ensures (u.path == "" || u.path[0] == '/') && IsTail(TailOf(u)) && Clean(TailOf(u))
  {
    var f := Until(tail, "#");
    var q := Until(tail[..f], "?");
    UntilStops(tail, "#");
    UntilStops(tail[..f], "?");
    FreeOfSlice(tail, 0, q, "\t\r\n");
    if q < f {
      FreeOfSlice(tail, q + 1, f, "\t\r\n");
    }
    if f < |tail| {
      FreeOfSlice(tail, f + 1, |tail|, "\t\r\n");
    }
    assert tail[..f][..q] == tail[..q];
    if u.path != "" {
      assert u.path[0] == tail[0] && u.path[0] == tail[..f][0];
    }
    var a, b := if u.query == "" then "" else "?" + u.query, if u.fragment == "" then "" else "#" + u.fragment;
    hide SplitTail;
    FreeOfSum("?", u.query, "\t\r\n");
    FreeOfSum("#", u.fragment, "\t\r\n");
    FreeOfSum(u.path, a, "\t\r\n");
    FreeOfSum(u.path + a, b, "\t\r\n");
    hide Free;
  }

  // ---- the authority of a URL survives normalising -----------------------------------------------------

  predicate Known(scheme: string) {
    scheme == "http" || scheme == "https" || scheme == "socks5" || scheme == "socks5h"
  }

  lemma KnownIsClean(scheme: string)
    requires Known(scheme)
    ensures CleanScheme(scheme)
  {
    assert Lower("http") == "http";
    assert Lower("https") == "https";
    assert Lower("socks5") == "socks5";
    assert Lower("socks5h") == "socks5h";
  }

  /** The scheme that a browser is given. */
  function Final(scheme: string): string { if scheme == "socks5" then "socks5h" else scheme }

  /** The authority that is read back: without control characters, and cut off early when it
      contains one of the characters that end an authority. */
  function Netloc(authority: string): string { Before(Cleaned(authority), "/?#") }

  lemma SplitRaw(scheme: string, authority: string, bracketed: string -> bool)
    requires CleanScheme(scheme)
    ensures var r := UrlSplit(scheme + "://" + authority, bracketed);
      (r.Err? <==> BadBrackets(Netloc(authority), bracketed))
      && (r.Ok? ==> r.value.scheme == scheme && r.value.netloc == Netloc(authority)
                    && (r.value.path == "" || r.value.path[0] == '/') && IsTail(TailOf(r.value))
                      && Clean(TailOf(r.value)))
  {
    hide SplitScheme, SplitNetloc, SplitTail, BadBrackets, Cleaned, TailOf;
    var a := Cleaned(authority);
    var n := Until(a, "/?#");
    UntilStops(a, "/?#");
    CleanedMeans(authority);
    FreeOfSlice(a, 0, n, "\t\r\n");
    FreeOfSlice(a, n, |a|, "\t\r\n");
    var again := scheme + "://" + a[..n] + a[n..];
    SplitOfCleaned(scheme, authority, a[..n], a[n..], bracketed);
    SplitClean(scheme, a[..n], a[n..], bracketed);
    var r := UrlSplit(again, bracketed);
    hide UrlSplit;
    if r.Ok? {
      TailShape(r.value, a[n..]);
    }
  }

  /** Only the cleaned authority matters. */
  lemma SplitOfCleaned(scheme: string, authority: string, netloc: string, tail: string, bracketed: string -> bool)
    requires CleanScheme(scheme) && Cleaned(authority) == netloc + tail && Clean(netloc) && Clean(tail)
    ensures UrlSplit(scheme + "://" + authority, bracketed) == UrlSplit(scheme + "://" + netloc + tail, bracketed)
  {
    hide SplitScheme, SplitNetloc, SplitTail, BadBrackets, Cleaned, TrimLeft;
    var raw, again := scheme + "://" + authority, scheme + "://" + netloc + tail;
    assert again == scheme + "://" + (netloc + tail);
    CleanedUrl(scheme, authority);
    assert raw == scheme + "://" + authority + "";
    UrlShape(scheme, authority, "");
    UrlShape(scheme, netloc, tail);
    FrontAndClean(raw, scheme);
    FrontAndClean(again, scheme);
    CleanSums(scheme, netloc, tail);
  }

  lemma CleanedUrl(scheme: string, authority: string)
    requires Clean(scheme)
    ensures Cleaned(scheme + "://" + authority) == scheme + "://" + Cleaned(authority)
  {
    CleanedSum(scheme + "://", authority);
    CleanedSum(scheme, "://");
    CleanedMeans(scheme);
    CleanedMeans("://");
  }

  lemma UnsplitShape(u: Url, scheme: string)
    requires scheme != "" && u.netloc != "" && (u.path == "" || u.path[0] == '/')
    ensures UrlUnsplit(u.(scheme := scheme)) == scheme + "://" + u.netloc + TailOf(u)
  {
  }

  lemma NothingToStrip(scheme: string, authority: string)
    requires Known(scheme) && authority != "" && !IsSpace(authority[|authority| - 1])
    ensures Strip(scheme + "://" + authority) == scheme + "://" + authority
  {
    var s := scheme + "://" + authority;
    assert s[0] == scheme[0] && s[|s| - 1] == authority[|authority| - 1];
    TrimTwice(s, IsSpace);
  }

  lemma NormalizeKeepsNetloc(scheme: string, authority: string, bracketed: string -> bool)
    requires Known(scheme) && authority != "" && !IsSpace(authority[|authority| - 1]) && Netloc(authority) != ""
    ensures var r := Normalize(scheme + "://" + authority, bracketed);
      (r.Err? <==> BadBrackets(Netloc(authority), bracketed))
      && (r.Ok? ==> r.value.Some?
                    && var u := UrlSplit(r.value.value, bracketed);
                       u.Ok? && u.value.scheme == Final(scheme) && u.value.netloc == Netloc(authority))
  {
    hide UrlSplit, TailOf, UrlUnsplit, IsTail, BadBrackets, Strip, Netloc, IsSpace;
    KnownIsClean(scheme);
    KnownIsClean("socks5h");
    NothingToStrip(scheme, authority);
    SplitRaw(scheme, authority, bracketed);
    var r := UrlSplit(scheme + "://" + authority, bracketed);
    if r.Ok? && scheme == "socks5" {
      var u := r.value;
      UnsplitShape(u, "socks5h");
      FreeNetloc(authority);
      SplitClean("socks5h", u.netloc, TailOf(u), bracketed);
    }
  }

  lemma FreeNetloc(authority: string)
    ensures Free(Netloc(authority), "/?#") && Clean(Netloc(authority))
  {
    UntilStops(Cleaned(authority), "/?#");
    CleanedMeans(authority);
    FreeOfSlice(Cleaned(authority), 0, Until(Cleaned(authority), "/?#"), "\t\r\n");
  }
}
