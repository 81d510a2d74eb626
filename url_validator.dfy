/** `app/services/url_validator.py`: a candidate URL is kept unless its
    scheme is not HTTP(S), its host is on the deny-list or its path holds a
    blocked hint; `select_top_urls` keeps the first acceptable URLs.

    The URL is split the way `urllib.parse.urlparse` splits it: the scheme
    before the first `:` (when it starts with a letter and holds only scheme
    characters, lower-cased), the network location after `//` up to the
    first `/`, `?` or `#`, the path up to the first `?` or `#`, and the
    `;params` cut off the last path segment for the schemes that use them. */
module UrlValidator {
  import opened Text

  const BlockedDomains: set<string> := {
    "reddit.com", "www.reddit.com",
    "quora.com", "www.quora.com",
    "youtube.com", "www.youtube.com", "youtu.be",
    "pinterest.com", "www.pinterest.com",
    "wikipedia.org", "www.wikipedia.org"
  }

  const BlockedPathHints: seq<string> := ["/forum", "/forums", "/products", "/shop", "/category", "/tag"]

  const AllowedSchemes: set<string> := {"http", "https"}

  /** `urllib.parse.uses_params`: the schemes whose last path segment may
      carry `;params`. */
  const UsesParams: set<string> := {
    "", "ftp", "hdl", "prospero", "http", "imap", "https", "shttp",
    "rtsp", "rtspu", "rtsps", "sip", "sips", "mms", "sftp", "tel"
  }

  /** The parts of `urlparse(url)` the validator reads. */
  datatype Url = Url(scheme: string, netloc: string, path: string)

  predicate IsAsciiLetter(c: char) {
    'a' <= c <= 'z' || 'A' <= c <= 'Z'
  }

  /** `urllib.parse.scheme_chars` */
  predicate IsSchemeChar(c: char) {
    IsAsciiLetter(c) || '0' <= c <= '9' || c == '+' || c == '-' || c == '.'
  }

  predicate IsColon(c: char) {
    c == ':'
  }

  predicate IsNetlocEnd(c: char) {
    c == '/' || c == '?' || c == '#'
  }

  predicate IsPathEnd(c: char) {
    c == '?' || c == '#'
  }

  predicate IsSemicolon(c: char) {
    c == ';'
  }

  predicate IsSlash(c: char) {
    c == '/'
  }

  /** A scheme `urlparse` recognises: a letter, then scheme characters. */
  predicate IsScheme(s: string) {
    s != [] && IsAsciiLetter(s[0]) && forall i :: 0 <= i < |s| ==> IsSchemeChar(s[i])
  }

  /** The lower-cased scheme and what follows its `:`, or no scheme and the
      whole string. */
  function SplitScheme(url: string): (string, string) {
    var i := IndexWhere(url, IsColon);
    if i < |url| && IsScheme(url[..i]) then (Lower(url[..i]), url[i + 1..]) else ("", url)
  }

  /** The index of the last character satisfying `p`, or `|s|` if none. */
  function LastIndexWhere(s: string, p: char -> bool): (i: nat)
    ensures i <= |s|
    ensures i < |s| ==> p(s[i]) && forall j :: i < j < |s| ==> !p(s[j])
    ensures i == |s| ==> forall j :: 0 <= j < |s| ==> !p(s[j])
    decreases |s|
  {
    if s == [] then 0
    else if p(s[|s| - 1]) then |s| - 1
    else
      var i := LastIndexWhere(s[..|s| - 1], p);
      if i == |s| - 1 then |s| else i
  }

  /** `_splitparams`: cut at the first `;` after the last `/`, or at the
      first `;` when there is no `/`; a path without `;` is kept whole. */
  function StripParams(p: string): (r: string)
    ensures |r| <= |p| && r == p[..|r|]
    ensures (forall i :: 0 <= i < |p| ==> !IsSemicolon(p[i])) ==> r == p
  {
    var slash := LastIndexWhere(p, IsSlash);
    var from := if slash < |p| then slash else 0;
    p[..from + IndexWhere(p[from..], IsSemicolon)]
  }

  /** The network location after a leading `//`, up to the first `/`, `?`
      or `#`, and what follows it. */
  function SplitNetloc(rest: string): (string, string) {
    if StartsWith(rest, "//") then
      var n := 2 + IndexWhere(rest[2..], IsNetlocEnd);
      (rest[2..n], rest[n..])
    else ("", rest)
  }

  /** What precedes the query and the fragment. */
  function BeforeQuery(s: string): string {
    s[..IndexWhere(s, IsPathEnd)]
  }

  /** `urlparse(url)`, reduced to scheme, network location and path. */
  function UrlParse(url: string): (u: Url)
    ensures u.scheme == SplitScheme(url).0
  {
    var (scheme, rest) := SplitScheme(url);
    var (netloc, afterNetloc) := SplitNetloc(rest);
    var beforeQuery := BeforeQuery(afterNetloc);
    var path := if scheme in UsesParams then StripParams(beforeQuery) else beforeQuery;
    Url(scheme, netloc, path)
  }

  /** `any(hint in path for hint in BLOCKED_PATH_HINTS)` */
  predicate HasBlockedHint(path: string) {
    exists k :: 0 <= k < |BlockedPathHints| && Contains(path, BlockedPathHints[k])
  }

  /** `is_acceptable_url` */
  predicate IsAcceptableUrl(url: string) {
    var parsed := UrlParse(url);
    if parsed.scheme !in AllowedSchemes then false
    else if Lower(parsed.netloc) in BlockedDomains then false
    else if HasBlockedHint(Lower(parsed.path)) then false
    else true
  }

  /** What `url` is made of when written out as `scheme://host` followed by
      a path and then a query or fragment (or nothing). */
  predicate IsBuiltUrl(scheme: string, host: string, path: string, tail: string) {
    && IsScheme(scheme)
    && (forall i :: 0 <= i < |host| ==> !IsNetlocEnd(host[i]))
    && (path == [] || path[0] == '/')
    && (forall i :: 0 <= i < |path| ==> !IsPathEnd(path[i]) && !IsSemicolon(path[i]))
    && (tail == [] || IsPathEnd(tail[0]))
  }

  lemma SplitSchemeBuilt(scheme: string, rest: string)
    requires IsScheme(scheme)
    ensures SplitScheme(scheme + ":" + rest) == (Lower(scheme), rest)
  {
    var url := scheme + ":" + rest;
    assert url[|scheme|] == ':';
    assert url[..|scheme|] == scheme;
    assert url[|scheme| + 1..] == rest;
  }

  lemma SplitNetlocBuilt(host: string, rest: string)
    requires forall i :: 0 <= i < |host| ==> !IsNetlocEnd(host[i])
    requires rest == [] || IsNetlocEnd(rest[0])
    ensures SplitNetloc("//" + host + rest) == (host, rest)
  {
    var s := "//" + host + rest;
    assert StartsWith(s, "//");
    var r2 := s[2..];
    assert r2 == host + rest;
    if rest != [] {
      assert r2[|host|] == rest[0];
    }
    assert IndexWhere(r2, IsNetlocEnd) == |host|;
  }

  lemma BeforeQueryBuilt(path: string, tail: string)
    requires forall i :: 0 <= i < |path| ==> !IsPathEnd(path[i])
    requires tail == [] || IsPathEnd(tail[0])
    ensures BeforeQuery(path + tail) == path
  {
    var s := path + tail;
    if tail != [] {
      assert s[|path|] == tail[0];
    }
    assert IndexWhere(s, IsPathEnd) == |path|;
  }

  /** `urlparse` takes such a URL apart again: the lower-cased scheme, the
      host exactly as written and the path. */
  lemma ParseBuiltUrl(scheme: string, host: string, path: string, tail: string)
    requires IsBuiltUrl(scheme, host, path, tail)
    ensures UrlParse(scheme + "://" + host + path + tail) == Url(Lower(scheme), host, path)
  {
    var url := scheme + "://" + host + path + tail;
    var rest := "//" + host + (path + tail);
    assert SplitScheme(url) == (Lower(scheme), rest) by {
      assert url == scheme + ":" + rest;
      SplitSchemeBuilt(scheme, rest);
    }
    assert SplitNetloc(rest) == (host, path + tail) by {
      SplitNetlocBuilt(host, path + tail);
    }
    assert BeforeQuery(path + tail) == path by {
      BeforeQueryBuilt(path, tail);
    }
    UrlParseOfParts(url, Lower(scheme), rest, host, path + tail, path);
  }

  /** `urlparse` put together from its steps, for a path without `;`. */
  lemma UrlParseOfParts(url: string, scheme: string, rest: string, netloc: string, afterNetloc: string, path: string)
    requires SplitScheme(url) == (scheme, rest)
    requires SplitNetloc(rest) == (netloc, afterNetloc)
    requires BeforeQuery(afterNetloc) == path
    requires forall i :: 0 <= i < |path| ==> !IsSemicolon(path[i])
    ensures UrlParse(url) == Url(scheme, netloc, path)
  {
    assert StripParams(path) == path;
  }

  /** The deny-list check stated on the parts of a written-out URL: it is
      kept exactly when its scheme is HTTP(S) in any case, its lower-cased
      host is not listed and its lower-cased path holds no hint. */
  lemma AcceptableBuiltUrl(scheme: string, host: string, path: string, tail: string)
    requires IsBuiltUrl(scheme, host, path, tail)
    ensures IsAcceptableUrl(scheme + "://" + host + path + tail) <==>
      && Lower(scheme) in AllowedSchemes
      && Lower(host) !in BlockedDomains
      && !HasBlockedHint(Lower(path))
  {
    ParseBuiltUrl(scheme, host, path, tail);
  }

  lemma LowerSnoc(s: string, c: char)
    ensures Lower(s + [c]) == Lower(s) + [LowerChar(c)]
  {
  }

  /** A scheme split off is the lower-cased text before the first `:`. */
  lemma SchemeIsPrefix(url: string)
    requires SplitScheme(url).0 != ""
    ensures var i := IndexWhere(url, IsColon);
      i < |url| && SplitScheme(url).0 == Lower(url[..i])
  {
  }

  /** Only an HTTP(S) scheme is accepted. */
  lemma AcceptedScheme(url: string)
    requires IsAcceptableUrl(url)
    ensures SplitScheme(url).0 in AllowedSchemes
  {
  }

  /** Lower-casing a prefix that ends in `:`. */
  lemma LowerThroughColon(url: string, i: nat)
    requires i < |url| && url[i] == ':'
    ensures Lower(url[..i + 1]) == Lower(url[..i]) + ":"
  {
    assert url[..i + 1] == url[..i] + [':'];
    LowerSnoc(url[..i], ':');
  }

  /** A URL whose scheme is HTTP(S) starts with `http:` or `https:`, in
      any case. */
  lemma HttpSchemePrefix(url: string)
    requires SplitScheme(url).0 in AllowedSchemes
    ensures || (|url| >= 5 && Lower(url[..5]) == "http:")
            || (|url| >= 6 && Lower(url[..6]) == "https:")
  {
    var scheme := SplitScheme(url).0;
    SchemeIsPrefix(url);
    var i := IndexWhere(url, IsColon);
    LowerThroughColon(url, i);
    assert |scheme| == i;
    if scheme == "http" {
      assert i == 4;
      assert "http" + ":" == "http:";
    } else {
      assert i == 5;
      assert "https" + ":" == "https:";
    }
  }

  /** Whatever is accepted starts with `http:` or `https:`, in any case. */
  lemma AcceptedIsHttp(url: string)
    requires IsAcceptableUrl(url)
    ensures || (|url| >= 5 && Lower(url[..5]) == "http:")
            || (|url| >= 6 && Lower(url[..6]) == "https:")
  {
    AcceptedScheme(url);
    HttpSchemePrefix(url);
  }

  lemma {:induction false} ContainsTooLong(s: string, sub: string)
    requires |sub| > |s|
    ensures !Contains(s, sub)
    decreases |s|
  {
    if s != [] {
      ContainsTooLong(s[1..], sub);
    }
  }

  /** The root path holds no hint: every hint is longer than it. */
  lemma RootHasNoHint()
    ensures !HasBlockedHint("/")
  {
    forall k | 0 <= k < |BlockedPathHints|
      ensures !Contains("/", BlockedPathHints[k])
    {
      ContainsTooLong("/", BlockedPathHints[k]);
    }
  }

  /** A written-out URL with the root path is kept exactly when its scheme
      is HTTP(S) and its host is not listed, both compared lower-cased. */
  lemma RootUrlAcceptable(scheme: string, host: string)
    requires IsBuiltUrl(scheme, host, "/", "")
    ensures IsAcceptableUrl(scheme + "://" + host + "/") <==>
      Lower(scheme) in AllowedSchemes && Lower(host) !in BlockedDomains
  {
    RootHasNoHint();
    LowerOfLowerCase("/");
    AcceptableBuiltUrl(scheme, host, "/", "");
    assert scheme + "://" + host + "/" + "" == scheme + "://" + host + "/";
  }

  /** `https` is a lower-case HTTP(S) scheme. */
  lemma HttpsScheme()
    ensures IsScheme("https") && Lower("https") in AllowedSchemes
  {
    LowerOfLowerCase("https");
  }

  /** The deny-list matches whole hosts: a subdomain of a blocked domain is
      kept. */
  lemma SubdomainIsKept()
    ensures IsAcceptableUrl("https" + "://" + "en.wikipedia.org" + "/")
  {
    var host := "en.wikipedia.org";
    HttpsScheme();
    LowerOfLowerCase(host);
    assert host !in BlockedDomains;
    RootUrlAcceptable("https", host);
  }

  /** A blocked domain written with a port is kept too. */
  lemma PortIsKept()
    ensures IsAcceptableUrl("https" + "://" + "reddit.com:443" + "/")
  {
    var host := "reddit.com:443";
    HttpsScheme();
    LowerOfLowerCase(host);
    assert host !in BlockedDomains;
    RootUrlAcceptable("https", host);
  }

  /** Scheme and host are compared lower-cased. */
  lemma HostCaseIsFolded()
    ensures !IsAcceptableUrl("HTTPS" + "://" + "WWW.Reddit.com" + "/")
  {
    assert Lower("HTTPS") == "https";
    assert Lower("WWW.Reddit.com") == "www.reddit.com";
    AcceptableBuiltUrl("HTTPS", "WWW.Reddit.com", "/", "");
    assert "HTTPS" + "://" + "WWW.Reddit.com" + "/" + "" == "HTTPS" + "://" + "WWW.Reddit.com" + "/";
  }

  /** Hints match as substrings: `/tag` also blocks `/tags`. */
  lemma HintIsSubstring()
    ensures !IsAcceptableUrl("https" + "://" + "example.com" + "/tags")
  {
    LowerOfLowerCase("/tags");
    assert Contains("/tags", BlockedPathHints[5]);
    AcceptableBuiltUrl("https", "example.com", "/tags", "");
    assert "https" + "://" + "example.com" + "/tags" + "" == "https" + "://" + "example.com" + "/tags";
  }

  /** The order-preserving list of the URLs `keep` accepts:
      `[u for u in urls if keep(u)]`. */
  function Filter(urls: seq<string>, keep: string -> bool): seq<string>
    decreases |urls|
  {
    if urls == [] then []
    else (if keep(urls[0]) then [urls[0]] else []) + Filter(urls[1..], keep)
  }

  /** A URL is kept exactly when it is an input URL that `keep` accepts. */
  lemma {:induction false} FilterMembership(urls: seq<string>, keep: string -> bool)
    ensures forall u :: u in Filter(urls, keep) <==> u in urls && keep(u)
    decreases |urls|
  {
    if urls != [] {
      FilterMembership(urls[1..], keep);
      assert urls == [urls[0]] + urls[1..];
    }
  }

  /** Filtering distributes over concatenation, so it keeps input order. */
  lemma {:induction false} FilterAppend(a: seq<string>, b: seq<string>, keep: string -> bool)
    ensures Filter(a + b, keep) == Filter(a, keep) + Filter(b, keep)
    decreases |a|
  {
    if a == [] {
      assert a + b == b;
    } else {
      var head := if keep(a[0]) then [a[0]] else [];
      FilterAppend(a[1..], b, keep);
      assert (a + b)[0] == a[0] && (a + b)[1..] == a[1..] + b;
      calc {
        Filter(a + b, keep);
        head + Filter(a[1..] + b, keep);
        head + (Filter(a[1..], keep) + Filter(b, keep));
        (head + Filter(a[1..], keep)) + Filter(b, keep);
      }
    }
  }

  /** A list whose every URL `keep` accepts filters to itself. */
  lemma {:induction false} FilterOfKept(urls: seq<string>, keep: string -> bool)
    requires forall k :: 0 <= k < |urls| ==> keep(urls[k])
    ensures Filter(urls, keep) == urls
    decreases |urls|
  {
    if urls != [] {
      FilterOfKept(urls[1..], keep);
    }
  }

  /** Nothing is kept when `keep` accepts none of the URLs. */
  lemma {:induction false} FilterNoneKept(urls: seq<string>, keep: string -> bool)
    requires forall u :: u in urls ==> !keep(u)
    ensures Filter(urls, keep) == []
    decreases |urls|
  {
    if urls != [] {
      assert urls[0] in urls;
      FilterNoneKept(urls[1..], keep);
    }
  }

  /** Filtering never lengthens. */
  lemma {:induction false} FilterLength(urls: seq<string>, keep: string -> bool)
    ensures |Filter(urls, keep)| <= |urls|
    decreases |urls|
  {
    if urls != [] {
      FilterLength(urls[1..], keep);
    }
  }

  function Min(a: int, b: int): int {
    if a <= b then a else b
  }

  /** Python's `s[:n]`: a negative `n` counts from the end. */
  function PySliceTo<T>(s: seq<T>, n: int): (r: seq<T>)
    ensures |r| <= |s| && r == s[..|r|]
    ensures n >= 0 ==> |r| == Min(n, |s|)
    ensures n < 0 ==> |r| == if |s| + n >= 0 then |s| + n else 0
  {
    if n >= 0 then s[..Min(n, |s|)]
    else if |s| + n >= 0 then s[..|s| + n]
    else []
  }

  /** `select_top_urls`: the first `max_urls` acceptable URLs. */
  function SelectTopUrls(urls: seq<string>, maxUrls: int): (top: seq<string>)
    ensures var f := Filter(urls, IsAcceptableUrl);
      && |top| <= |f| && top == f[..|top|]
      && (maxUrls >= 0 ==> |top| == Min(maxUrls, |f|))
      && (maxUrls < 0 ==> |top| == if |f| + maxUrls >= 0 then |f| + maxUrls else 0)
  {
    PySliceTo(Filter(urls, IsAcceptableUrl), maxUrls)
  }

  /** Every selected URL is an acceptable input URL. */
  lemma SelectedAreAcceptable(urls: seq<string>, maxUrls: int)
    ensures forall k :: 0 <= k < |SelectTopUrls(urls, maxUrls)| ==>
      SelectTopUrls(urls, maxUrls)[k] in urls && IsAcceptableUrl(SelectTopUrls(urls, maxUrls)[k])
  {
    var top := SelectTopUrls(urls, maxUrls);
    var f := Filter(urls, IsAcceptableUrl);
    FilterMembership(urls, IsAcceptableUrl);
    forall k | 0 <= k < |top|
      ensures top[k] in urls && IsAcceptableUrl(top[k])
    {
      assert top[k] == f[k];
      assert f[k] in f;
    }
  }

  /** Selecting again with the same non-negative bound changes nothing. */
  lemma SelectIdempotent(urls: seq<string>, maxUrls: int)
    requires maxUrls >= 0
    ensures SelectTopUrls(SelectTopUrls(urls, maxUrls), maxUrls) == SelectTopUrls(urls, maxUrls)
  {
    var top := SelectTopUrls(urls, maxUrls);
    SelectedAreAcceptable(urls, maxUrls);
    FilterOfKept(top, IsAcceptableUrl);
  }
}
