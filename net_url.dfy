/** A simplified model of Go's `net/url` package, as far as the crawler uses it:
    `Parse`, `URL.Hostname`, `JoinPath`, `URL.ResolveReference` and `URL.String`.
    Percent-escapes are kept as written (neither decoded nor re-encoded), `String`
    escapes nothing, and dot segments ("." and "..") are not removed from paths. */
module NetUrl {
  import opened Wrappers
  import opened Strings
  import opened Strconv

  /** The fields of `url.URL` the crawler can observe. `host` keeps the port;
      `forceQuery` records a '?' with nothing after it, `omitHost` a "scheme:/path"
      written without an authority. */
  datatype Url = Url(scheme: string, opaquePart: string, user: Option<string>, host: string,
                     path: string, rawQuery: string, fragment: string,
                     forceQuery: bool, omitHost: bool)

  predicate IsCtl(c: char) { c < ' ' || c == '\U{007F}' }
  predicate IsLetter(c: char) { 'a' <= c <= 'z' || 'A' <= c <= 'Z' }
  predicate IsDigit(c: char) { '0' <= c <= '9' }

  /** A character that `getScheme` accepts after the first position of a scheme. */
  predicate IsSchemeChar(c: char) { IsLetter(c) || IsDigit(c) || c == '+' || c == '-' || c == '.' }

  /** The position of the ':' that ends the scheme of `s`, scanning from `i`, or -1
      when `s` has no scheme. Position 0 is returned for a leading ':'. */
  function SchemeColon(s: string, i: nat): (k: int)
    requires i <= |s|
    ensures k == -1 || i <= k < |s|
    ensures k >= 0 ==> s[k] == ':' && forall j :: i <= j < k ==> IsSchemeChar(s[j])
    ensures k >= 0 && k > i ==> IsLetter(s[i]) || i > 0
    ensures ':' !in s[i..] ==> k == -1
    decreases |s| - i
  {
    if i == |s| then -1
    else if IsLetter(s[i]) then SchemeColon(s, i + 1)
    else if IsDigit(s[i]) || s[i] == '+' || s[i] == '-' || s[i] == '.' then
      if i == 0 then -1 else SchemeColon(s, i + 1)
    else if s[i] == ':' then i
    else -1
  }

  /** Go's `getScheme`: split off a scheme, failing on a leading ':'. */
  function GetScheme(s: string): (r: Result<(string, string)>)
    ensures r.Err? <==> |s| > 0 && s[0] == ':'
    ensures r.Ok? && r.value.0 != [] ==> s == r.value.0 + ":" + r.value.1
    ensures r.Ok? && r.value.0 == [] ==> r.value.1 == s
    ensures r.Ok? ==> forall j :: 0 <= j < |r.value.0| ==> IsSchemeChar(r.value.0[j])
  {
    var k := SchemeColon(s, 0);
    if k == 0 then Err("missing protocol scheme")
    else if k < 0 then Ok(([], s))
    else
      assert s == s[..k] + ":" + s[k + 1..];
      Ok((s[..k], s[k + 1..]))
  }

  /** Go's `validOptionalPort`: empty, or ':' followed by digits only. */
  predicate ValidOptionalPort(p: string) {
    p == [] || (p[0] == ':' && forall i :: 1 <= i < |p| ==> IsDigit(p[i]))
  }

  /** An ASCII character that `unescape` rejects in a host (`shouldEscape(c, encodeHost)`);
      '%' starts an escape and is not judged here. */
  predicate IsBadHostChar(c: char) {
    c < '\U{0080}' && !IsLetter(c) && !IsDigit(c) && c != '%'
    && !(c == '!' || c == '$' || c == '&' || c == '\'' || c == '(' || c == ')' || c == '*'
         || c == '+' || c == ',' || c == ';' || c == '=' || c == ':' || c == '[' || c == ']'
         || c == '<' || c == '>' || c == '\"' || c == '-' || c == '_' || c == '.'
         || c == '~')
  }

  /** The position of the first rejected host character, or -1. */
  function FirstBadHostChar(h: string): (k: int)
    ensures -1 <= k < |h|
    ensures k >= 0 ==> IsBadHostChar(h[k]) && forall j | 0 <= j < k :: !IsBadHostChar(h[j])
    ensures k < 0 <==> forall c | c in h :: !IsBadHostChar(c)
  {
    if h == [] then -1
    else if IsBadHostChar(h[0]) then 0
    else
      var k := FirstBadHostChar(h[1..]);
      assert forall c | c in h :: c == h[0] || c in h[1..];
      if k < 0 then -1 else k + 1
  }

  /** Go's `parseHost`: the port check, then the host characters `unescape` accepts;
      the percent-escape and IPv6 zone checks are not modelled. */
  function ParseHost(h: string): (r: Result<string>)
    ensures r.Ok? ==> r.value == h && forall c | c in h :: !IsBadHostChar(c)
  {
    if "[" <= h then
      var j := LastIndexOf(h, ']');
      if j < 0 then Err("missing ']' in host")
      else if !ValidOptionalPort(h[j + 1..]) then Err("invalid port " + Quote(h[j + 1..]) + " after host")
      else HostChars(h)
    else
      var i := LastIndexOf(h, ':');
      if i >= 0 && !ValidOptionalPort(h[i..]) then Err("invalid port " + Quote(h[i..]) + " after host")
      else HostChars(h)
  }

  /** The character scan of `unescape(h, encodeHost)`: the first rejected character
      is reported. */
  function HostChars(h: string): (r: Result<string>)
    ensures r.Ok? <==> forall c | c in h :: !IsBadHostChar(c)
    ensures r.Ok? ==> r.value == h
  {
    var k := FirstBadHostChar(h);
    if k >= 0 then Err(InvalidHostError(h[k])) else Ok(h)
  }

  /** The text of Go's `InvalidHostError` for the character `c`. */
  function InvalidHostError(c: char): string
  {
    "invalid character " + Quote([c]) + " in host name"
  }

  /** Go's `parseAuthority`: user information before the last '@', then the host.
      The user information is not validated. */
  function ParseAuthority(a: string): (r: Result<(Option<string>, string)>)
  {
    var i := LastIndexOf(a, '@');
    match ParseHost(a[i + 1..])
    case Err(m) => Err(m)
    case Ok(h) => Ok((if i < 0 then None else Some(a[..i]), h))
  }

  /** The text before the first '/'. */
  function FirstSegment(s: string): string { Cut(s, '/').0 }

  /** Go's (unexported) `parse` of the part before the fragment; `frag` is attached on success. */
  function ParseReference(u: string, frag: string): (r: Result<Url>)
    ensures r.Ok? ==> r.value.fragment == frag
  {
    if exists c | c in u :: IsCtl(c) then Err("net/url: invalid control character in URL")
    else match GetScheme(u)
      case Err(m) => Err(m)
      case Ok((scheme, rest)) => ParseAfterScheme(ToLower(scheme), rest, frag)
  }

  /** The rest of `parse` once the (lower-cased) scheme is split off. */
  function ParseAfterScheme(scheme: string, rest0: string, frag: string): (r: Result<Url>)
    ensures r.Ok? ==> r.value.fragment == frag && r.value.scheme == scheme
  {
    var (rest, query, found) := Cut(rest0, '?');
    var force := found && query == [];
    if !("/" <= rest) && scheme != [] then Ok(Url(scheme, rest, None, [], [], query, frag, force, false))
    else if !("/" <= rest) && ':' in FirstSegment(rest) then
      Err("first path segment in URL cannot contain colon")
    else if (scheme != [] || !("///" <= rest)) && "//" <= rest then
      var (authority, tail, slash) := Cut(rest[2..], '/');
      match ParseAuthority(authority)
      case Err(m) => Err(m)
      case Ok((user, host)) =>
        Ok(Url(scheme, [], user, host, if slash then "/" + tail else [], query, frag, force, false))
    else Ok(Url(scheme, [], None, [], rest, query, frag, force, scheme != [] && "/" <= rest))
  }

  /** `url.Error.Error()`: the operation, the quoted URL, then the cause. */
  function UrlError(op: string, u: string, cause: string): string
  {
    op + " " + Quote(u) + ": " + cause
  }

  /** `url.Parse`: cut off the fragment, then parse the rest; errors are wrapped with
      the operation and the text that failed. */
  function Parse(raw: string): (r: Result<Url>)
    ensures r.Ok? ==> r.value.fragment == Cut(raw, '#').1
  {
    var (u, frag, _) := Cut(raw, '#');
    match ParseReference(u, frag)
    case Err(m) => Err(UrlError("parse", u, m))
    case Ok(url) => Ok(url)
  }

  /** Go's `splitHostPort(..).host`: the host without a valid port and without IPv6 brackets. */
  function Hostname(u: Url): (r: string)
    ensures |r| <= |u.host|
  {
    var colon := LastIndexOf(u.host, ':');
    var h := if colon >= 0 && ValidOptionalPort(u.host[colon..]) then u.host[..colon] else u.host;
    if |h| >= 2 && h[0] == '[' && h[|h| - 1] == ']' then h[1..|h| - 1] else h
  }

  /** `URL.String`, without escaping. The authority is left out of a URL that was
      written without one, and a '?' is kept when `forceQuery` is set. */
  function ToString(u: Url): string
  {
    var prefix := if u.scheme != [] then u.scheme + ":" else [];
    var body :=
      if u.opaquePart != [] then u.opaquePart
      else
        var authority :=
          if (u.scheme != [] || u.host != [] || u.user.Some?)
             && !(u.omitHost && u.host == [] && u.user.None?) then
            (if u.host != [] || u.path != [] || u.user.Some? then "//" else [])
            + (if u.user.Some? then u.user.value + "@" else [])
            + u.host
          else [];
        var slash := if u.path != [] && u.path[0] != '/' && u.host != [] then "/" else [];
        var dot := if prefix == [] && authority == [] && slash == [] && ':' in FirstSegment(u.path) then "./" else [];
        authority + slash + dot + u.path;
    prefix + body
    + (if u.forceQuery || u.rawQuery != [] then "?" + u.rawQuery else [])
    + (if u.fragment != [] then "#" + u.fragment else [])
  }

  /** Go's `resolvePath` for paths without dot segments: merge, then root the result. */
  function ResolvePath(base: string, ref: string): (r: string)
    ensures r == [] || r[0] == '/'
  {
    var full :=
      if ref == [] then base
      else if ref[0] != '/' then base[..LastIndexOf(base, '/') + 1] + ref
      else ref;
    if full == [] then [] else if full[0] == '/' then full else "/" + full
  }

  /** `URL.ResolveReference` (section 5.2 of RFC 3986): resolve `ref` against `base`. */
  function ResolveReference(base: Url, ref: Url): (r: Url)
    ensures ref.scheme != [] ==> r.scheme == ref.scheme
    ensures r.fragment == ref.fragment
         || (ref.path == [] && !ref.forceQuery && ref.rawQuery == [] && ref.fragment == [])
    ensures r.rawQuery == ref.rawQuery
         || (ref.path == [] && !ref.forceQuery && ref.rawQuery == [] && r.rawQuery == base.rawQuery)
    ensures r.forceQuery == ref.forceQuery
  {
    var url := ref.(scheme := if ref.scheme == [] then base.scheme else ref.scheme);
    if ref.scheme != [] || ref.host != [] || ref.user.Some? then
      url.(path := ResolvePath(ref.path, []))
    else if ref.opaquePart != [] then
      url.(user := None, host := [], path := [])
    else
      var url := if ref.path == [] && !ref.forceQuery && ref.rawQuery == [] then
                   url.(rawQuery := base.rawQuery,
                        fragment := if ref.fragment == [] then base.fragment else ref.fragment)
                 else url;
      if ref.path == [] && base.opaquePart != [] then
        url.(opaquePart := base.opaquePart, user := None, host := [], path := [])
      else
        url.(host := base.host, user := base.user, path := ResolvePath(base.path, ref.path))
  }

  /** Replace each run of '/' by a single '/'. */
  function CollapseSlashes(s: string): string
  {
    if |s| <= 1 then s
    else if s[0] == '/' && s[1] == '/' then CollapseSlashes(s[1..])
    else [s[0]] + CollapseSlashes(s[1..])
  }

  /** Go's `path.Clean` for a rooted path without dot segments. */
  function Clean(s: string): (r: string)
    requires "/" <= s
    ensures "/" <= r
  {
    CollapseStart(s);
    var t := CollapseSlashes(s);
    if |t| > 1 && t[|t| - 1] == '/' then t[..|t| - 1] else t
  }

  /** Collapsing keeps the first character. */
  lemma {:induction false} CollapseStart(s: string)
    requires s != []
    ensures CollapseSlashes(s) != [] && CollapseSlashes(s)[0] == s[0]
  {
    if |s| > 1 {
      CollapseStart(s[1..]);
    }
  }

  /** Go's `path.Join(first, elem)` for a rooted, non-empty `first`. */
  function PathJoin(first: string, elem: string): (r: string)
    requires "/" <= first
    ensures "/" <= r
  {
    if elem == [] then Clean(first) else Clean(first + "/" + elem)
  }

  /** The path that `URL.JoinPath(elem)` gives a URL whose path is `first`. */
  function JoinedPath(first: string, elem: string): string
  {
    var p := if "/" <= first then PathJoin(first, elem) else PathJoin("/" + first, elem)[1..];
    if elem != [] && elem[|elem| - 1] == '/' && !(p != [] && p[|p| - 1] == '/') then p + "/" else p
  }

  /** `url.JoinPath(base, elem)`: parse `base`, join `elem` onto its path, print the result. */
  function JoinPath(base: string, elem: string): (r: Result<string>)
  {
    match Parse(base)
    case Err(m) => Err(m)
    case Ok(u) => Ok(ToString(u.(path := JoinedPath(u.path, elem))))
  }

  // Lemmas: what `Parse` and `JoinPath` give for well-formed absolute URLs.

  lemma CutAt(a: string, c: char, b: string)
    requires c !in a
    ensures Cut(a + [c] + b, c) == (a, b, true)
  {
    var s := a + [c] + b;
    var k := IndexOf(s, c);
    assert s[|a|] == c;
    assert k == |a|;
    assert s[..k] == a && s[k + 1..] == b;
  }

  lemma {:induction false} SchemeColonAt(s: string, i: nat, k: nat)
    requires i <= k < |s| && s[k] == ':'
    requires forall j :: i <= j < k ==> IsSchemeChar(s[j])
    requires i > 0 || (k > 0 && IsLetter(s[0]))
    ensures SchemeColon(s, i) == k
    decreases k - i
  {
    if i < k { SchemeColonAt(s, i + 1, k); }
  }

  /** A scheme as `getScheme` accepts it: a letter, then scheme characters. */
  predicate SchemeText(s: string) {
    s != [] && IsLetter(s[0]) && forall c | c in s :: IsSchemeChar(c)
  }

  /** A character of a registered host name (section 3.2.2 of RFC 3986) that `url.Parse`
      accepts and `URL.String` prints as it is: letters, digits, unreserved marks and
      sub-delimiters, no '%'. */
  predicate IsHostNameChar(c: char) {
    IsLetter(c) || IsDigit(c)
    || c == '-' || c == '.' || c == '_' || c == '~' || c == '!' || c == '$' || c == '&'
    || c == '\'' || c == '(' || c == ')' || c == '*' || c == '+' || c == ',' || c == ';'
    || c == '='
  }

  /** A host name of such characters. */
  predicate HostText(h: string) { forall c | c in h :: IsHostNameChar(c) }

  /** A host name that does not end or split the authority: no control character and none
      of '/', ':', '?', '#', '@' and '['. `parse` cuts such a name out of the text intact,
      whether or not `parseHost` then accepts its characters. It has no '%' either, so no
      escape for `unescape` to check or decode. */
  predicate Delimited(h: string) {
    '/' !in h && ':' !in h && '?' !in h && '#' !in h && '@' !in h && '[' !in h && '%' !in h
    && forall c | c in h :: !IsCtl(c)
  }

  /** A host name is delimited and has none of the characters that `parseHost` rejects. */
  lemma HostTextFacts(h: string)
    requires HostText(h)
    ensures Delimited(h)
    ensures forall c | c in h :: !IsBadHostChar(c)
  {
  }

  /** A character that `URL.EscapedPath` prints as it is, '%' excluded. */
  predicate IsPathChar(c: char) {
    IsLetter(c) || IsDigit(c)
    || c == '-' || c == '.' || c == '_' || c == '~' || c == '!' || c == '$' || c == '&'
    || c == '\'' || c == '(' || c == ')' || c == '*' || c == '+' || c == ',' || c == ';'
    || c == '=' || c == ':' || c == '@' || c == '/'
  }

  /** An absolute path (or none) of such characters: it stops before the query and
      the fragment and has no escapes. */
  predicate PathText(p: string) { (p == [] || p[0] == '/') && forall c | c in p :: IsPathChar(c) }

  /** A query part, '?' included, or none. */
  predicate QueryText(q: string) {
    (q == [] || q[0] == '?') && forall c | c in q :: !IsCtl(c) && c != '#'
  }

  /** A fragment part, '#' included, or none; no '%', so there is no escape to decode. */
  predicate FragmentText(f: string) { f == [] || (f[0] == '#' && '%' !in f) }

  function Tail(s: string): string { if s == [] then [] else s[1..] }

  lemma PortChars(p: string)
    requires ValidOptionalPort(p)
    ensures forall c | c in p :: c == ':' || IsDigit(c)
  {
    forall c | c in p ensures c == ':' || IsDigit(c) {
      var i :| 0 <= i < |p| && p[i] == c;
    }
  }

  /** The last ':' of a host followed by a port is the port's. */
  lemma PortColon(host: string, port: string)
    requires Delimited(host) && ValidOptionalPort(port)
    ensures LastIndexOf(host + port, ':') == if port == [] then -1 else |host|
  {
    var a := host + port;
    var k := LastIndexOf(a, ':');
    PortChars(port);
    if port == [] {
      assert a == host;
    } else {
      assert a[|host|] == ':';
    }
  }

  /** `Hostname` of a URL whose host is a plain name and an optional port is that name. */
  lemma HostnameOf(u: Url, host: string, port: string)
    requires HostText(host) && ValidOptionalPort(port) && u.host == host + port
    ensures Hostname(u) == host
  {
    HostTextFacts(host);
    var hp := host + port;
    PortColon(host, port);
    if port == [] {
      assert hp == host;
    } else {
      assert hp[|host|..] == port && hp[..|host|] == host;
    }
    if host != [] { assert host[0] in host; }
  }

  lemma AuthorityOf(host: string, port: string)
    requires HostText(host) && ValidOptionalPort(port)
    ensures ParseAuthority(host + port) == Ok((None, host + port))
  {
    HostTextFacts(host);
    var a := host + port;
    PortChars(port);
    assert '@' !in a;
    assert a[0..] == a;
    PortColon(host, port);
    if port != [] { assert a[|host|..] == port; }
    if a != [] { assert a[0] in a; }
  }

  /** Cutting at the first `c` of a text with no `c` before an optional `c`-led tail. */
  lemma CutOptional(a: string, c: char, t: string)
    requires c !in a && (t == [] || t[0] == c)
    ensures Cut(a + t, c) == (a, Tail(t), t != [])
  {
    if t == [] {
      assert a + t == a;
    } else {
      assert t == [c] + t[1..];
      assert a + t == a + [c] + t[1..];
      CutAt(a, c, t[1..]);
    }
  }

  /** `ParseAfterScheme` on "//authority/path?query" once its cuts are known. */
  lemma AfterSchemeCuts(scheme: string, r: string, query: string, hp: string, path: string, f: string)
    requires scheme != [] && "//" <= r
    requires Cut(r + query, '?') == (r, Tail(query), query != [])
    requires Cut(r[2..], '/') == (hp, Tail(path), path != [])
    requires ParseAuthority(hp) == Ok((None, hp))
    requires path == [] || path == "/" + Tail(path)
    ensures ParseAfterScheme(scheme, r + query, f)
         == Ok(Url(scheme, [], None, hp, path, Tail(query), f, |query| == 1, false))
  {
    assert "/" <= r;
    assert (query != [] && Tail(query) == []) == (|query| == 1);
    var u := Url(scheme, [], None, hp, if path != [] then "/" + Tail(path) else [], Tail(query), f, |query| == 1, false);
    assert u == Url(scheme, [], None, hp, path, Tail(query), f, |query| == 1, false);
  }

  /** The cuts `ParseAfterScheme` makes on "//" + host + port + path, followed by the query. */
  lemma AfterSchemeFacts(host: string, port: string, path: string, query: string)
    requires HostText(host) && ValidOptionalPort(port)
    requires PathText(path) && QueryText(query)
    ensures var r := "//" + host + port + path;
      && "//" <= r
      && Cut(r + query, '?') == (r, Tail(query), query != [])
      && Cut(r[2..], '/') == (host + port, Tail(path), path != [])
      && ParseAuthority(host + port) == Ok((None, host + port))
      && (path == [] || path == "/" + Tail(path))
  {
    HostTextFacts(host);
    QueryCutOf(host, port, path, query);
    AuthorityCutOf(host, port, path);
    AuthorityOf(host, port);
    if path != [] { assert "/" + Tail(path) == path; }
  }

  lemma QueryCutOf(host: string, port: string, path: string, query: string)
    requires Delimited(host) && ValidOptionalPort(port)
    requires PathText(path) && QueryText(query)
    ensures var r := "//" + host + port + path;
      Cut(r + query, '?') == (r, Tail(query), query != [])
  {
    PortChars(port);
    var r := "//" + host + port + path;
    assert '?' !in r;
    CutOptional(r, '?', query);
  }

  lemma AuthorityCutOf(host: string, port: string, path: string)
    requires Delimited(host) && ValidOptionalPort(port) && PathText(path)
    ensures var r := "//" + host + port + path;
      "//" <= r && Cut(r[2..], '/') == (host + port, Tail(path), path != [])
  {
    PortChars(port);
    var hp := host + port;
    var r := "//" + host + port + path;
    assert r == "//" + (hp + path);
    assert "//" <= r && r[2..] == hp + path;
    assert '/' !in hp;
    CutOptional(hp, '/', path);
  }

  lemma AfterSchemeOf(scheme: string, host: string, port: string, path: string, query: string, f: string)
    requires scheme != [] && HostText(host) && ValidOptionalPort(port)
    requires PathText(path) && QueryText(query)
    ensures ParseAfterScheme(scheme, "//" + host + port + path + query, f)
         == Ok(Url(scheme, [], None, host + port, path, Tail(query), f, |query| == 1, false))
  {
    AfterSchemeFacts(host, port, path, query);
    AfterSchemeCuts(scheme, "//" + host + port + path, query, host + port, path, f);
  }

  /** The scheme split and control-character scan `ParseReference` makes on an absolute URL. */
  lemma ReferenceFacts(scheme: string, host: string, port: string, path: string, query: string)
    requires SchemeText(scheme) && Delimited(host) && ValidOptionalPort(port)
    requires PathText(path) && QueryText(query)
    ensures var u := scheme + "://" + host + port + path + query;
      && (!exists c | c in u :: IsCtl(c))
      && GetScheme(u) == Ok((scheme, "//" + host + port + path + query))
  {
    NoControlAbsolute(scheme, host, port, path, query);
    var rest := "//" + host + port + path + query;
    var u := scheme + ":" + rest;
    assert u == scheme + "://" + host + port + path + query;
    var k := |scheme|;
    assert u[k] == ':';
    assert forall j :: 0 <= j < k ==> IsSchemeChar(u[j]) by {
      forall j | 0 <= j < k ensures IsSchemeChar(u[j]) { assert u[j] == scheme[j]; assert scheme[j] in scheme; }
    }
    SchemeColonAt(u, 0, k);
    assert u[..k] == scheme && u[k + 1..] == rest;
  }

  lemma NoControlAbsolute(scheme: string, host: string, port: string, path: string, query: string)
    requires SchemeText(scheme) && Delimited(host) && ValidOptionalPort(port)
    requires PathText(path) && QueryText(query)
    ensures var u := scheme + "://" + host + port + path + query;
      !exists c | c in u :: IsCtl(c)
  {
    PortChars(port);
    var rest := "//" + host + port + path + query;
    var u := scheme + ":" + rest;
    assert u == scheme + "://" + host + port + path + query;
    forall c | c in u ensures !IsCtl(c) {
      assert c in scheme || c == ':' || c in rest;
    }
  }

  lemma ReferenceOf(scheme: string, host: string, port: string, path: string, query: string, f: string)
    requires SchemeText(scheme) && HostText(host) && ValidOptionalPort(port)
    requires PathText(path) && QueryText(query)
    ensures ParseReference(scheme + "://" + host + port + path + query, f)
         == Ok(Url(ToLower(scheme), [], None, host + port, path, Tail(query), f, |query| == 1, false))
  {
    HostTextFacts(host);
    ReferenceFacts(scheme, host, port, path, query);
    AfterSchemeOf(ToLower(scheme), host, port, path, query, f);
  }

  lemma ParseAbsolute(scheme: string, host: string, port: string, path: string, query: string, frag: string)
    requires SchemeText(scheme) && HostText(host) && ValidOptionalPort(port)
    requires PathText(path) && QueryText(query) && FragmentText(frag)
    ensures Parse(scheme + "://" + host + port + path + query + frag)
         == Ok(Url(ToLower(scheme), [], None, host + port, path, Tail(query), Tail(frag), query == "?", false))
  {
    PortChars(port);
    var raw := scheme + "://" + host + port + path + query + frag;
    var u := scheme + "://" + host + port + path + query;
    assert raw == u + frag;
    assert '#' !in u;
    if frag == [] {
      assert raw == u;
    } else {
      assert frag == ['#'] + frag[1..];
      assert raw == u + ['#'] + frag[1..];
      CutAt(u, '#', frag[1..]);
    }
    assert |query| == 1 ==> query == [query[0]];
    ReferenceOf(scheme, host, port, path, query, Tail(frag));
  }

  /** A rejected character ahead of `b` stays the first rejected one. */
  lemma {:induction false} FirstBadPrefix(a: string, b: string)
    requires FirstBadHostChar(a) >= 0
    ensures FirstBadHostChar(a + b) == FirstBadHostChar(a)
  {
    if !IsBadHostChar(a[0]) {
      assert (a + b)[1..] == a[1..] + b;
      FirstBadPrefix(a[1..], b);
    }
  }

  /** A delimited host name with a character `parseHost` rejects, and an optional port:
      the authority fails with the first such character. */
  lemma AuthorityRejects(host: string, port: string)
    requires Delimited(host) && ValidOptionalPort(port) && FirstBadHostChar(host) >= 0
    ensures ParseAuthority(host + port) == Err(InvalidHostError(host[FirstBadHostChar(host)]))
  {
    var a := host + port;
    PortChars(port);
    assert '@' !in a;
    assert a[0..] == a;
    PortColon(host, port);
    if port != [] { assert a[|host|..] == port; }
    assert a[0] == host[0] && host[0] in host;
    FirstBadPrefix(host, port);
  }

  /** `ParseAfterScheme` on "//host[:port][path][?query]" with such a host name fails with
      the host's error. */
  lemma AfterSchemeRejects(scheme: string, host: string, port: string, path: string, query: string, f: string)
    requires scheme != [] && Delimited(host) && ValidOptionalPort(port) && FirstBadHostChar(host) >= 0
    requires PathText(path) && QueryText(query)
    ensures ParseAfterScheme(scheme, "//" + host + port + path + query, f)
         == Err(InvalidHostError(host[FirstBadHostChar(host)]))
  {
    QueryCutOf(host, port, path, query);
    AuthorityCutOf(host, port, path);
    AuthorityRejects(host, port);
    assert "/" <= "//" + host + port + path;
  }

  /** `url.Parse` rejects an absolute URL whose host name has a character the host parser
      does not accept (a space, '\\', '^', '`', '{', '|' or '}', say): the error names the
      URL before its fragment and the first such character. */
  lemma ParseRejectsHost(scheme: string, host: string, port: string, path: string, query: string, frag: string)
    requires SchemeText(scheme) && Delimited(host) && ValidOptionalPort(port) && FirstBadHostChar(host) >= 0
    requires PathText(path) && QueryText(query) && FragmentText(frag)
    ensures Parse(scheme + "://" + host + port + path + query + frag)
         == Err(UrlError("parse", scheme + "://" + host + port + path + query,
                         InvalidHostError(host[FirstBadHostChar(host)])))
  {
    var raw := scheme + "://" + host + port + path + query + frag;
    var u := scheme + "://" + host + port + path + query;
    assert raw == u + frag;
    NoHashAbsolute(scheme, host, port, path, query);
    if frag == [] {
      assert raw == u;
    } else {
      assert frag == ['#'] + frag[1..];
      assert raw == u + ['#'] + frag[1..];
      CutAt(u, '#', frag[1..]);
    }
    ReferenceRejects(scheme, host, port, path, query, Tail(frag));
  }

  /** An absolute URL of such parts has no fragment marker before its fragment. */
  lemma NoHashAbsolute(scheme: string, host: string, port: string, path: string, query: string)
    requires SchemeText(scheme) && Delimited(host) && ValidOptionalPort(port)
    requires PathText(path) && QueryText(query)
    ensures '#' !in scheme + "://" + host + port + path + query
  {
    PortChars(port);
  }

  lemma ReferenceRejects(scheme: string, host: string, port: string, path: string, query: string, f: string)
    requires SchemeText(scheme) && Delimited(host) && ValidOptionalPort(port) && FirstBadHostChar(host) >= 0
    requires PathText(path) && QueryText(query)
    ensures ParseReference(scheme + "://" + host + port + path + query, f)
         == Err(InvalidHostError(host[FirstBadHostChar(host)]))
  {
    ReferenceFacts(scheme, host, port, path, query);
    AfterSchemeRejects(ToLower(scheme), host, port, path, query, f);
  }

  /** Printing what `ParseAbsolute` gives returns the text, with the scheme lower-cased:
      a '?' with no query after it is kept (`ForceQuery`), an empty fragment is dropped. */
  lemma PrintAbsolute(scheme: string, hp: string, path: string, query: string, frag: string)
    requires scheme != [] && hp != [] && (path == [] || path[0] == '/')
    requires (query == [] || query[0] == '?') && (frag == [] || (frag[0] == '#' && frag != "#"))
    ensures ToString(Url(scheme, [], None, hp, path, Tail(query), Tail(frag), query == "?", false))
         == scheme + "://" + hp + path + query + frag
  {
    var u := Url(scheme, [], None, hp, path, Tail(query), Tail(frag), query == "?", false);
    PrintWithAuthority(u);
    assert (if u.forceQuery || u.rawQuery != [] then "?" + u.rawQuery else []) == query by {
      if query != [] { assert "?" + Tail(query) == query; }
    }
    assert (if u.fragment != [] then "#" + u.fragment else []) == frag by {
      if frag != [] { assert "#" + Tail(frag) == frag; }
    }
    Regroup(scheme, hp, path, query, frag);
  }

  /** A URL with a host and no user information or opaque part prints as
      scheme "://" host path, then the query and the fragment. */
  lemma PrintWithAuthority(u: Url)
    requires u.scheme != [] && u.host != [] && u.opaquePart == [] && u.user.None? && !u.omitHost
    requires u.path == [] || u.path[0] == '/'
    ensures ToString(u) == u.scheme + ":" + ("//" + u.host + u.path)
                           + (if u.forceQuery || u.rawQuery != [] then "?" + u.rawQuery else [])
                           + (if u.fragment != [] then "#" + u.fragment else [])
  {
  }

  /** "scheme:/path" has no authority: `parse` sets `OmitHost`, and printing gives the
      text back rather than "scheme:///path". */
  lemma OmitHostRoundTrip(scheme: string, p: string)
    requires scheme != [] && '?' !in p && (p == [] || p[0] != '/')
    ensures ParseAfterScheme(scheme, "/" + p, []) == Ok(Url(scheme, [], None, [], "/" + p, [], [], false, true))
    ensures ToString(Url(scheme, [], None, [], "/" + p, [], [], false, true)) == scheme + ":/" + p
  {
    var rest := "/" + p;
    assert '?' !in rest;
    assert !("//" <= rest) by {
      if p != [] { assert rest[1] == p[0]; }
    }
    assert scheme + ":" + ("/" + p) == scheme + ":/" + p;
  }

  /** The query-only reference "?" parses with `ForceQuery` set and no query. */
  lemma ParseQueryOnly()
    ensures Parse("?") == Ok(Url([], [], None, [], [], [], [], true, false))
  {
    assert Cut("?", '#') == ("?", [], false);
    assert GetScheme("?") == Ok(([], "?")) by {
      assert SchemeColon("?", 0) < 0;
    }
    assert Cut("?", '?') == ([], [], true) by {
      assert "?" == [] + ['?'] + [];
    }
  }

  /** Resolving that reference keeps the base's host and path and drops the base's query
      and fragment, and the result prints with a bare '?'. */
  lemma ResolveForcedQuery(base: Url)
    requires base.scheme != [] && base.host != [] && base.opaquePart == [] && base.user.None? && !base.omitHost
    requires base.path == [] || base.path[0] == '/'
    ensures ResolveReference(base, Url([], [], None, [], [], [], [], true, false))
         == base.(rawQuery := [], fragment := [], forceQuery := true)
    ensures ToString(ResolveReference(base, Url([], [], None, [], [], [], [], true, false)))
         == base.scheme + "://" + base.host + base.path + "?"
  {
    var r := base.(rawQuery := [], fragment := [], forceQuery := true);
    PrintWithAuthority(r);
    Regroup(base.scheme, base.host, base.path, "?", []);
  }

  lemma Regroup(a: string, c: string, d: string, e: string, f: string)
    ensures a + ":" + ("//" + c + d) + e + f == a + "://" + c + d + e + f
  {
  }

  /** No segment of `s` (a maximal run without '/') is "." or "..": `path.Clean` has nothing
      to resolve in it. */
  predicate NoDotSegments(s: string) {
    forall i | 0 <= i < |s| && s[i] == '.' && (i == 0 || s[i - 1] == '/') ::
      i + 1 < |s| && s[i + 1] != '/' && !(s[i + 1] == '.' && (i + 2 == |s| || s[i + 2] == '/'))
  }

  /** A name without '/' that does not start with '.' is one segment, and not a dot segment. */
  lemma OneSegment(s: string)
    requires '/' !in s && s != [] && s[0] != '.'
    ensures NoDotSegments(s)
  {
    forall j | 0 <= j < |s| ensures s[j] != '/' {
      assert s[j] in s;
    }
  }

  /** No two adjacent '/' in `s`. */
  predicate SingleSlashes(s: string) {
    forall i :: 0 <= i < |s| - 1 ==> !(s[i] == '/' && s[i + 1] == '/')
  }

  lemma {:induction false} CollapseUnslashed(h: string, t: string)
    requires '/' !in h
    ensures CollapseSlashes(h + t) == h + CollapseSlashes(t)
  {
    if h == [] {
      assert h + t == t;
    } else {
      var s := h + t;
      assert s[0] == h[0] && h[0] in h;
      if |s| <= 1 {
        assert t == [] && s == h && h + CollapseSlashes(t) == h;
      } else {
        assert s[1..] == h[1..] + t;
        CollapseUnslashed(h[1..], t);
        calc {
          CollapseSlashes(s);
          [s[0]] + CollapseSlashes(s[1..]);
          [h[0]] + (h[1..] + CollapseSlashes(t));
          { assert h == [h[0]] + h[1..]; }
          h + CollapseSlashes(t);
        }
      }
    }
  }

  /** A rooted host name keeps its single leading '/'. */
  lemma CollapseRooted(host: string, t: string)
    requires host != [] && '/' !in host
    ensures CollapseSlashes("/" + host + t) == "/" + host + CollapseSlashes(t)
  {
    assert host[0] in host;
    RootedShape(host, t);
    CollapseAfterSlash(host + t);
    CollapseUnslashed(host, t);
  }

  lemma RootedShape(host: string, t: string)
    ensures "/" + host + t == ['/'] + (host + t)
    ensures (host + t) != [] ==> (host + t)[0] == (if host != [] then host[0] else t[0])
    ensures "/" + host + CollapseSlashes(t) == ['/'] + (host + CollapseSlashes(t))
  {
  }

  /** A single '/' before a text that does not start with '/' stays. */
  lemma CollapseAfterSlash(x: string)
    requires x != [] && x[0] != '/'
    ensures CollapseSlashes(['/'] + x) == ['/'] + CollapseSlashes(x)
  {
    var s := ['/'] + x;
    assert s[1..] == x;
  }

  lemma {:induction false} CollapseSingle(s: string)
    requires SingleSlashes(s)
    ensures CollapseSlashes(s) == s
  {
    if |s| > 1 {
      assert SingleSlashes(s[1..]) by {
        forall i | 0 <= i < |s[1..]| - 1 ensures !(s[1..][i] == '/' && s[1..][i + 1] == '/') {
          assert s[1..][i] == s[i + 1] && s[1..][i + 1] == s[i + 2];
        }
      }
      CollapseSingle(s[1..]);
      assert s == [s[0]] + s[1..];
    }
  }

  /** `Parse` of a bare host name gives a relative URL whose path is that name. */
  lemma ParseHostname(host: string)
    requires HostText(host)
    ensures Parse(host) == Ok(Url([], [], None, [], host, [], [], false, false))
  {
    HostTextFacts(host);
    assert '#' !in host;
    assert !exists c | c in host :: IsCtl(c);
    assert ':' !in host[0..];
    assert GetScheme(host) == Ok(([], host));
    assert '?' !in host && '/' !in host;
    if host != [] { assert host[0] in host; }
    assert FirstSegment(host) == host;
  }

  /** `c` without one trailing '/'. */
  function DropSlash(c: string): string {
    if c != [] && c[|c| - 1] == '/' then c[..|c| - 1] else c
  }

  lemma CleanRooted(host: string, t: string)
    requires host != [] && '/' !in host
    ensures Clean("/" + host + t) == "/" + host + DropSlash(CollapseSlashes(t))
  {
    CollapseRooted(host, t);
    var p := "/" + host;
    assert p[|p| - 1] == host[|host| - 1] && host[|host| - 1] in host;
    DropSlashAfter(p, CollapseSlashes(t));
  }

  /** A trailing '/' is dropped from the second part when the first does not end in one. */
  lemma DropSlashAfter(p: string, c: string)
    requires p != [] && p[|p| - 1] != '/'
    ensures DropSlash(p + c) == p + DropSlash(c)
  {
    if c == [] {
      assert p + c == p;
    } else if c[|c| - 1] == '/' {
      assert (p + c)[..|p + c| - 1] == p + c[..|c| - 1];
    } else {
      assert (p + c)[|p + c| - 1] == c[|c| - 1];
    }
  }

  /** The '/'-prefixed element that `path.Join` appends for `path`. */
  function Element(path: string): string { if path == [] then [] else "/" + path }

  /** `path.Join("/" + host, path)` keeps the host whole and cleans what follows it. */
  lemma PathJoinRooted(host: string, path: string)
    requires host != [] && '/' !in host
    ensures PathJoin("/" + host, path)[1..] == host + DropSlash(CollapseSlashes(Element(path)))
  {
    var e := Element(path);
    CleanRooted(host, e);
    var d := DropSlash(CollapseSlashes(e));
    if path == [] {
      assert "/" + host + [] == "/" + host;
    } else {
      assert "/" + host + "/" + path == "/" + host + ("/" + path);
    }
    assert PathJoin("/" + host, path) == "/" + host + d;
  }

  /** The path `url.JoinPath(host, path)` gives: the host, then a rooted tail or nothing. */
  lemma JoinedShape(host: string, path: string)
    requires host != [] && '/' !in host
    ensures exists t :: JoinedPath(host, path) == host + t && (t == [] || t[0] == '/')
  {
    assert host[0] in host;
    PathJoinRooted(host, path);
    RootedTail(path);
    var d := DropSlash(CollapseSlashes(Element(path)));
    var p := host + d;
    if path != [] && path[|path| - 1] == '/' && !(p != [] && p[|p| - 1] == '/') {
      assert JoinedPath(host, path) == host + (d + "/");
    } else {
      assert JoinedPath(host, path) == host + d;
    }
  }

  /** What `path.Join` keeps after the host is empty or starts with '/'. */
  lemma RootedTail(path: string)
    ensures var d := DropSlash(CollapseSlashes(Element(path)));
      d == [] || d[0] == '/'
  {
    if path != [] {
      CollapseStart(Element(path));
    }
  }

  /** A URL holding only a path prints as that path, unless its first segment has a ':'. */
  lemma PrintPathOnly(p: string)
    requires ':' !in FirstSegment(p)
    ensures ToString(Url([], [], None, [], p, [], [], false, false)) == p
  {
    var u := Url([], [], None, [], p, [], [], false, false);
    var e: string := [];
    assert ToString(u) == e + (e + e + e + p) + e + e;
    EmptyAround(p);
  }

  lemma EmptyAround(p: string)
    ensures [] + ([] + [] + [] + p) + [] + [] == p
  {
  }

  /** The first segment of a host name followed by a rooted tail is the host name. */
  lemma FirstSegmentOfHost(host: string, t: string)
    requires '/' !in host && (t == [] || t[0] == '/')
    ensures FirstSegment(host + t) == host
  {
    if t == [] {
      assert host + t == host;
    } else {
      assert host + t == host + ['/'] + t[1..];
      CutAt(host, '/', t[1..]);
    }
  }

  /** `url.JoinPath(host, path)` never fails for a plain host name and prints the joined path as it is. */
  lemma JoinPathOf(host: string, path: string)
    requires HostText(host) && host != []
    ensures JoinPath(host, path) == Ok(JoinedPath(host, path))
  {
    HostTextFacts(host);
    ParseHostname(host);
    JoinedShape(host, path);
    var joined := JoinedPath(host, path);
    var t :| joined == host + t && (t == [] || t[0] == '/');
    FirstSegmentOfHost(host, t);
    PrintPathOnly(joined);
    var u := Url([], [], None, [], host, [], [], false, false);
    assert u.(path := joined) == Url([], [], None, [], joined, [], [], false, false);
  }

  /** For a path already in clean form, joining is concatenation. */
  lemma JoinedClean(host: string, path: string)
    requires host != [] && '/' !in host
    requires path == [] || ("/" <= path && SingleSlashes(path))
    ensures JoinedPath(host, path) == host + path
  {
    PathJoinRooted(host, path);
    CleanElement(path);
    var d := DropSlash(CollapseSlashes(Element(path)));
    assert host[|host| - 1] in host;
    if path != [] && path[|path| - 1] == '/' {
      DropSlashClean(host, path);
    }
  }

  /** A path in clean form collapses to itself. */
  lemma CleanElement(path: string)
    requires path == [] || ("/" <= path && SingleSlashes(path))
    ensures CollapseSlashes(Element(path)) == path
  {
    if path != [] {
      CollapseSingle(path);
      var e := Element(path);
      assert e[0] == '/' && e[1] == '/' && e[1..] == path;
    }
  }

  /** A clean path that ends in '/' loses it in `path.Join` and gets it back in `JoinPath`. */
  lemma DropSlashClean(host: string, path: string)
    requires host != [] && '/' !in host
    requires "/" <= path && SingleSlashes(path) && path[|path| - 1] == '/'
    ensures var p := host + DropSlash(path);
      !(p != [] && p[|p| - 1] == '/') && p + "/" == host + path
  {
    var d := DropSlash(path);
    assert d == path[..|path| - 1];
    assert host[|host| - 1] in host;
    assert |path| >= 2 ==> path[|path| - 2] != '/';
    assert (host + d)[|host + d| - 1] != '/';
    assert path == d + "/";
    assert host + d + "/" == host + path;
  }

  /** A reference that starts with ':' has an empty scheme, which `url.Parse` refuses. */
  lemma ParseColonLeading(s: string)
    requires s != [] && s[0] == ':' && '#' !in s && forall c | c in s :: !IsCtl(c)
    ensures Parse(s) == Err(UrlError("parse", s, "missing protocol scheme"))
  {
    ColonLeadingFacts(s);
  }

  lemma ColonLeadingFacts(s: string)
    requires s != [] && s[0] == ':' && '#' !in s && forall c | c in s :: !IsCtl(c)
    ensures Cut(s, '#') == (s, [], false)
    ensures !exists c | c in s :: IsCtl(c)
    ensures GetScheme(s) == Err("missing protocol scheme")
  {
  }

  /** `url.JoinPath` re-parses the host name, which fails when the name starts with ':'. */
  lemma JoinPathRejectsColonHost(h: string, path: string)
    requires h != [] && h[0] == ':' && '#' !in h && forall c | c in h :: !IsCtl(c)
    ensures JoinPath(h, path) == Err(UrlError("parse", h, "missing protocol scheme"))
  {
    ParseColonLeading(h);
  }
}
