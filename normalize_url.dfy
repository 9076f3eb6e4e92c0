/** The URL canonicaliser: `normalizeURL` maps a URL to the key the crawler
    deduplicates pages by (host name and path, lower-cased, no trailing '/'). */
module NormalizeUrl {
  import opened Wrappers
  import opened Strings
  import opened NetUrl
  import opened Strconv

  /** The last two steps of `normalizeURL`: lower-case, then trim every trailing '/'. */
  function LowerTrim(s: string): (r: string)
    ensures NoUpper(r)
    ensures r == [] || r[|r| - 1] != '/'
    ensures |r| <= |s|
  {
    TrimRight(ToLower(s), '/')
  }

  /** `normalizeURL`: parse, join host name and path, lower-case, trim trailing '/'.
      On failure the key is "" and the error says which step failed. */
  function NormalizeURL(url: string): (r: Outcome<string>)
    ensures r.Failed() ==> r.value == []
    ensures Parse(url).Err? ==> r.Failed() && "couldn't parse URL: " <= r.err.value
    ensures Parse(url).Ok? ==> r == KeyOf(Parse(url).value)
    ensures !r.Failed() ==> NoUpper(r.value) && (r.value == [] || r.value[|r.value| - 1] != '/')
  {
    match Parse(url)
    case Err(m) => Outcome([], Some("couldn't parse URL: " + m))
    case Ok(u) => KeyOf(u)
  }

  /** The steps of `normalizeURL` after a successful parse. The key depends on the parsed
      URL only through its host name and path. */
  function KeyOf(u: Url): (r: Outcome<string>)
    ensures r.Failed() <==> JoinPath(Hostname(u), u.path).Err?
    ensures r.Failed() ==> r.value == [] && "error joining host and path: " <= r.err.value
    ensures !r.Failed() ==> NoUpper(r.value) && (r.value == [] || r.value[|r.value| - 1] != '/')
  {
    match JoinPath(Hostname(u), u.path)
    case Err(m) => Outcome([], Some("error joining host and path: " + m))
    case Ok(joined) => Outcome(LowerTrim(joined), None)
  }

  /** Lower-casing and trimming a second time changes nothing. */
  lemma LowerTrimIdempotent(s: string)
    ensures LowerTrim(LowerTrim(s)) == LowerTrim(s)
  {
    var r := LowerTrim(s);
    assert ToLower(r) == r;
  }

  /** An absolute URL `scheme://host[:port][path][?query][#fragment]` with a plain host name
      normalises to its joined host and path, whatever the scheme, port, query and fragment. */
  lemma NormalizeAbsolute(scheme: string, host: string, port: string, path: string, query: string, frag: string)
    requires SchemeText(scheme) && HostText(host) && host != [] && ValidOptionalPort(port)
    requires PathText(path) && QueryText(query) && FragmentText(frag)
    requires NoDotSegments(host) && NoDotSegments(path)
    ensures NormalizeURL(scheme + "://" + host + port + path + query + frag)
         == Outcome(LowerTrim(JoinedPath(host, path)), None)
  {
    ParseAbsolute(scheme, host, port, path, query, frag);
    var u := Url(ToLower(scheme), [], None, host + port, path, Tail(query), Tail(frag), query == "?", false);
    HostnameOf(u, host, port);
    KeyOfPlainHost(u, host);
  }

  /** The key of a parsed URL whose host name is plain is its joined host and path. */
  lemma KeyOfPlainHost(u: Url, host: string)
    requires HostText(host) && host != [] && Hostname(u) == host
    requires NoDotSegments(host) && NoDotSegments(u.path)
    ensures KeyOf(u) == Outcome(LowerTrim(JoinedPath(host, u.path)), None)
  {
    JoinPathOf(host, u.path);
  }

  /** Two such URLs that differ only in scheme, port, query and fragment share their key. */
  lemma IgnoresSchemePortQueryFragment(s1: string, p1: string, q1: string, f1: string,
                                       s2: string, p2: string, q2: string, f2: string,
                                       host: string, path: string)
    requires SchemeText(s1) && ValidOptionalPort(p1) && QueryText(q1) && FragmentText(f1)
    requires SchemeText(s2) && ValidOptionalPort(p2) && QueryText(q2) && FragmentText(f2)
    requires HostText(host) && host != [] && PathText(path)
    requires NoDotSegments(host) && NoDotSegments(path)
    ensures NormalizeURL(s1 + "://" + host + p1 + path + q1 + f1)
         == NormalizeURL(s2 + "://" + host + p2 + path + q2 + f2)
  {
    NormalizeAbsolute(s1, host, p1, path, q1, f1);
    NormalizeAbsolute(s2, host, p2, path, q2, f2);
  }

  /** With a clean path (no "//"), the key is the lower-cased host and path without trailing '/'. */
  lemma NormalizeClean(scheme: string, host: string, port: string, path: string, query: string, frag: string)
    requires SchemeText(scheme) && HostText(host) && host != [] && ValidOptionalPort(port)
    requires PathText(path) && SingleSlashes(path) && QueryText(query) && FragmentText(frag)
    requires NoDotSegments(host) && NoDotSegments(path)
    ensures NormalizeURL(scheme + "://" + host + port + path + query + frag) == Outcome(LowerTrim(host + path), None)
  {
    NormalizeAbsolute(scheme, host, port, path, query, frag);
    JoinedClean(host, path);
  }

  /** A host name that itself starts with ':' (as in "http://:1:2/p") cannot be re-parsed by
      `url.JoinPath`, so normalisation fails with the join error and an empty key. */
  lemma JoinFailure(u: Url)
    requires var h := Hostname(u); h != [] && h[0] == ':' && '#' !in h && forall c | c in h :: !IsCtl(c)
    ensures KeyOf(u)
         == Outcome([], Some("error joining host and path: " + UrlError("parse", Hostname(u), "missing protocol scheme")))
  {
    JoinPathRejectsColonHost(Hostname(u), u.path);
  }

  /** An input that starts with ':' has no scheme: normalisation fails at the parse step. */
  lemma ParseFailure(url: string)
    requires url != [] && url[0] == ':' && '#' !in url && forall c | c in url :: !IsCtl(c)
    ensures NormalizeURL(url)
         == Outcome([], Some("couldn't parse URL: " + UrlError("parse", url, "missing protocol scheme")))
  {
    ParseColonLeading(url);
  }

  /** An absolute URL whose host name has a character the host parser rejects (a space,
      say, as in "http://a b/p") fails at the parse step, with that character named. */
  lemma BadHostFailure(scheme: string, host: string, port: string, path: string, query: string, frag: string)
    requires SchemeText(scheme) && Delimited(host) && ValidOptionalPort(port) && FirstBadHostChar(host) >= 0
    requires PathText(path) && QueryText(query) && FragmentText(frag)
    ensures NormalizeURL(scheme + "://" + host + port + path + query + frag)
         == Outcome([], Some("couldn't parse URL: "
                             + UrlError("parse", scheme + "://" + host + port + path + query,
                                        InvalidHostError(host[FirstBadHostChar(host)]))))
  {
    ParseRejectsHost(scheme, host, port, path, query, frag);
  }

  /** "http://a b/p" does not normalise: the space is rejected by the host parser. */
  lemma SpaceInHost(url: string)
    requires url == "http://a b/p"
    ensures NormalizeURL(url)
         == Outcome([], Some("couldn't parse URL: " + UrlError("parse", url, InvalidHostError(' '))))
  {
    SpaceHostParts(url);
    BadHostFailure("http", "a b", "", "/p", "", "");
  }

  lemma SpaceHostParts(url: string)
    requires url == "http://a b/p"
    ensures url == "http" + "://" + "a b" + "" + "/p" + "" + ""
    ensures url == "http" + "://" + "a b" + "" + "/p" + ""
    ensures SchemeText("http") && Delimited("a b") && FirstBadHostChar("a b") == 1 && "a b"[1] == ' '
    ensures ValidOptionalPort("") && PathText("/p") && QueryText("") && FragmentText("")
  {
    assert "a b"[1..] == " b";
  }

  // The cases pinned down by the repository's table test. The lemmas from here to
  // `PortQueryFragmentText` are scaffolding for those cases: each states a fact about one of
  // the test's literal inputs (its parts, the well-formedness of its parts, its expected key)
  // that the verifier would otherwise have to rediscover inside every test lemma. The test
  // lemmas themselves start at `RemoveSchemeHttps`.

  /** A key whose lower-cased input is the key itself, possibly with one trailing '/'. */
  lemma LowerTrimKey(s: string, k: string)
    requires ToLower(s) == k || ToLower(s) == k + "/"
    requires k != [] && k[|k| - 1] != '/'
    ensures LowerTrim(s) == k
  {
    if ToLower(s) == k + "/" {
      assert (k + "/")[..|k|] == k;
    }
  }

  /** The keys the table test expects, computed from the host and path of each input. */
  lemma KeyPlain()
    ensures LowerTrim("blog.boot.dev" + "/path") == "blog.boot.dev/path"
  {
    LowerTrimKey("blog.boot.dev" + "/path", "blog.boot.dev/path");
  }

  lemma KeySlashed()
    ensures LowerTrim("blog.boot.dev" + "/path/") == "blog.boot.dev/path"
  {
    LowerTrimKey("blog.boot.dev" + "/path/", "blog.boot.dev/path");
  }

  lemma KeyCapitals()
    ensures LowerTrim("BLOG.boot.dev" + "/PATH") == "blog.boot.dev/path"
  {
    LowerTrimKey("BLOG.boot.dev" + "/PATH", "blog.boot.dev/path");
  }

  /** Unlike `KeySlashed`, the host is upper-case here. */
  lemma KeyCapitalsSlashed()
    ensures LowerTrim("BLOG.boot.dev" + "/path/") == "blog.boot.dev/path"
  {
    LowerTrimKey("BLOG.boot.dev" + "/path/", "blog.boot.dev/path");
  }

  /** `NormalizeClean` for an input given as a whole, once its parts are known. */
  lemma CleanCase(url: string, scheme: string, host: string, port: string, path: string,
                  query: string, frag: string, key: string)
    requires url == scheme + "://" + host + port + path + query + frag
    requires SchemeText(scheme) && HostText(host) && host != [] && ValidOptionalPort(port)
    requires PathText(path) && SingleSlashes(path) && QueryText(query) && FragmentText(frag)
    requires NoDotSegments(host) && NoDotSegments(path)
    requires LowerTrim(host + path) == key
    ensures NormalizeURL(url) == Outcome(key, None)
  {
    NormalizeClean(scheme, host, port, path, query, frag);
  }

  /** The parts of the table test's inputs are well formed. */
  lemma TestSchemes()
    ensures SchemeText("https") && SchemeText("http")
  {
  }

  lemma TestHosts()
    ensures HostText("blog.boot.dev") && HostText("BLOG.boot.dev")
    ensures NoDotSegments("blog.boot.dev") && NoDotSegments("BLOG.boot.dev")
  {
    OneSegment("blog.boot.dev");
    OneSegment("BLOG.boot.dev");
    forall c | c in "blog.boot.dev" ensures IsHostNameChar(c) {
      assert c == 'b' || c == 'l' || c == 'o' || c == 'g' || c == '.' || c == 't' || c == 'd' || c == 'e' || c == 'v';
    }
    forall c | c in "BLOG.boot.dev" ensures IsHostNameChar(c) {
      assert c == 'B' || c == 'L' || c == 'O' || c == 'G' || c == '.' || c == 'b' || c == 'o' || c == 't' || c == 'd' || c == 'e' || c == 'v';
    }
  }

  lemma TestPaths()
    ensures PathText("/path") && SingleSlashes("/path")
    ensures PathText("/path/") && SingleSlashes("/path/")
    ensures PathText("/PATH") && SingleSlashes("/PATH")
    ensures NoDotSegments("/path") && NoDotSegments("/path/") && NoDotSegments("/PATH")
  {
  }

  lemma TestEmptyParts()
    ensures ValidOptionalPort("") && QueryText("") && FragmentText("")
  {
  }

  // How each input of the table test splits into scheme, host, port, path, query and fragment.

  lemma HttpsParts(url: string)
    requires url == "https://blog.boot.dev/path"
    ensures url == "https" + "://" + "blog.boot.dev" + "" + "/path" + "" + ""
  {
  }

  lemma HttpParts(url: string)
    requires url == "http://blog.boot.dev/path"
    ensures url == "http" + "://" + "blog.boot.dev" + "" + "/path" + "" + ""
  {
  }

  lemma HttpsSlashParts(url: string)
    requires url == "https://blog.boot.dev/path/"
    ensures url == "https" + "://" + "blog.boot.dev" + "" + "/path/" + "" + ""
  {
  }

  lemma HttpSlashParts(url: string)
    requires url == "http://blog.boot.dev/path/"
    ensures url == "http" + "://" + "blog.boot.dev" + "" + "/path/" + "" + ""
  {
  }

  lemma CapitalsParts(url: string)
    requires url == "https://BLOG.boot.dev/PATH"
    ensures url == "https" + "://" + "BLOG.boot.dev" + "" + "/PATH" + "" + ""
  {
  }

  lemma CapitalsSlashParts(url: string)
    requires url == "http://BLOG.boot.dev/path/"
    ensures url == "http" + "://" + "BLOG.boot.dev" + "" + "/path/" + "" + ""
  {
  }

  /** How the test's URL with port, query and fragment splits into its parts, in three steps. */
  lemma PortQueryFragmentUpToPath()
    ensures "http" + "://" + "blog.boot.dev" + ":1234" + "/path/" == "http://blog.boot.dev:1234/path/"
  {
  }

  lemma PortQueryFragmentUpToQuery()
    ensures "http://blog.boot.dev:1234/path/" + "?query=1&search=stuff"
         == "http://blog.boot.dev:1234/path/?query=1&search=stuff"
  {
  }

  lemma PortQueryFragmentWhole()
    ensures "http://blog.boot.dev:1234/path/?query=1&search=stuff" + "#section"
         == "http://blog.boot.dev:1234/path/?query=1&search=stuff#section"
  {
  }

  lemma PortQueryFragmentParts(url: string)
    requires url == "http://blog.boot.dev:1234/path/?query=1&search=stuff#section"
    ensures url == "http" + "://" + "blog.boot.dev" + ":1234" + "/path/" + "?query=1&search=stuff" + "#section"
  {
    PortQueryFragmentUpToPath();
    PortQueryFragmentUpToQuery();
    PortQueryFragmentWhole();
  }

  lemma PortQueryFragmentText()
    ensures ValidOptionalPort(":1234") && QueryText("?query=1&search=stuff") && FragmentText("#section")
  {
    var q := "?query=1&search=stuff";
    assert forall c | c in q :: !IsCtl(c) && c != '#' by {
      forall c | c in q ensures !IsCtl(c) && c != '#' {
        assert c >= ' ' && c < '\U{007F}' && c != '#';
      }
    }
  }

  // The table test's cases.

  lemma RemoveSchemeHttps(url: string)
    requires url == "https://blog.boot.dev/path"
    ensures NormalizeURL(url) == Outcome("blog.boot.dev/path", None)
  {
    HttpsParts(url);
    TestSchemes(); TestHosts(); TestPaths(); TestEmptyParts(); KeyPlain();
    CleanCase(url, "https", "blog.boot.dev", "", "/path", "", "", "blog.boot.dev/path");
  }

  lemma RemoveSchemeHttp(url: string)
    requires url == "http://blog.boot.dev/path"
    ensures NormalizeURL(url) == Outcome("blog.boot.dev/path", None)
  {
    HttpParts(url);
    TestSchemes(); TestHosts(); TestPaths(); TestEmptyParts(); KeyPlain();
    CleanCase(url, "http", "blog.boot.dev", "", "/path", "", "", "blog.boot.dev/path");
  }

  lemma RemoveFinalSlashHttps(url: string)
    requires url == "https://blog.boot.dev/path/"
    ensures NormalizeURL(url) == Outcome("blog.boot.dev/path", None)
  {
    HttpsSlashParts(url);
    TestSchemes(); TestHosts(); TestPaths(); TestEmptyParts(); KeySlashed();
    CleanCase(url, "https", "blog.boot.dev", "", "/path/", "", "", "blog.boot.dev/path");
  }

  lemma RemoveFinalSlashHttp(url: string)
    requires url == "http://blog.boot.dev/path/"
    ensures NormalizeURL(url) == Outcome("blog.boot.dev/path", None)
  {
    HttpSlashParts(url);
    TestSchemes(); TestHosts(); TestPaths(); TestEmptyParts(); KeySlashed();
    CleanCase(url, "http", "blog.boot.dev", "", "/path/", "", "", "blog.boot.dev/path");
  }

  lemma RemovePortQueryFragment(url: string)
    requires url == "http://blog.boot.dev:1234/path/?query=1&search=stuff#section"
    ensures NormalizeURL(url) == Outcome("blog.boot.dev/path", None)
  {
    PortQueryFragmentParts(url);
    PortQueryFragmentText();
    TestSchemes(); TestHosts(); TestPaths(); KeySlashed();
    CleanCase(url, "http", "blog.boot.dev", ":1234", "/path/", "?query=1&search=stuff", "#section",
              "blog.boot.dev/path");
  }

  lemma InvalidUrl(url: string)
    requires url == ":\\\\invalidURL"
    ensures NormalizeURL(url).value == [] && NormalizeURL(url).Failed()
    ensures "couldn't parse URL" <= NormalizeURL(url).err.value
    ensures NormalizeURL(url).err
         == Some("couldn't parse URL: " + UrlError("parse", url, "missing protocol scheme"))
  {
    ParseFailure(url);
  }

  /** The error message quotes the test's input as `strconv.Quote` does: each of its two
      backslashes is written twice. */
  lemma InvalidUrlQuoted(url: string)
    requires url == ":\\\\invalidURL"
    ensures Quote(url) == "\":\\\\\\\\invalidURL\""
  {
    InvalidUrlParts();
    QuoteBackslashes(":", "invalidURL");
  }

  lemma InvalidUrlParts()
    ensures ":\\\\invalidURL" == ":" + "\\\\" + "invalidURL"
    ensures "\"" + ":" + "\\\\\\\\" + "invalidURL" + "\"" == "\":\\\\\\\\invalidURL\""
    ensures forall x | x in ":" :: IsPlain(x)
    ensures forall x | x in "invalidURL" :: IsPlain(x)
  {
    forall x | x in "invalidURL" ensures IsPlain(x) {
      assert 'A' <= x <= 'z';
    }
  }

  lemma LowercaseCapitals(url: string)
    requires url == "https://BLOG.boot.dev/PATH"
    ensures NormalizeURL(url) == Outcome("blog.boot.dev/path", None)
  {
    CapitalsParts(url);
    TestSchemes(); TestHosts(); TestPaths(); TestEmptyParts(); KeyCapitals();
    CleanCase(url, "https", "BLOG.boot.dev", "", "/PATH", "", "", "blog.boot.dev/path");
  }

  lemma RemoveSchemeCapitalsAndSlash(url: string)
    requires url == "http://BLOG.boot.dev/path/"
    ensures NormalizeURL(url) == Outcome("blog.boot.dev/path", None)
  {
    CapitalsSlashParts(url);
    TestSchemes(); TestHosts(); TestPaths(); TestEmptyParts(); KeyCapitalsSlashed();
    CleanCase(url, "http", "BLOG.boot.dev", "", "/path/", "", "", "blog.boot.dev/path");
  }
}
