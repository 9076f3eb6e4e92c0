# A verified model of a small same-site web crawler

The crawler starts from a base URL and follows every link that stays on the base URL's
host. It keeps one ledger entry per canonical page (`cfg.pages`). Each entry holds what was
extracted from the page (heading, first paragraph, outgoing links, image URLs) and how many
times the crawl reached it. The model covers three parts of the program:

- **URL canonicalisation** (`normalizeURL`). Parse the URL, join its host name and path,
  lower-case the result and trim every trailing `/`. The result is the key pages are
  deduplicated by. Modules `NormalizeUrl`, `NetUrl` (the parts of Go's `net/url` it relies
  on), `Strings` (the parts of Go's `strings`) and `Strconv` (Go's `strconv.Quote`, with
  which `url.Error` writes the text that failed into its message).
- **Page-data assembly** (`extractPageData` and the four getters). The first `h1` and `p`,
  and the resolved `a[href]` and `img[src]` values in document order. Module
  `ExtractFromHtml`. A parsed document is the sequence of its elements in document order.
- **The crawl traversal** (`crawlPage` and the seeding in `main`). Module `CrawlPage`.
  - Each unit of work may leave early: its URL does not parse, leaves the base host, or
    does not normalise.
  - Otherwise it tests and inserts its key. A revisit adds one visit.
  - A first visit fetches the page, stores the extracted record and spawns one unit per
    outgoing link.
  - The class `Crawler` holds the ledger, the pending units, the wait-group counters
    (registered and finished units) and the occupied concurrency slots. `Crawl` runs the
    pending units one at a time, in any order, until none is left.

What is proved about the crawl:
- **The ledger invariant, kept by every unit** (`LedgerOk`, preserved by
  `Crawler.CrawlPage`):
  - each key was created by a unit that passed the gate with that key;
  - each entry holds what that first visit recorded, and its visit count equals the number
    of processed units with that key;
  - the fetch log, a ghost list of every `getHTML` call with whether it got a page, holds
    exactly one attempt per key of the ledger and none for any other key, so no page is
    fetched twice, whether its fetch succeeded or failed;
  - an attempt got a page exactly when its key's first unit's page is on the web.
- **The wait-group accounting**: registered = finished + pending, and every exit releases
  its slot.
- **Termination**, by the lexicographic measure (pages of the web not fetched yet, number of
  pending units).
- **Reachability, kept by every unit** (`Reached`, preserved by `StepKeepsReached`):
  the keys in the order they were created are each the key of a seed or of an outgoing link
  of a page created before them, and every unit seen is a seed or such a link.
- **At the end** (`Run`):
  - the seed's page is in the ledger;
  - the ledger is closed under the in-scope links of its pages;
  - every entry holds what the first visit of some text with that key recorded;
  - every entry is reached from the seed: its keys can be listed so that each is the seed's
    key or the key of an outgoing link of an entry listed before it. So the ledger holds
    nothing the traversal from the seed does not reach.

The fetch is a parameter. `web : map<string, Html>` gives what `getHTML` returns for each
URL it can fetch. A URL outside the map is a fetch error. `Markup([])` stands for the empty
body that `getHTML` returns without an error when it cannot build the request.

## Model

| member | source | states |
|---|---|---|
| Strings.ToLower | normalize_url.go:18 | same length; each character is mapped by ASCII lower-casing; no upper-case letter remains |
| Strings.TrimRight | normalize_url.go:19 | the result is a prefix of the input, does not end in the cut character, and only that character was removed |
| Strings.TrimSpace | extract_from_html.go:119 | empty exactly when every character is white space; otherwise starts and ends with a non-space character |
| NetUrl.GetScheme | normalize_url.go:10 | fails exactly when the text starts with ':'; otherwise splits it into a scheme of scheme characters, ':' and the rest, or yields no scheme and the whole text |
| Strconv.QuoteRoundTrip | normalize_url.go:12 | the quoted text decodes back to the text: quoting loses nothing |
| Strconv.QuotePlain | normalize_url.go:12 | a text without control characters, '"' or '\\' is quoted by adding the double quotes only |
| Strconv.QuoteBackslash | normalize_url_test.go:42 | a backslash between such texts is written twice |
| Strconv.QuoteBackslashes | normalize_url_test.go:42 | two backslashes between such texts are written as four |
| NetUrl.FirstBadHostChar | normalize_url.go:10 | the position of the first character the host parser rejects, or -1 exactly when there is none |
| NetUrl.HostChars | normalize_url.go:10-12 | the host is accepted exactly when it has no rejected character, and then unchanged |
| NetUrl.ParseHost | normalize_url.go:10-12 | an accepted host is the text itself and has no rejected character |
| NetUrl.ParseAbsolute | normalize_url.go:10 | parsing `scheme://host[:port][/path][?query][#fragment]` with a host of characters the host parser accepts gives the lower-cased scheme, `host:port` as host, the path, the query and fragment without their markers, and `ForceQuery` exactly when the query is a bare '?' |
| NetUrl.ParseRejectsHost | normalize_url.go:10-12 | the same text with a host that has no '%' and has a rejected character (a space, '\\', '^', '`', '{', '\|' or '}') fails, with the message `parse <quoted text before the fragment>: invalid character <quoted character> in host name` naming the first such character |
| NetUrl.PrintAbsolute | extract_from_html.go:102 | printing what such a parse gives returns the text with its scheme as parsed, a bare '?' included |
| NetUrl.OmitHostRoundTrip | extract_from_html.go:96-102 | `scheme:/path` parses with `OmitHost` set and no host, and prints back as `scheme:/path`, not `scheme:///path` |
| NetUrl.ParseColonLeading | normalize_url.go:10-13 | a text that starts with ':' fails to parse, with the message `parse <quoted text>: missing protocol scheme` |
| NetUrl.HostnameOf | normalize_url.go:14 | `Hostname` of a parsed `host:port` is the host without the port |
| NetUrl.JoinPathOf | normalize_url.go:14 | `url.JoinPath(host, path)` never fails for a plain host name and prints the joined path unchanged |
| NetUrl.JoinedShape | normalize_url.go:14 | the joined path is the host, then nothing or a tail that starts with '/' |
| NetUrl.JoinedClean | normalize_url.go:14 | for a path without "//" joining is concatenation, a trailing '/' included |
| NetUrl.JoinPathRejectsColonHost | normalize_url.go:14-17 | a host name that starts with ':' makes `url.JoinPath` fail with `parse <quoted host>: missing protocol scheme` |
| NetUrl.ResolveReference | extract_from_html.go:101 | a reference with a scheme keeps its scheme; the result keeps the reference's `ForceQuery`; it carries the reference's query, and its fragment, unless the reference has no path, no query and no `ForceQuery`, when it carries the base's query |
| NetUrl.ParseQueryOnly | extract_from_html.go:96 | the reference "?" parses with `ForceQuery` set and an empty query |
| NetUrl.ResolveForcedQuery | extract_from_html.go:101-102 | resolving it against an absolute base keeps the base's host and path, drops the base's query and fragment, and prints as the base's `scheme://host/path` followed by '?' |
| NormalizeUrl.LowerTrim | normalize_url.go:18-19 | the key has no upper-case letter, does not end in '/', and is no longer than its input |
| NormalizeUrl.LowerTrimIdempotent | normalize_url.go:18-19 | lower-casing and trimming a second time changes nothing |
| NormalizeUrl.NormalizeURL | normalize_url.go:9-20 | on failure the key is ""; a parse failure gives an error starting "couldn't parse URL: "; after a parse the outcome is `KeyOf` of the parsed URL; a key has no upper-case letter and no trailing '/' |
| NormalizeUrl.KeyOf | normalize_url.go:14-19 | fails exactly when the join fails, then with "" and an error starting "error joining host and path: "; a key has no upper-case letter and no trailing '/' |
| NormalizeUrl.NormalizeAbsolute | normalize_url.go:9-20 | an absolute URL whose host name has only characters the host parser accepts, and whose host and path have no "." or ".." segment, normalises, without error, to the lower-cased, trimmed join of host and path, whatever its scheme, port, query and fragment |
| NormalizeUrl.KeyOfPlainHost | normalize_url.go:14-19 | a parsed URL whose host name has only such characters, with no dot segment in host or path, has the lower-cased, trimmed join of host name and path as its key |
| NormalizeUrl.BadHostFailure | normalize_url.go:10-12 | an absolute URL whose host name has no '%' and has a rejected character gives "" and the error `couldn't parse URL: parse <quoted URL before the fragment>: invalid character <quoted character> in host name` |
| NormalizeUrl.SpaceInHost | normalize_url.go:10-12 | "http://a b/p" gives "" and the error naming the quoted URL and the quoted space |
| NormalizeUrl.IgnoresSchemePortQueryFragment | normalize_url.go:10-14 | two such URLs (plain host name, no dot segments) that differ only in scheme, port, query and fragment give the same outcome |
| NormalizeUrl.NormalizeClean | normalize_url.go:14-19 | with a path without "//" and without dot segments, the key is the lower-cased `host + path` without trailing '/' |
| NormalizeUrl.ParseFailure | normalize_url.go:10-13 | a URL that starts with ':' gives "" and the error `couldn't parse URL: parse <quoted url>: missing protocol scheme` |
| NormalizeUrl.JoinFailure | normalize_url.go:14-17 | a parsed URL whose host name starts with ':' gives "" and the error `error joining host and path: parse <quoted host>: missing protocol scheme` |
| NormalizeUrl.RemoveSchemeHttps | normalize_url_test.go:15-19 | "https://blog.boot.dev/path" gives "blog.boot.dev/path" |
| NormalizeUrl.RemoveSchemeHttp | normalize_url_test.go:20-24 | "http://blog.boot.dev/path" gives "blog.boot.dev/path" |
| NormalizeUrl.RemoveFinalSlashHttps | normalize_url_test.go:25-29 | "https://blog.boot.dev/path/" gives "blog.boot.dev/path" |
| NormalizeUrl.RemoveFinalSlashHttp | normalize_url_test.go:30-34 | "http://blog.boot.dev/path/" gives "blog.boot.dev/path" |
| NormalizeUrl.RemovePortQueryFragment | normalize_url_test.go:35-39 | the URL with port, query and fragment gives "blog.boot.dev/path" |
| NormalizeUrl.InvalidUrl | normalize_url_test.go:40-45 | `:\\invalidURL` gives "" and an error containing "couldn't parse URL", namely `couldn't parse URL: parse <quoted input>: missing protocol scheme` |
| NormalizeUrl.InvalidUrlQuoted | normalize_url_test.go:40-45 | the quoted input in that message is `":\\\\invalidURL"`: each backslash is written twice |
| NormalizeUrl.LowercaseCapitals | normalize_url_test.go:46-50 | "https://BLOG.boot.dev/PATH" gives "blog.boot.dev/path" |
| NormalizeUrl.RemoveSchemeCapitalsAndSlash | normalize_url_test.go:51-55 | "http://BLOG.boot.dev/path/" gives "blog.boot.dev/path" |
| ExtractFromHtml.FirstIndex | extract_from_html.go:70 | the position of an element with the tag such that no earlier element has it, or -1 when no element has it |
| ExtractFromHtml.GetH1FromHTML | extract_from_html.go:64-71 | the text of the first `h1` in document order, "" when there is none; "" and the parser's error for a document that does not parse |
| ExtractFromHtml.GetFirstParagraphFromHTML | extract_from_html.go:73-80 | the same for the first `p` |
| ExtractFromHtml.ResolveAgainst | extract_from_html.go:96-102 | an attribute value yields a URL exactly when it parses |
| ExtractFromHtml.HarvestAppend | extract_from_html.go:91-103 | harvesting a concatenation is harvesting each part in turn: document order is kept |
| ExtractFromHtml.HarvestAt | extract_from_html.go:91-103 | element i contributes its URL after what the elements before it contribute and before what those after it contribute |
| ExtractFromHtml.HarvestCount | extract_from_html.go:91-105 | one URL per contributing element, never more than there are selected elements |
| ExtractFromHtml.HarvestMembers | extract_from_html.go:91-103 | every URL comes from a contributing element, and every contributing element's URL is there |
| ExtractFromHtml.BlankImageSkipped | extract_from_html.go:119-121 | an `img` whose `src` is empty or white space contributes nothing |
| ExtractFromHtml.HarvestLoop | extract_from_html.go:91-103 | the append loop over the elements computes `Harvest` |
| ExtractFromHtml.GetURLsFromHTML | extract_from_html.go:82-106 | the resolved `a[href]` values in document order; an empty list and the parser's error for a document that does not parse |
| ExtractFromHtml.GetImagesFromHTML | extract_from_html.go:108-132 | the resolved non-blank `img[src]` values in document order; an empty list and the parser's error for a document that does not parse |
| ExtractFromHtml.PageDataOf | extract_from_html.go:20-62 | the record keeps the page URL as given and one visit, and holds the first `h1` and `p`; no links and no images when the page URL does not parse |
| ExtractFromHtml.ExtractPageData | extract_from_html.go:20-62 | the getters' errors do not stop it: it always builds the record `PageDataOf` describes |
| ExtractFromHtml.PageLinks | extract_from_html.go:44-61 | for a page URL that parses, the links and images are the harvested ones, each no more than the selected elements |
| ExtractFromHtml.SingleH1 | extract_from_html_test.go:12-15 | the "Single h1" case gives "Header One" |
| ExtractFromHtml.MultipleHeaders | extract_from_html_test.go:16-20 | the "Multiple headers" case gives "First Header" |
| ExtractFromHtml.NoH1Present | extract_from_html_test.go:21-25 | the "No h1 present" case gives "" |
| ExtractFromHtml.EmptyDocument | extract_from_html_test.go:26-30 | an empty document gives "" for both the heading and the paragraph |
| ExtractFromHtml.H1WithAttributes | extract_from_html_test.go:31-35 | the "h1 with attributes" case gives "Main Header" |
| ExtractFromHtml.OneParagraph | extract_from_html_test.go:55-59 | the "One paragraph" case gives "paragraph one" |
| ExtractFromHtml.MultipleParagraphs | extract_from_html_test.go:60-64 | the "Multiple paragraphs" case gives "First paragraph" |
| ExtractFromHtml.NoParagraphPresent | extract_from_html_test.go:65-69 | the "No paragraph present" case gives "" |
| ExtractFromHtml.ParagraphWithAttributes | extract_from_html_test.go:75-79 | the "Paragraph with attributes" case gives "Intro paragraph" |
| CrawlPage.GateExits | crawl_page.go:15-30 | a unit whose URL does not parse, whose host name is not the base's, or which does not normalise goes no further; one that goes on parses, has the base's host name, and its key is its normalised URL |
| CrawlPage.Recorded | crawl_page.go:43-51 | a first visit leaves one visit, and no links or images when the fetch fails |
| CrawlPage.RecordsFirstVisit | crawl_page.go:43-51 | every record of a first visit has one visit, and no links when the page is not on the web |
| CrawlPage.FilteredUnit | crawl_page.go:15-30 | a unit stopped at the gate leaves the ledger unchanged, spawns nothing and fetches nothing |
| CrawlPage.RevisitUnit | crawl_page.go:34-38 | a revisit raises its key's visits by exactly one, changes no other field and no other key, spawns nothing and fetches nothing |
| CrawlPage.FirstUnit | crawl_page.go:33-57 | a first visit adds exactly its key with what it recorded and changes no other key; it attempts exactly one fetch, which gets a page exactly when its page is on the web, and spawns the recorded links in order; off the web it spawns nothing |
| CrawlPage.OccurrencesSnoc | crawl_page.go:33-38 | one more unit adds one occurrence to its own key and none to other keys |
| CrawlPage.StepKeepsLedger | crawl_page.go:15-51 | every unit keeps the ledger invariant: keys created by units with that key, records as first recorded, visits equal to the number of units with that key; the fetch log holds exactly one `getHTML` attempt per key of the ledger, failed ones included, and none for other keys; an attempt got a page exactly when its key's first unit's page is on the web |
| CrawlPage.RevisitKeepsLedger | crawl_page.go:34-38 | a revisit keeps the ledger invariant |
| CrawlPage.FirstKeepsLedger | crawl_page.go:33-51 | a first visit keeps the ledger invariant |
| CrawlPage.FirstEntries | crawl_page.go:33-51 | after a first visit every key still holds its first record and its count of visits |
| CrawlPage.FirstLog | crawl_page.go:43-51 | a first visit appends one attempt for its new key: the fetch log still has no key twice, holds exactly the ledger's keys and records which attempts got a page |
| CrawlPage.StepProgress | crawl_page.go:33-57 | no unit makes a fetched page unfetched; a first visit to a page of the web lowers the number of unfetched pages of the web; any other unit spawns nothing |
| CrawlPage.StepKeepsCovered | crawl_page.go:54-57 | every unit keeps every outgoing link of a recorded page processed or pending |
| CrawlPage.TakeCovered | crawl_page.go:56 | taking a unit off the pending list keeps the links covered and loses no other pending unit |
| CrawlPage.OccursWhenProcessed | crawl_page.go:33-38 | a processed unit that passed the gate counts for its key |
| CrawlPage.StepKeepsReached | crawl_page.go:15-57 | every unit keeps reachability: a key it creates is the key of the unit, which is a seed or a link of an earlier page; the links it spawns are links of a recorded page |
| CrawlPage.CrawlClosed | crawl_page.go:33-57 | with nothing pending, every processed in-scope unit and every in-scope link of a recorded page has its key in the ledger |
| CrawlPage.Crawler.constructor | main.go:40 | an empty ledger, no pending units, counters at zero, and the invariant |
| CrawlPage.Crawler.AddPageVisit | crawl_page.go:33 | test-and-insert: reports a first visit exactly when the key is new, and then inserts the placeholder; otherwise changes nothing |
| CrawlPage.Crawler.SetPageData | crawl_page.go:51 | overwrites the record of the key |
| CrawlPage.Crawler.Spawn | crawl_page.go:55-56 | registers one unit and queues it at the end |
| CrawlPage.Crawler.Admit | crawl_page.go:15-30 | the unit's key is what the gate gives |
| CrawlPage.Crawler.Fetch | crawl_page.go:43-50 | the fetch succeeds exactly when the page is on the web and yields the recorded data; on failure the placeholder |
| CrawlPage.Crawler.StoreAndSpawn | crawl_page.go:51-57 | stores the record and queues and registers its outgoing links in order, duplicates included |
| CrawlPage.Crawler.FirstVisit | crawl_page.go:43-57 | the key gets the first visit's record; its links are queued only when the fetch succeeded; every fetch attempt is logged, failed or not, with whether it got a page (exactly when the page is on the web) |
| CrawlPage.Crawler.Enter | crawl_page.go:33-38 | a new key gets the placeholder; a known key gets one more visit and nothing else changes |
| CrawlPage.Crawler.Visit | crawl_page.go:15-57 | the ledger, pending list, counters, creator map, fetch log and creation order become exactly what one unit of the traversal gives |
| CrawlPage.Crawler.Step | crawl_page.go:15-57 | one unit keeps the ledger invariant, the link coverage and reachability, and lowers the measure or leaves the pending list as it was |
| CrawlPage.Crawler.CrawlPage | crawl_page.go:8-58 | the unit takes a slot and releases it, finishes once, keeps the invariant, reachability and the wait-group balance, and lowers the measure or spawns nothing |
| CrawlPage.Crawler.Seed | main.go:48-49 | registers and queues the seed unit and records it as a seed, keeping reachability |
| CrawlPage.Crawler.RunOne | crawl_page.go:56 | runs any pending unit; keeps the invariant, the balance and the coverage; loses no pending unit; lowers the lexicographic measure |
| CrawlPage.Crawler.Crawl | main.go:50 | waits until nothing is pending: then registered = finished, the invariant and coverage hold, and every unit pending at the start was processed |
| CrawlPage.Run | main.go:40-50 | the seed's key is in the final ledger when it passes the gate; every in-scope link of a recorded page has its key there; every entry has at least one visit and holds what a text with that key records on a first visit; and the keys can be ordered so that each is the seed's key or the key of an outgoing link of an earlier entry |
| CrawlPage.RunOutcome | main.go:48-50 | states `CrawlClosed` and the entry facts of the invariant for the session's gate and records |
| CrawlPage.RunReached | main.go:48-50 | with the seed as the only seed, reachability gives that order: the order in which the keys were created |

## Left out

- HTTP fetching (`get_html.go`): replaced by the `web` map. Status and content-type checks are
  folded into the map's domain.
- The CSV report (`csv_export.go`), `main`'s argument parsing, `log.Fatal` and every `fmt.Printf`: output only.
- `maxPages`: the crawl code shown never checks it, so the model has no page budget.
- `configure` and the `config` struct are not part of this model. The base URL is taken as an already parsed `Url`.
- Concurrency: units run one at a time and atomically, in any order. The slot counter records
  taking and releasing a slot. The channel's capacity, and blocking on it, are not modelled.
- The unlocked revisit update at crawl_page.go:35-37 can lose visits when units of one key
  overlap. The model treats each unit as atomic, so it does not show such races.
- `addPageVisit` and `setPageData` are not part of the shown source. They carry contracts
  read off their call sites:
  - `addPageVisit`: test-and-insert, inserting the placeholder record with one visit;
  - `setPageData`: overwrite.

  The increment on a revisit is done by `crawlPage` itself (crawl_page.go:34-38), as in the code.
- `net/url` is simplified:
  - no percent-encoding or decoding;
  - no dot-segment removal in `ResolveReference`;
  - no validation of user information or IPv6 zones;
  - `String` does no escaping;
  - `path.Join` is modelled for rooted paths without dot segments.
- NetUrl.ParseHost: checks the port and the ASCII characters `unescape` rejects in a host. It does not check percent-escapes or IPv6 zones, and accepts '%' and non-ASCII characters as they are.
- Strconv.Quote: writes non-ASCII characters as they are. Go's `strconv.Quote` writes non-printable Unicode characters and invalid UTF-8 as `\u`, `\U` or `\x` escapes. The model has no Unicode classes.
- NetUrl.HostText: the parsing lemmas cover host names of letters, digits and `-._~!$&'()*+,;=`. That is narrower than what `parseHost` accepts, which also allows '%' escapes, '<', '>', '"', non-ASCII characters and bracketed IPv6 literals. The rejection lemmas (`ParseRejectsHost`, `BadHostFailure`) cover any host without control characters and without '/', ':', '?', '#', '@', '[' or '%'.
- NetUrl.ParseRejectsHost: says nothing about a host with '%'. Go's `unescape` checks the escapes first and can report `invalid URL escape` instead, and the model does not check escapes.
- NormalizeUrl.BadHostFailure: says nothing about a host with '%', for the same reason.
- NetUrl.JoinPathOf: `JoinedPath` does not resolve "." and ".." segments, which Go's `path.Join` does. The lemma describes Go's result only when the host and the path have no dot segments.
- NetUrl.JoinedShape: holds for the model's `JoinedPath`. For Go's `path.Join` it holds only without dot segments, since ".." can remove the host.
- NormalizeUrl.NormalizeAbsolute: requires no dot segment in the host or the path, because the model's `path.Join` does not resolve them. `KeyOfPlainHost`, `IgnoresSchemePortQueryFragment` and `NormalizeClean` have the same condition. So the key of a URL such as `http://x/a/../b` is not stated.
- `strings.ToLower` is modelled on ASCII letters only, and `unicode.IsSpace` on ASCII and Latin-1.
- The host comparison at crawl_page.go:22 is case sensitive, as in the code.
- goquery is reduced to a sequence of elements in document order. Each element has a tag,
  its attributes and its text with descendants. The test lemmas leave out the implied `head`
  and `body` elements.
- Go's nil and empty slices are not distinguished: the nil links of a page URL that does not parse are `[]`.
- CrawlPage.Crawler.CrawlPage: states the new ledger only through the invariant and the
  measure. The exact new ledger, pending list and fetch log are stated by
  `CrawlPage.Crawler.Visit`.
- CrawlPage.Run: states at least one visit per entry. The exact count, the number of
  processed units with that key, is stated over the ghost list of processed units in the
  invariant (`LedgerOk`).
  Its record clause and its reachability clause each name some text with the entry's key.
  They do not say that it is the same text.
