// The crawl traversal: scope filter, first-visit gate, revisit counting, store, fan-out.
module CrawlPage {
  import opened Wrappers
  import opened NetUrl
  import opened NormalizeUrl
  import opened ExtractFromHtml

  /** The three early exits of `crawlPage`: a unit goes on only when its URL parses, its host
      name is the base URL's host name, and it normalises; the result is then its ledger key. */
  function Gate(base: Url, raw: string): Option<string>
  {
    match Parse(raw)
    case Err(_) => None
    case Ok(current) =>
      if Hostname(current) != Hostname(base) then None
      else
        var normalized := NormalizeURL(raw);
        if normalized.Failed() then None else Some(normalized.value)
  }

  /** A unit goes on exactly when none of the three exits is taken, and then its key is the
      normalised URL. */
  lemma GateExits(base: Url, raw: string)
    ensures Parse(raw).Err? ==> Gate(base, raw) == None
    ensures Parse(raw).Ok? && Hostname(Parse(raw).value) != Hostname(base) ==> Gate(base, raw) == None
    ensures NormalizeURL(raw).Failed() ==> Gate(base, raw) == None
    ensures Gate(base, raw).Some? ==>
              Parse(raw).Ok? && Hostname(Parse(raw).value) == Hostname(base)
              && NormalizeURL(raw) == Outcome(Gate(base, raw).value, None)
  {
  }

  /** The record `addPageVisit` inserts on a first visit: one visit and no extracted fields. */
  const Placeholder := PageData([], [], [], [], [], 1)

  /** What the first visit to a page leaves in the ledger: the extracted record when the fetch
      succeeds, the placeholder when it fails. */
  function Recorded(web: map<string, Html>, raw: string): (r: PageData)
    ensures r.visits == 1
    ensures raw !in web ==> r.outgoingLinks == [] && r.imageUrls == []
  {
    if raw in web then PageDataOf(web[raw], raw) else Placeholder
  }

  /** One call of `getHTML`: the key whose page was asked for, and whether a page came back. */
  datatype Attempt = Attempt(key: string, fetched: bool)

  /** `Gate`, as the function value the traversal is stated over. */
  function Scope(base: Url): string -> Option<string>
  {
    raw => Gate(base, raw)
  }

  /** `Recorded`, as the function value the traversal is stated over. */
  function Records(web: map<string, Html>): string -> PageData
  {
    raw => Recorded(web, raw)
  }

  // One unit of work, as a function of the ledger before it. The traversal is stated for any
  // gate and any record function; the crawler instantiates them with `Scope` and `Records`.

  /** Every record a first visit leaves has one visit, and one for a page that is not on the
      web has no outgoing links. */
  ghost predicate FirstVisitRecords(record: string -> PageData, web: map<string, Html>) {
    forall raw :: record(raw).visits == 1 && (raw !in web ==> record(raw).outgoingLinks == [])
  }

  lemma RecordsFirstVisit(web: map<string, Html>)
    ensures FirstVisitRecords(Records(web), web)
  {
    forall raw ensures Records(web)(raw).visits == 1 && (raw !in web ==> Records(web)(raw).outgoingLinks == []) {
      assert Records(web)(raw) == Recorded(web, raw);
    }
  }

  /** The unit gets past the gate and its key is not in the ledger yet. */
  predicate IsFirst(gate: string -> Option<string>, pages: map<string, PageData>, raw: string) {
    gate(raw).Some? && gate(raw).value !in pages
  }

  /** The ledger after a unit whose gate gave `admitted` and whose first visit would record
      `rec`: unchanged when it is filtered out, one more visit on a revisit, `rec` on a first
      visit. */
  function After(admitted: Option<string>, rec: PageData, pages: map<string, PageData>)
    : map<string, PageData>
  {
    match admitted
    case None => pages
    case Some(k) =>
      if k in pages then pages[k := pages[k].(visits := pages[k].visits + 1)]
      else pages[k := rec]
  }

  /** The units such a unit spawns: the outgoing links of `rec` on a first visit. */
  function SpawnedBy(admitted: Option<string>, rec: PageData, pages: map<string, PageData>): seq<string>
  {
    if admitted.Some? && admitted.value !in pages then rec.outgoingLinks else []
  }

  /** The fetch such a unit attempts: only a first visit calls `getHTML`, and it gets a page
      back exactly when the page is on the web. */
  function AttemptedBy(admitted: Option<string>, onWeb: bool, pages: map<string, PageData>): seq<Attempt>
  {
    if admitted.Some? && admitted.value !in pages then [Attempt(admitted.value, onWeb)] else []
  }

  ghost function OriginAfter(admitted: Option<string>, raw: string, pages: map<string, PageData>,
                             origin: map<string, string>): map<string, string>
  {
    if admitted.Some? && admitted.value !in pages then origin[admitted.value := raw] else origin
  }

  function NextPages(gate: string -> Option<string>, record: string -> PageData,
                     pages: map<string, PageData>, raw: string): map<string, PageData>
  {
    After(gate(raw), record(raw), pages)
  }

  function Spawned(gate: string -> Option<string>, record: string -> PageData,
                   pages: map<string, PageData>, raw: string): seq<string>
  {
    SpawnedBy(gate(raw), record(raw), pages)
  }

  function Attempted(gate: string -> Option<string>, web: map<string, Html>,
                     pages: map<string, PageData>, raw: string): seq<Attempt>
  {
    AttemptedBy(gate(raw), raw in web, pages)
  }

  ghost function NextOrigin(gate: string -> Option<string>, pages: map<string, PageData>,
                            origin: map<string, string>, raw: string): map<string, string>
  {
    OriginAfter(gate(raw), raw, pages, origin)
  }

  /** A filtered-out unit leaves the ledger unchanged and spawns nothing. */
  lemma FilteredUnit(gate: string -> Option<string>, record: string -> PageData, web: map<string, Html>,
                     pages: map<string, PageData>, raw: string)
    requires gate(raw).None?
    ensures NextPages(gate, record, pages, raw) == pages
    ensures Spawned(gate, record, pages, raw) == [] && Attempted(gate, web, pages, raw) == []
  {
  }

  /** A revisit adds exactly one visit to its key, changes no field of its record and no
      other key, spawns nothing and fetches nothing. */
  lemma RevisitUnit(gate: string -> Option<string>, record: string -> PageData, web: map<string, Html>,
                    pages: map<string, PageData>, raw: string)
    requires gate(raw).Some? && gate(raw).value in pages
    ensures var k := gate(raw).value; var next := NextPages(gate, record, pages, raw);
            next.Keys == pages.Keys
            && next[k].visits == pages[k].visits + 1
            && next[k].(visits := 0) == pages[k].(visits := 0)
            && (forall j | j in pages && j != k :: next[j] == pages[j])
    ensures Spawned(gate, record, pages, raw) == [] && Attempted(gate, web, pages, raw) == []
  {
  }

  /** A first visit adds exactly its key, with one visit, and changes no other key. It
      attempts one fetch, which gets a page exactly when the page is on the web, and spawns one unit per outgoing link of
      what it records, in order; off the web it spawns nothing. */
  lemma FirstUnit(gate: string -> Option<string>, record: string -> PageData, web: map<string, Html>,
                  pages: map<string, PageData>, raw: string)
    requires FirstVisitRecords(record, web)
    requires IsFirst(gate, pages, raw)
    ensures var k := gate(raw).value; var next := NextPages(gate, record, pages, raw);
            next.Keys == pages.Keys + {k}
            && next[k] == record(raw) && next[k].visits == 1
            && (forall j | j in pages :: next[j] == pages[j])
    ensures Attempted(gate, web, pages, raw) == [Attempt(gate(raw).value, raw in web)]
    ensures Spawned(gate, record, pages, raw) == record(raw).outgoingLinks
    ensures raw !in web ==> Spawned(gate, record, pages, raw) == []
  {
  }

  /** The number of units in `units` that get past the gate with key `k`. */
  function Occurrences(gate: string -> Option<string>, units: seq<string>, k: string): nat
  {
    if units == [] then 0
    else
      Occurrences(gate, units[..|units| - 1], k) + (if gate(units[|units| - 1]) == Some(k) then 1 else 0)
  }

  /** Processing one more unit adds one occurrence for its key and none for any other key. */
  lemma OccurrencesSnoc(gate: string -> Option<string>, units: seq<string>, raw: string, k: string)
    ensures Occurrences(gate, units + [raw], k)
         == Occurrences(gate, units, k) + (if gate(raw) == Some(k) then 1 else 0)
  {
    assert (units + [raw])[..|units|] == units;
  }

  /** The ledger invariant: each key was created by a unit with that key and holds what that
      first visit recorded, with one visit per unit with that key; the fetch log holds one
      attempt per key of the ledger and no other, and an attempt got a page exactly when its
      key's first unit's page is on the web. */
  ghost predicate LedgerOk(gate: string -> Option<string>, record: string -> PageData,
                           web: map<string, Html>, pages: map<string, PageData>,
                           origin: map<string, string>, processed: seq<string>, fetchLog: seq<Attempt>)
  {
    origin.Keys == pages.Keys
    && (forall k | k in pages ::
          gate(origin[k]) == Some(k)
          && pages[k].(visits := 1) == record(origin[k])
          && pages[k].visits == Occurrences(gate, processed, k) >= 1)
    && (forall k | Occurrences(gate, processed, k) > 0 :: k in pages)
    && (forall i, j | 0 <= i < j < |fetchLog| :: fetchLog[i].key != fetchLog[j].key)
    && (forall a | a in fetchLog :: a.key in pages && (a.fetched <==> origin[a.key] in web))
    && (forall k | k in pages :: Attempt(k, origin[k] in web) in fetchLog)
  }

  /** Every unit of work keeps the ledger invariant. */
  lemma StepKeepsLedger(gate: string -> Option<string>, record: string -> PageData,
                        web: map<string, Html>, pages: map<string, PageData>,
                        origin: map<string, string>, processed: seq<string>, fetchLog: seq<Attempt>, raw: string)
    requires FirstVisitRecords(record, web)
    requires LedgerOk(gate, record, web, pages, origin, processed, fetchLog)
    ensures LedgerOk(gate, record, web, NextPages(gate, record, pages, raw), NextOrigin(gate, pages, origin, raw),
                     processed + [raw], fetchLog + Attempted(gate, web, pages, raw))
  {
    forall k ensures Occurrences(gate, processed + [raw], k)
                  == Occurrences(gate, processed, k) + (if gate(raw) == Some(k) then 1 else 0) {
      OccurrencesSnoc(gate, processed, raw, k);
    }
    match gate(raw)
    case None =>
      assert fetchLog + [] == fetchLog;
    case Some(key) =>
      if key in pages {
        RevisitKeepsLedger(gate, record, web, pages, origin, processed, fetchLog, raw, key);
      } else {
        FirstKeepsLedger(gate, record, web, pages, origin, processed, fetchLog, raw, key);
      }
  }

  lemma RevisitKeepsLedger(gate: string -> Option<string>, record: string -> PageData,
                           web: map<string, Html>, pages: map<string, PageData>,
                           origin: map<string, string>, processed: seq<string>, fetchLog: seq<Attempt>,
                           raw: string, key: string)
    requires LedgerOk(gate, record, web, pages, origin, processed, fetchLog)
    requires gate(raw) == Some(key) && key in pages
    requires forall k :: Occurrences(gate, processed + [raw], k)
                      == Occurrences(gate, processed, k) + (if gate(raw) == Some(k) then 1 else 0)
    ensures LedgerOk(gate, record, web, pages[key := pages[key].(visits := pages[key].visits + 1)], origin,
                     processed + [raw], fetchLog)
  {
  }

  lemma FirstKeepsLedger(gate: string -> Option<string>, record: string -> PageData,
                         web: map<string, Html>, pages: map<string, PageData>,
                         origin: map<string, string>, processed: seq<string>, fetchLog: seq<Attempt>,
                         raw: string, key: string)
    requires FirstVisitRecords(record, web)
    requires LedgerOk(gate, record, web, pages, origin, processed, fetchLog)
    requires gate(raw) == Some(key) && key !in pages
    requires forall k :: Occurrences(gate, processed + [raw], k)
                      == Occurrences(gate, processed, k) + (if gate(raw) == Some(k) then 1 else 0)
    ensures LedgerOk(gate, record, web, pages[key := record(raw)], origin[key := raw],
                     processed + [raw], fetchLog + [Attempt(key, raw in web)])
  {
    FirstEntries(gate, record, web, pages, origin, processed, fetchLog, raw, key);
    FirstLog(gate, record, web, pages, origin, processed, fetchLog, raw, key);
  }

  /** A first visit's entry: the ledger's entries and their visit counts stay right. */
  lemma FirstEntries(gate: string -> Option<string>, record: string -> PageData,
                     web: map<string, Html>, pages: map<string, PageData>,
                     origin: map<string, string>, processed: seq<string>, fetchLog: seq<Attempt>,
                     raw: string, key: string)
    requires FirstVisitRecords(record, web)
    requires LedgerOk(gate, record, web, pages, origin, processed, fetchLog)
    requires gate(raw) == Some(key) && key !in pages
    requires forall k :: Occurrences(gate, processed + [raw], k)
                      == Occurrences(gate, processed, k) + (if gate(raw) == Some(k) then 1 else 0)
    ensures var pages', origin' := pages[key := record(raw)], origin[key := raw];
      && origin'.Keys == pages'.Keys
      && (forall k | k in pages' ::
            gate(origin'[k]) == Some(k)
            && pages'[k].(visits := 1) == record(origin'[k])
            && pages'[k].visits == Occurrences(gate, processed + [raw], k) >= 1)
      && (forall k | Occurrences(gate, processed + [raw], k) > 0 :: k in pages')
  {
    assert record(raw).visits == 1;
  }

  /** A first visit's fetch: the fetch log gains one attempt for the new key, stays free of
      repeated keys and still tells which attempts got a page. */
  lemma FirstLog(gate: string -> Option<string>, record: string -> PageData,
                 web: map<string, Html>, pages: map<string, PageData>,
                 origin: map<string, string>, processed: seq<string>, fetchLog: seq<Attempt>,
                 raw: string, key: string)
    requires LedgerOk(gate, record, web, pages, origin, processed, fetchLog)
    requires key !in pages
    ensures var pages', origin', fetchLog' := pages[key := record(raw)], origin[key := raw],
                                              fetchLog + [Attempt(key, raw in web)];
      && (forall i, j | 0 <= i < j < |fetchLog'| :: fetchLog'[i].key != fetchLog'[j].key)
      && (forall a | a in fetchLog' :: a.key in pages' && (a.fetched <==> origin'[a.key] in web))
      && (forall k | k in pages' :: Attempt(k, origin'[k] in web) in fetchLog')
  {
    var fetchLog' := fetchLog + [Attempt(key, raw in web)];
    forall i, j | 0 <= i < j < |fetchLog'| ensures fetchLog'[i].key != fetchLog'[j].key {
      if j == |fetchLog| {
        assert fetchLog'[i] == fetchLog[i] && fetchLog'[j].key == key;
        assert fetchLog[i] in fetchLog;
      } else {
        assert fetchLog'[i] == fetchLog[i] && fetchLog'[j] == fetchLog[j];
      }
    }
  }

  /** The pages of the web that get past the gate with a key not in the ledger yet: the
      pages a crawl can still fetch. */
  ghost function Unfetched(gate: string -> Option<string>, web: map<string, Html>,
                           pages: map<string, PageData>): set<string>
  {
    set raw | raw in web && gate(raw).Some? && gate(raw).value !in pages
  }

  lemma {:induction false} SubsetCard<T>(x: set<T>, y: set<T>)
    requires x <= y
    ensures |x| <= |y|
  {
    if x != {} {
      var e :| e in x;
      SubsetCard(x - {e}, y - {e});
    }
  }

  /** The crawl's measure: a first visit to a page of the web removes that page from the
      unfetched ones, and no unit adds one; any other unit spawns nothing. */
  lemma StepProgress(gate: string -> Option<string>, record: string -> PageData, web: map<string, Html>,
                     pages: map<string, PageData>, raw: string)
    requires FirstVisitRecords(record, web)
    ensures var next := NextPages(gate, record, pages, raw);
            pages.Keys <= next.Keys
            && Unfetched(gate, web, next) <= Unfetched(gate, web, pages)
            && (IsFirst(gate, pages, raw) && raw in web ==>
                  |Unfetched(gate, web, next)| < |Unfetched(gate, web, pages)|)
            && (!(IsFirst(gate, pages, raw) && raw in web) ==>
                  |Unfetched(gate, web, next)| <= |Unfetched(gate, web, pages)|
                  && Spawned(gate, record, pages, raw) == [])
  {
    var next := NextPages(gate, record, pages, raw);
    var before := Unfetched(gate, web, pages);
    var after := Unfetched(gate, web, next);
    assert after <= before;
    if IsFirst(gate, pages, raw) && raw in web {
      assert raw in before && raw !in after;
      SubsetCard(after, before - {raw});
    } else {
      SubsetCard(after, before);
    }
  }

  /** Every outgoing link of a recorded page is a unit already processed or still pending:
      the crawl has not lost a link it found. */
  ghost predicate LinksCovered(pages: map<string, PageData>, processed: seq<string>, pending: seq<string>) {
    forall k, l | k in pages && l in pages[k].outgoingLinks :: l in processed || l in pending
  }

  /** A unit keeps the links covered: the links of the keys it did not create are unchanged,
      and the links of the key it creates are the units it spawns. */
  lemma StepKeepsCovered(gate: string -> Option<string>, record: string -> PageData,
                         pages: map<string, PageData>, processed: seq<string>, pending: seq<string>,
                         raw: string)
    requires LinksCovered(pages, processed + [raw], pending)
    ensures LinksCovered(NextPages(gate, record, pages, raw), processed + [raw],
                         pending + Spawned(gate, record, pages, raw))
  {
    var next := NextPages(gate, record, pages, raw);
    var pending' := pending + Spawned(gate, record, pages, raw);
    forall k, l | k in next && l in next[k].outgoingLinks ensures l in processed + [raw] || l in pending' {
      if k in pages {
        assert next[k].outgoingLinks == pages[k].outgoingLinks;
      } else {
        assert l in Spawned(gate, record, pages, raw);
      }
    }
  }

  /** Taking the unit at `i` off the pending list: it counts as processed, and every other
      pending unit stays pending. */
  lemma TakeCovered(pages: map<string, PageData>, processed: seq<string>, pending: seq<string>, i: nat)
    requires i < |pending| && LinksCovered(pages, processed, pending)
    ensures LinksCovered(pages, processed + [pending[i]], pending[..i] + pending[i + 1..])
    ensures forall r | r in pending :: r == pending[i] || r in pending[..i] + pending[i + 1..]
  {
    var rest := pending[..i] + pending[i + 1..];
    forall r | r in pending ensures r == pending[i] || r in rest {
      var j :| 0 <= j < |pending| && pending[j] == r;
      if j < i {
        assert rest[j] == r;
      } else if j > i {
        assert rest[j - 1] == r;
      }
    }
  }

  lemma {:induction false} OccursWhenProcessed(gate: string -> Option<string>, units: seq<string>, raw: string)
    requires raw in units && gate(raw).Some?
    ensures Occurrences(gate, units, gate(raw).value) > 0
  {
    var last := units[|units| - 1];
    if last != raw {
      assert raw in units[..|units| - 1] by {
        var j :| 0 <= j < |units| && units[j] == raw;
        assert j < |units| - 1;
        assert units[..|units| - 1][j] == raw;
      }
      OccursWhenProcessed(gate, units[..|units| - 1], raw);
    }
  }

  /** When nothing is pending, every processed unit that passes the gate has its key in the
      ledger, and so has every link of a recorded page that passes the gate: the ledger is
      closed under the in-scope links it holds. */
  lemma CrawlClosed(gate: string -> Option<string>, record: string -> PageData,
                    web: map<string, Html>, pages: map<string, PageData>,
                    origin: map<string, string>, processed: seq<string>, fetchLog: seq<Attempt>)
    requires LedgerOk(gate, record, web, pages, origin, processed, fetchLog)
    requires LinksCovered(pages, processed, [])
    ensures forall raw | raw in processed && gate(raw).Some? :: gate(raw).value in pages
    ensures forall k, l | k in pages && l in pages[k].outgoingLinks && gate(l).Some? :: gate(l).value in pages
  {
    forall raw | raw in processed && gate(raw).Some? ensures gate(raw).value in pages {
      OccursWhenProcessed(gate, processed, raw);
    }
  }

  /** `r` is an outgoing link of one of the first `n` keys created. */
  ghost predicate Linked(pages: map<string, PageData>, created: seq<string>, n: nat, r: string) {
    exists j | 0 <= j < n && j < |created| :: created[j] in pages && r in pages[created[j]].outgoingLinks
  }

  /** The `i`-th key created passed the gate through a seed or through a link of a key
      created before it. */
  ghost predicate Sourced(gate: string -> Option<string>, seeds: seq<string>,
                          pages: map<string, PageData>, created: seq<string>, i: nat)
    requires i < |created|
  {
    exists raw :: gate(raw) == Some(created[i]) && (raw in seeds || Linked(pages, created, i, raw))
  }

  /** The ledger is reachable from the seeds: `created` lists its keys in creation order, each
      reached from a seed or from an earlier key, and every unit seen (processed, in flight or
      pending) is a seed or a link of some key. */
  ghost predicate Reached(gate: string -> Option<string>, seeds: seq<string>,
                          pages: map<string, PageData>, created: seq<string>, units: seq<string>)
  {
    (forall i | 0 <= i < |created| :: created[i] in pages && Sourced(gate, seeds, pages, created, i))
    && (forall k | k in pages :: k in created)
    && (forall r | r in units :: r in seeds || Linked(pages, created, |created|, r))
  }

  /** The creation order after a unit: a first visit appends its key. */
  function NextCreated(gate: string -> Option<string>, pages: map<string, PageData>,
                       created: seq<string>, raw: string): seq<string>
  {
    if IsFirst(gate, pages, raw) then created + [gate(raw).value] else created
  }

  /** A link stays linked when the creation order grows and no existing key changes its links. */
  lemma LinkedGrows(pages: map<string, PageData>, pages': map<string, PageData>,
                    created: seq<string>, created': seq<string>, n: nat, n': nat, r: string)
    requires Linked(pages, created, n, r) && created <= created' && n <= n'
    requires forall k | k in pages :: k in pages' && pages'[k].outgoingLinks == pages[k].outgoingLinks
    ensures Linked(pages', created', n', r)
  {
    var j :| 0 <= j < n && j < |created| && created[j] in pages && r in pages[created[j]].outgoingLinks;
    assert created'[j] == created[j];
  }

  /** Every unit keeps the ledger reachable from the seeds, with the units it spawns. */
  lemma StepKeepsReached(gate: string -> Option<string>, record: string -> PageData,
                         seeds: seq<string>, pages: map<string, PageData>, created: seq<string>,
                         units: seq<string>, raw: string)
    requires Reached(gate, seeds, pages, created, units) && raw in units
    ensures Reached(gate, seeds, NextPages(gate, record, pages, raw), NextCreated(gate, pages, created, raw),
                    units + Spawned(gate, record, pages, raw))
  {
    var pages', created' := NextPages(gate, record, pages, raw), NextCreated(gate, pages, created, raw);
    var units' := units + Spawned(gate, record, pages, raw);
    assert forall k | k in pages :: k in pages' && pages'[k].outgoingLinks == pages[k].outgoingLinks;
    forall i | 0 <= i < |created'| ensures created'[i] in pages' && Sourced(gate, seeds, pages', created', i) {
      if i < |created| {
        var src :| gate(src) == Some(created[i]) && (src in seeds || Linked(pages, created, i, src));
        if src !in seeds { LinkedGrows(pages, pages', created, created', i, i, src); }
        assert gate(src) == Some(created'[i]);
      } else {
        if raw !in seeds { LinkedGrows(pages, pages', created, created', |created|, i, raw); }
        assert gate(raw) == Some(created'[i]);
      }
    }
    forall r | r in units' ensures r in seeds || Linked(pages', created', |created'|, r) {
      if r in units {
        if r !in seeds { LinkedGrows(pages, pages', created, created', |created|, |created'|, r); }
      } else {
        var k := gate(raw).value;
        assert created'[|created|] == k && pages'[k].outgoingLinks == record(raw).outgoingLinks;
      }
    }
  }

  /** Units seen in a different arrangement keep the ledger reachable. */
  lemma ReachedUnits(gate: string -> Option<string>, seeds: seq<string>, pages: map<string, PageData>,
                     created: seq<string>, units: seq<string>, units': seq<string>)
    requires Reached(gate, seeds, pages, created, units)
    requires forall r | r in units' :: r in units
    ensures Reached(gate, seeds, pages, created, units')
  {
  }

  /** The crawl session (`config`): the ledger, the units registered with the wait group but
      not yet started, the wait-group counters, and the occupied concurrency slots.
      The traversal is proved for the session's `gate` and `record` functions, which `Wired`
      ties to `Gate` and `Recorded`. */
  class Crawler {
    const baseURL: Url
    const web: map<string, Html>
    /** The key each unit gets past the gate with; `Gate(baseURL, _)`. */
    ghost const gate: string -> Option<string>
    /** What a first visit records; `Recorded(web, _)`. */
    ghost const record: string -> PageData
    var pages: map<string, PageData>
    var pending: seq<string>
    var registered: nat
    var finished: nat
    var slotsInUse: nat
    /** Every unit processed so far, in order. */
    ghost var processed: seq<string>
    /** For each key, the unit whose first visit created it. */
    ghost var origin: map<string, string>
    /** Every call of `getHTML` so far, in order, with whether it got a page. */
    ghost var fetchLog: seq<Attempt>
    /** The units registered from outside the crawl, in order. */
    ghost var seeds: seq<string>
    /** The keys of the ledger, in the order their first visits created them. */
    ghost var created: seq<string>

    /** `gate` and `record` agree with `Gate` and `Recorded` on this session's base URL and web.
        The equations are only instantiated where `Gate` or `Recorded` itself is mentioned. */
    ghost predicate Wired()
    {
      (forall raw {:trigger Gate(baseURL, raw)} :: gate(raw) == Gate(baseURL, raw))
      && (forall raw {:trigger Recorded(web, raw)} :: record(raw) == Recorded(web, raw))
      && FirstVisitRecords(record, web)
    }

    ghost predicate Valid()
      reads this`pages, this`origin, this`processed, this`fetchLog
    {
      Wired() && LedgerOk(gate, record, web, pages, origin, processed, fetchLog)
    }

    /** No link found so far is lost; `inFlight` are the units taken off the list and not
        processed yet. */
    ghost predicate Covered(inFlight: seq<string>)
      reads this`pages, this`processed, this`pending
    {
      LinksCovered(pages, processed + inFlight, pending)
    }

    /** The ledger is reachable from the seeds, and so is every unit seen; `inFlight` as
        for `Covered`. */
    ghost predicate Traced(inFlight: seq<string>)
      reads this`pages, this`processed, this`pending, this`seeds, this`created
    {
      Reached(gate, seeds, pages, created, processed + inFlight + pending)
    }

    /** The keys of the web not fetched yet. */
    ghost function Remaining(): set<string>
      reads this`pages
    {
      Unfetched(gate, web, pages)
    }

    /** A session with an empty ledger and no work (`configure`). */
    constructor(baseURL: Url, web: map<string, Html>)
      ensures Valid() && this.baseURL == baseURL && this.web == web
      ensures gate == Scope(baseURL) && record == Records(web)
      ensures pages == map[] && pending == [] && registered == 0 && finished == 0 && slotsInUse == 0
      ensures processed == [] && fetchLog == [] && seeds == [] && Traced([])
    {
      this.baseURL := baseURL;
      this.web := web;
      gate := Scope(baseURL);
      record := Records(web);
      pages := map[];
      pending := [];
      registered := 0;
      finished := 0;
      slotsInUse := 0;
      processed := [];
      origin := map[];
      fetchLog := [];
      seeds := [];
      created := [];
      new;
      RecordsFirstVisit(web);
    }

    /** `addPageVisit`, as its call site uses it: test-and-insert. A new key gets the placeholder. */
    method AddPageVisit(key: string) returns (isFirst: bool)
      modifies this`pages
      ensures isFirst <==> key !in old(pages)
      ensures pages == if isFirst then old(pages)[key := Placeholder] else old(pages)
    {
      isFirst := key !in pages;
      if isFirst {
        pages := pages[key := Placeholder];
      }
    }

    /** `setPageData`, as its call site uses it: overwrite the record of a key. */
    method SetPageData(key: string, data: PageData)
      modifies this`pages
      ensures pages == old(pages)[key := data]
    {
      pages := pages[key := data];
    }

    /** Register one unit with the wait group and queue it (`wg.Add(1)` then `go crawlPage`). */
    method Spawn(raw: string)
      modifies this`pending, this`registered
      ensures pending == old(pending) + [raw] && registered == old(registered) + 1
    {
      registered := registered + 1;
      pending := pending + [raw];
    }

    /** Parse, stay within the base host, normalise: the unit's key, or None on an early exit. */
    method Admit(raw: string) returns (key: Option<string>)
      requires Wired()
      ensures key == gate(raw)
    {
      ghost var expected := Gate(baseURL, raw);
      match Parse(raw)
      case Err(_) =>
        return None;
      case Ok(current) =>
        if Hostname(current) != Hostname(baseURL) {
          return None;
        }
        var normalized := NormalizeURL(raw);
        if normalized.Failed() {
          return None;
        }
        return Some(normalized.value);
    }

    /** `getHTML` and `extractPageData`: the record a first visit leaves, and whether the
        page was fetched at all. */
    method Fetch(raw: string) returns (data: PageData, fetched: bool)
      requires Wired()
      ensures data == record(raw) && fetched == (raw in web)
      ensures !fetched ==> data == Placeholder
    {
      ghost var expected := Recorded(web, raw);
      if raw !in web {
        return Placeholder, false;
      }
      data := ExtractPageData(web[raw], raw);
      fetched := true;
    }

    /** Store the extracted record and queue every outgoing link, in order. */
    method StoreAndSpawn(key: string, data: PageData)
      modifies this`pages, this`pending, this`registered
      ensures pages == old(pages)[key := data]
      ensures pending == old(pending) + data.outgoingLinks
      ensures registered == old(registered) + |data.outgoingLinks|
    {
      SetPageData(key, data);
      var links := data.outgoingLinks;
      var i := 0;
      while i < |links|
        invariant 0 <= i <= |links|
        invariant pending == old(pending) + links[..i]
        invariant registered == old(registered) + i
        invariant pages == old(pages)[key := data]
      {
        Spawn(links[i]);
        assert links[..i + 1] == links[..i] + [links[i]];
        i := i + 1;
      }
      assert links[..|links|] == links;
    }

    /** The first visit to `key`: fetch, extract, store, queue every outgoing link. When the
        fetch fails the placeholder stays and nothing is queued. */
    method FirstVisit(raw: string, key: string)
      requires Wired() && key in pages && pages[key] == Placeholder
      modifies this`pages, this`pending, this`registered, this`fetchLog
      ensures pages == old(pages)[key := record(raw)]
      ensures pending == old(pending) + record(raw).outgoingLinks
      ensures registered == old(registered) + |record(raw).outgoingLinks|
      ensures fetchLog == old(fetchLog) + [Attempt(key, raw in web)]
    {
      var data, fetched := Fetch(raw);
      fetchLog := fetchLog + [Attempt(key, fetched)];
      if !fetched {
        assert pages == pages[key := Placeholder];
        return;
      }
      StoreAndSpawn(key, data);
    }

    /** `addPageVisit` and the revisit count: a new key gets the placeholder, a known key one
        more visit. */
    method Enter(key: string) returns (isFirst: bool)
      modifies this`pages
      ensures isFirst <==> key !in old(pages)
      ensures pages == if isFirst then old(pages)[key := Placeholder]
                       else old(pages)[key := old(pages)[key].(visits := old(pages)[key].visits + 1)]
    {
      isFirst := AddPageVisit(key);
      if !isFirst {
        var updated := pages[key];
        updated := updated.(visits := updated.visits + 1);
        pages := pages[key := updated];
      }
    }

    /** The body of `crawlPage` between taking a slot and the deferred release. */
    method Visit(raw: string)
      requires Wired()
      modifies this`pages, this`pending, this`registered, this`processed, this`origin, this`fetchLog
      modifies this`created
      ensures pages == NextPages(gate, record, old(pages), raw)
      ensures pending == old(pending) + Spawned(gate, record, old(pages), raw)
      ensures registered == old(registered) + |Spawned(gate, record, old(pages), raw)|
      ensures processed == old(processed) + [raw]
      ensures origin == NextOrigin(gate, old(pages), old(origin), raw)
      ensures fetchLog == old(fetchLog) + Attempted(gate, web, old(pages), raw)
      ensures created == NextCreated(gate, old(pages), old(created), raw)
    {
      processed := processed + [raw];
      var admitted := Admit(raw);
      if admitted.None? {
        return;
      }
      var key := admitted.value;
      var isFirst := Enter(key);
      if isFirst {
        origin := origin[key := raw];
        created := created + [key];
        FirstVisit(raw, key);
      }
    }

    /** `crawlPage`: take a concurrency slot, visit, then release the slot and call `Done`
        on every exit path. Called for a unit already taken off the pending list. The unit
        fetches a key of the web not fetched before, or spawns nothing. */
    method CrawlPage(raw: string)
      requires Valid() && registered == finished + |pending| + 1 && Covered([raw]) && Traced([raw])
      modifies this`pages, this`pending, this`registered, this`finished, this`slotsInUse
      modifies this`processed, this`origin, this`fetchLog, this`created
      ensures Valid() && registered == finished + |pending| && Covered([]) && Traced([]) && seeds == old(seeds)
      ensures finished == old(finished) + 1 && slotsInUse == old(slotsInUse)
      ensures processed == old(processed) + [raw] && old(pending) <= pending
      ensures |Remaining()| < old(|Remaining()|) || (|Remaining()| <= old(|Remaining()|) && pending == old(pending))
    {
      slotsInUse := slotsInUse + 1;
      Step(raw);
      slotsInUse := slotsInUse - 1;
      finished := finished + 1;
    }

    /** One unit, with the ledger invariant, the link coverage and the crawl's measure. */
    method Step(raw: string)
      requires Valid() && Covered([raw]) && Traced([raw])
      modifies this`pages, this`pending, this`registered, this`processed, this`origin, this`fetchLog
      modifies this`created
      ensures Valid() && Covered([]) && Traced([])
      ensures processed == old(processed) + [raw] && old(pending) <= pending
      ensures registered - old(registered) == |pending| - old(|pending|)
      ensures |Remaining()| < old(|Remaining()|) || (|Remaining()| <= old(|Remaining()|) && pending == old(pending))
    {
      StepKeepsLedger(gate, record, web, pages, origin, processed, fetchLog, raw);
      StepProgress(gate, record, web, pages, raw);
      StepKeepsCovered(gate, record, pages, processed, pending, raw);
      ghost var units := processed + [raw] + pending;
      StepKeepsReached(gate, record, seeds, pages, created, units, raw);
      ghost var spawned := Spawned(gate, record, pages, raw);
      Visit(raw);
      ReachedUnits(gate, seeds, pages, created, units + spawned, processed + [] + pending);
    }

    /** `main`: register the seed unit before the crawl starts. */
    method Seed(raw: string)
      requires Traced([])
      modifies this`pending, this`registered, this`seeds
      ensures pending == old(pending) + [raw] && registered == old(registered) + 1
      ensures seeds == old(seeds) + [raw] && Traced([])
    {
      Spawn(raw);
      seeds := seeds + [raw];
    }

    /** Take any pending unit off the list and run it. */
    method RunOne()
      requires Valid() && registered == finished + |pending| && pending != [] && Covered([]) && Traced([])
      modifies this`pages, this`pending, this`registered, this`finished, this`slotsInUse
      modifies this`processed, this`origin, this`fetchLog, this`created
      ensures Valid() && registered == finished + |pending| && Covered([]) && Traced([]) && seeds == old(seeds)
      ensures slotsInUse == old(slotsInUse)
      ensures old(processed) <= processed
      ensures forall r | r in old(pending) :: r in processed || r in pending
      ensures |Remaining()| < old(|Remaining()|)
              || (|Remaining()| <= old(|Remaining()|) && |pending| < old(|pending|))
    {
      var i :| 0 <= i < |pending|;
      var raw := pending[i];
      TakeCovered(pages, processed, pending, i);
      ReachedUnits(gate, seeds, pages, created, processed + [] + pending,
                   processed + [raw] + (pending[..i] + pending[i + 1..]));
      pending := pending[..i] + pending[i + 1..];
      CrawlPage(raw);
    }

    /** Run units in any order until none is pending (`wg.Wait`). Terminates because each
        unit either fetches a key of the finite web not fetched before, or shortens the list. */
    method Crawl()
      requires Valid() && registered == finished + |pending| && Covered([]) && Traced([])
      modifies this`pages, this`pending, this`registered, this`finished, this`slotsInUse
      modifies this`processed, this`origin, this`fetchLog, this`created
      ensures Valid() && pending == [] && registered == finished && Covered([]) && Traced([])
      ensures seeds == old(seeds)
      ensures slotsInUse == old(slotsInUse)
      ensures old(processed) <= processed
      ensures forall r | r in old(pending) :: r in processed
    {
      while pending != []
        invariant Valid() && registered == finished + |pending| && Covered([]) && Traced([])
        invariant slotsInUse == old(slotsInUse) && seeds == old(seeds)
        invariant old(processed) <= processed
        invariant forall r | r in old(pending) :: r in processed || r in pending
        decreases |Remaining()|, |pending|
      {
        RunOne();
      }
    }
  }

  /** `order` lists the keys of `pages`, each the key `gate` gives `seed` or an outgoing link
      of a key before it: the ledger is what a traversal from the seed reaches. */
  ghost predicate ReachedFrom(gate: string -> Option<string>, seed: string, pages: map<string, PageData>,
                              order: seq<string>) {
    (forall k | k in pages :: k in order)
    && forall i | 0 <= i < |order| :: ReachedAt(gate, seed, pages, order, i)
  }

  /** The `i`-th key of `order` is in `pages` and is the key of the seed or of an outgoing
      link of a key before it. */
  ghost predicate ReachedAt(gate: string -> Option<string>, seed: string, pages: map<string, PageData>,
                            order: seq<string>, i: nat)
    requires i < |order|
  {
    order[i] in pages
    && exists raw :: gate(raw) == Some(order[i])
         && (raw == seed || exists j | 0 <= j < i :: order[j] in pages && raw in pages[order[j]].outgoingLinks)
  }

  /** `main` from the seed on: configure a session, register the seed, wait for the crawl to
      finish, and hand over the ledger. The seed's page is in it when it passes the gate, and
      so is every in-scope link of every recorded page; every entry was made by a unit that
      passed the gate with that key, and holds what its first visit recorded; and every entry
      is reached from the seed. */
  method Run(baseURL: Url, web: map<string, Html>, seed: string) returns (pages: map<string, PageData>)
    ensures Gate(baseURL, seed).Some? ==> Gate(baseURL, seed).value in pages
    ensures forall k, l | k in pages && l in pages[k].outgoingLinks && Gate(baseURL, l).Some? ::
              Gate(baseURL, l).value in pages
    ensures forall k | k in pages :: pages[k].visits >= 1
              && exists raw :: Gate(baseURL, raw) == Some(k) && pages[k].(visits := 1) == Recorded(web, raw)
    ensures exists order :: ReachedFrom(Scope(baseURL), seed, pages, order)
  {
    var c := new Crawler(baseURL, web);
    c.Seed(seed);
    c.Crawl();
    pages := c.pages;
    CrawlClosed(c.gate, c.record, web, pages, c.origin, c.processed, c.fetchLog);
    RunOutcome(baseURL, web, seed, c.gate, c.record, pages, c.origin, c.processed, c.fetchLog);
    RunReached(c.gate, seed, c.seeds, c.pages, c.created, c.processed + [] + c.pending);
    assert ReachedFrom(Scope(baseURL), seed, pages, c.created);
  }

  /** `Reached` with one seed: the creation order is a traversal order from it. */
  lemma RunReached(gate: string -> Option<string>, seed: string, seeds: seq<string>,
                   pages: map<string, PageData>, created: seq<string>, units: seq<string>)
    requires seeds == [seed] && Reached(gate, seeds, pages, created, units)
    ensures ReachedFrom(gate, seed, pages, created)
  {
    forall i | 0 <= i < |created|
      ensures ReachedAt(gate, seed, pages, created, i)
    {
      assert created[i] in pages && Sourced(gate, seeds, pages, created, i);
      var raw :| gate(raw) == Some(created[i]) && (raw in [seed] || Linked(pages, created, i, raw));
      if raw != seed {
        var j :| 0 <= j < i && j < |created| && created[j] in pages && raw in pages[created[j]].outgoingLinks;
        assert exists j | 0 <= j < i :: created[j] in pages && raw in pages[created[j]].outgoingLinks;
      }
    }
  }


  /** The facts of `CrawlClosed`, for the session's `Scope` and `Records`. */
  lemma RunOutcome(baseURL: Url, web: map<string, Html>, seed: string,
                   gate: string -> Option<string>, record: string -> PageData,
                   pages: map<string, PageData>, origin: map<string, string>,
                   processed: seq<string>, fetchLog: seq<Attempt>)
    requires gate == Scope(baseURL) && record == Records(web) && seed in processed
    requires LedgerOk(gate, record, web, pages, origin, processed, fetchLog)
    requires forall raw | raw in processed && gate(raw).Some? :: gate(raw).value in pages
    requires forall k, l | k in pages && l in pages[k].outgoingLinks && gate(l).Some? :: gate(l).value in pages
    ensures Gate(baseURL, seed).Some? ==> Gate(baseURL, seed).value in pages
    ensures forall k, l | k in pages && l in pages[k].outgoingLinks && Gate(baseURL, l).Some? ::
              Gate(baseURL, l).value in pages
    ensures forall k | k in pages :: pages[k].visits >= 1
              && exists raw :: Gate(baseURL, raw) == Some(k) && pages[k].(visits := 1) == Recorded(web, raw)
  {
    assert gate(seed) == Gate(baseURL, seed);
    forall k, l | k in pages && l in pages[k].outgoingLinks && Gate(baseURL, l).Some?
      ensures Gate(baseURL, l).value in pages
    {
      assert gate(l) == Gate(baseURL, l);
    }
    forall k | k in pages
      ensures pages[k].visits >= 1
              && exists raw :: Gate(baseURL, raw) == Some(k) && pages[k].(visits := 1) == Recorded(web, raw)
    {
      var raw := origin[k];
      assert gate(raw) == Gate(baseURL, raw) && record(raw) == Recorded(web, raw);
    }
  }
}
