// Page-data assembly: what the crawler extracts from one fetched page.
module ExtractFromHtml {
  import opened Wrappers
  import opened Strings
  import opened NetUrl

  /** One element of a parsed document: its tag name, its attributes, and the text of the
      element together with its descendants (goquery's `Text`). */
  datatype Element = Element(tag: string, attrs: map<string, string>, text: string)

  /** What goquery makes of a page body: every element in document order, or a parse error. */
  datatype Html = Markup(elements: seq<Element>) | Unparseable(reason: string)

  /** The record kept for each canonical page. */
  datatype PageData = PageData(url: string, h1: string, firstParagraph: string,
                               outgoingLinks: seq<string>, imageUrls: seq<string>, visits: nat)

  /** The position of the first element with the given tag (`Find(tag).First()`), or -1. */
  function FirstIndex(els: seq<Element>, tag: string): (k: int)
    ensures -1 <= k < |els|
    ensures k >= 0 ==> els[k].tag == tag
    ensures forall j | 0 <= j < |els| && (k < 0 || j < k) :: els[j].tag != tag
  {
    if els == [] then -1
    else if els[0].tag == tag then 0
    else
      var k := FirstIndex(els[1..], tag);
      assert forall j | 1 <= j < |els| && (k < 0 || j < k + 1) :: els[1..][j - 1] == els[j];
      if k < 0 then -1 else k + 1
  }

  /** The text of the first element with the given tag, or "" when there is none. */
  function FirstText(els: seq<Element>, tag: string): string
  {
    var k := FirstIndex(els, tag);
    if k < 0 then [] else els[k].text
  }

  /** `getH1FromHTML`: the text of the first `h1` in document order, "" when there is none;
      "" and the parser's error when the document does not parse. */
  function GetH1FromHTML(doc: Html): (r: Outcome<string>)
    ensures doc.Unparseable? ==> r == Outcome([], Some(doc.reason))
    ensures doc.Markup? ==> r.err == None
    ensures doc.Markup? && (forall e | e in doc.elements :: e.tag != "h1") ==> r.value == []
    ensures doc.Markup? ==>
              forall i | 0 <= i < |doc.elements| && doc.elements[i].tag == "h1" ::
                (forall j | 0 <= j < i :: doc.elements[j].tag != "h1") ==> r.value == doc.elements[i].text
  {
    match doc
    case Unparseable(reason) => Outcome([], Some(reason))
    case Markup(els) => Outcome(FirstText(els, "h1"), None)
  }

  /** `getFirstParagraphFromHTML`: the same for the first `p`. */
  function GetFirstParagraphFromHTML(doc: Html): (r: Outcome<string>)
    ensures doc.Unparseable? ==> r == Outcome([], Some(doc.reason))
    ensures doc.Markup? ==> r.err == None
    ensures doc.Markup? && (forall e | e in doc.elements :: e.tag != "p") ==> r.value == []
    ensures doc.Markup? ==>
              forall i | 0 <= i < |doc.elements| && doc.elements[i].tag == "p" ::
                (forall j | 0 <= j < i :: doc.elements[j].tag != "p") ==> r.value == doc.elements[i].text
  {
    match doc
    case Unparseable(reason) => Outcome([], Some(reason))
    case Markup(els) => Outcome(FirstText(els, "p"), None)
  }

  // The two URL getters share one rule: select `tag[attr]`, optionally skip a blank value,
  // skip a value that does not parse, resolve the rest against the page URL.

  /** The harvesting rule of one getter. */
  datatype Rule = Rule(tag: string, attr: string, skipBlank: bool)

  const LinkRule := Rule("a", "href", false)
  const ImageRule := Rule("img", "src", true)

  /** `url.Parse` of an attribute value, then `ResolveReference` against the page URL and
      `String`; None when the value does not parse. */
  function ResolveAgainst(base: Url, v: string): (r: Option<string>)
    ensures r.Some? <==> Parse(v).Ok?
  {
    match Parse(v)
    case Err(_) => None
    case Ok(u) => Some(ToString(ResolveReference(base, u)))
  }

  function Resolver(base: Url): string -> Option<string> { v => ResolveAgainst(base, v) }

  /** The element matches the selector `tag[attr]`. */
  predicate Selected(e: Element, rule: Rule) { e.tag == rule.tag && rule.attr in e.attrs }

  /** The element contributes a URL: selected, not blank when blanks are skipped, and resolvable. */
  predicate Kept(e: Element, rule: Rule, resolve: string -> Option<string>) {
    Selected(e, rule)
    && !(rule.skipBlank && TrimSpace(e.attrs[rule.attr]) == [])
    && resolve(e.attrs[rule.attr]).Some?
  }

  /** The absolute URL a kept element contributes. */
  function Resolved(e: Element, rule: Rule, resolve: string -> Option<string>): string
    requires Kept(e, rule, resolve)
  {
    resolve(e.attrs[rule.attr]).value
  }

  /** What one element adds to the result. */
  function Take(e: Element, rule: Rule, resolve: string -> Option<string>): (r: seq<string>)
    ensures Kept(e, rule, resolve) <==> |r| == 1
    ensures r == [] || (Kept(e, rule, resolve) && r == [Resolved(e, rule, resolve)])
  {
    if Kept(e, rule, resolve) then [Resolved(e, rule, resolve)] else []
  }

  /** The URLs a getter yields for a sequence of elements, in document order. */
  function Harvest(els: seq<Element>, rule: Rule, resolve: string -> Option<string>): seq<string>
  {
    if els == [] then [] else Take(els[0], rule, resolve) + Harvest(els[1..], rule, resolve)
  }

  function LinksOf(els: seq<Element>, base: Url): seq<string> { Harvest(els, LinkRule, Resolver(base)) }
  function ImagesOf(els: seq<Element>, base: Url): seq<string> { Harvest(els, ImageRule, Resolver(base)) }

  /** The number of elements that match the selector. */
  function CountSelected(els: seq<Element>, rule: Rule): nat
  {
    if els == [] then 0 else (if Selected(els[0], rule) then 1 else 0) + CountSelected(els[1..], rule)
  }

  /** The number of elements that contribute a URL. */
  function CountKept(els: seq<Element>, rule: Rule, resolve: string -> Option<string>): nat
  {
    if els == [] then 0 else (if Kept(els[0], rule, resolve) then 1 else 0) + CountKept(els[1..], rule, resolve)
  }

  /** Harvesting a concatenation is harvesting each part: the result keeps document order. */
  lemma {:induction false} HarvestAppend(a: seq<Element>, b: seq<Element>, rule: Rule, resolve: string -> Option<string>)
    ensures Harvest(a + b, rule, resolve) == Harvest(a, rule, resolve) + Harvest(b, rule, resolve)
  {
    if a == [] {
      assert a + b == b;
    } else {
      assert (a + b)[0] == a[0] && (a + b)[1..] == a[1..] + b;
      HarvestAppend(a[1..], b, rule, resolve);
    }
  }

  /** One URL per kept element, and never more than there are selected elements. */
  lemma {:induction false} HarvestCount(els: seq<Element>, rule: Rule, resolve: string -> Option<string>)
    ensures |Harvest(els, rule, resolve)| == CountKept(els, rule, resolve) <= CountSelected(els, rule)
  {
    if els != [] {
      HarvestCount(els[1..], rule, resolve);
    }
  }

  /** Element `i` contributes its URL exactly at the position given by the elements before it. */
  lemma HarvestAt(els: seq<Element>, i: nat, rule: Rule, resolve: string -> Option<string>)
    requires i < |els|
    ensures Harvest(els, rule, resolve)
         == Harvest(els[..i], rule, resolve) + Take(els[i], rule, resolve) + Harvest(els[i + 1..], rule, resolve)
  {
    assert els == els[..i] + [els[i]] + els[i + 1..];
    HarvestAppend(els[..i] + [els[i]], els[i + 1..], rule, resolve);
    HarvestAppend(els[..i], [els[i]], rule, resolve);
    assert Harvest([els[i]], rule, resolve) == Take(els[i], rule, resolve) + Harvest([], rule, resolve);
  }

  /** Every URL in the result comes from a kept element, and every kept element contributes one. */
  lemma {:induction false} HarvestMembers(els: seq<Element>, rule: Rule, resolve: string -> Option<string>)
    ensures forall s | s in Harvest(els, rule, resolve) ::
              exists i | 0 <= i < |els| :: Kept(els[i], rule, resolve) && s == Resolved(els[i], rule, resolve)
    ensures forall i | 0 <= i < |els| && Kept(els[i], rule, resolve) ::
              Resolved(els[i], rule, resolve) in Harvest(els, rule, resolve)
  {
    if els != [] {
      HarvestMembers(els[1..], rule, resolve);
      var rest := Harvest(els[1..], rule, resolve);
      forall s | s in Harvest(els, rule, resolve)
        ensures exists i | 0 <= i < |els| :: Kept(els[i], rule, resolve) && s == Resolved(els[i], rule, resolve)
      {
        if s in rest {
          var i :| 0 <= i < |els[1..]| && Kept(els[1..][i], rule, resolve) && s == Resolved(els[1..][i], rule, resolve);
          assert els[1..][i] == els[i + 1];
        }
      }
      forall i | 0 <= i < |els| && Kept(els[i], rule, resolve)
        ensures Resolved(els[i], rule, resolve) in Harvest(els, rule, resolve)
      {
        if i > 0 {
          assert els[1..][i - 1] == els[i];
        }
      }
    }
  }

  /** An image whose `src` is blank contributes nothing, even when it would parse. */
  lemma BlankImageSkipped(e: Element, base: Url)
    requires e.tag == "img" && "src" in e.attrs && TrimSpace(e.attrs["src"]) == []
    ensures ImagesOf([e], base) == []
  {
    assert !Kept(e, ImageRule, Resolver(base));
    assert Harvest([e], ImageRule, Resolver(base)) == Take(e, ImageRule, Resolver(base)) + Harvest([], ImageRule, Resolver(base));
  }

  /** The element loop of both getters: append each contributed URL in turn. */
  method HarvestLoop(els: seq<Element>, rule: Rule, resolve: string -> Option<string>) returns (result: seq<string>)
    ensures result == Harvest(els, rule, resolve)
  {
    result := [];
    var i := 0;
    while i < |els|
      invariant 0 <= i <= |els|
      invariant result == Harvest(els[..i], rule, resolve)
    {
      var e := els[i];
      if e.tag == rule.tag && rule.attr in e.attrs {
        var value := e.attrs[rule.attr];
        if !(rule.skipBlank && TrimSpace(value) == []) {
          match resolve(value)
          case Some(absolute) =>
            result := result + [absolute];
          case None =>
        }
      }
      assert els[..i + 1] == els[..i] + [e];
      HarvestAppend(els[..i], [e], rule, resolve);
      assert Harvest([e], rule, resolve) == Take(e, rule, resolve) + Harvest([], rule, resolve);
      i := i + 1;
    }
    assert els[..|els|] == els;
  }

  /** `getURLsFromHTML`: one resolved URL per `a[href]` whose value parses, in document order;
      an empty list and the parser's error when the document does not parse. */
  method GetURLsFromHTML(doc: Html, base: Url) returns (r: Outcome<seq<string>>)
    ensures doc.Unparseable? ==> r == Outcome([], Some(doc.reason))
    ensures doc.Markup? ==> r == Outcome(LinksOf(doc.elements, base), None)
  {
    if doc.Unparseable? {
      return Outcome([], Some(doc.reason));
    }
    var links := HarvestLoop(doc.elements, LinkRule, Resolver(base));
    return Outcome(links, None);
  }

  /** `getImagesFromHTML`: the same for `img[src]`, skipping a blank `src` as well. */
  method GetImagesFromHTML(doc: Html, base: Url) returns (r: Outcome<seq<string>>)
    ensures doc.Unparseable? ==> r == Outcome([], Some(doc.reason))
    ensures doc.Markup? ==> r == Outcome(ImagesOf(doc.elements, base), None)
  {
    if doc.Unparseable? {
      return Outcome([], Some(doc.reason));
    }
    var images := HarvestLoop(doc.elements, ImageRule, Resolver(base));
    return Outcome(images, None);
  }

  /** The URLs a getter yields for a document: none when it does not parse. */
  function UrlsOf(doc: Html, rule: Rule, base: Url): seq<string>
  {
    if doc.Unparseable? then [] else Harvest(doc.elements, rule, Resolver(base))
  }

  /** The record `extractPageData` builds: the page URL as given, one visit, the first `h1` and
      `p`, and no links or images when the page URL itself does not parse. */
  function PageDataOf(doc: Html, pageURL: string): (r: PageData)
    ensures r.url == pageURL && r.visits == 1
    ensures r.h1 == FirstText(if doc.Markup? then doc.elements else [], "h1")
    ensures r.firstParagraph == FirstText(if doc.Markup? then doc.elements else [], "p")
    ensures Parse(pageURL).Err? || doc.Unparseable? ==> r.outgoingLinks == [] && r.imageUrls == []
  {
    var h1 := GetH1FromHTML(doc).value;
    var p1 := GetFirstParagraphFromHTML(doc).value;
    match Parse(pageURL)
    case Err(_) => PageData(pageURL, h1, p1, [], [], 1)
    case Ok(base) => PageData(pageURL, h1, p1, UrlsOf(doc, LinkRule, base), UrlsOf(doc, ImageRule, base), 1)
  }

  /** `extractPageData`: the getters' errors are only logged, so a record is always built. */
  method ExtractPageData(doc: Html, pageURL: string) returns (r: PageData)
    ensures r == PageDataOf(doc, pageURL)
  {
    var h1 := GetH1FromHTML(doc);
    var p1 := GetFirstParagraphFromHTML(doc);
    match Parse(pageURL)
    case Err(_) =>
      return PageData(pageURL, h1.value, p1.value, [], [], 1);
    case Ok(base) =>
      var links := GetURLsFromHTML(doc, base);
      var images := GetImagesFromHTML(doc, base);
      return PageData(pageURL, h1.value, p1.value, links.value, images.value, 1);
  }

  /** The outgoing links of a parsed page: one per `a[href]` whose value parses, in order. */
  lemma PageLinks(els: seq<Element>, pageURL: string)
    requires Parse(pageURL).Ok?
    ensures var r := PageDataOf(Markup(els), pageURL);
            r.outgoingLinks == LinksOf(els, Parse(pageURL).value)
            && |r.outgoingLinks| == CountKept(els, LinkRule, Resolver(Parse(pageURL).value)) <= CountSelected(els, LinkRule)
            && r.imageUrls == ImagesOf(els, Parse(pageURL).value)
            && |r.imageUrls| == CountKept(els, ImageRule, Resolver(Parse(pageURL).value)) <= CountSelected(els, ImageRule)
  {
    HarvestCount(els, LinkRule, Resolver(Parse(pageURL).value));
    HarvestCount(els, ImageRule, Resolver(Parse(pageURL).value));
  }

  // The repository's table tests for the two text getters, on the element sequences goquery
  // yields for their documents (the implied `head` and `body` elements are left out).

  lemma SingleH1(doc: Html)
    requires doc == Markup([Element("html", map[], "Header One"), Element("h1", map[], "Header One")])
    ensures GetH1FromHTML(doc) == Outcome("Header One", None)
  {
    assert doc.elements[0].tag != "h1";
  }

  lemma MultipleHeaders(doc: Html)
    requires doc == Markup([Element("html", map[], "First HeaderSecond Header"),
                            Element("h1", map[], "First Header"), Element("h2", map[], "Second Header")])
    ensures GetH1FromHTML(doc) == Outcome("First Header", None)
  {
    assert doc.elements[0].tag != "h1";
  }

  lemma NoH1Present(doc: Html)
    requires doc == Markup([Element("html", map[], "Some textOther Header"),
                            Element("p", map[], "Some text"), Element("h2", map[], "Other Header")])
    ensures GetH1FromHTML(doc) == Outcome("", None)
  {
    assert forall e | e in doc.elements :: e.tag != "h1";
  }

  lemma EmptyDocument(doc: Html)
    requires doc == Markup([])
    ensures GetH1FromHTML(doc) == Outcome("", None)
    ensures GetFirstParagraphFromHTML(doc) == Outcome("", None)
  {
  }

  lemma H1WithAttributes(doc: Html)
    requires doc == Markup([Element("html", map[], "Main Header"),
                            Element("h1", map["class" := "title", "id" := "main"], "Main Header")])
    ensures GetH1FromHTML(doc) == Outcome("Main Header", None)
  {
    assert doc.elements[0].tag != "h1";
  }

  lemma OneParagraph(doc: Html)
    requires doc == Markup([Element("html", map[], "paragraph one"), Element("p", map[], "paragraph one")])
    ensures GetFirstParagraphFromHTML(doc) == Outcome("paragraph one", None)
  {
    assert doc.elements[0].tag != "p";
  }

  lemma MultipleParagraphs(doc: Html)
    requires doc == Markup([Element("html", map[], "First paragraphSecond paragraph"),
                            Element("p", map[], "First paragraph"), Element("p", map[], "Second paragraph")])
    ensures GetFirstParagraphFromHTML(doc) == Outcome("First paragraph", None)
  {
    assert doc.elements[0].tag != "p";
  }

  lemma NoParagraphPresent(doc: Html)
    requires doc == Markup([Element("html", map[], "HeaderSome text"),
                            Element("h1", map[], "Header"), Element("div", map[], "Some text")])
    ensures GetFirstParagraphFromHTML(doc) == Outcome("", None)
  {
    assert forall e | e in doc.elements :: e.tag != "p";
  }

  lemma ParagraphWithAttributes(doc: Html)
    requires doc == Markup([Element("html", map[], "Intro paragraph"),
                            Element("p", map["class" := "intro", "id" := "p1"], "Intro paragraph")])
    ensures GetFirstParagraphFromHTML(doc) == Outcome("Intro paragraph", None)
  {
    assert doc.elements[0].tag != "p";
  }
}
