/**
 * The documentation scraping helpers of src/mcp_server/utils.ts:
 * `getAllDocUrls`, which collects the same-site documentation links of a
 * page, and `extractContentFromUrl`, which returns a page's headings and
 * cleaned body text. mcp-server.ts holds a line-for-line copy of
 * `getAllDocUrls`; `GetAllDocUrls` below models both.
 *
 * Fetching (`fetchPage`), HTML parsing (cheerio) and URL resolution (the
 * WHATWG URL constructor) are not modelled: what they produce comes in as
 * pre-parsed records.
 */
module DocScraper {
  import opened Wrappers
  import opened JsText

  /** The parts of a parsed WHATWG URL the filter reads; `href` is its `toString()`. */
  datatype Url = Url(href: string, hostname: string, search: string, hash: string, pathname: string)

  /** One `a[href]` element: its href attribute, and `new URL(href, baseUrl)` (None when that constructor throws). */
  datatype Anchor = Anchor(href: string, resolved: Option<Url>)

  /**
   * A fetched page: the response text, and what cheerio finds in it: the
   * `a[href]` elements and the `h1, h2` texts in document order, the text
   * of the whole document, and the text of the body once scripts, styles,
   * `noscript`, `template`, `svg`, stylesheet links, `head` and `meta` are removed.
   */
  datatype Page = Page(html: string, anchors: seq<Anchor>, headings: seq<string>, text: string, bodyText: string)

  /** `fetchPage` gave something truthy: the fetch succeeded and the text is not empty. */
  predicate Fetched(page: Option<Page>) {
    page.Some? && page.value.html != ""
  }

  // ---------------------------------------------------------------------
  // The link filter

  const AssetExtensions: seq<string> := ["png", "jpg", "jpeg", "svg", "webp", "pdf", "zip", "js", "css"]

  /** `/\.(png|jpg|jpeg|svg|webp|pdf|zip|js|css)$/i.test(pathname)`. */
  predicate HasAssetExtension(pathname: string) {
    exists k :: 0 <= k < |AssetExtensions| && EndsWith(LowerAscii(pathname), "." + AssetExtensions[k])
  }

  /** The extension test ignores case. */
  lemma AssetTestIgnoresCase(pathname: string)
    ensures HasAssetExtension(pathname) <==> HasAssetExtension(LowerAscii(pathname))
  {
    assert LowerAscii(LowerAscii(pathname)) == LowerAscii(pathname);
  }

  /** The four tests a resolved link must pass: same host, empty `search`, empty `hash`, no asset extension. */
  predicate Keep(domain: string, u: Url) {
    && u.hostname == domain
    && u.search == ""
    && u.hash == ""
    && !HasAssetExtension(u.pathname)
  }

  /** An anchor whose non-empty href the URL constructor rejects: it makes the whole call throw. */
  predicate Unresolvable(a: Anchor) {
    a.href != "" && a.resolved.None?
  }

  /** An anchor that contributes `full` to the set. */
  predicate Contributes(domain: string, a: Anchor) {
    a.href != "" && a.resolved.Some? && Keep(domain, a.resolved.value)
  }

  /** `x` is the URL of some anchor that passes the filter. */
  ghost predicate IsDocLink(domain: string, anchors: seq<Anchor>, x: string) {
    exists k :: 0 <= k < |anchors| && Contributes(domain, anchors[k]) && anchors[k].resolved.value.href == x
  }

  /** The URLs of the anchors that pass the filter, in document order, repeats included. */
  function KeptHrefs(domain: string, anchors: seq<Anchor>): seq<string> {
    if anchors == [] then []
    else
      var a := anchors[|anchors| - 1];
      var kept := KeptHrefs(domain, anchors[..|anchors| - 1]);
      if Contributes(domain, a) then kept + [a.resolved.value.href] else kept
  }

  /** A URL is kept exactly when some anchor passing the filter resolves to it. */
  lemma {:induction false} KeptHrefsMembership(domain: string, anchors: seq<Anchor>)
    ensures forall x :: x in KeptHrefs(domain, anchors) <==> IsDocLink(domain, anchors, x)
  {
    if anchors != [] {
      var init := anchors[..|anchors| - 1];
      KeptHrefsMembership(domain, init);
      forall x
        ensures x in KeptHrefs(domain, anchors) <==> IsDocLink(domain, anchors, x)
      {
        if IsDocLink(domain, init, x) {
          var k :| 0 <= k < |init| && Contributes(domain, init[k]) && init[k].resolved.value.href == x;
          assert anchors[k] == init[k];
        }
        if IsDocLink(domain, anchors, x) {
          var k :| 0 <= k < |anchors| && Contributes(domain, anchors[k]) && anchors[k].resolved.value.href == x;
          if k < |init| {
            assert init[k] == anchors[k];
          }
        }
      }
    }
  }

  // ---------------------------------------------------------------------
  // The insertion-ordered `Set`

  /** `[...set]` after adding the elements of `s` in order to an empty `Set`. */
  function Distinct(s: seq<string>): seq<string> {
    if s == [] then []
    else
      var d := Distinct(s[..|s| - 1]);
      if s[|s| - 1] in d then d else d + [s[|s| - 1]]
  }

  predicate NoDuplicates(s: seq<string>) {
    forall i, j :: 0 <= i < j < |s| ==> s[i] != s[j]
  }

  /** The position of the first occurrence of `x` in `s`. */
  function IndexOf(s: seq<string>, x: string): (k: nat)
    requires x in s
    ensures k < |s| && s[k] == x && x !in s[..k]
  {
    if s[0] == x then 0
    else
      var k := 1 + IndexOf(s[1..], x);
      assert s[..k] == [s[0]] + s[1..][..k - 1];
      k
  }

  /** `d` lists its elements in the order in which they first occur in `s`. */
  ghost predicate FirstOccurrenceOrder(d: seq<string>, s: seq<string>) {
    forall i, j :: 0 <= i < j < |d| ==> d[i] in s && d[j] in s && IndexOf(s, d[i]) < IndexOf(s, d[j])
  }

  /** Adding to a Set keeps exactly the elements added. */
  lemma {:induction false} DistinctElements(s: seq<string>)
    ensures forall x :: x in Distinct(s) <==> x in s
  {
    if s != [] {
      DistinctElements(s[..|s| - 1]);
      assert s == s[..|s| - 1] + [s[|s| - 1]];
    }
  }

  /** A Set holds no element twice. */
  lemma {:induction false} DistinctNoDuplicates(s: seq<string>)
    ensures NoDuplicates(Distinct(s))
  {
    if s != [] {
      DistinctNoDuplicates(s[..|s| - 1]);
    }
  }

  /** Appending leaves the first occurrence of an element already present where it was. */
  lemma IndexOfExtend(p: seq<string>, y: string, x: string)
    requires x in p
    ensures IndexOf(p + [y], x) == IndexOf(p, x)
  {
    var s := p + [y];
    var k1, k2 := IndexOf(p, x), IndexOf(s, x);
    assert s[k1] == x;
    assert k2 < |p| ==> p[k2] == x;
  }

  /** A Set iterates in order of first insertion. */
  lemma {:induction false} DistinctFirstOccurrenceOrder(s: seq<string>)
    ensures FirstOccurrenceOrder(Distinct(s), s)
  {
    if s != [] {
      var p, y := s[..|s| - 1], s[|s| - 1];
      assert s == p + [y];
      var d := Distinct(p);
      DistinctFirstOccurrenceOrder(p);
      DistinctElements(p);
      forall x | x in p
        ensures IndexOf(s, x) == IndexOf(p, x)
      {
        IndexOfExtend(p, y, x);
      }
      if y !in d {
        assert y !in p;
        assert IndexOf(s, y) == |p|;
      }
    }
  }

  // ---------------------------------------------------------------------
  // getAllDocUrls

  /** How `getAllDocUrls` ends: it resolves to the URL list, or rejects on an href the URL constructor refuses. */
  datatype Crawl = Found(urls: seq<string>) | InvalidHref(href: string)

  /**
   * `getAllDocUrls(baseUrl)`, where `domain` is the base URL's hostname and
   * `page` what `fetchPage(baseUrl)` returned. No page, or an empty one,
   * gives []. Otherwise the `.each` loop goes over the anchors in document
   * order: an empty href is skipped; an href the URL constructor refuses
   * makes the call reject; a URL passing the filter is added to the set.
   * The result lists exactly the URLs of the anchors passing the filter,
   * each once, in order of first occurrence.
   */
  method GetAllDocUrls(domain: string, page: Option<Page>) returns (r: Crawl)
    ensures !Fetched(page) ==> r == Found([])
    ensures Fetched(page) ==> var anchors := page.value.anchors;
      && (r.InvalidHref? <==> exists k :: 0 <= k < |anchors| && Unresolvable(anchors[k]))
      && (r.InvalidHref? ==> exists k :: 0 <= k < |anchors| && Unresolvable(anchors[k]) && r.href == anchors[k].href
                                         && forall j :: 0 <= j < k ==> !Unresolvable(anchors[j]))
      && (r.Found? ==>
            && r.urls == Distinct(KeptHrefs(domain, anchors))
            && (forall x :: x in r.urls <==> IsDocLink(domain, anchors, x))
            && NoDuplicates(r.urls)
            && FirstOccurrenceOrder(r.urls, KeptHrefs(domain, anchors)))
  {
    if page.None? || page.value.html == "" {
      return Found([]);
    }
    var anchors := page.value.anchors;
    var urls: seq<string> := [];
    var i := 0;
    while i < |anchors|
      invariant 0 <= i <= |anchors|
      invariant forall j :: 0 <= j < i ==> !Unresolvable(anchors[j])
      invariant urls == Distinct(KeptHrefs(domain, anchors[..i]))
    {
      var a := anchors[i];
      assert anchors[..i + 1][..i] == anchors[..i];
      if a.href != "" {
        if a.resolved.None? {
          return InvalidHref(a.href);
        }
        var full := a.resolved.value;
        if Keep(domain, full) && full.href !in urls {
          urls := urls + [full.href];
        }
      }
      i := i + 1;
    }
    assert anchors[..i] == anchors;
    KeptHrefsMembership(domain, anchors);
    DistinctElements(KeptHrefs(domain, anchors));
    DistinctNoDuplicates(KeptHrefs(domain, anchors));
    DistinctFirstOccurrenceOrder(KeptHrefs(domain, anchors));
    r := Found(urls);
  }

  // ---------------------------------------------------------------------
  // extractContentFromUrl

  /** The `{ metadata: { source, headers }, pageContent }` record. */
  datatype Document = Document(source: string, headers: seq<string>, pageContent: string)

  /**
   * `extractContentFromUrl(url)`: null when the fetch failed or gave an empty
   * page; otherwise the url as source, every h1/h2 text trimmed, in document
   * order, and the cleaned body text.
   */
  function ExtractContentFromUrl(url: string, page: Option<Page>): (r: Option<Document>)
    ensures r.None? <==> !Fetched(page)
    ensures r.Some? ==>
      && r.value.source == url
      && r.value.pageContent == page.value.bodyText
      && |r.value.headers| == |page.value.headings|
      && forall k :: 0 <= k < |r.value.headers| ==>
           r.value.headers[k] == Trim(page.value.headings[k]) && Trimmed(r.value.headers[k])
  {
    if !Fetched(page) then None
    else
      var hs := page.value.headings;
      Some(Document(url, seq(|hs|, k requires 0 <= k < |hs| => Trim(hs[k])), page.value.bodyText))
  }
}
