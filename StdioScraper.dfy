/**
 * The stdio documentation server's own `extractContentFromUrl`
 * (mcp-server.ts): the h1/h2 texts, untrimmed, joined by line feeds, then a
 * line feed, then the text of the whole document. Its `getAllDocUrls` is the
 * same code as the one in src/mcp_server/utils.ts and is modelled by
 * `DocScraper.GetAllDocUrls`.
 */
module StdioScraper {
  import opened Wrappers
  import opened JsText
  import opened DocScraper

  /** The `{ url, content }` record. */
  datatype PageContent = PageContent(url: string, content: string)

  /**
   * `extractContentFromUrl(url)`: null when the fetch failed or gave an empty
   * page; otherwise the url itself and a content made of the headings
   * joined by line feeds, a line feed, and the whole page text.
   */
  function ExtractContentFromUrl(url: string, page: Option<Page>): (r: Option<PageContent>)
    ensures r.None? <==> !Fetched(page)
    ensures r.Some? ==> var text := page.value.text;
      && r.value.url == url
      && |text| < |r.value.content|
      && r.value.content[..|r.value.content| - |text| - 1] == JoinLines(page.value.headings)
      && r.value.content[|r.value.content| - |text| - 1..] == "\n" + text
  {
    if !Fetched(page) then None
    else Some(PageContent(url, JoinLines(page.value.headings) + "\n" + page.value.text))
  }

  /**
   * The lines of the content are the headings (one empty line when there are
   * none), then the lines of the page text: when no heading holds a line
   * feed, the headings can be read back from the content.
   */
  lemma ContentLines(url: string, page: Option<Page>)
    requires Fetched(page) && NoLineFeeds(page.value.headings)
    ensures var hs := page.value.headings;
      SplitLines(ExtractContentFromUrl(url, page).value.content)
        == (if hs == [] then [""] else hs) + SplitLines(page.value.text)
  {
    var hs, text := page.value.headings, page.value.text;
    var lead := if hs == [] then [""] else hs;
    var lines := SplitLines(text);
    JoinAppend(lead, lines);
    JoinSplit(text);
    assert JoinLines(lead + lines) == JoinLines(hs) + "\n" + text;
    SplitJoin(lead + lines);
  }
}
