/** `WebSearchService`: turns what the advanced web search tool retrieves into a context block for
    the language model, with at most three source URLs. */
module WebContext {
  import opened Wrappers
  import opened TextUtil
  import opened Links
  import opened VectorStore
  import opened WebSearching

  const NoResults := "No relevant web search results found."
  const ErrorPrefix := "Web search encountered an error: "
  const TopDocuments := 3
  const MaxContextLength := 3000
  const Ellipsis := "..."

  /** The combined content, cut to `MaxContextLength` characters plus "..." when longer. */
  function Truncate(content: string): (r: string)
    ensures |content| <= MaxContextLength ==> r == content
    ensures |content| > MaxContextLength ==> r == content[..MaxContextLength] + Ellipsis
    ensures |r| <= MaxContextLength + |Ellipsis|
  {
    if |content| > MaxContextLength then content[..MaxContextLength] + Ellipsis else content
  }

  /** The blocks of the context text around the query, the content and the sources. The header's
      first letter is a literal of its own because `ContextEnds` needs that letter. */
  const Header := "L" + "IVE WEB SEARCH RESULTS (December 2025) for: \""
  const ContentIntro := "\"\n\n                Current Information Found:\n                "
  const SourcesIntro := "\n\n                Sources: "
  const FooterText := "\n\n                This information is from live web search and should be prioritized over training data"
  const Footer := FooterText + "."
  /** What the template leaves after the footer, removed by `strip()`. */
  const Trailer := "\n            "

  function Details(content: string, sources: seq<string>): string {
    ContentIntro + content + SourcesIntro + Join(", ", sources)
  }

  function ContextText(query: string, content: string, sources: seq<string>): string {
    Header + (query + Details(content, sources)) + Footer
  }

  /** A concatenation starts with its first part's first character and ends with the full stop
      its last part ends with. */
  lemma {:induction false} Ends(first: string, middle: string, last: string)
    requires first != []
    ensures var p := first + middle + (last + ".");
      p[0] == first[0] && p[|p| - 1] == '.'
  {
  }

  /** ... and starts with its first part followed by the start of the middle part. */
  lemma {:induction false} StartsWithPair(first: string, q: string, x: string, last: string)
    ensures StartsWith(first + (q + x) + last, first + q)
  {
    assert (first + (q + x) + last)[..|first + q|] == first + q;
  }

  /** The template starts with the header's letter and ends with the footer's full stop. */
  lemma ContextEnds(query: string, content: string, sources: seq<string>)
    ensures var p := ContextText(query, content, sources);
      p != [] && p[0] == 'L' && p[|p| - 1] == '.'
  {
    assert Header[0] == 'L';
    Ends(Header, query + Details(content, sources), FooterText);
  }

  lemma TrailerBlank()
    ensures forall k :: 0 <= k < |Trailer| ==> IsSpace(Trailer[k])
  {
  }

  /** The stripped template is the text from the header to the footer: nothing at its start is
      blank, and only the trailer is removed at its end. */
  lemma ContextStripped(query: string, content: string, sources: seq<string>)
    ensures Strip(ContextText(query, content, sources) + Trailer) == ContextText(query, content, sources)
  {
    ContextEnds(query, content, sources);
    TrailerBlank();
    StripDropsTrailingSpace(ContextText(query, content, sources), Trailer);
  }

  /** The context block and the sources for the tool's reply: an error text for a failure, the
      no-results text for no documents, and otherwise the first three documents joined by blank
      lines, truncated, framed by the template, with the first three URLs. */
  function Assemble(query: string, reply: ToolReply, error: string): (r: (string, seq<string>))
    ensures !reply.Returned? ==> r == (ErrorPrefix + error, [])
    ensures reply.Returned? && reply.texts == [] ==> r == (NoResults, [])
    ensures reply.Returned? && reply.texts != [] ==>
      var content := Truncate(Join("\n\n", Take(reply.texts, TopDocuments)));
      && r.1 == Take(reply.urls, TopDocuments)
      && |r.1| <= TopDocuments
      && r.0 == ContextText(query, content, r.1)
      && StartsWith(r.0, Header + query)
  {
    if !reply.Returned? then (ErrorPrefix + error, [])
    else if reply.texts == [] then (NoResults, [])
    else
      var content := Truncate(Join("\n\n", Take(reply.texts, TopDocuments)));
      var sources := Take(reply.urls, TopDocuments);
      ContextStripped(query, content, sources);
      StartsWithPair(Header, query, Details(content, sources), Footer);
      (Strip(ContextText(query, content, sources) + Trailer), sources)
  }

  /** The combined content starts with the best document and takes no more than three. */
  lemma {:induction false} CombinedStartsWithBest(texts: seq<string>)
    requires texts != []
    ensures StartsWith(Join("\n\n", Take(texts, TopDocuments)), texts[0])
  {
    var top := Take(texts, TopDocuments);
    assert top[0] == texts[0];
    if |top| > 1 {
      var j := Join("\n\n", top);
      assert j == top[0] + ("\n\n" + Join("\n\n", top[1..]));
      assert j[..|texts[0]|] == texts[0];
    }
  }

  class WebSearchService {
    var webSearch: WebSearch

    constructor ()
      ensures webSearch.Valid() && fresh(webSearch) && fresh(webSearch.vectorDb)
      ensures webSearch.vectorDb.embeddingModelKey == "minilm"
    {
      TableKeys();
      webSearch := new WebSearch("minilm");
    }

    /** `search_and_get_context`: the advanced search tool on page 1 with the "auto" backend, then
        `Assemble` of its reply: the no-results text when the search or the crawl gives nothing,
        and otherwise the context block over `search_context(query, k=5)`'s documents of the
        re-filled store, with the first three crawled URLs as sources. */
    method SearchAndGetContext(query: string, numResults: int, engine: Engine, crawl: Crawler, ann: Ann,
                               predict: CrossEncoder) returns (context: string, sources: seq<string>)
      requires webSearch.Valid()
      modifies webSearch.vectorDb
      ensures webSearch.Valid()
      ensures var crawled := SearchAndCrawl(engine, crawl, query, numResults, 1, "", "", "auto");
        var db := webSearch.vectorDb;
        if crawled.Err? || crawled.value.results == [] then (context, sources) == (NoResults, [])
        else
          && db.index.Some?
          && (context, sources)
             == Assemble(query, Returned(ToolTexts(db.documents, db.metadata, db.enableRerank, db.index.value,
                                                   query, ann, predict), crawled.value.urls), "")
      ensures var crawled := SearchAndCrawl(engine, crawl, query, numResults, 1, "", "", "auto");
        sources == [] || (crawled.Ok? && sources == Take(crawled.value.urls, TopDocuments))
    {
      var reply := webSearch.SearchTool(query, numResults, 1, "", "", "auto", true, engine, crawl, ann, predict);
      context, sources := Assemble(query, reply, "").0, Assemble(query, reply, "").1;
    }
  }
}
