/** `WebSearch`: search, crawl, store in the vector database, then retrieve context from it.

    The search engine is the `Links.Engine` oracle, the crawler a function from the URL list and
    the query to the crawled pages (None when crawling raises), and the index search and the
    cross-encoder are the vector store's oracles. Awaited calls are sequential calls. */
module WebSearching {
  import opened Wrappers
  import opened TextUtil
  import opened Documents
  import opened Chunking
  import opened Links
  import opened VectorStore

  /** One page the crawler fetched: `markdown` and `fit_markdown` are "" when missing, and the
      `title`/`timestamp` attributes are None when the result has none. */
  datatype CrawlResult = CrawlResult(url: string, markdown: string, fitMarkdown: string,
                                     title: Option<MetaValue>, timestamp: Option<MetaValue>)

  type Crawler = (seq<string>, string) -> Option<seq<CrawlResult>>

  /** What `search_context` asks of the vector database. */
  const ContextMultiplier := 3
  const ContextThreshold: real := 0.3
  /** The `k` the advanced search tool retrieves with. */
  const ToolContextK := 5

  // ---------------------------------------------------------------- search and crawl

  /** Why `search_and_crawl` raised: a search result without "href", or the crawler failing. */
  datatype Failure = KeyError | CrawlFailed

  datatype Crawled = Crawled(results: seq<CrawlResult>, urls: seq<string>)

  /** `search_and_crawl`: the search results' URLs, in result order, and what the crawler made of
      them. No URLs gives nothing to crawl and nothing to report; a crawl with no pages reports
      the URLs alone. */
  function SearchAndCrawl(engine: Engine, crawl: Crawler, query: string, numResults: int, page: int,
                          before: string, after: string, backend: string): (r: Result<Crawled, Failure>)
    ensures var found := Search(engine, query, numResults, page, before, after, backend);
      && (found == [] ==> r == Ok(Crawled([], [])))
      && (r.Err? ==> found != [] && (r.error == KeyError <==> Hrefs(found).None?))
      && (r.Ok? && found != [] ==>
            Hrefs(found).Some? && r.value.urls == Hrefs(found).value
            && crawl(r.value.urls, query) == Some(r.value.results))
      && (r.Ok? && r.value.urls == [] ==> r.value.results == [])
  {
    var found := Search(engine, query, numResults, page, before, after, backend);
    var urls := if found != [] then Hrefs(found) else Some([]);
    if urls.None? then Err(KeyError)
    else if urls.value == [] then Ok(Crawled([], []))
    else
      var results := crawl(urls.value, query);
      if results.None? then Err(CrawlFailed)
      else if results.value == [] then Ok(Crawled([], urls.value))
      else Ok(Crawled(results.value, urls.value))
  }

  // ---------------------------------------------------------------- process and store

  /** The content kept of a page: its markdown, stripped. */
  function Content(result: CrawlResult): string {
    Strip(result.markdown)
  }

  /** A page is kept when it has markdown and fit markdown and more than 100 characters of content. */
  predicate Keeps(result: CrawlResult) {
    result.markdown != "" && result.fitMarkdown != "" && |Content(result)| > 100
  }

  /** The metadata stored with a kept page. */
  function PageMeta(result: CrawlResult): (m: Metadata)
    ensures m.Keys == {"source", "title", "content_length", "timestamp"}
    ensures m["source"] == Str(result.url)
    ensures m["content_length"] == Int(|Content(result)|)
    ensures m["title"] == if result.title.Some? then result.title.value else Str("Unknown")
    ensures m["timestamp"] == if result.timestamp.Some? then result.timestamp.value else Null
  {
    map["source" := Str(result.url),
        "title" := (if result.title.Some? then result.title.value else Str("Unknown")),
        "content_length" := Int(|Content(result)|),
        "timestamp" := (if result.timestamp.Some? then result.timestamp.value else Null)]
  }

  /** The contents of the kept pages, in crawl order. */
  function KeptDocuments(results: seq<CrawlResult>): seq<string> {
    if results == [] then []
    else
      var last := results[|results| - 1];
      KeptDocuments(results[..|results| - 1]) + (if Keeps(last) then [Content(last)] else [])
  }

  /** The metadata of the kept pages, in crawl order. */
  function KeptMetadata(results: seq<CrawlResult>): seq<Metadata> {
    if results == [] then []
    else
      var last := results[|results| - 1];
      KeptMetadata(results[..|results| - 1]) + (if Keeps(last) then [PageMeta(last)] else [])
  }

  /** The kept lists are aligned, at most as long as the crawl, and every kept document is a long
      enough content whose metadata records its length. */
  lemma {:induction false} KeptSpec(results: seq<CrawlResult>)
    ensures |KeptDocuments(results)| == |KeptMetadata(results)| <= |results|
    ensures forall i :: 0 <= i < |KeptDocuments(results)| ==>
      && |KeptDocuments(results)[i]| > 100
      && "content_length" in KeptMetadata(results)[i]
      && KeptMetadata(results)[i]["content_length"] == Int(|KeptDocuments(results)[i]|)
  {
    if results != [] {
      var init := results[..|results| - 1];
      KeptSpec(init);
      var docs, metas := KeptDocuments(results), KeptMetadata(results);
      forall i | 0 <= i < |docs|
        ensures |docs[i]| > 100 && "content_length" in metas[i] && metas[i]["content_length"] == Int(|docs[i]|)
      {
        if i < |KeptDocuments(init)| {
          assert docs[i] == KeptDocuments(init)[i] && metas[i] == KeptMetadata(init)[i];
        }
      }
    }
  }

  /** Keeping pages works page by page: the kept pages of a concatenation are those of each part. */
  lemma {:induction false} KeptAppend(a: seq<CrawlResult>, b: seq<CrawlResult>)
    ensures KeptDocuments(a + b) == KeptDocuments(a) + KeptDocuments(b)
    ensures KeptMetadata(a + b) == KeptMetadata(a) + KeptMetadata(b)
  {
    if b != [] {
      var b' := b[..|b| - 1];
      assert (a + b)[..|a + b| - 1] == a + b';
      assert (a + b)[|a + b| - 1] == b[|b| - 1];
      KeptAppend(a, b');
    } else {
      assert a + b == a;
    }
  }

  /** A single page is kept exactly when `Keeps` says so, as its content and its metadata. */
  lemma KeptSingle(result: CrawlResult)
    ensures KeptDocuments([result]) == if Keeps(result) then [Content(result)] else []
    ensures KeptMetadata([result]) == if Keeps(result) then [PageMeta(result)] else []
  {
    assert [result][..0] == [];
  }

  /** The loop of `process_and_store`: collect the content and metadata of the kept pages. */
  method GatherPages(crawlResults: seq<CrawlResult>) returns (allDocuments: seq<string>, allMetadata: seq<Metadata>)
    ensures allDocuments == KeptDocuments(crawlResults)
    ensures allMetadata == KeptMetadata(crawlResults)
  {
    allDocuments := [];
    allMetadata := [];
    for i := 0 to |crawlResults|
      invariant allDocuments == KeptDocuments(crawlResults[..i])
      invariant allMetadata == KeptMetadata(crawlResults[..i])
    {
      var result := crawlResults[i];
      assert crawlResults[..i + 1][..i] == crawlResults[..i];
      if result.markdown == "" || result.fitMarkdown == "" {
        continue;
      }
      var content := Strip(result.markdown);
      if |content| > 100 {
        allDocuments := allDocuments + [content];
        allMetadata := allMetadata + [PageMeta(result)];
      }
    }
    assert crawlResults[..|crawlResults|] == crawlResults;
  }

  // ---------------------------------------------------------------- the tool

  /** `[r["body"] for r in results if "body" in r]`. */
  function Bodies(results: seq<Record>): (b: seq<string>)
    ensures |b| <= |results|
    ensures (forall i :: 0 <= i < |results| ==> "body" in results[i]) ==>
      |b| == |results| && forall i :: 0 <= i < |results| ==> b[i] == results[i]["body"]
    ensures (forall i :: 0 <= i < |results| ==> "body" !in results[i]) ==> b == []
  {
    if results == [] then []
    else (if "body" in results[0] then [results[0]["body"]] else []) + Bodies(results[1..])
  }

  /** What `search_tool` hands back: relevant texts and URLs, the None of the simple mode's empty
      search, or an exception. */
  datatype ToolReply = Returned(texts: seq<string>, urls: seq<string>) | NoneReturned | Threw

  /** The contexts the advanced tool returns from a store holding `documents`: nothing for an
      empty store, otherwise the documents of `search_context(query, k=5)` (reranked, multiplier
      3, threshold 0.3), and nothing when that search raises. */
  function ToolTexts(documents: seq<string>, metadata: seq<Metadata>, available: bool, index: AnnIndex,
                     query: string, ann: Ann, predict: CrossEncoder): seq<string>
  {
    if documents == [] then []
    else
      var hits := ann(index, query, RetrievalK(ToolContextK, true, ContextMultiplier, |documents|));
      var found := Ranked(documents, metadata, available, query, ToolContextK, true, ContextThreshold, hits, predict);
      if found.Ok? then found.value.documents else []
  }

  /** The contexts are at most five documents of the store. */
  lemma ToolTextsBounded(documents: seq<string>, metadata: seq<Metadata>, available: bool, index: AnnIndex,
                         query: string, ann: Ann, predict: CrossEncoder)
    ensures var texts := ToolTexts(documents, metadata, available, index, query, ann, predict);
      |texts| <= ToolContextK && forall i :: 0 <= i < |texts| ==> texts[i] in documents
  {
    if documents != [] {
      var hits := ann(index, query, RetrievalK(ToolContextK, true, ContextMultiplier, |documents|));
      RankedSpec(documents, metadata, available, query, ToolContextK, true, ContextThreshold, hits, predict);
    }
  }

  class WebSearch {
    var vectorDb: VectorDatabase

    /** The store is consistent and its chunking settings make the chunker progress. */
    ghost predicate Valid()
      reads this, vectorDb
    {
      vectorDb.Valid() && Progresses(vectorDb.chunkSize, vectorDb.chunkOverlap)
    }

    /** `__init__` for a known embedding model key: a store with that key's profile and the
        default overlap and reranking settings. */
    constructor (embeddingModel: string)
      requires embeddingModel in EmbeddingModels
      ensures Valid() && fresh(vectorDb)
      ensures vectorDb.embeddingModelKey == embeddingModel && vectorDb.index == None && vectorDb.documents == []
      ensures vectorDb.chunkSize == EmbeddingModels[embeddingModel].chunkSize && vectorDb.chunkOverlap == DefaultChunkOverlap
      ensures vectorDb.enableRerank && vectorDb.rerankModelName == DefaultRerankModel
    {
      ProfilesProgress();
      vectorDb := new VectorDatabase.Init(embeddingModel, 0, 0, DefaultChunkOverlap, true, DefaultRerankModel);
    }

    /** `process_and_store`: the store is emptied and re-initialised, the kept pages are added in
        one call (chunked), and the number of stored chunks is returned; 0 when nothing was kept. */
    method ProcessAndStore(crawlResults: seq<CrawlResult>) returns (n: int)
      requires Valid()
      modifies vectorDb
      ensures Valid()
      ensures vectorDb.chunkSize == old(vectorDb.chunkSize) && vectorDb.chunkOverlap == old(vectorDb.chunkOverlap)
      ensures vectorDb.embeddingModelKey == old(vectorDb.embeddingModelKey) && vectorDb.dimension == old(vectorDb.dimension)
      ensures vectorDb.enableRerank == old(vectorDb.enableRerank) && vectorDb.rerankModelName == old(vectorDb.rerankModelName)
      ensures vectorDb.embeddingModel.Some? && vectorDb.index.Some?
      ensures var docs := KeptDocuments(crawlResults);
        if docs == [] then n == 0 && vectorDb.documents == [] && vectorDb.metadata == []
        else
          var stored := Ingested(docs, KeptMetadata(crawlResults), true, vectorDb.chunkSize, vectorDb.chunkOverlap);
          && vectorDb.documents == stored.0 && vectorDb.metadata == stored.1
          && n == |vectorDb.documents|
    {
      vectorDb.Clear();
      vectorDb.Initialize();
      var _ := vectorDb.LoadEmbeddingModel("");
      var allDocuments, allMetadata := GatherPages(crawlResults);
      if allDocuments != [] {
        vectorDb.AddDocuments(allDocuments, allMetadata, true);
        var stats := vectorDb.GetStats();
        return stats.totalDocuments;
      }
      return 0;
    }

    /** `search_context`: the store's search with reranking, multiplier 3 and threshold 0.3. */
    method SearchContext(query: string, k: int, ann: Ann, predict: CrossEncoder) returns (r: Result<Found, Error>)
      requires Valid()
      modifies vectorDb`embeddingModel, vectorDb`isEmbeddingGemma, vectorDb`rerankModel
      ensures Valid()
      ensures old(vectorDb.index).None? || vectorDb.documents == [] ==> r == Ok(Found([], [], []))
      ensures old(vectorDb.index).Some? && vectorDb.documents != [] ==>
        var hits := ann(old(vectorDb.index).value, query, RetrievalK(k, true, ContextMultiplier, |vectorDb.documents|));
        r == Ranked(vectorDb.documents, vectorDb.metadata, vectorDb.enableRerank, query, k, true, ContextThreshold, hits, predict)
    {
      r := vectorDb.Search(query, k, Some(true), ContextMultiplier, ContextThreshold, ann, predict);
    }

    /** `search_tool`. The simple mode returns the result bodies and URLs of one search, or None
        when the search found nothing. The advanced mode searches and crawls, stores the pages,
        and returns at most five reranked contexts with the URLs; nothing on an empty crawl, and
        the URLs found so far with no contexts when a step raises. */
    method SearchTool(query: string, numResults: int, page: int, before: string, after: string, backend: string,
                      advanced: bool, engine: Engine, crawl: Crawler, ann: Ann, predict: CrossEncoder)
      returns (r: ToolReply)
      requires Valid()
      modifies vectorDb
      ensures Valid()
      ensures !advanced ==>
        var found := Search(engine, query, numResults, page, before, after, backend);
        r == if found == [] then NoneReturned
             else if Hrefs(found).None? then Threw
             else Returned(Bodies(found), Hrefs(found).value)
      ensures !advanced ==> unchanged(vectorDb)
      ensures advanced ==>
        var crawled := SearchAndCrawl(engine, crawl, query, numResults, page, before, after, backend);
        && r.Returned?
        && (crawled.Err? || crawled.value.results == [] ==> r == Returned([], []) && unchanged(vectorDb))
        && (crawled.Ok? && crawled.value.results != [] ==>
              && vectorDb.index.Some?
              && r == Returned(ToolTexts(vectorDb.documents, vectorDb.metadata, vectorDb.enableRerank,
                                         vectorDb.index.value, query, ann, predict), crawled.value.urls)
              && |r.texts| <= ToolContextK
              && vectorDb.documents == (if KeptDocuments(crawled.value.results) == [] then []
                                        else Ingested(KeptDocuments(crawled.value.results), KeptMetadata(crawled.value.results),
                                                      true, vectorDb.chunkSize, vectorDb.chunkOverlap).0)
              && forall i :: 0 <= i < |r.texts| ==> r.texts[i] in vectorDb.documents)
    {
      if !advanced {
        var found := Search(engine, query, numResults, page, before, after, backend);
        if found == [] {
          return NoneReturned;
        }
        var urls := Hrefs(found);
        if urls.None? {
          return Threw;
        }
        return Returned(Bodies(found), urls.value);
      }
      var crawled := SearchAndCrawl(engine, crawl, query, numResults, page, before, after, backend);
      if crawled.Err? || crawled.value.results == [] {
        return Returned([], []);
      }
      var urls := crawled.value.urls;
      var _ := ProcessAndStore(crawled.value.results);
      ghost var index := vectorDb.index;
      var found := SearchContext(query, ToolContextK, ann, predict);
      ToolTextsBounded(vectorDb.documents, vectorDb.metadata, vectorDb.enableRerank, index.value, query, ann, predict);
      if found.Err? {
        return Returned([], urls);
      }
      return Returned(found.value.documents, urls);
    }
  }
}
