/** `RerankingRetriever`: a retriever that asks a base retriever for candidate documents and
    reorders them with the reranking service.

    The base retriever's own document search (FAISS behind LangChain) is an oracle: its answer
    for the query is the given `initialDocs`. What the model keeps of the base retriever is the
    setting this retriever writes into it: `search_kwargs['k']` when it has `search_kwargs`,
    otherwise `k` when it has `k`. */
module Retrieval {
  import opened Wrappers
  import opened TextUtil
  import opened Documents
  import opened Reranking

  /** `config.DEFAULT_TOP_K_RETRIEVAL` and `config.DEFAULT_TOP_K_RERANKED`. */
  const DefaultTopKRetrieval := 20
  const DefaultTopKReranked := 5

  /** Python's `x or default` for an optional count, with 0 standing for None (both are falsy). */
  function OrDefault(x: int, default: int): (r: int)
    ensures r == x || r == default
    ensures r == default <==> x == 0 || x == default
    ensures default != 0 ==> r != 0
  {
    if x != 0 then x else default
  }

  /** The base retriever's `k` settings: None where it lacks the attribute. */
  class BaseRetriever {
    var searchKwargs: Option<map<string, int>>
    var k: Option<int>

    constructor (searchKwargs: Option<map<string, int>>, k: Option<int>)
      ensures this.searchKwargs == searchKwargs && this.k == k
    {
      this.searchKwargs := searchKwargs;
      this.k := k;
    }

    /** The `k` this retriever will retrieve with, if it has a setting for it. */
    function EffectiveK(): (r: Option<int>)
      reads this
      ensures searchKwargs.Some? ==> r == if "k" in searchKwargs.value then Some(searchKwargs.value["k"]) else None
      ensures searchKwargs.None? ==> r == k
    {
      if searchKwargs.Some? then (if "k" in searchKwargs.value then Some(searchKwargs.value["k"]) else None) else k
    }

    /** Holds when the setting the retriever uses is `n`, or it has none to set. */
    predicate SetTo(n: int)
      reads this
    {
      searchKwargs.Some? || k.Some? ==> EffectiveK() == Some(n)
    }

    /** `search_kwargs['k'] = n` when there is `search_kwargs`, else `k = n` when there is `k`. */
    method SetK(n: int)
      modifies this
      ensures SetTo(n)
      ensures searchKwargs == if old(searchKwargs).Some? then Some(old(searchKwargs).value["k" := n]) else None
      ensures k == if old(searchKwargs).None? && old(k).Some? then Some(n) else old(k)
    {
      if searchKwargs.Some? {
        searchKwargs := Some(searchKwargs.value["k" := n]);
      } else if k.Some? {
        k := Some(n);
      }
    }
  }

  class RerankingRetriever {
    var baseRetriever: BaseRetriever
    var topKRetrieval: int
    var topKReranked: int
    var enableReranking: bool

    /** Both counts are set (truthy), reranking is on only where the configuration allows it, and
        the base retriever retrieves `topKRetrieval` documents. */
    predicate Valid()
      reads this, baseRetriever
    {
      && topKRetrieval != 0
      && topKReranked != 0
      && (enableReranking ==> EnableReranking)
      && baseRetriever.SetTo(topKRetrieval)
    }

    /** `__init__`: falsy counts take the configured defaults, and the base retriever is set to
        the retrieval count. */
    constructor (baseRetriever: BaseRetriever, topKRetrieval: int, topKReranked: int, enableReranking: bool)
      modifies baseRetriever
      ensures Valid()
      ensures this.baseRetriever == baseRetriever
      ensures this.topKRetrieval == OrDefault(topKRetrieval, DefaultTopKRetrieval)
      ensures this.topKReranked == OrDefault(topKReranked, DefaultTopKReranked)
      ensures this.enableReranking == (enableReranking && EnableReranking)
      ensures baseRetriever.searchKwargs == if old(baseRetriever.searchKwargs).Some? then Some(old(baseRetriever.searchKwargs).value["k" := this.topKRetrieval]) else None
      ensures baseRetriever.k == if old(baseRetriever.searchKwargs).None? && old(baseRetriever.k).Some? then Some(this.topKRetrieval) else old(baseRetriever.k)
    {
      this.baseRetriever := baseRetriever;
      this.topKRetrieval := OrDefault(topKRetrieval, DefaultTopKRetrieval);
      this.topKReranked := OrDefault(topKReranked, DefaultTopKReranked);
      this.enableReranking := enableReranking && EnableReranking;
      new;
      baseRetriever.SetK(this.topKRetrieval);
    }

    /** `_get_relevant_documents` for the base retriever's answer `initialDocs`: none gives none;
        with reranking on, the reranking service's outcome for `topKReranked`; otherwise the first
        `topKReranked` candidates, untouched. */
    method GetRelevantDocuments(query: string, initialDocs: seq<Document>, service: RerankingService,
                                loads: Loader, predict: Predictor) returns (r: seq<Document>)
      requires Valid()
      modifies service`reranker, initialDocs
      ensures initialDocs == [] ==> r == [] && unchanged(service)
      ensures initialDocs != [] && enableReranking ==>
        && service.reranker == (if old(service.reranker).Some? then old(service.reranker)
                                else if loads(service.modelName) then Some(service.modelName) else None)
        && var o := RerankOutcome(service.reranker, query, initialDocs, old(Contents(initialDocs)), topKReranked, predict);
        && r == o.docs
        && forall d :: d in initialDocs ==> d.metadata == AfterTagging(old(d.metadata), o.docs, o.scores, d, |o.scores|)
      ensures initialDocs != [] && !enableReranking ==>
        && r == Take(initialDocs, topKReranked)
        && unchanged(service)
        && forall d :: d in initialDocs ==> d.metadata == old(d.metadata)
      ensures forall d :: d in initialDocs ==> d.pageContent == old(d.pageContent)
    {
      if initialDocs == [] {
        return [];
      }
      if enableReranking {
        r := service.RerankDocuments(query, initialDocs, topKReranked, loads, predict);
      } else {
        r := Take(initialDocs, topKReranked);
      }
    }

    /** `configure_retrieval`: only truthy counts are taken, and a new retrieval count is passed on
        to the base retriever. */
    method ConfigureRetrieval(topKRetrieval: int, topKReranked: int)
      requires Valid()
      modifies this, baseRetriever
      ensures Valid()
      ensures baseRetriever == old(baseRetriever) && enableReranking == old(enableReranking)
      ensures this.topKRetrieval == OrDefault(topKRetrieval, old(this.topKRetrieval))
      ensures this.topKReranked == OrDefault(topKReranked, old(this.topKReranked))
      ensures topKRetrieval == 0 ==> unchanged(baseRetriever)
    {
      if topKRetrieval != 0 {
        this.topKRetrieval := topKRetrieval;
        baseRetriever.SetK(topKRetrieval);
      }
      if topKReranked != 0 {
        this.topKReranked := topKReranked;
      }
    }
  }

  /** `create_reranking_retriever`, for the vector store's retriever `base` (`as_retriever()`). */
  method CreateRerankingRetriever(base: BaseRetriever, topKRetrieval: int, topKReranked: int, enableReranking: bool)
    returns (r: RerankingRetriever)
    modifies base
    ensures fresh(r) && r.Valid() && r.baseRetriever == base
    ensures r.topKRetrieval == OrDefault(topKRetrieval, DefaultTopKRetrieval)
    ensures r.topKReranked == OrDefault(topKReranked, DefaultTopKReranked)
    ensures r.enableReranking == (enableReranking && EnableReranking)
  {
    r := new RerankingRetriever(base, topKRetrieval, topKReranked, enableReranking);
  }
}
