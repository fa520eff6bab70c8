/** `VectorDatabase`: three parallel stores (the nearest-neighbour index, the document texts and
    their metadata), chunked ingestion, and the two-stage search (over-retrieve, filter by a strict
    score threshold, then rerank with a cross-encoder or cut to `k`).

    The numeric parts are oracles: the index search is a function `Ann` from the index contents, the
    query and a neighbour count to `(score, idx)` hits, and the cross-encoder is a function from a
    (query, document) pair to a score. Loaded models are represented by the name they were loaded
    from. */
module VectorStore {
  import opened Wrappers
  import opened TextUtil
  import opened Ranking
  import opened Chunking
  import opened Documents

  datatype ModelProfile = ModelProfile(modelName: string, dimension: int, chunkSize: int, description: string)

  /** The embedding models on offer, by key. */
  const EmbeddingModels: map<string, ModelProfile> := map[
    "gemma" := ModelProfile("google/embeddinggemma-300m", 768, 1200, "High-quality Gemma embedding model"),
    "minilm" := ModelProfile("sentence-transformers/all-MiniLM-L6-v2", 384, 512, "Fast and efficient MiniLM-L6-v2 model"),
    "bge" := ModelProfile("BAAI/bge-base-en-v1.5", 768, 512, "BGE Small English embedding model")
  ]

  /** The keys of the profile table, written out. */
  predicate KnownKey(key: string) {
    key == "gemma" || key == "minilm" || key == "bge"
  }

  lemma TableKeys()
    ensures forall key :: KnownKey(key) <==> key in EmbeddingModels
  {
  }

  const DefaultEmbeddingModelKey := "gemma"
  const DefaultRerankModel := "cross-encoder/ms-marco-MiniLM-L-6-v2"
  const DefaultTopK := 10
  const DefaultChunkOverlap := 50

  /** Every profile's chunk size, with the default overlap, lets the chunking loop advance. */
  lemma ProfilesProgress()
    ensures forall key :: key in EmbeddingModels ==>
      Progresses(EmbeddingModels[key].chunkSize, DefaultChunkOverlap) && EmbeddingModels[key].dimension > 0
  {
  }

  datatype Error = ValueError(message: string) | IndexError | AttributeError

  function InvalidKey(key: string): Error {
    ValueError("Invalid embedding model key: " + key + ". Available models: ['gemma', 'minilm', 'bge']")
  }

  /** The index: its dimension and the texts whose embeddings it holds, in insertion order. */
  datatype AnnIndex = AnnIndex(dimension: int, entries: seq<string>)

  /** One neighbour returned by the index: a similarity and an idx (a position, or -1 for none). */
  datatype Hit = Hit(score: real, idx: int)

  /** The nearest-neighbour search of the index, for a query and a neighbour count. */
  type Ann = (AnnIndex, string, int) -> seq<Hit>

  /** The cross-encoder's score of a (query, document) pair. */
  type CrossEncoder = (string, string) -> real

  /** The triple a search returns: documents, their metadata and their scores. */
  datatype Found = Found(documents: seq<string>, metadata: seq<Metadata>, scores: seq<real>)

  // ---------------------------------------------------------------- ingestion

  /** The `original_doc` entry: the document, or its first 100 characters and "..." when longer. */
  function OriginalDoc(doc: string): string {
    if |doc| > 100 then doc[..100] + "..." else doc
  }

  /** A copy of the document's metadata with the chunk's position recorded. */
  function ChunkMeta(meta: Metadata, i: nat, n: nat, doc: string): Metadata {
    meta["chunk_id" := Int(i)]["total_chunks" := Int(n)]["original_doc" := Str(OriginalDoc(doc))]
  }

  lemma ChunkMetaShape(meta: Metadata, i: nat, n: nat, doc: string)
    ensures ChunkMeta(meta, i, n, doc).Keys == meta.Keys + {"chunk_id", "total_chunks", "original_doc"}
    ensures forall key :: key in meta && key != "chunk_id" && key != "total_chunks" && key != "original_doc" ==>
      ChunkMeta(meta, i, n, doc)[key] == meta[key]
    ensures ChunkMeta(meta, i, n, doc)["chunk_id"] == Int(i)
    ensures ChunkMeta(meta, i, n, doc)["total_chunks"] == Int(n)
    ensures |doc| <= 100 ==> ChunkMeta(meta, i, n, doc)["original_doc"] == Str(doc)
    ensures |doc| > 100 ==> ChunkMeta(meta, i, n, doc)["original_doc"] == Str(doc[..100] + "...")
  {
  }

  function ChunkMetas(meta: Metadata, n: nat, doc: string): (ms: seq<Metadata>)
    ensures |ms| == n
  {
    seq(n, i requires 0 <= i < n => ChunkMeta(meta, i, n, doc))
  }

  /** The inner loop of `add_documents`: the metadata of each of a document's `n` chunks. */
  method ChunkMetadata(meta: Metadata, n: nat, doc: string) returns (metas: seq<Metadata>)
    ensures metas == ChunkMetas(meta, n, doc)
  {
    metas := [];
    var i := 0;
    while i < n
      invariant 0 <= i <= n
      invariant metas == ChunkMetas(meta, n, doc)[..i]
    {
      metas := metas + [ChunkMeta(meta, i, n, doc)];
      i := i + 1;
    }
    assert ChunkMetas(meta, n, doc)[..n] == ChunkMetas(meta, n, doc);
  }

  /** The chunk lists of the first `n` documents. */
  function PerDocument(documents: seq<string>, size: int, overlap: int, n: nat): (p: seq<seq<string>>)
    requires Progresses(size, overlap) && n <= |documents|
    ensures |p| == n
  {
    if n == 0 then [] else PerDocument(documents, size, overlap, n - 1) + [Chunks(documents[n - 1], size, overlap)]
  }

  /** A table whose entry `t` is the chunk list of document `t` is the `PerDocument` table. */
  lemma {:induction false} PerDocumentIs(documents: seq<string>, size: int, overlap: int, pieces: seq<seq<string>>)
    requires Progresses(size, overlap) && |pieces| <= |documents|
    requires forall t :: 0 <= t < |pieces| ==> pieces[t] == Chunks(documents[t], size, overlap)
    ensures pieces == PerDocument(documents, size, overlap, |pieces|)
  {
    if pieces != [] {
      var n := |pieces|;
      PerDocumentIs(documents, size, overlap, pieces[..n - 1]);
      assert pieces == pieces[..n - 1] + [pieces[n - 1]];
    }
  }

  /** Every document yields at least one chunk, none longer than the chunk size. */
  lemma {:induction false} PerDocumentBounded(documents: seq<string>, size: int, overlap: int, n: nat)
    requires Progresses(size, overlap) && n <= |documents|
    ensures forall t :: 0 <= t < n ==> |PerDocument(documents, size, overlap, n)[t]| >= 1
    ensures forall t, i :: 0 <= t < n && 0 <= i < |PerDocument(documents, size, overlap, n)[t]| ==>
      |PerDocument(documents, size, overlap, n)[t][i]| <= size
  {
    if n > 0 {
      PerDocumentBounded(documents, size, overlap, n - 1);
      ChunksBounded(documents[n - 1], size, overlap);
    }
  }

  /** The chunk lists, concatenated. */
  function Flatten(pieces: seq<seq<string>>): seq<string> {
    if pieces == [] then [] else Flatten(pieces[..|pieces| - 1]) + pieces[|pieces| - 1]
  }

  /** The metadata of those chunks: chunk `i` of document `t`, cut into `m` chunks, gets
      `ChunkMeta(metadatas[t], i, m, documents[t])`. */
  function PieceMetas(documents: seq<string>, metadatas: seq<Metadata>, pieces: seq<seq<string>>): seq<Metadata>
    requires |pieces| <= |documents| && |pieces| <= |metadatas|
  {
    if pieces == [] then []
    else
      var n := |pieces|;
      PieceMetas(documents, metadatas, pieces[..n - 1]) + ChunkMetas(metadatas[n - 1], |pieces[n - 1]|, documents[n - 1])
  }

  /** There is one metadata entry per chunk, and at least one chunk per document when no chunk list
      is empty. */
  lemma {:induction false} PiecesAligned(documents: seq<string>, metadatas: seq<Metadata>, pieces: seq<seq<string>>)
    requires |pieces| <= |documents| && |pieces| <= |metadatas|
    ensures |Flatten(pieces)| == |PieceMetas(documents, metadatas, pieces)|
    ensures (forall t :: 0 <= t < |pieces| ==> |pieces[t]| >= 1) ==> |Flatten(pieces)| >= |pieces|
  {
    if pieces != [] {
      var n := |pieces|;
      PiecesAligned(documents, metadatas, pieces[..n - 1]);
    }
  }

  /** `add_documents`' chunking loop over `zip(documents, metadatas)`. */
  method ChunkDocuments(documents: seq<string>, metadatas: seq<Metadata>, chunkSize: int, chunkOverlap: int)
    returns (docs: seq<string>, metas: seq<Metadata>)
    requires Progresses(chunkSize, chunkOverlap)
    ensures var pieces := PerDocument(documents, chunkSize, chunkOverlap, Min(|documents|, |metadatas|));
      docs == Flatten(pieces) && metas == PieceMetas(documents, metadatas, pieces)
  {
    docs, metas := [], [];
    var pairs := Min(|documents|, |metadatas|);
    ghost var pieces: seq<seq<string>> := [];
    var j := 0;
    while j < pairs
      invariant 0 <= j <= pairs && |pieces| == j
      invariant forall t :: 0 <= t < j ==> pieces[t] == Chunks(documents[t], chunkSize, chunkOverlap)
      invariant docs == Flatten(pieces) && metas == PieceMetas(documents, metadatas, pieces)
    {
      var doc, meta := documents[j], metadatas[j];
      var chunks := ChunkText(doc, chunkSize, chunkOverlap);
      var chunkMetas := ChunkMetadata(meta, |chunks|, doc);
      docs := docs + chunks;
      metas := metas + chunkMetas;
      ghost var prev := pieces;
      pieces := pieces + [chunks];
      assert pieces[..j] == prev;
      forall t | 0 <= t < j + 1 ensures pieces[t] == Chunks(documents[t], chunkSize, chunkOverlap) {
        if t < j {
          assert pieces[t] == prev[t];
        }
      }
      j := j + 1;
    }
    PerDocumentIs(documents, chunkSize, chunkOverlap, pieces);
  }

  /** What one `add_documents` call appends: the chunks and their metadata, or the lists as given. */
  function Ingested(documents: seq<string>, metadatas: seq<Metadata>, autoChunk: bool, size: int, overlap: int): (seq<string>, seq<Metadata>)
    requires autoChunk ==> Progresses(size, overlap)
  {
    if autoChunk then
      var pieces := PerDocument(documents, size, overlap, Min(|documents|, |metadatas|));
      (Flatten(pieces), PieceMetas(documents, metadatas, pieces))
    else (documents, metadatas)
  }

  /** With chunking, what is appended to the two stores has the same length and at least one chunk
      per paired document; without it, the lists are appended as given, so they stay aligned
      exactly when the caller's lists were. */
  lemma IngestedAligned(documents: seq<string>, metadatas: seq<Metadata>, autoChunk: bool, size: int, overlap: int)
    requires autoChunk ==> Progresses(size, overlap)
    ensures var (d, m) := Ingested(documents, metadatas, autoChunk, size, overlap);
      (autoChunk || |documents| == |metadatas|) ==> |d| == |m|
    ensures autoChunk ==> |Ingested(documents, metadatas, autoChunk, size, overlap).0| >= Min(|documents|, |metadatas|)
  {
    if autoChunk {
      var n := Min(|documents|, |metadatas|);
      PerDocumentBounded(documents, size, overlap, n);
      PiecesAligned(documents, metadatas, PerDocument(documents, size, overlap, n));
    }
  }

  // ---------------------------------------------------------------- retrieval filter

  /** A hit survives the filter: its idx is below the number of documents and its score is
      strictly above the threshold. */
  predicate Admits(h: Hit, n: nat, threshold: real) {
    h.idx < n && h.score > threshold
  }

  /** The surviving hits, in retrieval order. */
  function Admitted(hits: seq<Hit>, n: nat, threshold: real): (r: seq<Hit>)
    ensures |r| <= |hits|
    ensures forall i :: 0 <= i < |r| ==> Admits(r[i], n, threshold)
  {
    if hits == [] then []
    else
      var last := hits[|hits| - 1];
      Admitted(hits[..|hits| - 1], n, threshold) + (if Admits(last, n, threshold) then [last] else [])
  }

  /** Exactly the hits that pass the test survive. */
  lemma {:induction false} AdmittedMembers(hits: seq<Hit>, n: nat, threshold: real, h: Hit)
    ensures h in Admitted(hits, n, threshold) <==> h in hits && Admits(h, n, threshold)
  {
    if hits != [] {
      var init := hits[..|hits| - 1];
      AdmittedMembers(init, n, threshold, h);
      assert hits == init + [hits[|hits| - 1]];
    }
  }

  /** Filtering distributes over concatenation, so it keeps the retrieval order. */
  lemma {:induction false} AdmittedAppend(a: seq<Hit>, b: seq<Hit>, n: nat, threshold: real)
    ensures Admitted(a + b, n, threshold) == Admitted(a, n, threshold) + Admitted(b, n, threshold)
    decreases |b|
  {
    if b == [] {
      assert a + b == a;
    } else {
      var b', last := b[..|b| - 1], b[|b| - 1];
      var tail := if Admits(last, n, threshold) then [last] else [];
      AdmittedAppend(a, b', n, threshold);
      assert (a + b)[..|a + b| - 1] == a + b';
      assert Admitted(a + b, n, threshold) == Admitted(a + b', n, threshold) + tail;
      assert Admitted(b, n, threshold) == Admitted(b', n, threshold) + tail;
    }
  }

  /** One more hit examined: the filter of a prefix grows by that hit exactly when it passes. */
  lemma {:induction false} AdmittedStep(hits: seq<Hit>, i: nat, n: nat, threshold: real)
    requires i < |hits|
    ensures Admitted(hits[..i + 1], n, threshold)
      == Admitted(hits[..i], n, threshold) + (if Admits(hits[i], n, threshold) then [hits[i]] else [])
  {
    assert hits[..i + 1][..i] == hits[..i];
  }

  /** Python's `s[i]` accepts `-len(s) <= i < len(s)`; a negative `i` counts from the end. */
  predicate InPyRange(n: nat, i: int) {
    -(n as int) <= i < n
  }

  function PyIndex(n: nat, i: int): (r: nat)
    requires InPyRange(n, i)
    ensures r < n
  {
    if i < 0 then n + i else i
  }

  predicate Resolvable(documents: seq<string>, metadata: seq<Metadata>, hits: seq<Hit>) {
    forall i :: 0 <= i < |hits| ==> InPyRange(|documents|, hits[i].idx) && InPyRange(|metadata|, hits[i].idx)
  }

  /** Looking up the surviving hits' documents and metadata, in order. */
  function Resolve(documents: seq<string>, metadata: seq<Metadata>, hits: seq<Hit>): Result<Found, Error> {
    if hits == [] then Ok(Found([], [], []))
    else
      var h := hits[|hits| - 1];
      var prev := Resolve(documents, metadata, hits[..|hits| - 1]);
      if prev.Err? || !InPyRange(|documents|, h.idx) || !InPyRange(|metadata|, h.idx) then Err(IndexError)
      else
        Ok(Found(prev.value.documents + [documents[PyIndex(|documents|, h.idx)]],
                 prev.value.metadata + [metadata[PyIndex(|metadata|, h.idx)]],
                 prev.value.scores + [h.score]))
  }

  /** The lookup succeeds exactly when every hit's idx is a valid Python index of both lists, and
      then yields, position by position, the document, metadata and score of each hit; otherwise
      it raises IndexError. */
  lemma {:induction false} ResolveSpec(documents: seq<string>, metadata: seq<Metadata>, hits: seq<Hit>)
    ensures var r := Resolve(documents, metadata, hits);
      && (r.Ok? <==> Resolvable(documents, metadata, hits))
      && (r.Err? ==> r.error == IndexError)
      && (r.Ok? ==> |r.value.documents| == |hits| && |r.value.metadata| == |hits| && |r.value.scores| == |hits|)
      && (r.Ok? ==> forall i :: 0 <= i < |hits| ==>
            && r.value.documents[i] == documents[PyIndex(|documents|, hits[i].idx)]
            && r.value.metadata[i] == metadata[PyIndex(|metadata|, hits[i].idx)]
            && r.value.scores[i] == hits[i].score)
  {
    if hits != [] {
      var init := hits[..|hits| - 1];
      ResolveSpec(documents, metadata, init);
      assert forall i :: 0 <= i < |init| ==> hits[i] == init[i];
      if Resolve(documents, metadata, init).Err? {
        var i :| 0 <= i < |init| && !(InPyRange(|documents|, init[i].idx) && InPyRange(|metadata|, init[i].idx));
        assert hits[i] == init[i];
      }
    }
  }

  /** Resolving one more hit: it extends the three lists, or the lookup fails. */
  lemma {:induction false} ResolveStep(documents: seq<string>, metadata: seq<Metadata>, hits: seq<Hit>, h: Hit)
    ensures Resolve(documents, metadata, hits + [h]) ==
      if Resolve(documents, metadata, hits).Err? || !InPyRange(|documents|, h.idx) || !InPyRange(|metadata|, h.idx)
      then Err(IndexError)
      else
        var f := Resolve(documents, metadata, hits).value;
        Ok(Found(f.documents + [documents[PyIndex(|documents|, h.idx)]],
                 f.metadata + [metadata[PyIndex(|metadata|, h.idx)]],
                 f.scores + [h.score]))
  {
    assert (hits + [h])[..|hits|] == hits;
  }

  /** A failed lookup stays failed whatever hits follow. */
  lemma {:induction false} ResolveErrExtends(documents: seq<string>, metadata: seq<Metadata>, a: seq<Hit>, b: seq<Hit>)
    requires Resolve(documents, metadata, a).Err?
    ensures Resolve(documents, metadata, a + b) == Err(IndexError)
  {
    ResolveSpec(documents, metadata, a);
    ResolveSpec(documents, metadata, a + b);
    var i :| 0 <= i < |a| && !(InPyRange(|documents|, a[i].idx) && InPyRange(|metadata|, a[i].idx));
    assert (a + b)[i] == a[i];
  }

  /** The filtering loop of `search`. */
  method FilterHits(documents: seq<string>, metadata: seq<Metadata>, hits: seq<Hit>, threshold: real)
    returns (r: Result<Found, Error>)
    ensures r == Resolve(documents, metadata, Admitted(hits, |documents|, threshold))
  {
    var results: seq<string> := [];
    var resultMetadata: seq<Metadata> := [];
    var initialScores: seq<real> := [];
    var i := 0;
    while i < |hits|
      invariant 0 <= i <= |hits|
      invariant Resolve(documents, metadata, Admitted(hits[..i], |documents|, threshold))
        == Ok(Found(results, resultMetadata, initialScores))
    {
      var h := hits[i];
      ghost var prevAdm := Admitted(hits[..i], |documents|, threshold);
      AdmittedStep(hits, i, |documents|, threshold);
      if h.idx < |documents| && h.score > threshold {
        ResolveStep(documents, metadata, prevAdm, h);
        if !InPyRange(|documents|, h.idx) || !InPyRange(|metadata|, h.idx) {
          ghost var adm := prevAdm + [h];
          AdmittedAppend(hits[..i + 1], hits[i + 1..], |documents|, threshold);
          assert hits[..i + 1] + hits[i + 1..] == hits;
          ResolveErrExtends(documents, metadata, adm, Admitted(hits[i + 1..], |documents|, threshold));
          return Err(IndexError);
        }
        results := results + [documents[PyIndex(|documents|, h.idx)]];
        resultMetadata := resultMetadata + [metadata[PyIndex(|metadata|, h.idx)]];
        initialScores := initialScores + [h.score];
      } else {
        assert Admitted(hits[..i + 1], |documents|, threshold) == prevAdm;
      }
      i := i + 1;
    }
    assert hits[..|hits|] == hits;
    return Ok(Found(results, resultMetadata, initialScores));
  }

  // ---------------------------------------------------------------- reranking

  /** The length of Python's `s[:k]` for a list of length `n`. */
  function SliceLength(n: nat, k: int): (r: nat)
    ensures r <= n
  {
    if k >= 0 then Min(k, n) else Max(0, n + k)
  }

  function Keys(query: string, documents: seq<string>, predict: CrossEncoder): seq<real> {
    seq(|documents|, i requires 0 <= i < |documents| => predict(query, documents[i]))
  }

  /** `np.argsort(scores)[::-1][:top_k]`, computed with the stable descending sort; any top
      selection of that size is what the source promises. */
  function RerankOrder(keys: seq<real>, topK: int): (sel: seq<nat>)
    ensures IsTopSelection(keys, sel, SliceLength(|keys|, topK))
  {
    var t := SliceLength(|keys|, topK);
    StablePrefixIsTopSelection(keys, t);
    Take(SortIndices(keys), topK)
  }

  /** `f` lists the documents at some top selection of `t` positions by score, with their metadata
      and their scores. */
  ghost predicate IsReranking(keys: seq<real>, documents: seq<string>, metadatas: seq<Metadata>, t: nat, f: Found)
    requires |keys| == |documents|
  {
    exists sel :: IsTopSelection(keys, sel, t) && InRange(sel, |metadatas|)
      && f == Found(Select(documents, sel), Select(metadatas, sel), Select(keys, sel))
  }

  /** `rerank_results`, with `available` telling whether a cross-encoder is loaded once the lazy
      load has run. */
  function Rerank(query: string, documents: seq<string>, metadatas: seq<Metadata>, topK: int,
                  available: bool, predict: CrossEncoder): (r: Result<Found, Error>)
    ensures documents == [] ==> r == Ok(Found([], [], []))
    ensures documents != [] && !available ==> r == Err(AttributeError)
    ensures documents != [] && available && SliceLength(|documents|, topK) == 0 ==> r == Err(IndexError)
    ensures r.Err? ==> documents != [] && (r.error == AttributeError || r.error == IndexError)
    ensures r.Ok? && documents != [] ==>
      IsReranking(Keys(query, documents, predict), documents, metadatas, SliceLength(|documents|, topK), r.value)
    ensures r.Ok? ==> var f := r.value;
      && |f.documents| == |f.metadata| == |f.scores| == SliceLength(|documents|, topK)
      && (forall i :: 0 <= i < |f.documents| ==> f.documents[i] in documents && f.scores[i] == predict(query, f.documents[i]))
      && (forall i, j :: 0 <= i < j < |f.scores| ==> f.scores[i] >= f.scores[j])
  {
    if documents == [] then Ok(Found([], [], []))
    else if !available then Err(AttributeError)
    else
      var keys := Keys(query, documents, predict);
      var sel := RerankOrder(keys, topK);
      if !InRange(sel, |metadatas|) || sel == [] then Err(IndexError)
      else
        var f := Found(Select(documents, sel), Select(metadatas, sel), Select(keys, sel));
        assert IsReranking(keys, documents, metadatas, SliceLength(|documents|, topK), f);
        Ok(f)
  }

  // ---------------------------------------------------------------- search

  function UseRerank(rerank: Option<bool>, enableRerank: bool): bool {
    if rerank.Some? then rerank.value else enableRerank
  }

  /** The neighbour count asked of the index: `k`, times the multiplier when reranking, capped at
      the number of stored documents. */
  function RetrievalK(k: int, useRerank: bool, multiplier: int, n: nat): int {
    Min(if useRerank then k * multiplier else k, n)
  }

  /** What `search` does with the index's hits: filter them, then rerank or cut to `k`. */
  function Ranked(documents: seq<string>, metadata: seq<Metadata>, available: bool, query: string, k: int,
                  useRerank: bool, threshold: real, hits: seq<Hit>, predict: CrossEncoder): Result<Found, Error>
  {
    var filtered := Resolve(documents, metadata, Admitted(hits, |documents|, threshold));
    if filtered.Err? then filtered
    else
      var f := filtered.value;
      if useRerank && f.documents != [] then Rerank(query, f.documents, f.metadata, k, available, predict)
      else Ok(Found(Take(f.documents, k), Take(f.metadata, k), Take(f.scores, k)))
  }

  /** What `search` promises of its answer: three aligned lists of at most `k` entries, each
      document taken from the store; scores above the threshold on the plain path and in
      non-increasing order after reranking; and an error only from a bad index or a missing
      cross-encoder. */
  lemma RankedSpec(documents: seq<string>, metadata: seq<Metadata>, available: bool, query: string, k: int,
                   useRerank: bool, threshold: real, hits: seq<Hit>, predict: CrossEncoder)
    ensures var r := Ranked(documents, metadata, available, query, k, useRerank, threshold, hits, predict);
      && (r.Ok? ==> |r.value.documents| == |r.value.metadata| == |r.value.scores|)
      && (r.Ok? && k >= 0 ==> |r.value.documents| <= k)
      && (r.Ok? ==> forall i :: 0 <= i < |r.value.documents| ==> r.value.documents[i] in documents)
      && (r.Ok? && !useRerank ==> forall i :: 0 <= i < |r.value.scores| ==> r.value.scores[i] > threshold)
      && (r.Ok? && useRerank ==> forall i, j :: 0 <= i < j < |r.value.scores| ==> r.value.scores[i] >= r.value.scores[j])
      && (r.Err? ==> r.error == IndexError || (useRerank && !available && r.error == AttributeError))
  {
    var adm := Admitted(hits, |documents|, threshold);
    ResolveSpec(documents, metadata, adm);
    var filtered := Resolve(documents, metadata, adm);
    if filtered.Ok? {
      var f := filtered.value;
      assert forall i :: 0 <= i < |f.documents| ==> f.documents[i] in documents;
    }
  }

  /** On the path without reranking, the result is the first `k` surviving hits, in retrieval order. */
  lemma PlainPathIsPrefix(documents: seq<string>, metadata: seq<Metadata>, available: bool, query: string, k: int,
                          useRerank: bool, threshold: real, hits: seq<Hit>, predict: CrossEncoder)
    requires !useRerank && k >= 0
    requires Resolvable(documents, metadata, Admitted(hits, |documents|, threshold))
    ensures var r := Ranked(documents, metadata, available, query, k, useRerank, threshold, hits, predict);
      var adm := Admitted(hits, |documents|, threshold);
      && r.Ok? && |r.value.scores| == |r.value.documents| == Min(k, |adm|)
      && (forall i :: 0 <= i < |r.value.scores| ==>
            r.value.scores[i] == adm[i].score && r.value.documents[i] == documents[PyIndex(|documents|, adm[i].idx)])
  {
    ResolveSpec(documents, metadata, Admitted(hits, |documents|, threshold));
  }

  // ---------------------------------------------------------------- the store

  class VectorDatabase {
    var embeddingModelKey: string
    var dimension: int
    var chunkSize: int
    var chunkOverlap: int
    var enableRerank: bool
    var rerankModelName: string
    var index: Option<AnnIndex>
    var documents: seq<string>
    var metadata: seq<Metadata>
    var embeddingModel: Option<string>
    var rerankModel: Option<string>
    var isEmbeddingGemma: bool

    /** The index holds exactly the stored documents and has the store's dimension; without an
        index nothing is stored; a cross-encoder is only ever loaded when reranking is enabled. */
    ghost predicate Valid()
      reads this
    {
      && KnownKey(embeddingModelKey)
      && (index.None? ==> documents == [] && metadata == [])
      && (index.Some? ==> index.value.entries == documents && index.value.dimension == dimension)
      && (rerankModel.Some? ==> enableRerank)
      && (embeddingModel.None? ==> !isEmbeddingGemma)
    }

    /** `model_config`: always the profile of the current key, since the two are only ever set
        together. */
    function ModelConfig(): (p: ModelProfile)
      reads this
      requires KnownKey(embeddingModelKey)
      ensures embeddingModelKey in EmbeddingModels && p == EmbeddingModels[embeddingModelKey]
    {
      TableKeys();
      EmbeddingModels[embeddingModelKey]
    }

    /** `__init__` for a known model key. A `dimension` or `chunkSize` of 0 stands for the falsy
        arguments (None or 0) and takes the profile's value. */
    constructor Init(key: string, dimension: int, chunkSize: int, chunkOverlap: int, enableRerank: bool, rerankModelName: string)
      requires key in EmbeddingModels
      ensures Valid()
      ensures embeddingModelKey == key
      ensures this.dimension == (if dimension != 0 then dimension else EmbeddingModels[key].dimension)
      ensures this.chunkSize == (if chunkSize != 0 then chunkSize else EmbeddingModels[key].chunkSize)
      ensures this.chunkOverlap == chunkOverlap && this.enableRerank == enableRerank
      ensures this.rerankModelName == rerankModelName
      ensures index == None && documents == [] && metadata == []
      ensures embeddingModel == None && rerankModel == None && !isEmbeddingGemma
    {
      TableKeys();
      embeddingModelKey := key;
      this.dimension := if dimension != 0 then dimension else EmbeddingModels[key].dimension;
      this.chunkSize := if chunkSize != 0 then chunkSize else EmbeddingModels[key].chunkSize;
      this.chunkOverlap := chunkOverlap;
      this.enableRerank := enableRerank;
      this.rerankModelName := rerankModelName;
      index := None;
      documents := [];
      metadata := [];
      embeddingModel := None;
      rerankModel := None;
      isEmbeddingGemma := false;
    }

    /** `__init__` including its ValueError for an unknown key. */
    static method Create(key: string, dimension: int, chunkSize: int, chunkOverlap: int, enableRerank: bool, rerankModelName: string)
      returns (r: Result<VectorDatabase, Error>)
      ensures r.Err? <==> key !in EmbeddingModels
      ensures r.Err? ==> r.error == InvalidKey(key)
      ensures r.Ok? ==> fresh(r.value) && r.value.Valid() && r.value.embeddingModelKey == key
      ensures r.Ok? ==> r.value.index == None && r.value.documents == [] && r.value.metadata == []
    {
      TableKeys();
      if key !in EmbeddingModels {
        return Err(InvalidKey(key));
      }
      var db := new VectorDatabase.Init(key, dimension, chunkSize, chunkOverlap, enableRerank, rerankModelName);
      return Ok(db);
    }

    /** `initialize`: a fresh, empty index of the configured dimension, and empty stores. */
    method Initialize()
      requires Valid()
      modifies this
      ensures Valid()
      ensures index == Some(AnnIndex(dimension, [])) && documents == [] && metadata == []
      ensures dimension == old(dimension) && chunkSize == old(chunkSize) && chunkOverlap == old(chunkOverlap)
      ensures embeddingModelKey == old(embeddingModelKey)
      ensures enableRerank == old(enableRerank) && rerankModelName == old(rerankModelName)
      ensures embeddingModel == old(embeddingModel) && rerankModel == old(rerankModel)
      ensures isEmbeddingGemma == old(isEmbeddingGemma)
    {
      index := Some(AnnIndex(dimension, []));
      documents := [];
      metadata := [];
    }

    /** `load_embedding_model`: loads once, from `modelName` or (when it is empty) the profile's
        model, and records whether that name names an EmbeddingGemma model. */
    method LoadEmbeddingModel(modelName: string) returns (m: Option<string>)
      requires Valid()
      modifies this`embeddingModel, this`isEmbeddingGemma
      ensures Valid()
      ensures old(embeddingModel).Some? ==> embeddingModel == old(embeddingModel) && isEmbeddingGemma == old(isEmbeddingGemma)
      ensures old(embeddingModel).None? ==>
        var name := if modelName != "" then modelName else ModelConfig().modelName;
        embeddingModel == Some(name) && isEmbeddingGemma == Contains(Lower(name), "embeddinggemma")
      ensures m == embeddingModel && m.Some?
    {
      if embeddingModel.None? {
        var modelToLoad := if modelName != "" then modelName else ModelConfig().modelName;
        embeddingModel := Some(modelToLoad);
        isEmbeddingGemma := Contains(Lower(modelToLoad), "embeddinggemma");
      }
      return embeddingModel;
    }

    /** `load_rerank_model`: loads the cross-encoder once, and only when reranking is enabled. */
    method LoadRerankModel() returns (m: Option<string>)
      requires Valid()
      modifies this`rerankModel
      ensures Valid()
      ensures rerankModel == if old(rerankModel).None? && enableRerank then Some(rerankModelName) else old(rerankModel)
      ensures m == rerankModel
      ensures m.Some? <==> enableRerank
    {
      if rerankModel.None? && enableRerank {
        rerankModel := Some(rerankModelName);
      }
      return rerankModel;
    }

    /** `add_documents`: nothing happens for an empty list; otherwise the embedding model and the
        index are set up when missing and the (chunked) documents and metadata are appended. */
    method AddDocuments(newDocs: seq<string>, metadatas: seq<Metadata>, autoChunk: bool)
      requires Valid()
      requires newDocs != [] && autoChunk ==> Progresses(chunkSize, chunkOverlap)
      modifies this
      ensures Valid()
      ensures dimension == old(dimension) && chunkSize == old(chunkSize) && chunkOverlap == old(chunkOverlap)
      ensures embeddingModelKey == old(embeddingModelKey)
      ensures enableRerank == old(enableRerank) && rerankModelName == old(rerankModelName)
      ensures rerankModel == old(rerankModel)
      ensures newDocs == [] ==> index == old(index) && documents == old(documents) && metadata == old(metadata)
      ensures newDocs == [] ==> embeddingModel == old(embeddingModel) && isEmbeddingGemma == old(isEmbeddingGemma)
      ensures newDocs != [] ==>
        var (added, addedMeta) := Ingested(newDocs, metadatas, autoChunk, chunkSize, chunkOverlap);
        && documents == old(documents) + added && metadata == old(metadata) + addedMeta
        && index == Some(AnnIndex(dimension, documents))
        && embeddingModel == (if old(embeddingModel).Some? then old(embeddingModel) else Some(ModelConfig().modelName))
      ensures newDocs != [] && (autoChunk || |newDocs| == |metadatas|) && old(|documents| == |metadata|) ==>
        |documents| == |metadata|
    {
      if newDocs == [] {
        return;
      }
      if embeddingModel.None? {
        var _ := LoadEmbeddingModel("");
      }
      if index.None? {
        Initialize();
      }
      var chunkedDocs, chunkedMetadata;
      if autoChunk {
        chunkedDocs, chunkedMetadata := ChunkDocuments(newDocs, metadatas, chunkSize, chunkOverlap);
      } else {
        chunkedDocs, chunkedMetadata := newDocs, metadatas;
      }
      IngestedAligned(newDocs, metadatas, autoChunk, chunkSize, chunkOverlap);
      index := Some(AnnIndex(index.value.dimension, index.value.entries + chunkedDocs));
      documents := documents + chunkedDocs;
      metadata := metadata + chunkedMetadata;
    }

    /** `rerank_results`. */
    method RerankResults(query: string, docs: seq<string>, metadatas: seq<Metadata>, topK: int, predict: CrossEncoder)
      returns (r: Result<Found, Error>)
      requires Valid()
      modifies this`rerankModel
      ensures Valid()
      ensures r == Rerank(query, docs, metadatas, topK, enableRerank, predict)
      ensures rerankModel == if docs != [] && old(rerankModel).None? && enableRerank then Some(rerankModelName) else old(rerankModel)
    {
      if docs == [] {
        return Ok(Found([], [], []));
      }
      if rerankModel.None? {
        var _ := LoadRerankModel();
      }
      if rerankModel.None? {
        return Err(AttributeError);
      }
      var keys := Keys(query, docs, predict);
      var sortedIndices := RerankOrder(keys, topK);
      if !InRange(sortedIndices, |metadatas|) || sortedIndices == [] {
        return Err(IndexError);
      }
      return Ok(Found(Select(docs, sortedIndices), Select(metadatas, sortedIndices), Select(keys, sortedIndices)));
    }

    /** `search`: an empty result for a missing index or an empty store; otherwise the index is
        asked for `RetrievalK` neighbours of the query and its hits are filtered and ranked. */
    method Search(query: string, k: int, rerank: Option<bool>, multiplier: int, threshold: real,
                  ann: Ann, predict: CrossEncoder) returns (r: Result<Found, Error>)
      requires Valid()
      modifies this`embeddingModel, this`isEmbeddingGemma, this`rerankModel
      ensures Valid()
      ensures old(index).None? || old(documents) == [] ==> r == Ok(Found([], [], []))
      ensures old(index).Some? && old(documents) != [] ==>
        var useRerank := UseRerank(rerank, enableRerank);
        var hits := ann(old(index).value, query, RetrievalK(k, useRerank, multiplier, |old(documents)|));
        && r == Ranked(documents, metadata, enableRerank, query, k, useRerank, threshold, hits, predict)
        && embeddingModel.Some?
      ensures old(index).None? || old(documents) == [] ==>
        embeddingModel == old(embeddingModel) && isEmbeddingGemma == old(isEmbeddingGemma)
      ensures rerankModel == old(rerankModel) || (old(rerankModel).None? && enableRerank && rerankModel == Some(rerankModelName))
    {
      if index.None? || documents == [] {
        return Ok(Found([], [], []));
      }
      if embeddingModel.None? {
        var _ := LoadEmbeddingModel("");
      }
      var useRerank := UseRerank(rerank, enableRerank);
      var retrievalK := if useRerank then k * multiplier else k;
      retrievalK := Min(retrievalK, |documents|);
      var hits := ann(index.value, query, retrievalK);
      var filtered := FilterHits(documents, metadata, hits, threshold);
      if filtered.Err? {
        return filtered;
      }
      var f := filtered.value;
      if useRerank && f.documents != [] {
        r := RerankResults(query, f.documents, f.metadata, k, predict);
      } else {
        r := Ok(Found(Take(f.documents, k), Take(f.metadata, k), Take(f.scores, k)));
      }
    }

    /** `update_chunk_size`: the overlap changes only when one is given. */
    method UpdateChunkSize(newChunkSize: int, newOverlap: Option<int>)
      requires Valid()
      modifies this`chunkSize, this`chunkOverlap
      ensures Valid()
      ensures chunkSize == newChunkSize
      ensures chunkOverlap == if newOverlap.Some? then newOverlap.value else old(chunkOverlap)
    {
      chunkSize := newChunkSize;
      if newOverlap.Some? {
        chunkOverlap := newOverlap.value;
      }
    }

    /** `get_stats`. */
    function GetStats(): (s: Stats)
      reads this
      requires Valid()
      ensures s.totalDocuments == |documents|
      ensures s.embeddingModelKey in EmbeddingModels && s.embeddingModelName == EmbeddingModels[s.embeddingModelKey].modelName
      ensures s.rerankModel.Some? <==> s.rerankEnabled
      ensures s.rerankModelLoaded ==> s.rerankEnabled
      ensures s.totalDocuments > 0 ==> index.Some?
    {
      Stats(|documents|, embeddingModelKey, ModelConfig().modelName, ModelConfig().description, dimension,
            chunkSize, chunkOverlap, enableRerank, if enableRerank then Some(rerankModelName) else None,
            embeddingModel.Some?, rerankModel.Some?)
    }

    /** `switch_embedding_model`: ValueError for an unknown key, nothing for the current key;
        otherwise the store is cleared, the profile's dimension and chunk size are taken and the
        embedding model is dropped so that it is reloaded. */
    method SwitchEmbeddingModel(newKey: string) returns (r: Result<(), Error>)
      requires Valid()
      modifies this
      ensures Valid()
      ensures r.Err? <==> newKey !in EmbeddingModels
      ensures r.Err? ==> r.error == InvalidKey(newKey)
      ensures r.Err? || newKey == old(embeddingModelKey) ==>
        && embeddingModelKey == old(embeddingModelKey) && index == old(index)
        && documents == old(documents) && metadata == old(metadata)
        && dimension == old(dimension) && chunkSize == old(chunkSize)
        && embeddingModel == old(embeddingModel) && isEmbeddingGemma == old(isEmbeddingGemma)
      ensures r.Ok? && newKey != old(embeddingModelKey) ==>
        && embeddingModelKey == newKey
        && index == None && documents == [] && metadata == []
        && dimension == EmbeddingModels[newKey].dimension && chunkSize == EmbeddingModels[newKey].chunkSize
        && embeddingModel == None && !isEmbeddingGemma
      ensures chunkOverlap == old(chunkOverlap) && enableRerank == old(enableRerank)
      ensures rerankModelName == old(rerankModelName) && rerankModel == old(rerankModel)
    {
      TableKeys();
      if newKey !in EmbeddingModels {
        return Err(InvalidKey(newKey));
      }
      if newKey != embeddingModelKey {
        Clear();
        embeddingModelKey := newKey;
        dimension := EmbeddingModels[newKey].dimension;
        chunkSize := EmbeddingModels[newKey].chunkSize;
        embeddingModel := None;
        isEmbeddingGemma := false;
      }
      return Ok(());
    }

    /** `clear`: drops the index and empties both stores. */
    method Clear()
      requires Valid()
      modifies this`index, this`documents, this`metadata
      ensures Valid()
      ensures index == None && documents == [] && metadata == []
    {
      index := None;
      documents := [];
      metadata := [];
    }
  }

  datatype Stats = Stats(
    totalDocuments: nat,
    embeddingModelKey: string,
    embeddingModelName: string,
    embeddingModelDescription: string,
    dimension: int,
    chunkSize: int,
    chunkOverlap: int,
    rerankEnabled: bool,
    rerankModel: Option<string>,
    embeddingModelLoaded: bool,
    rerankModelLoaded: bool)
}
