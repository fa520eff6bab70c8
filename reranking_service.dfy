/** `RerankingService`: reorders retrieved documents by a cross-encoder's relevance scores.

    The cross-encoder is an oracle: `Loader` says whether a model of a given name loads, and
    `Predictor` gives the scores the named model assigns to the (query, content) pairs, or None
    when `predict` raises. The documents are the caller's objects: the returned list holds the
    same objects, and the service writes `rerank_score` and `rerank_position` into their
    metadata. */
module Reranking {
  import opened Wrappers
  import opened TextUtil
  import opened Ranking
  import opened Documents

  const DefaultRerankerModel := "cross-encoder/ms-marco-MiniLM-L-6-v2"

  /** `config.ENABLE_RERANKING`. */
  const EnableReranking := true

  type Loader = string -> bool

  type Predictor = (string, string, seq<string>) -> Option<seq<real>>

  /** `s[:top_k] if top_k else s`, with 0 standing for a falsy `top_k` (None or 0). */
  function Limit<T>(s: seq<T>, topK: int): (r: seq<T>)
    ensures topK == 0 ==> r == s
    ensures topK > 0 ==> |r| == Min(topK, |s|)
    ensures topK < 0 ==> |r| == Max(0, |s| + topK)
    ensures r == s[..|r|]
  {
    if topK != 0 then Take(s, topK) else s
  }

  /** The positions the reranked list takes, best first: the stable descending sort of the scores,
      cut by `Limit`. Each position at most once, scores non-increasing, equal scores in input
      order, no position left out scoring higher than one taken, and every position taken when
      there is no limit. */
  function RerankOrder(keys: seq<real>, topK: int): (order: seq<nat>)
    ensures InRange(order, |keys|)
    ensures |order| == |Limit(keys, topK)|
    ensures forall i, j :: 0 <= i < j < |order| ==> order[i] != order[j]
    ensures forall i, j :: 0 <= i < j < |order| ==> keys[order[i]] >= keys[order[j]]
    ensures forall i, j :: 0 <= i < j < |order| && keys[order[i]] == keys[order[j]] ==> order[i] < order[j]
    ensures forall p, i :: 0 <= p < |keys| && p !in order && 0 <= i < |order| ==> keys[p] <= keys[order[i]]
    ensures topK == 0 ==> forall p :: 0 <= p < |keys| ==> p in order
  {
    var sorted := SortIndices(keys);
    var order := Limit(sorted, topK);
    StablePrefixIsTopSelection(keys, |order|);
    assert Min(|order|, |keys|) == |order|;
    order
  }

  /** The metadata a document ends up with once tagged with a score and a position. */
  function Tag(m: Option<Metadata>, score: real, position: int): Metadata {
    (if m.Some? then m.value else map[])["rerank_score" := Real(score)]["rerank_position" := Int(position)]
  }

  /** Tagging again replaces both entries: only the last tag counts. */
  lemma TagTwice(m: Option<Metadata>, s1: real, p1: int, s2: real, p2: int)
    ensures Tag(Some(Tag(m, s1, p1)), s2, p2) == Tag(m, s2, p2)
  {
    var base := if m.Some? then m.value else map[];
    assert Tag(Some(Tag(m, s1, p1)), s2, p2).Keys == Tag(m, s2, p2).Keys;
  }

  /** The last position before `i` at which `r` holds `d`, or -1. */
  function LastBefore(r: seq<Document>, d: Document, i: nat): (j: int)
    requires i <= |r|
    ensures -1 <= j < i && (j >= 0 ==> r[j] == d)
    ensures forall k :: j < k < i ==> r[k] != d
  {
    if i == 0 then -1 else if r[i - 1] == d then i - 1 else LastBefore(r, d, i - 1)
  }

  /** A document's metadata after the first `i` returned documents were tagged: tagged with the
      score and position of its last occurrence among them, or untouched. */
  function AfterTagging(m0: Option<Metadata>, r: seq<Document>, scores: seq<real>, d: Document, i: nat): Option<Metadata>
    requires i <= |r| && i <= |scores|
  {
    var j := LastBefore(r, d, i);
    if j < 0 then m0 else Some(Tag(m0, scores[j], j + 1))
  }

  /** Tagging the document at position `i` changes that document's metadata only. */
  lemma TagStep(m0: Option<Metadata>, r: seq<Document>, scores: seq<real>, i: nat, d: Document)
    requires i < |r| <= |scores|
    ensures AfterTagging(m0, r, scores, d, i + 1) ==
      if d == r[i] then Some(Tag(AfterTagging(m0, r, scores, d, i), scores[i], i + 1))
      else AfterTagging(m0, r, scores, d, i)
  {
    var j := LastBefore(r, d, i);
    if d == r[i] && j >= 0 {
      TagTwice(m0, scores[j], j + 1, scores[i], i + 1);
    }
  }

  /** A document returned once carries its own score and its 1-based position. */
  lemma TaggedOnce(m0: Option<Metadata>, r: seq<Document>, scores: seq<real>, i: nat)
    requires i < |r| <= |scores|
    requires forall k :: 0 <= k < |r| && k != i ==> r[k] != r[i]
    ensures AfterTagging(m0, r, scores, r[i], |r|) == Some(Tag(m0, scores[i], i + 1))
  {
  }

  function Contents(docs: seq<Document>): (c: seq<string>)
    reads set k | 0 <= k < |docs| :: docs[k]
    ensures |c| == |docs| && forall k :: 0 <= k < |docs| ==> c[k] == docs[k].pageContent
  {
    seq(|docs|, k reads docs requires 0 <= k < |docs| => docs[k].pageContent)
  }

  /** What a call of `rerank_documents` returns, and the scores written into the returned
      documents' metadata, position by position (none on a fallback). */
  datatype Outcome = Outcome(docs: seq<Document>, scores: seq<real>)

  /** The outcome for the scores `reply` (None when `predict` raised): the fallback on None,
      otherwise the documents in `RerankOrder` of the scores of the first `min(n, |scores|)`. */
  function Rerank(documents: seq<Document>, topK: int, reply: Option<seq<real>>): (o: Outcome)
    ensures reply.Some? ==> |o.docs| == |o.scores|
    ensures |o.scores| <= |o.docs|
  {
    if reply.None? then Outcome(Limit(documents, topK), [])
    else
      var keys := reply.value[..Min(|documents|, |reply.value|)];
      var order := RerankOrder(keys, topK);
      Outcome(Select(documents[..|keys|], order), Select(keys, order))
  }

  /** The fallback returns the input cut by `Limit` and tags nothing; scores give the documents
      of the `RerankOrder` of the scores, each with its own score. */
  lemma RerankSpec(documents: seq<Document>, topK: int, reply: Option<seq<real>>)
    ensures var o := Rerank(documents, topK, reply);
      && (reply.None? ==> o == Outcome(Limit(documents, topK), []))
      && (reply.Some? ==>
        var keys := reply.value[..Min(|documents|, |reply.value|)];
        var order := RerankOrder(keys, topK);
        && |o.docs| == |o.scores| == |order|
        && forall i :: 0 <= i < |order| ==> o.docs[i] == documents[order[i]] && o.scores[i] == keys[order[i]])
  {
  }

  /** `rerank_documents` as a whole, for a service whose loaded model is `reranker`: skipped when
      reranking is disabled, no model is loaded or there are no documents. */
  function RerankOutcome(reranker: Option<string>, query: string, documents: seq<Document>, contents: seq<string>,
                         topK: int, predict: Predictor): (o: Outcome)
    ensures |o.scores| <= |o.docs|
    ensures !EnableReranking || reranker.None? || documents == [] ==> o == Outcome(Limit(documents, topK), [])
  {
    if !EnableReranking || reranker.None? || documents == [] then Outcome(Limit(documents, topK), [])
    else Rerank(documents, topK, predict(reranker.value, query, contents))
  }

  /** On a successful rerank of distinct documents, the i-th returned document carries its own
      score and the position i + 1. */
  lemma {:induction false} RerankTagsOwnScore(documents: seq<Document>, topK: int, scores: seq<real>, m0: Option<Metadata>, i: nat)
    requires forall a, b :: 0 <= a < b < |documents| ==> documents[a] != documents[b]
    requires i < |Rerank(documents, topK, Some(scores)).docs|
    ensures var o := Rerank(documents, topK, Some(scores));
      AfterTagging(m0, o.docs, o.scores, o.docs[i], |o.scores|) == Some(Tag(m0, o.scores[i], i + 1))
  {
    var o := Rerank(documents, topK, Some(scores));
    RerankSpec(documents, topK, Some(scores));
    var keys := scores[..Min(|documents|, |scores|)];
    var order := RerankOrder(keys, topK);
    forall k | 0 <= k < |o.docs| && k != i
      ensures o.docs[k] != o.docs[i]
    {
      if k < i { assert order[k] != order[i]; } else { assert order[i] != order[k]; }
    }
    TaggedOnce(m0, o.docs, o.scores, i);
  }

  class RerankingService {
    /** `_reranker`: the loaded cross-encoder, by the name it was loaded from. */
    var reranker: Option<string>
    var modelName: string

    constructor ()
      ensures reranker == None && modelName == DefaultRerankerModel
    {
      reranker := None;
      modelName := DefaultRerankerModel;
    }

    /** The `reranker` property: loads the model on first use; a failed load leaves it None. */
    method Reranker(loads: Loader) returns (m: Option<string>)
      modifies this`reranker
      ensures reranker == if old(reranker).Some? then old(reranker) else if loads(modelName) then Some(modelName) else None
      ensures m == reranker
    {
      if reranker.None? {
        if loads(modelName) {
          reranker := Some(modelName);
        } else {
          reranker := None;
        }
      }
      return reranker;
    }

    /** Writes `rerank_score` and `rerank_position` into the metadata of each returned document. */
    method TagDocuments(r: seq<Document>, scores: seq<real>, ghost documents: seq<Document>)
      requires |r| <= |scores|
      requires forall k :: 0 <= k < |r| ==> r[k] in documents
      modifies documents
      ensures forall d :: d in documents ==> d.metadata == AfterTagging(old(d.metadata), r, scores, d, |r|)
      ensures forall d :: d in documents ==> d.pageContent == old(d.pageContent)
    {
      for i := 0 to |r|
        invariant forall d :: d in documents ==> d.metadata == AfterTagging(old(d.metadata), r, scores, d, i)
        invariant forall d :: d in documents ==> d.pageContent == old(d.pageContent)
      {
        var doc := r[i];
        ghost var before := doc.metadata;
        if doc.metadata.None? {
          doc.metadata := Some(map[]);
        }
        doc.metadata := Some(doc.metadata.value["rerank_score" := Real(scores[i])]["rerank_position" := Int(i + 1)]);
        assert doc.metadata == Some(Tag(before, scores[i], i + 1));
        forall d | d in documents ensures d.metadata == AfterTagging(old(d.metadata), r, scores, d, i + 1) {
          TagStep(old(d.metadata), r, scores, i, d);
        }
      }
    }

    /** `rerank_documents`. Reranking is skipped (the input, cut by `Limit`) when it is disabled,
        the model does not load or there are no documents; a raising `predict` falls back the same
        way. Otherwise the documents are returned in the stable descending order of their scores,
        cut by `Limit`, and each returned one is tagged with its own score and position. */
    method RerankDocuments(query: string, documents: seq<Document>, topK: int, loads: Loader, predict: Predictor)
      returns (r: seq<Document>)
      modifies this`reranker, documents
      ensures reranker == if old(reranker).Some? then old(reranker) else if loads(modelName) then Some(modelName) else None
      ensures forall d :: d in documents ==> d.pageContent == old(d.pageContent)
      ensures var o := RerankOutcome(reranker, query, documents, old(Contents(documents)), topK, predict);
        && r == o.docs
        && forall d :: d in documents ==> d.metadata == AfterTagging(old(d.metadata), o.docs, o.scores, d, |o.scores|)
    {
      ghost var contents := Contents(documents);
      var model := Reranker(loads);
      ghost var o := RerankOutcome(model, query, documents, contents, topK, predict);
      if !EnableReranking || model.None? || documents == [] {
        return Limit(documents, topK);
      }
      var pairs := Contents(documents);
      var scores := predict(model.value, query, pairs);
      assert o == Rerank(documents, topK, scores);
      if scores.None? {
        RerankSpec(documents, topK, scores);
        return Limit(documents, topK);
      }
      r := ApplyScores(documents, topK, scores.value);
    }

    /** The successful end of `rerank_documents`: the documents in the order of their scores, each
        returned one tagged. */
    method ApplyScores(documents: seq<Document>, topK: int, scores: seq<real>) returns (r: seq<Document>)
      modifies documents
      ensures forall d :: d in documents ==> d.pageContent == old(d.pageContent)
      ensures var o := Rerank(documents, topK, Some(scores));
        && r == o.docs
        && forall d :: d in documents ==> d.metadata == AfterTagging(old(d.metadata), o.docs, o.scores, d, |o.scores|)
    {
      var o := Rerank(documents, topK, Some(scores));
      RerankSpec(documents, topK, Some(scores));
      r := o.docs;
      TagDocuments(r, o.scores, documents);
    }

    /** `set_reranker_model`: a new name drops the loaded model so that it is reloaded. */
    method SetRerankerModel(name: string)
      modifies this
      ensures modelName == name
      ensures reranker == if name != old(modelName) then None else old(reranker)
    {
      if name != modelName {
        modelName := name;
        reranker := None;
      }
    }
  }
}
