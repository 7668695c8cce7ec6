/** `Retriever`: embeds the question, asks the vector store for the nearest
    chunks, and optionally re-ranks them with the LLM. */
module Retrieval {
  import opened Base
  import opened Text
  import opened Documents
  import opened VectorStores
  import opened Ranking

  /** What `retrieve` returns: the embedding model's exception, or what the
      store's search returns for that vector and the same `k`. */
  function Retrieved(embedder: Embedder, db: Option<seq<Document>>, search: Search, query: string, k: int): Result<seq<Document>>
  {
    match embedder(query)
    case None => Err(Raised("embedding"))
    case Some(v) =>
      if db.None? then Err(ValueError(NotInitializedMessage)) else Ok(search(db.value, v, k))
  }

  /** What `re_rank` returns: the first `top_k` chunks unchanged when there
      is no LLM, otherwise the LLM ranking with the retriever's prompt. */
  function Reranked(llm: Option<Llm>, query: string, chunks: seq<Document>, topK: int): seq<Document>
  {
    match llm
    case None => Take(chunks, topK)
    case Some(l) => Rerank(l, EngineIndent, query, chunks, topK)
  }

  /** Re-ranking returns `min(top_k, n)` chunks, each one of the input
      chunks; without an LLM they are the input's prefix in input order. */
  lemma RerankedSpec(llm: Option<Llm>, query: string, chunks: seq<Document>, topK: int)
    ensures var r := Reranked(llm, query, chunks, topK);
      && (topK >= 0 ==> |r| == Min(topK, |chunks|))
      && (forall i :: 0 <= i < |r| ==> r[i] in chunks)
      && (llm.None? ==> r <= chunks)
  {
    var r := Reranked(llm, query, chunks, topK);
    if llm.Some? {
      RerankFromInput(llm.value, EngineIndent, query, chunks, topK);
    } else {
      forall i | 0 <= i < |r| ensures r[i] in chunks {
        assert r[i] == chunks[i];
      }
    }
  }

  class Retriever {
    const store: VectorStore
    const embedder: Embedder
    const llm: Option<Llm>

    constructor(store: VectorStore, embedder: Embedder, llm: Option<Llm> := None)
      ensures this.store == store && this.embedder == embedder && this.llm == llm
    {
      this.store := store;
      this.embedder := embedder;
      this.llm := llm;
    }

    /** `retrieve`: the embedding model's exception propagates, and so does
        the store's `ValueError` before any document was ingested. */
    method Retrieve(query: string, k: int := 3) returns (r: Result<seq<Document>>)
      ensures r == Retrieved(embedder, store.db, store.search, query, k)
    {
      var queryVector := embedder(query);
      if queryVector.None? {
        return Err(Raised("embedding"));
      }
      r := store.SimilaritySearchByVector(queryVector.value, k);
    }

    /** `re_rank`: one scoring call per chunk, in order, whose prompt holds
        the chunk's first 500 characters; then the stable sort and the
        `top_k` prefix. `prompts` are the calls made. */
    method ReRank(query: string, retrievedChunks: seq<Document>, topK: int := 3)
      returns (top: seq<Document>, ghost prompts: seq<Prompt>)
      ensures top == Reranked(llm, query, retrievedChunks, topK)
      ensures llm.None? ==> prompts == []
      ensures llm.Some? ==> |prompts| == |retrievedChunks|
      ensures llm.Some? ==> forall i :: 0 <= i < |prompts| ==> prompts[i] == ScoreRequest(EngineIndent, query, retrievedChunks[i])
    {
      prompts := [];
      if llm.None? {
        return Take(retrievedChunks, topK), prompts;
      }
      var l := llm.value;
      var scoredChunks;
      scoredChunks, prompts := ScoreChunks(l, Requester(EngineIndent, query), ScoreOf, retrievedChunks);
      scoredChunks := SortDesc(scoredChunks);
      top := Docs(Take(scoredChunks, topK));
    }
  }
}
