/** `RAGPipeline`: wires one vector store into an ingestor and a retriever,
    and answers questions by retrieving, optionally re-ranking, and
    generating. */
module RagPipelines {
  import opened Base
  import opened Documents
  import opened VectorStores
  import opened DocumentLoading
  import opened TextChunking
  import opened DocumentIngestion
  import opened Retrieval
  import opened AnswerGeneration

  /** The number of chunks kept after re-ranking: `rerank_top_k if
      rerank_top_k else k`, where both `None` and `0` are falsy. */
  function EffectiveTopK(k: int, rerankTopK: Option<int>): int
  {
    if rerankTopK.Some? && rerankTopK.value != 0 then rerankTopK.value else k
  }

  /** The chunks the generator is given: the retrieved ones, or their
      re-ranking with the effective `top_k`. */
  function Chosen(llm: Option<Llm>, chunks: seq<Document>, question: string, k: int,
                  useReranking: bool, rerankTopK: Option<int>): seq<Document>
  {
    if useReranking then Reranked(llm, question, chunks, EffectiveTopK(k, rerankTopK)) else chunks
  }

  /** Without re-ranking the generator sees exactly the retrieved chunks and
      `rerank_top_k` plays no part; with it, it sees `min(top_k, n)` of the
      retrieved chunks, where a missing or zero `rerank_top_k` means `k`. */
  lemma ChosenSpec(llm: Option<Llm>, chunks: seq<Document>, question: string, k: int,
                   useReranking: bool, rerankTopK: Option<int>, other: Option<int>)
    ensures var c := Chosen(llm, chunks, question, k, useReranking, rerankTopK);
      && (!useReranking ==> c == chunks && Chosen(llm, chunks, question, k, useReranking, other) == chunks)
      && (forall i :: 0 <= i < |c| ==> c[i] in chunks)
      && ((rerankTopK.None? || rerankTopK == Some(0)) ==> EffectiveTopK(k, rerankTopK) == k)
      && (useReranking && EffectiveTopK(k, rerankTopK) >= 0 ==> |c| == Min(EffectiveTopK(k, rerankTopK), |chunks|))
  {
    if useReranking {
      RerankedSpec(llm, question, chunks, EffectiveTopK(k, rerankTopK));
    }
  }

  /** What `query` returns for the result of retrieval: a retrieval error
      is passed on unchanged and never turned into an answer, and a
      successful retrieval is always answered. */
  function Answered(llm: Option<Llm>, retrieved: Result<seq<Document>>, question: string, k: int,
                    useReranking: bool, rerankTopK: Option<int>): (r: Result<string>)
    ensures r.Err? <==> retrieved.Err?
    ensures retrieved.Err? ==> r.error == retrieved.error
  {
    match retrieved
    case Err(e) => Err(e)
    case Ok(chunks) => Ok(Answer(llm, question, Chosen(llm, chunks, question, k, useReranking, rerankTopK)))
  }

  /** `get_pipeline_status` */
  datatype PipelineStatus = PipelineStatus(vectorDbInitialized: bool, dbFolder: Path, processedFolder: Path)

  class RagPipeline {
    const dbFolder: Path
    const processedFolder: Path
    const store: VectorStore
    const ingestor: DocumentIngestor
    const retriever: Retriever
    const generator: AnswerGenerator

    /** The components share one store, the processed folder sits inside
        the database folder, and retrieval and generation use one model. */
    ghost predicate Valid()
      reads this, ingestor, ingestor.loader, retriever, generator
    {
      && processedFolder == Child(dbFolder, "processed")
      && ingestor.store == store && retriever.store == store
      && ingestor.processedFolder == processedFolder
      && ingestor.loader.Valid()
      && retriever.llm == generator.llm
    }

    constructor(dbFolder: Path, embedder: Embedder, llm: Option<Llm>,
                search: Search, files: set<Path>, persisted: seq<Document>,
                primary: PdfLoader, fallback: PdfLoader, splitter: Splitter, copier: Copier, existing: set<string>,
                chunkSize: int := 1000, chunkOverlap: int := 200)
      ensures Valid()
      ensures this.dbFolder == dbFolder
      ensures fresh(store) && fresh(ingestor) && fresh(ingestor.loader) && fresh(retriever) && fresh(generator)
      ensures store.db.Some? <==> Child(dbFolder, DbFileName) in files
      ensures store.embedder == embedder && retriever.embedder == embedder && generator.llm == llm
      ensures ingestor.chunker.chunkSize == chunkSize && ingestor.chunker.chunkOverlap == chunkOverlap
      ensures ingestor.processed == existing
    {
      this.dbFolder := dbFolder;
      processedFolder := Child(dbFolder, "processed");
      var vs := new VectorStore(dbFolder, embedder, search, files, persisted);
      store := vs;
      ingestor := new DocumentIngestor(vs, Child(dbFolder, "processed"), primary, fallback, splitter, copier, existing,
                                       chunkSize, chunkOverlap);
      retriever := new Retriever(vs, embedder, llm);
      generator := new AnswerGenerator(llm);
    }

    /** `ingest_document`: exactly what the ingestor reports. */
    method IngestDocument(pdfPath: Path) returns (ok: bool)
      requires Valid()
      modifies ingestor, store, ingestor.loader
      ensures Valid()
      ensures (IngestState(store.db, ingestor.processed), ok) ==
        Ingest(IngestState(old(store.db), old(ingestor.processed)), Name(pdfPath),
               Prepared(ingestor.loader.primary, ingestor.loader.fallback, ingestor.chunker.splitter,
                        ingestor.chunker.chunkSize, ingestor.chunker.chunkOverlap, pdfPath),
               store.embedder, ingestor.copier(pdfPath, Child(processedFolder, Name(pdfPath))))
    {
      ok := ingestor.IngestPdf(pdfPath);
    }

    /** The part of `query` after a successful retrieval: re-rank when asked
        to, then generate from the chosen chunks. */
    method Respond(question: string, chunks: seq<Document>, k: int, useReranking: bool, rerankTopK: Option<int>)
      returns (answer: string)
      requires Valid()
      ensures answer == Answer(generator.llm, question, Chosen(generator.llm, chunks, question, k, useReranking, rerankTopK))
    {
      var chosen := chunks;
      if useReranking {
        var topK := if rerankTopK.Some? && rerankTopK.value != 0 then rerankTopK.value else k;
        ghost var prompts;
        chosen, prompts := retriever.ReRank(question, chosen, topK);
      }
      assert chosen == Chosen(generator.llm, chunks, question, k, useReranking, rerankTopK);
      answer := generator.GenerateAnswer(question, chosen);
    }

    /** `query` */
    method Query(question: string, k: int := 3, useReranking: bool := false, rerankTopK: Option<int> := None)
      returns (r: Result<string>)
      requires Valid()
      ensures r == Answered(generator.llm, Retrieved(retriever.embedder, store.db, store.search, question, k),
                            question, k, useReranking, rerankTopK)
    {
      var chunks := retriever.Retrieve(question, k);
      if chunks.Err? {
        return Err(chunks.error);
      }
      var answer := Respond(question, chunks.value, k, useReranking, rerankTopK);
      r := Ok(answer);
    }

    method GetPipelineStatus() returns (status: PipelineStatus)
      ensures status.vectorDbInitialized <==> store.db.Some?
      ensures status.dbFolder == dbFolder && status.processedFolder == processedFolder
    {
      var initialized := store.IsInitialized();
      status := PipelineStatus(initialized, dbFolder, processedFolder);
    }
  }
}
