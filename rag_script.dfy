/** The stand-alone PDF question-answering script: module-level state (the
    Chroma handle and the processed folder) and the functions that ingest a
    PDF, embed a question, retrieve, re-rank and answer. Unlike the engine
    classes, its ingestion lets every exception propagate. */
module RagScript {
  import opened Base
  import opened Text
  import opened Documents
  import opened VectorStores
  import opened DocumentLoading
  import opened TextChunking
  import opened DocumentIngestion
  import opened Ranking
  import opened Cleanup
  import opened AnswerGeneration

  const ScriptNotInitializedMessage: string := "Vector DB not initialized. Ingest PDF first."

  /** The splitter settings fixed in `ingest_pdf`. */
  const ScriptChunkSize: int := 1000

  const ScriptChunkOverlap: int := 200

  /** The `k` the script's own run retrieves with. */
  const DemoK: int := 2

  /** One `ingest_pdf` call: an already processed name is skipped without
      error; otherwise the first exception among loading, splitting,
      embedding and copying propagates. */
  function ScriptIngest(st: IngestState, name: string, prepared: Result<seq<Document>>, embedder: Embedder, copied: bool): (IngestState, Outcome)
  {
    if name in st.processed then (st, Pass)
    else if prepared.Err? then (st, Fail(prepared.error))
    else if !Embeddable(embedder, prepared.value) then (st, Fail(Raised("embedding")))
    else if !copied then (IngestState(Added(st.db, prepared.value), st.processed), Fail(Raised("copy")))
    else (IngestState(Added(st.db, prepared.value), st.processed + {name}), Pass)
  }

  /** The script and `DocumentIngestor.ingest_pdf` leave the same state
      behind; the script reports success exactly when the ingestor does or
      the file was already processed, and reports the failing step's
      exception where the ingestor only returns `False`. */
  lemma ScriptIngestMatchesEngine(st: IngestState, name: string, prepared: Result<seq<Document>>, embedder: Embedder, copied: bool)
    ensures var (st1, outcome) := ScriptIngest(st, name, prepared, embedder, copied);
      var (st2, ok) := Ingest(st, name, prepared, embedder, copied);
      && st1 == st2
      && (outcome.Pass? <==> ok || name in st.processed)
      && (name !in st.processed && prepared.Err? ==> outcome == Fail(prepared.error))
  {
  }

  /** A second run of the script on the same file after a successful one
      changes nothing and raises nothing. */
  lemma ScriptIngestIdempotent(st: IngestState, name: string, prepared: Result<seq<Document>>, embedder: Embedder,
                               prepared2: Result<seq<Document>>, copied2: bool)
    requires ScriptIngest(st, name, prepared, embedder, true).1.Pass?
    ensures var st' := ScriptIngest(st, name, prepared, embedder, true).0;
      ScriptIngest(st', name, prepared2, embedder, copied2) == (st', Pass)
  {
    var st' := ScriptIngest(st, name, prepared, embedder, true).0;
    assert name in st'.processed;
  }

  /** What `retrieve_top_chunks` returns. */
  function ScriptRetrieved(db: Option<seq<Document>>, search: Search, queryVector: Vector, k: int): Result<seq<Document>>
  {
    if db.None? then Err(ValueError(ScriptNotInitializedMessage)) else Ok(search(db.value, queryVector, k))
  }

  /** The outcome of the script's own run: ingest the PDF, embed the question
      (an embedding exception propagates here), retrieve two chunks and
      answer without re-ranking. */
  function DemoAnswer(st: IngestState, name: string, prepared: Result<seq<Document>>, embedder: Embedder, copied: bool,
                      search: Search, llm: Llm, question: string): Result<string>
  {
    var (st', outcome) := ScriptIngest(st, name, prepared, embedder, copied);
    if outcome.Fail? then Err(outcome.error)
    else match embedder(question)
      case None => Err(Raised("embedding"))
      case Some(v) =>
        match ScriptRetrieved(st'.db, search, v, DemoK)
        case Err(e) => Err(e)
        case Ok(chunks) => Ok(Answer(Some(llm), question, chunks))
  }

  /** When the run ingests its PDF for the first time and every step works,
      it answers from at most two chunks of a store that now holds that
      PDF's chunks. */
  lemma DemoAnswerSpec(st: IngestState, name: string, chunks: seq<Document>, embedder: Embedder,
                       search: Search, llm: Llm, question: string)
    requires name !in st.processed && Embeddable(embedder, chunks) && embedder(question).Some?
    ensures var st' := ScriptIngest(st, name, Ok(chunks), embedder, true).0;
      && st'.db.Some? && chunks <= st'.db.value[|st'.db.value| - |chunks|..]
      && DemoAnswer(st, name, Ok(chunks), embedder, true, search, llm, question)
         == Ok(Answer(Some(llm), question, search(st'.db.value, embedder(question).value, DemoK)))
  {
    AddedSpec(st.db, chunks);
  }

  class Script {
    const dbFolder: Path
    const processedFolder: Path
    const embedder: Embedder
    const search: Search
    const primary: PdfLoader
    const fallback: PdfLoader
    const splitter: Splitter
    const copier: Copier
    /** `gemini_llm` */
    const llm: Llm
    /** `vector_db`: `None`, or the chunks the Chroma collection holds. */
    var vectorDb: Option<seq<Document>>
    /** The names of the files in the processed folder. */
    var processed: set<string>

    /** The module-level set-up: the processed folder lies inside the
        database folder, and the collection is opened exactly when its
        database file exists. */
    constructor(dbFolder: Path, embedder: Embedder, search: Search, primary: PdfLoader, fallback: PdfLoader,
                splitter: Splitter, copier: Copier, llm: Llm, files: set<Path>, persisted: seq<Document>, existing: set<string>)
      ensures this.dbFolder == dbFolder && processedFolder == Child(dbFolder, "processed")
      ensures this.embedder == embedder && this.search == search && this.primary == primary && this.fallback == fallback
      ensures this.splitter == splitter && this.copier == copier && this.llm == llm
      ensures vectorDb.Some? <==> Child(dbFolder, DbFileName) in files
      ensures vectorDb.Some? ==> vectorDb.value == persisted
      ensures processed == existing
    {
      this.dbFolder := dbFolder;
      processedFolder := Child(dbFolder, "processed");
      this.embedder := embedder;
      this.search := search;
      this.primary := primary;
      this.fallback := fallback;
      this.splitter := splitter;
      this.copier := copier;
      this.llm := llm;
      vectorDb := if Child(dbFolder, DbFileName) in files then Some(persisted) else None;
      processed := existing;
    }

    /** `ingest_pdf` */
    method IngestPdf(pdfPath: Path) returns (outcome: Outcome)
      modifies this
      ensures (IngestState(vectorDb, processed), outcome) ==
        ScriptIngest(IngestState(old(vectorDb), old(processed)), Name(pdfPath),
                     Prepared(primary, fallback, splitter, ScriptChunkSize, ScriptChunkOverlap, pdfPath),
                     embedder, copier(pdfPath, Child(processedFolder, Name(pdfPath))))
    {
      var processedFile := Child(processedFolder, Name(pdfPath));
      if Name(processedFile) in processed {
        return Pass;
      }
      var documents := primary(pdfPath);
      if documents.Err? {
        documents := fallback(pdfPath);
        if documents.Err? {
          return Fail(documents.error);
        }
      }
      var split := splitter(ScriptChunkSize, ScriptChunkOverlap, documents.value);
      if split.Err? {
        return Fail(split.error);
      }
      var raw := split.value;
      var chunks: seq<Document> := [];
      var i := 0;
      while i < |raw|
        invariant 0 <= i <= |raw|
        invariant chunks == Stamped(raw, Name(pdfPath))[..i]
      {
        var metadata := if raw[i].metadata.None? then map[] else raw[i].metadata.value;
        metadata := metadata["source" := MStr(Name(pdfPath))]["chunk_index" := MInt(i)];
        chunks := chunks + [Document(raw[i].text, metadata)];
        i := i + 1;
      }
      assert Stamped(raw, Name(pdfPath))[..|raw|] == Stamped(raw, Name(pdfPath));
      if !Embeddable(embedder, chunks) {
        return Fail(Raised("embedding"));
      }
      if vectorDb.None? {
        vectorDb := Some(chunks);
      } else {
        vectorDb := Some(vectorDb.value + chunks);
      }
      if !copier(pdfPath, processedFile) {
        return Fail(Raised("copy"));
      }
      processed := processed + {Name(processedFile)};
      outcome := Pass;
    }

    /** `embed_query`: the embedding, or `None` when the model raises; the
        exception does not propagate. */
    method EmbedQuery(query: string) returns (r: Option<Vector>)
      ensures r.Some? <==> embedder(query).Some?
      ensures r.Some? ==> r.value == embedder(query).value
    {
      r := embedder(query);
    }

    /** `retrieve_top_chunks`: a `ValueError` before anything was ingested,
        Chroma's answer with the same `k` after it. */
    method RetrieveTopChunks(queryVector: Vector, k: int := 3) returns (r: Result<seq<Document>>)
      ensures r == ScriptRetrieved(vectorDb, search, queryVector, k)
      ensures r.Err? <==> vectorDb.None?
      ensures r.Err? ==> r.error.ValueError? && r.error.message == ScriptNotInitializedMessage
    {
      if vectorDb.None? {
        return Err(ValueError(ScriptNotInitializedMessage));
      }
      r := Ok(search(vectorDb.value, queryVector, k));
    }

    /** `re_rank_chunks`: one scoring call per chunk, in order, with the
        script's prompt; then the stable sort and the `top_k` prefix.
        `prompts` are the calls made. */
    method ReRankChunks(query: string, retrievedChunks: seq<Document>, topK: int := 3)
      returns (top: seq<Document>, ghost prompts: seq<Prompt>)
      ensures top == Rerank(llm, ScriptIndent, query, retrievedChunks, topK)
      ensures |prompts| == |retrievedChunks|
      ensures forall i :: 0 <= i < |prompts| ==> prompts[i] == ScoreRequest(ScriptIndent, query, retrievedChunks[i])
    {
      var scoredChunks;
      scoredChunks, prompts := ScoreChunks(llm, Requester(ScriptIndent, query), ScoreOf, retrievedChunks);
      scoredChunks := SortDesc(scoredChunks);
      top := Docs(Take(scoredChunks, topK));
    }

    /** The context loop of `llm_answer`: one block per chunk, in order,
        exactly as `format_context` builds it. */
    method ScriptContext(topChunks: seq<Document>) returns (contextText: string)
      ensures contextText == Context(topChunks)
    {
      contextText := "";
      var i := 0;
      while i < |topChunks|
        invariant 0 <= i <= |topChunks|
        invariant contextText == Context(topChunks[..i])
      {
        var chunk := topChunks[i];
        var src := Label(chunk.metadata, "source", "unknown");
        var idx := Label(chunk.metadata, "chunk_index", "?");
        var fullContent := CleanChunkText(chunk.text);
        var preview := Preview(fullContent);
        assert BlockText(src, idx, preview, fullContent) == Block(chunk);
        contextText := contextText + BlockText(src, idx, preview, fullContent);
        ContextSnoc(topChunks, i);
        i := i + 1;
      }
      assert topChunks[..|topChunks|] == topChunks;
    }

    /** `llm_answer`: the same context, prompt and fallback as
        `AnswerGenerator.generate_answer` with that model. */
    method LlmAnswer(query: string, topChunks: seq<Document>, model: Llm) returns (answer: string)
      ensures answer == Answer(Some(model), query, topChunks)
      ensures var reply := model(AnswerPrompt(Context(topChunks), query));
        && (reply.Failure? ==> answer == FallbackAnswer)
        && (reply.Content? ==> answer == Strip(reply.content))
    {
      var contextText := ScriptContext(topChunks);
      var response := model(AnswerPrompt(contextText, query));
      match response {
        case Failure =>
          answer := FallbackAnswer;
        case Content(c) =>
          answer := Strip(c);
      }
    }

    /** The script's own run on `pdfPath` with `question`. */
    method Demo(pdfPath: Path, question: string) returns (r: Result<string>)
      modifies this
      ensures r == DemoAnswer(IngestState(old(vectorDb), old(processed)), Name(pdfPath),
                              Prepared(primary, fallback, splitter, ScriptChunkSize, ScriptChunkOverlap, pdfPath),
                              embedder, copier(pdfPath, Child(processedFolder, Name(pdfPath))), search, llm, question)
    {
      var ingested := IngestPdf(pdfPath);
      if ingested.Fail? {
        return Err(ingested.error);
      }
      var queryVector := embedder(question);
      if queryVector.None? {
        return Err(Raised("embedding"));
      }
      var chunks := RetrieveTopChunks(queryVector.value, DemoK);
      if chunks.Err? {
        return Err(chunks.error);
      }
      var finalAnswer := LlmAnswer(question, chunks.value, llm);
      r := Ok(finalAnswer);
    }
  }
}
