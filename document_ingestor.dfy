/** `DocumentIngestor`: the per-file state machine that loads, chunks and
    stores a PDF and then marks it processed by copying it into the
    processed folder. A file is known only by its base name. */
module DocumentIngestion {
  import opened Base
  import opened Documents
  import opened VectorStores
  import opened DocumentLoading
  import opened TextChunking

  /** `copy2(src, dst)`: whether the copy succeeds. */
  type Copier = (Path, Path) -> bool

  /** What ingestion changes: the store's collection and the names of the
      files in the processed folder. */
  datatype IngestState = IngestState(db: Option<seq<Document>>, processed: set<string>)

  /** The chunks of a file: load with fallback, then split and stamp with
      the file's name. */
  function Prepared(primary: PdfLoader, fallback: PdfLoader, splitter: Splitter, chunkSize: int, chunkOverlap: int, path: Path): Result<seq<Document>>
  {
    match Load(primary, fallback, path)
    case Err(e) => Err(e)
    case Ok(documents) => Chunk(splitter, chunkSize, chunkOverlap, documents, Name(path))
  }

  /** One `ingest_pdf` call: the new state and the returned flag, given the
      file's chunks (or the exception preparing them raised), the embedding
      model and whether the copy succeeds. */
  function Ingest(st: IngestState, name: string, prepared: Result<seq<Document>>, embedder: Embedder, copied: bool): (IngestState, bool)
  {
    if name in st.processed then (st, false)
    else if prepared.Err? || !Embeddable(embedder, prepared.value) then (st, false)
    else if !copied then (IngestState(Added(st.db, prepared.value), st.processed), false)
    else (IngestState(Added(st.db, prepared.value), st.processed + {name}), true)
  }

  /** `True` exactly when every step succeeded; then the store holds the
      file's chunks once more at its end and the name is processed. A
      failure before the add changes nothing; a failed copy keeps the added
      chunks but leaves the name unprocessed. */
  lemma IngestSpec(st: IngestState, name: string, prepared: Result<seq<Document>>, embedder: Embedder, copied: bool)
    ensures var (st', ok) := Ingest(st, name, prepared, embedder, copied);
      && (ok <==> name !in st.processed && prepared.Ok? && Embeddable(embedder, prepared.value) && copied)
      && (ok ==> st'.processed == st.processed + {name}
                 && st'.db.Some? && st'.db.value == (if st.db.Some? then st.db.value else []) + prepared.value)
      && ((name in st.processed || prepared.Err? || !Embeddable(embedder, prepared.value)) ==> st' == st)
      && (!ok ==> st'.processed == st.processed)
      && (st.db.Some? ==> st'.db.Some? && st.db.value <= st'.db.value)
  {
    var (st', ok) := Ingest(st, name, prepared, embedder, copied);
    if name !in st.processed && prepared.Ok? && Embeddable(embedder, prepared.value) {
      AddedSpec(st.db, prepared.value);
    }
  }

  /** Ingesting a file again after it succeeded reports `False` and changes
      nothing, whatever the loaders, store and copy would do. */
  lemma IngestIdempotent(st: IngestState, name: string, prepared: Result<seq<Document>>, embedder: Embedder,
                         prepared2: Result<seq<Document>>, copied2: bool)
    requires Ingest(st, name, prepared, embedder, true).1
    ensures var st' := Ingest(st, name, prepared, embedder, true).0;
      Ingest(st', name, prepared2, embedder, copied2) == (st', false)
  {
    var st' := Ingest(st, name, prepared, embedder, true).0;
    assert name in st'.processed;
  }

  /** At-least-once ingestion: when the copy fails after the add, a retry
      that succeeds stores the file's chunks a second time. */
  lemma IngestAtLeastOnce(st: IngestState, name: string, chunks: seq<Document>, embedder: Embedder)
    requires name !in st.processed && Embeddable(embedder, chunks)
    ensures var (st1, ok1) := Ingest(st, name, Ok(chunks), embedder, false);
      var (st2, ok2) := Ingest(st1, name, Ok(chunks), embedder, true);
      && !ok1 && ok2
      && st2.db.Some?
      && st2.db.value == (if st.db.Some? then st.db.value else []) + chunks + chunks
      && name in st2.processed
  {
    var (st1, ok1) := Ingest(st, name, Ok(chunks), embedder, false);
    AddedSpec(st.db, chunks);
    AddedSpec(st1.db, chunks);
  }

  class DocumentIngestor {
    const store: VectorStore
    const processedFolder: Path
    const loader: DocumentLoader
    const chunker: TextChunker
    const copier: Copier
    /** The names of the files in the processed folder. */
    var processed: set<string>

    constructor(store: VectorStore, processedFolder: Path, primary: PdfLoader, fallback: PdfLoader,
                splitter: Splitter, copier: Copier, existing: set<string>,
                chunkSize: int := 1000, chunkOverlap: int := 200)
      ensures this.store == store && this.processedFolder == processedFolder && this.copier == copier
      ensures fresh(loader) && loader.Valid() && loader.primary == primary && loader.fallback == fallback
      ensures fresh(chunker) && chunker.splitter == splitter
      ensures chunker.chunkSize == chunkSize && chunker.chunkOverlap == chunkOverlap
      ensures processed == existing
    {
      this.store := store;
      this.processedFolder := processedFolder;
      this.copier := copier;
      loader := new DocumentLoader(primary, fallback);
      chunker := new TextChunker(splitter, chunkSize, chunkOverlap);
      processed := existing;
    }

    /** `is_already_processed`: decided by the base name alone, so two paths
        with the same name count as the same file. */
    method IsAlreadyProcessed(pdfPath: Path) returns (b: bool)
      ensures b <==> Name(pdfPath) in processed
      ensures forall other: Path :: Name(other) == Name(pdfPath) ==> (b <==> Name(other) in processed)
    {
      b := Name(Child(processedFolder, Name(pdfPath))) in processed;
    }

    /** `ingest_pdf` */
    method IngestPdf(pdfPath: Path) returns (ok: bool)
      requires loader.Valid()
      modifies this, store, loader
      ensures loader.Valid()
      ensures (IngestState(store.db, processed), ok) ==
        Ingest(IngestState(old(store.db), old(processed)), Name(pdfPath),
               Prepared(loader.primary, loader.fallback, chunker.splitter, chunker.chunkSize, chunker.chunkOverlap, pdfPath),
               store.embedder, copier(pdfPath, Child(processedFolder, Name(pdfPath))))
      ensures Name(pdfPath) in old(processed) ==> loader.loaderName == old(loader.loaderName)
    {
      var already := IsAlreadyProcessed(pdfPath);
      if already {
        return false;
      }
      var documents := loader.LoadPdf(pdfPath);
      if documents.Err? {
        return false;
      }
      var chunks := chunker.ChunkDocuments(documents.value, Name(pdfPath));
      if chunks.Err? {
        return false;
      }
      var added := store.AddDocuments(chunks.value);
      if added.Fail? {
        return false;
      }
      var processedFile := Child(processedFolder, Name(pdfPath));
      var copied := copier(pdfPath, processedFile);
      if !copied {
        return false;
      }
      processed := processed + {Name(processedFile)};
      ok := true;
    }
  }
}
