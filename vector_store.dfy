/** `VectorStore`: the Chroma collection, absent until a database file exists
    or the first chunks are added, and only ever appended to after that. */
module VectorStores {
  import opened Base
  import opened Documents

  /** Chroma's similarity search over the stored chunks, as an oracle. The
      model does not claim anything about the order or choice of results. */
  type Search = (seq<Document>, Vector, int) -> seq<Document>

  const DbFileName: string := "chroma.sqlite3"

  const NotInitializedMessage: string := "Vector database not initialized. Ingest documents first."

  /** Every chunk's text can be embedded, so Chroma accepts the batch; when
      the embedding model raises on one, the whole call raises. */
  predicate Embeddable(embedder: Embedder, chunks: seq<Document>)
  {
    forall i :: 0 <= i < |chunks| ==> embedder(chunks[i].text).Some?
  }

  /** The collection after a successful `add_documents`: a new collection
      holding exactly the chunks, or the old one with the chunks appended. */
  function Added(db: Option<seq<Document>>, chunks: seq<Document>): Option<seq<Document>>
  {
    match db
    case None => Some(chunks)
    case Some(stored) => Some(stored + chunks)
  }

  /** Adding never discards anything: the result is initialised, keeps the
      old contents as a prefix and ends with exactly the added chunks. */
  lemma AddedSpec(db: Option<seq<Document>>, chunks: seq<Document>)
    ensures Added(db, chunks).Some?
    ensures var stored := if db.Some? then db.value else [];
      Added(db, chunks).value == stored + chunks
  {
    if db.None? {
      assert [] + chunks == chunks;
    }
  }

  /** Two adds in a row store what one add of both batches stores. */
  lemma AddedTwice(db: Option<seq<Document>>, a: seq<Document>, b: seq<Document>)
    ensures Added(Added(db, a), b) == Added(db, a + b)
  {
    if db.Some? {
      assert db.value + a + b == db.value + (a + b);
    }
  }

  class VectorStore {
    const dbFolder: Path
    const embedder: Embedder
    const search: Search
    /** `vector_db`: `None`, or the chunks the Chroma collection holds. */
    var db: Option<seq<Document>>

    /** Opens the persisted collection if and only if its database file
        exists in `dbFolder`; `files` are the existing paths and `persisted`
        what the file holds. */
    constructor(dbFolder: Path, embedder: Embedder, search: Search, files: set<Path>, persisted: seq<Document>)
      ensures this.dbFolder == dbFolder && this.embedder == embedder && this.search == search
      ensures db.Some? <==> Child(dbFolder, DbFileName) in files
      ensures db.Some? ==> db.value == persisted
    {
      this.dbFolder := dbFolder;
      this.embedder := embedder;
      this.search := search;
      if Child(dbFolder, DbFileName) in files {
        db := Some(persisted);
      } else {
        db := None;
      }
    }

    /** `add_documents`: creates the collection from the chunks or appends
        them; when embedding raises, the exception propagates and nothing
        changes. */
    method AddDocuments(chunks: seq<Document>) returns (outcome: Outcome)
      modifies this
      ensures outcome.Pass? <==> Embeddable(embedder, chunks)
      ensures outcome.Pass? ==> db == Added(old(db), chunks)
      ensures outcome.Fail? ==> db == old(db) && outcome == Fail(Raised("embedding"))
      ensures old(db).Some? ==> db.Some?
    {
      if !Embeddable(embedder, chunks) {
        return Fail(Raised("embedding"));
      }
      if db.None? {
        db := Some(chunks);
      } else {
        db := Some(db.value + chunks);
      }
      outcome := Pass;
    }

    /** `similarity_search_by_vector`: a `ValueError` before initialisation,
        Chroma's answer with the same `k` after it. */
    method SimilaritySearchByVector(queryVector: Vector, k: int := 3) returns (r: Result<seq<Document>>)
      ensures db.None? ==> r == Err(ValueError(NotInitializedMessage))
      ensures db.Some? ==> r == Ok(search(db.value, queryVector, k))
    {
      if db.None? {
        return Err(ValueError(NotInitializedMessage));
      }
      r := Ok(search(db.value, queryVector, k));
    }

    method IsInitialized() returns (b: bool)
      ensures b <==> db.Some?
    {
      b := db != None;
    }
  }
}
