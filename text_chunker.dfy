/** `TextChunker`: splits documents with the configured splitter, then
    stamps every chunk with its source file name and its position. */
module TextChunking {
  import opened Base
  import opened Text
  import opened Documents

  /** `RecursiveCharacterTextSplitter(chunk_size, chunk_overlap)` followed
      by `split_documents`: the chunks, or the exception the splitter
      raises. */
  type Splitter = (int, int, seq<Document>) -> Result<seq<RawChunk>>

  /** The metadata dict of a chunk after `metadata.update(...)`; a missing
      dict is first replaced by `{}`. */
  function Stamp(c: RawChunk, source: string, i: nat): Document
  {
    var base := if c.metadata.None? then map[] else c.metadata.value;
    Document(c.text, base["source" := MStr(source)]["chunk_index" := MInt(i)])
  }

  /** The chunks after the stamping loop. */
  function Stamped(raw: seq<RawChunk>, source: string): (r: seq<Document>)
    ensures |r| == |raw|
  {
    seq(|raw|, i requires 0 <= i < |raw| => Stamp(raw[i], source, i))
  }

  /** Stamping keeps the number, order and text of the chunks; chunk `i`
      gets `chunk_index == i` and `source == source`; every other key keeps
      its value; a chunk without metadata gets exactly the two keys. */
  lemma StampedSpec(raw: seq<RawChunk>, source: string)
    ensures var r := Stamped(raw, source);
      && |r| == |raw|
      && (forall i :: 0 <= i < |r| ==> r[i].text == raw[i].text)
      && (forall i :: 0 <= i < |r| ==> r[i].metadata["chunk_index"] == MInt(i) && r[i].metadata["source"] == MStr(source))
      && (forall i, key ::
            (0 <= i < |r| && raw[i].metadata.Some? && key in raw[i].metadata.value && key != "source" && key != "chunk_index")
            ==> key in r[i].metadata && r[i].metadata[key] == raw[i].metadata.value[key])
      && (forall i :: 0 <= i < |r| && raw[i].metadata.Some? ==>
            r[i].metadata.Keys == raw[i].metadata.value.Keys + {"source", "chunk_index"})
      && (forall i :: 0 <= i < |r| && raw[i].metadata.None? ==> r[i].metadata.Keys == {"source", "chunk_index"})
  {
  }

  /** The stamped chunk indices are exactly `0 .. n-1`, one per chunk. */
  lemma StampedIndices(raw: seq<RawChunk>, source: string)
    ensures var r := Stamped(raw, source);
      (set i | 0 <= i < |r| :: r[i].metadata["chunk_index"]) == (set i | 0 <= i < |raw| :: MInt(i))
  {
    var r := Stamped(raw, source);
    forall i | 0 <= i < |raw| ensures MInt(i) in (set j | 0 <= j < |r| :: r[j].metadata["chunk_index"]) {
      assert r[i].metadata["chunk_index"] == MInt(i);
    }
  }

  /** A chunk seen again as splitter output. */
  function Unstamped(d: Document): RawChunk
  {
    RawChunk(d.text, Some(d.metadata))
  }

  /** Stamping already stamped chunks with the same source changes nothing. */
  lemma StampedTwice(raw: seq<RawChunk>, source: string)
    ensures var r := Stamped(raw, source);
      Stamped(seq(|r|, i requires 0 <= i < |r| => Unstamped(r[i])), source) == r
  {
    var r := Stamped(raw, source);
    var again := seq(|r|, i requires 0 <= i < |r| => Unstamped(r[i]));
    var r2 := Stamped(again, source);
    forall i | 0 <= i < |r| ensures r2[i] == r[i] {
      var m := r[i].metadata;
      assert r2[i].metadata == m["source" := MStr(source)]["chunk_index" := MInt(i)];
      assert m["source" := MStr(source)]["chunk_index" := MInt(i)] == m;
    }
  }

  /** What `chunk_documents` returns. */
  function Chunk(splitter: Splitter, chunkSize: int, chunkOverlap: int, documents: seq<Document>, source: string): Result<seq<Document>>
  {
    match splitter(chunkSize, chunkOverlap, documents)
    case Err(e) => Err(e)
    case Ok(raw) => Ok(Stamped(raw, source))
  }

  class TextChunker {
    const chunkSize: int
    const chunkOverlap: int
    const splitter: Splitter

    /** The configured sizes are kept and are what the splitter is built
        with. */
    constructor(splitter: Splitter, chunkSize: int := 1000, chunkOverlap: int := 200)
      ensures this.splitter == splitter
      ensures this.chunkSize == chunkSize && this.chunkOverlap == chunkOverlap
    {
      this.splitter := splitter;
      this.chunkSize := chunkSize;
      this.chunkOverlap := chunkOverlap;
    }

    /** `chunk_documents`: split, then stamp each chunk in turn. */
    method ChunkDocuments(documents: seq<Document>, sourceName: string) returns (r: Result<seq<Document>>)
      ensures r == Chunk(splitter, chunkSize, chunkOverlap, documents, sourceName)
    {
      var split := splitter(chunkSize, chunkOverlap, documents);
      if split.Err? {
        return Err(split.error);
      }
      var raw := split.value;
      var chunks: seq<Document> := [];
      var i := 0;
      while i < |raw|
        invariant 0 <= i <= |raw|
        invariant chunks == Stamped(raw, sourceName)[..i]
      {
        var metadata := if raw[i].metadata.None? then map[] else raw[i].metadata.value;
        metadata := metadata["source" := MStr(sourceName)]["chunk_index" := MInt(i)];
        chunks := chunks + [Document(raw[i].text, metadata)];
        i := i + 1;
      }
      assert Stamped(raw, sourceName)[..|raw|] == Stamped(raw, sourceName);
      r := Ok(chunks);
    }
  }
}
