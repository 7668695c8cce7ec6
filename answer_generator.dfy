/** `AnswerGenerator`: the context block built from retrieved chunks, the
    chat prompt sent to the LLM and the fallback answer when the call fails. */
module AnswerGeneration {
  import opened Base
  import opened Text
  import opened Documents
  import opened Cleanup

  const SystemTemplate: string :=
    "You are an expert assistant. Use the context provided to answer questions accurately. "
    + "Include all relevant details from the context. "
    + "If the answer is not in the context, say 'I don't know'."

  /** What `generate_answer` returns when the LLM call raises. */
  const FallbackAnswer: string := "Error: Unable to generate answer."

  /** The human message, with `{context}` and `{query}` filled in. */
  function HumanMessage(context: string, query: string): string
  {
    "Context:\n" + context + "\n\nQuestion:\n" + query + "\n\n"
    + "Answer the question using all the context above. "
    + "Write full sentences and do not omit any relevant information."
  }

  /** The two messages `format_messages` produces: system, then human. */
  function AnswerPrompt(context: string, query: string): Prompt
  {
    ChatPrompt([Message(System, SystemTemplate), Message(Human, HumanMessage(context, query))])
  }

  /** `metadata.get(key, default)`, as an f-string shows it: the stored
      value when the key is present, the default when it is not. */
  function Label(m: Metadata, key: string, default: string): (r: string)
    ensures key !in m ==> r == default
    ensures key in m ==> r == Show(m[key])
  {
    if key in m then Show(m[key]) else default
  }

  /** `" ".join(full.split()[:50])` */
  function Preview(full: string): string
  {
    Join(Take(Words(full), 50))
  }

  /** The preview holds the first (at most) 50 words of the cleaned text and
      is a prefix of it; text of 50 words or fewer is its own preview. */
  lemma PreviewSpec(full: string)
    requires Normalized(full)
    ensures Words(Preview(full)) == Take(Words(full), 50)
    ensures |Words(Preview(full))| <= 50
    ensures Preview(full) <= full
    ensures |Words(full)| <= 50 ==> Preview(full) == full
  {
    var ws := Words(full);
    var m := Min(50, |ws|);
    assert Take(ws, 50) == ws[..m];
    WordsOfJoin(ws[..m]);
    JoinOfPrefix(ws, m);
    JoinOfWords(full);
    assert ws[..|ws|] == ws;
  }

  /** The text of one context block. */
  function BlockText(src: string, idx: string, preview: string, full: string): string
  {
    "[" + src + ", chunk " + idx + "] Preview: " + preview + "\nFull Content:\n" + full + "\n\n"
  }

  /** The context block one chunk contributes. */
  function Block(d: Document): string
  {
    var full := CleanChunkText(d.text);
    BlockText(Label(d.metadata, "source", "unknown"), Label(d.metadata, "chunk_index", "?"), Preview(full), full)
  }

  /** The blocks of `chunks` concatenated in order. */
  function Blocks(block: Document -> string, chunks: seq<Document>): string
  {
    if chunks == [] then "" else Blocks(block, chunks[..|chunks| - 1]) + block(chunks[|chunks| - 1])
  }

  /** The context `format_context` accumulates: one block per chunk, in
      order, and "" for no chunks. */
  function Context(chunks: seq<Document>): string
  {
    Blocks(Block, chunks)
  }

  lemma ContextSnoc(chunks: seq<Document>, i: nat)
    requires i < |chunks|
    ensures Context(chunks[..i + 1]) == Context(chunks[..i]) + Block(chunks[i])
  {
    assert chunks[..i + 1][..i] == chunks[..i];
  }

  /** Concatenating chunk lists concatenates their blocks: each chunk
      contributes its own block and nothing else. */
  lemma {:induction false} BlocksAppend(block: Document -> string, a: seq<Document>, b: seq<Document>)
    ensures Blocks(block, a + b) == Blocks(block, a) + Blocks(block, b)
    decreases |b|
  {
    if b == [] {
      assert a + b == a;
    } else {
      var n := |b| - 1;
      assert (a + b)[..|a + b| - 1] == a + b[..n];
      assert (a + b)[|a + b| - 1] == b[n];
      BlocksAppend(block, a, b[..n]);
    }
  }

  /** The blocks of a list are the first chunk's block followed by the
      blocks of the rest. */
  lemma BlocksCons(block: Document -> string, d: Document, rest: seq<Document>)
    ensures Blocks(block, [d] + rest) == block(d) + Blocks(block, rest)
  {
    var one := [d];
    BlocksAppend(block, one, rest);
    assert one[..0] == [];
    assert Blocks(block, one) == Blocks(block, []) + block(d);
  }

  /** The context of a list of chunks is the first chunk's block followed by
      the context of the rest. */
  lemma ContextCons(d: Document, rest: seq<Document>)
    ensures Context([d] + rest) == Block(d) + Context(rest)
  {
    BlocksCons(Block, d, rest);
  }

  /** A block shows the chunk's full cleaned text after the `Full Content:`
      line, and its preview is the cleaned text's first 50 words. */
  lemma BlockSpec(d: Document)
    ensures var full := CleanChunkText(d.text);
      && Preview(full) <= full
      && |Words(Preview(full))| <= 50
      && Block(d) == BlockText(Label(d.metadata, "source", "unknown"), Label(d.metadata, "chunk_index", "?"), Preview(full), full)
  {
    CleanChunkTextSpec(d.text);
    PreviewSpec(CleanChunkText(d.text));
  }

  /** What the answer is once the LLM has replied: the fixed fallback when it
      raised, otherwise the content with surrounding whitespace stripped. */
  function AnswerOf(reply: Reply): string
  {
    match reply
    case Failure => FallbackAnswer
    case Content(c) => Strip(c)
  }

  /** The answer never starts or ends with whitespace, and a successful reply
      is returned whole apart from that whitespace. */
  lemma AnswerOfSpec(reply: Reply)
    ensures var r := AnswerOf(reply);
      && (r != [] ==> !IsSpace(r[0]) && !IsSpace(r[|r| - 1]))
      && (reply.Content? ==> r <= reply.content[|reply.content| - |StripStart(reply.content)|..])
  {
    var r := AnswerOf(reply);
    if reply.Content? {
      var c := reply.content;
      var a := |c| - |StripStart(c)|;
      assert r == c[a..a + |r|];
      assert c[a..][..|r|] == c[a..a + |r|];
    } else {
      assert r == "Error: Unable to generate answer.";
      assert !IsSpace(r[0]) && !IsSpace(r[|r| - 1]);
    }
  }

  /** The answer `generate_answer` gives for a question and chunks. */
  function Answer(llm: Option<Llm>, query: string, chunks: seq<Document>): string
  {
    AnswerOf(Invoke(llm, AnswerPrompt(Context(chunks), query)))
  }

  class AnswerGenerator {
    /** `None` when the pipeline was given no model: every call then
        raises and is caught. */
    const llm: Option<Llm>

    constructor(llm: Option<Llm>)
      ensures this.llm == llm
    {
      this.llm := llm;
    }

    /** `format_context`: appends one block per chunk. */
    method FormatContext(chunks: seq<Document>) returns (context: string)
      ensures context == Context(chunks)
    {
      context := "";
      var i := 0;
      while i < |chunks|
        invariant 0 <= i <= |chunks|
        invariant context == Context(chunks[..i])
      {
        var chunk := chunks[i];
        var src := Label(chunk.metadata, "source", "unknown");
        var idx := Label(chunk.metadata, "chunk_index", "?");
        var fullContent := CleanChunkText(chunk.text);
        var preview := Preview(fullContent);
        assert BlockText(src, idx, preview, fullContent) == Block(chunk);
        context := context + BlockText(src, idx, preview, fullContent);
        ContextSnoc(chunks, i);
        i := i + 1;
      }
      assert chunks[..|chunks|] == chunks;
    }

    /** `generate_answer`: one LLM call with the context and question; the
        fallback text if it raises, the stripped content otherwise. */
    method GenerateAnswer(query: string, chunks: seq<Document>) returns (answer: string)
      ensures answer == Answer(llm, query, chunks)
      ensures var reply := Invoke(llm, AnswerPrompt(Context(chunks), query));
        && (reply.Failure? ==> answer == FallbackAnswer)
        && (reply.Content? ==> answer == Strip(reply.content))
    {
      var contextText := FormatContext(chunks);
      var formatted := AnswerPrompt(contextText, query);
      var response := Invoke(llm, formatted);
      match response {
        case Failure =>
          answer := FallbackAnswer;
        case Content(c) =>
          answer := Strip(c);
      }
    }
  }
}
