/** The values that flow through the RAG pipeline and the shapes of the
    collaborators it calls: LangChain documents, chat messages, LLM replies
    and embeddings. */
module Documents {
  import opened Base
  import opened Text

  /** A value stored in a document's metadata dict. */
  datatype MetaValue =
    | MStr(s: string)
    | MInt(i: int)
    | MOther(shown: string)   // any other Python value, by its `str()`

  /** `str(v)`, as an f-string shows the value. */
  function Show(v: MetaValue): string
  {
    match v
    case MStr(s) => s
    case MInt(i) => IntToString(i)
    case MOther(t) => t
  }

  type Metadata = map<string, MetaValue>

  /** A LangChain `Document`: page text and its metadata dict. */
  datatype Document = Document(text: string, metadata: Metadata)

  /** A chunk as the text splitter returns it, before the chunker stamps it;
      the chunker allows its metadata to be `None`. */
  datatype RawChunk = RawChunk(text: string, metadata: Option<Metadata>)

  datatype Role = System | Human | Ai

  datatype Message = Message(role: Role, content: string)

  /** What `llm.invoke` is given: a plain string or a list of messages. */
  datatype Prompt = PlainPrompt(text: string) | ChatPrompt(messages: seq<Message>)

  /** What `llm.invoke` does: raise, or return a response whose `content`
      is the given string. */
  datatype Reply = Failure | Content(content: string)

  /** A chat model, as a deterministic oracle from prompt to reply. */
  type Llm = Prompt -> Reply

  /** `llm.invoke(prompt)` where `llm` may be `None`: calling a method on
      `None` raises as well. */
  function Invoke(llm: Option<Llm>, prompt: Prompt): Reply
  {
    if llm.None? then Failure else llm.value(prompt)
  }

  type Vector = seq<real>

  /** `embed_query`: a vector, or `None` when the embedding model raises. */
  type Embedder = string -> Option<Vector>
}
