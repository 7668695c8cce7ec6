# AI Creativity Hub — a Dafny model of its own logic

AI Creativity Hub is a Flask back end and a React Native front end. Most of
its code wires together LangChain, Gemini, Chroma, Coqui TTS and Expo. This
project models the part the repository itself decides:

- The modular RAG engine (`backend/rag/rag_engine/`). The vector store is a
  two-state machine: it starts initialised when the persisted
  `chroma.sqlite3` exists and uninitialised otherwise, becomes initialised
  at the first add, and is append-only from then on.
  Other pieces:
  - the per-file ingestor with its processed-name set;
  - the two-tier PDF loader;
  - the chunk metadata stamper;
  - the LLM re-ranker: scores, a stable descending sort, then a prefix;
  - the answer generator: chunk-text cleanup, the context block with a
    50-word preview, and the fallback answer;
  - the pipeline that wires them together.
- The older single-file RAG script (`backend/rag/rag_pdf.py`). It repeats the
  engine's logic over a global store, but lets exceptions out.
- The story-and-speech service. It builds the story prompt, sanitises the
  topic into a file name, and turns the `.mp3` path into a `.wav` path.
- The story screen of the app. It formats the clock as `m:ss`, guards against
  a blank topic, and drives the play/pause/finish player.
- The per-session chat stores: the memory-based `ask_text_model` and the
  history-based text service.
- The `DebugRunnable` colour round-robin and `pretty_print`.

Every collaborator becomes a value handed to the model:
- an LLM is a function from a prompt to either a failure or content;
- the embedder, similarity search, PDF loaders, text splitter, file copier
  and TTS engine are functions the model calls;
- the file system is a set of names or paths;
- the clock is a parameter.

Errors the Python code raises are `Err` values. A `ValueError` keeps its
message; any other exception is `Raised(origin)`. A `try/except` that
turns errors into `False` or a fallback string is modelled as that very
case split.

Modules, one per source file:

| module | file | models |
|---|---|---|
| `Base` | `base.dfy` | options, results, paths (`Path.name`, `/`), Python slicing |
| `Text` | `text.dfy` | `str.strip`, `str.split()`/`" ".join`, digits and numerals |
| `Documents` | `documents.dfy` | LangChain documents and metadata, LLM prompts and replies |
| `Cleanup` | `cleanup.dfy` | `clean_chunk_text` |
| `CleanupExamples` | `cleanup_examples.dfy` | worked inputs of `clean_chunk_text` |
| `AnswerGeneration` | `answer_generator.dfy` | `AnswerGenerator` |
| `Ranking` | `ranking.dfy` | the scoring prompt, `float()` of a score, the stable sort |
| `Retrieval` | `retriever.dfy` | `Retriever` |
| `VectorStores` | `vector_store.dfy` | `VectorStore` |
| `DocumentLoading` | `document_loader.dfy` | `DocumentLoader` |
| `TextChunking` | `text_chunker.dfy` | `TextChunker` |
| `DocumentIngestion` | `document_ingestor.dfy` | `DocumentIngestor` |
| `RagPipelines` | `rag_pipeline.dfy` | `RAGPipeline` |
| `RagScript` | `rag_script.dfy` | `rag_pdf.py` |
| `SpeechService` | `speech_service.dfy` | `speech_service.py` |
| `SpeechScreen` | `speech_screen.dfy` | `SpeechScreen.tsx` |
| `ChatMemory` | `memory.dfy` | `memory.py` |
| `TextService` | `text_service.dfy` | `text_service.py` |
| `DebugUtils` | `debug_utils.dfy` | `lib/utils.py` and its copy `utils.py` |

Code that updates state in place is modelled as a class whose methods
change its fields. A method's `ensures` ties the new state to a
specification function of the old state, and lemmas prove what the source
promises about that function.

## Model

| member | source | states |
|---|---|---|
| Base.Child | backend/rag/rag_engine/document_ingestor.py:79 | `folder / name` extends the folder path by one component whose name is `name` |
| Base.Take | backend/rag/rag_engine/retriever.py:89 | a Python slice `xs[:n]` is a prefix of `xs` of length `min(n, len)` for `n >= 0`, and `max(0, len + n)` for negative `n` |
| Text.StripStart | backend/rag/rag_engine/answer_generator.py:63 | left strip: a suffix of the input that starts with a non-space, and everything dropped is whitespace |
| Text.StripEnd | backend/rag/rag_engine/answer_generator.py:63 | right strip: a prefix of the input that ends with a non-space, and everything dropped is whitespace |
| Text.Strip | backend/rag/rag_engine/answer_generator.py:63 | `str.strip()`: a contiguous slice of the input; everything cut from either end is whitespace; the result neither starts nor ends with whitespace |
| Text.WordLength | backend/rag/rag_engine/answer_generator.py:86 | the first word of a string is a run of non-space characters that ends at whitespace or at the end |
| Text.Words | backend/rag/rag_engine/answer_generator.py:86 | `str.split()` yields only non-empty words without whitespace |
| Text.WordLengthOfToken | backend/rag/rag_engine/answer_generator.py:86 | a word followed by whitespace or by nothing is split off whole |
| Text.WordsOfJoin | backend/rag/rag_engine/answer_generator.py:86 | splitting the single-space join of words gives back exactly those words |
| Text.JoinOfWords | backend/rag/rag_engine/answer_generator.py:86 | joining the words of a normalised text (single spaces, no edge spaces) gives back the text |
| Text.JoinOfPrefix | backend/rag/rag_engine/answer_generator.py:86 | joining the first m words yields a prefix of joining all of them |
| Text.DigitChar | backend/rag/rag_engine/retriever.py:78 | a decimal digit value maps to a digit character |
| Text.DigitValue | backend/rag/rag_engine/retriever.py:78 | a digit character has a value below 10 |
| Text.NatToString | backend/services/speech_service.py:66 | a decimal numeral is non-empty and all digits |
| Text.ParseNat | backend/rag/rag_engine/retriever.py:78 | a numeral parses if and only if it is a non-empty run of digits |
| Text.ParseNatToString | backend/rag/rag_engine/retriever.py:78 | parsing the decimal numeral of n gives back n |
| Cleanup.NewlinesToSpace | backend/rag/rag_engine/answer_generator.py:53 | after `re.sub(r"\n+", " ", …)` no newline is left |
| Cleanup.MatchFrom | backend/rag/rag_engine/answer_generator.py:55-60 | a header match, when found, is a non-empty span inside the text |
| Cleanup.MatchFromSpec | backend/rag/rag_engine/answer_generator.py:55-60 | the alternation is tried in order: a match is one of the listed tokens as a whole word at that position; no match means none of them is |
| Cleanup.NoiseAt | backend/rag/rag_engine/answer_generator.py:55-60 | a noise match at a position is a non-empty span inside the text |
| Cleanup.NoiseAtSpec | backend/rag/rag_engine/answer_generator.py:55-60 | a match at i is a listed noise token standing as a whole word at i, and there is no match exactly when no token stands there as a whole word |
| Cleanup.Scrub | backend/rag/rag_engine/answer_generator.py:60 | the left-to-right, non-overlapping `re.sub(…, "", …)` scan never lengthens the text |
| Cleanup.ScrubKeepsRange | backend/rag/rag_engine/answer_generator.py:60 | a stretch in which no match starts is copied to the output unchanged |
| Cleanup.ScrubKeeps | backend/rag/rag_engine/answer_generator.py:60 | text with no match left is copied unchanged |
| Cleanup.ScrubSkips | backend/rag/rag_engine/answer_generator.py:60 | a match is deleted whole and the scan resumes after it |
| Cleanup.ScrubAround | backend/rag/rag_engine/answer_generator.py:60 | with exactly one match, the output is the text before it followed by the text after it |
| Cleanup.WholeHeaderRemoved | backend/rag/rag_engine/answer_generator.py:55-60 | a text that is one whole noise token is deleted entirely |
| Cleanup.CollapseSpaces | backend/rag/rag_engine/answer_generator.py:63 | `re.sub(r"\s+", " ", …)` maps empty to empty only, and starts with whitespace exactly when its input does |
| Cleanup.CollapseSpacesSpec | backend/rag/rag_engine/answer_generator.py:63 | after collapsing, every whitespace character is a single space and no two are adjacent |
| Cleanup.CollapseSpacesKeeps | backend/rag/rag_engine/answer_generator.py:63 | collapsing already-collapsed text changes nothing |
| Cleanup.CleanChunkTextSpec | backend/rag/rag_engine/answer_generator.py:53-64 | cleaned text has no newline, no two consecutive whitespace characters, no other whitespace than single spaces, and no leading or trailing whitespace |
| Cleanup.SliceCollapsed | backend/rag/rag_engine/answer_generator.py:63 | any slice of collapsed text is still collapsed |
| Cleanup.CollapsedNoNewline | backend/rag/rag_engine/answer_generator.py:63 | collapsed text holds no newline |
| Cleanup.StripOfCollapsed | backend/rag/rag_engine/answer_generator.py:63 | stripping collapsed text gives normalised text with no newline |
| Cleanup.NewlinesToSpaceKeeps | backend/rag/rag_engine/answer_generator.py:53 | the newline substitution leaves newline-free text unchanged |
| Cleanup.CleanKeepsCleanText | backend/rag/rag_engine/answer_generator.py:53-64 | normalised text with no noise token in it is a fixed point of cleaning |
| CleanupExamples.InsideWordNoMatch | backend/rag/rag_engine/answer_generator.py:57-59 | no noise token can start in the middle of a word, because of the `\b` anchors |
| CleanupExamples.NoHeaderStartsWith | backend/rag/rag_engine/answer_generator.py:57-59 | no token matches at a character other than the initials T, P, S, N of the listed tokens |
| CleanupExamples.NewlineBetween | backend/rag/rag_engine/answer_generator.py:53 | a newline between two newline-free parts becomes one space |
| CleanupExamples.CollapseSpacesAfterWord | backend/rag/rag_engine/answer_generator.py:63 | a leading run of non-space characters passes through collapsing unchanged |
| CleanupExamples.SampleTextMatch | backend/rag/rag_engine/answer_generator.py:58 | "SAMPLE TEXT" is matched whole at position 0 |
| CleanupExamples.NewlineJoinsHeader | backend/rag/rag_engine/answer_generator.py:53-60 | newlines become spaces before headers are removed, so "SAMPLE\nTEXT" cleans to "" |
| CleanupExamples.NameAtStart | backend/rag/rag_engine/answer_generator.py:57-59 | "Name Finder" does not match at the start of "Name Parser Finder" |
| CleanupExamples.NameParserFinderHead | backend/rag/rag_engine/answer_generator.py:57-59 | no token matches in the first five characters of "Name Parser Finder" |
| CleanupExamples.NameParserFinderTail | backend/rag/rag_engine/answer_generator.py:57-59 | no token matches in " Finder" after "Parser" |
| CleanupExamples.NameParserFinderMatch | backend/rag/rag_engine/answer_generator.py:57-59 | "Parser" is matched at position 5 with length 6 |
| CleanupExamples.NameParserFinderScrub | backend/rag/rag_engine/answer_generator.py:60 | removing noise from "Name Parser Finder" leaves "Name  Finder" |
| CleanupExamples.CollapseToken | backend/rag/rag_engine/answer_generator.py:63 | a word without whitespace is unchanged by collapsing |
| CleanupExamples.CollapseSpaceRun | backend/rag/rag_engine/answer_generator.py:63 | two spaces before a word collapse to one |
| CleanupExamples.CollapseTwoSpaces | backend/rag/rag_engine/answer_generator.py:63 | two spaces between two words collapse to one |
| CleanupExamples.StripKeeps | backend/rag/rag_engine/answer_generator.py:63 | text without edge whitespace is unchanged by strip |
| CleanupExamples.NameFinderGapCollapse | backend/rag/rag_engine/answer_generator.py:63 | "Name  Finder" collapses to "Name Finder" |
| CleanupExamples.NameParserFinderCollapse | backend/rag/rag_engine/answer_generator.py:53-63 | the first three cleaning steps turn "Name Parser Finder" into "Name Finder" |
| CleanupExamples.NameParserFinder | backend/rag/rag_engine/answer_generator.py:53-64 | cleaning "Name Parser Finder" yields "Name Finder" |
| CleanupExamples.NameFinderMatch | backend/rag/rag_engine/answer_generator.py:58 | "Name Finder" is itself one whole noise token |
| CleanupExamples.NameFinder | backend/rag/rag_engine/answer_generator.py:53-64 | cleaning "Name Finder" yields "": with NameParserFinder, cleaning is not idempotent |
| CleanupExamples.ParsersNoNoise | backend/rag/rag_engine/answer_generator.py:57-59 | "Parser" inside "Parsers" is not a whole word, so "Parsers" has no noise |
| CleanupExamples.HeaderInsideWordSurvives | backend/rag/rag_engine/answer_generator.py:53-64 | cleaning leaves "Parsers" unchanged |
| AnswerGeneration.Label | backend/rag/rag_engine/answer_generator.py:79-80 | a metadata label is the stored value when the key is present and the default otherwise ("unknown" for `source`, "?" for `chunk_index`) |
| AnswerGeneration.PreviewSpec | backend/rag/rag_engine/answer_generator.py:83-86 | the preview holds the first 50 words (at most 50), is a prefix of the cleaned content, and equals it when it has at most 50 words |
| AnswerGeneration.BlockSpec | backend/rag/rag_engine/answer_generator.py:79-92 | each block is `[src, chunk idx] Preview: …\nFull Content:\n…\n\n`, built from the labels, the preview and the cleaned content |
| AnswerGeneration.ContextSnoc | backend/rag/rag_engine/answer_generator.py:76-94 | the context of the first i+1 chunks is the context of the first i plus the block of chunk i |
| AnswerGeneration.ContextCons | backend/rag/rag_engine/answer_generator.py:76-94 | the context is the first chunk's block followed by the context of the rest, in input order |
| AnswerGeneration.BlocksAppend | backend/rag/rag_engine/answer_generator.py:76-94 | the context of a concatenation is the concatenation of the contexts |
| AnswerGeneration.BlocksCons | backend/rag/rag_engine/answer_generator.py:76-94 | one block per chunk, in order |
| AnswerGeneration.AnswerOfSpec | backend/rag/rag_engine/answer_generator.py:121-126 | the answer has no edge whitespace and, on a reply, is a prefix of the reply's content after its leading whitespace |
| AnswerGeneration.AnswerGenerator.constructor | backend/rag/rag_engine/answer_generator.py:19-27 | the generator keeps the LLM it is given, or none |
| AnswerGeneration.AnswerGenerator.FormatContext | backend/rag/rag_engine/answer_generator.py:66-94 | the `+=` loop builds exactly the concatenation of one block per chunk, in order; "" for no chunks |
| AnswerGeneration.AnswerGenerator.GenerateAnswer | backend/rag/rag_engine/answer_generator.py:96-126 | a failed or missing LLM yields exactly "Error: Unable to generate answer."; otherwise the stripped reply content |
| Ranking.ScoringPromptExcerpt | backend/rag/rag_engine/retriever.py:66-73 | the scoring prompt begins with the question header followed by exactly the first 500 characters of the chunk, or all of a shorter chunk |
| Ranking.Pow10 | backend/rag/rag_engine/retriever.py:78 | powers of ten used by `float()` are at least 1 |
| Ranking.IndexOf | backend/rag/rag_engine/retriever.py:78 | the first position of a separator in a numeral, or its length |
| Ranking.ParseMantissa | backend/rag/rag_engine/retriever.py:78 | a parsed decimal mantissa is non-negative |
| Ranking.AllDigitsIndexOf | backend/rag/rag_engine/retriever.py:78 | a numeral of digits only holds no separator |
| Ranking.ParseFloatOfNat | backend/rag/rag_engine/retriever.py:78 | `float()` of the decimal numeral of n is n |
| Ranking.ScoreOf | backend/rag/rag_engine/retriever.py:75-81 | a failed scoring call yields score 0 |
| Ranking.ScoreOfSpec | backend/rag/rag_engine/retriever.py:77-78 | a reply " n\n" scores n: the content is stripped before `float()`, and scores are not clamped |
| Ranking.Insert | backend/rag/rag_engine/retriever.py:86 | inserting into the sorted list adds exactly one element |
| Ranking.SortDesc | backend/rag/rag_engine/retriever.py:86 | the sort is a permutation of the scored chunks |
| Ranking.ConsRanked | backend/rag/rag_engine/retriever.py:86 | an element that sorts before every element of a ranked list can be put in front and the list stays ranked |
| Ranking.InsertKeepsHead | backend/rag/rag_engine/retriever.py:86 | inserting a later element with a score no higher than the head's keeps the head in front |
| Ranking.InsertRanked | backend/rag/rag_engine/retriever.py:86 | inserting a later chunk keeps the list ordered by score descending, ties by original position |
| Ranking.SortDescRanked | backend/rag/rag_engine/retriever.py:86 | `sort(key=score, reverse=True)` orders by non-increasing score, and equal scores keep their input order (stability) |
| Ranking.ScoreWith | backend/rag/rag_engine/retriever.py:64-83 | every chunk is scored once, tagged with its own position |
| Ranking.ScoreAll | backend/rag/rag_engine/retriever.py:64-83 | the scored list pairs each input chunk, at its position, with its score |
| Ranking.ScoreChunks | backend/rag/rag_engine/retriever.py:64-83 | the loop issues exactly one scoring request per chunk, in order, and appends each chunk with its score at its position |
| Ranking.Docs | backend/rag/rag_engine/retriever.py:89-90 | dropping the scores keeps one chunk per entry |
| Ranking.RerankFromInput | backend/rag/rag_engine/retriever.py:64-90 | the LLM ranking keeps `min(top_k, n)` chunks, each one of the input chunks |
| Ranking.RerankSpec | backend/rag/rag_engine/retriever.py:86-90 | the kept prefix has length `min(top_k, n)`, is ordered by score then position, picks distinct input positions holding those chunks, and every kept score is at least every dropped score |
| Retrieval.RerankedSpec | backend/rag/rag_engine/retriever.py:44-90 | re-ranking returns `min(top_k, n)` chunks drawn from the input; with no LLM it is the input prefix in original order |
| Retrieval.Retriever.constructor | backend/rag/rag_engine/retriever.py:13-24 | the retriever keeps its store, embedder and optional LLM |
| Retrieval.Retriever.Retrieve | backend/rag/rag_engine/retriever.py:26-42 | the query is embedded and the store is searched with the same `k`; the store's result or error is returned unchanged |
| Retrieval.Retriever.ReRank | backend/rag/rag_engine/retriever.py:44-90 | with no LLM, no request and the input prefix; with one, one request per chunk carrying that chunk, and the re-ranked prefix |
| VectorStores.AddedSpec | backend/rag/rag_engine/vector_store.py:41-52 | adding creates the store holding exactly the chunks, or appends all of them to the previous contents without deduplication |
| VectorStores.AddedTwice | backend/rag/rag_engine/vector_store.py:41-52 | two adds in a row equal one add of both batches |
| VectorStores.VectorStore.constructor | backend/rag/rag_engine/vector_store.py:15-32 | a new store is initialised if and only if `chroma.sqlite3` exists in its folder, and then holds the persisted chunks |
| VectorStores.VectorStore.AddDocuments | backend/rag/rag_engine/vector_store.py:34-52 | a successful add stores the specified contents; a failed embedding changes nothing; an initialised store stays initialised |
| VectorStores.VectorStore.SimilaritySearchByVector | backend/rag/rag_engine/vector_store.py:54-70 | before initialisation it is the `ValueError`, never an empty list; afterwards the search with the same `k` |
| VectorStores.VectorStore.IsInitialized | backend/rag/rag_engine/vector_store.py:72-74 | true exactly when the store exists |
| DocumentLoading.LoadSpec | backend/rag/rag_engine/document_loader.py:18-46 | the primary loader alone is tried first; the fallback is tried once, only after it fails; when both fail the fallback's error comes out |
| DocumentLoading.DocumentLoader.constructor | backend/rag/rag_engine/document_loader.py:15-16 | `loader_name` starts as None with no attempt made |
| DocumentLoading.DocumentLoader.LoadPdf | backend/rag/rag_engine/document_loader.py:18-46 | the result is the two-tier load; on success `loader_name` names the loader used; on failure it keeps its previous value |
| TextChunking.Stamped | backend/rag/rag_engine/text_chunker.py:46-49 | stamping keeps the number of chunks |
| TextChunking.StampedSpec | backend/rag/rag_engine/text_chunker.py:42-51 | same count, order and text; chunk i gets `chunk_index` i and `source` the source name; other keys are kept; `None` metadata ends with the two keys only |
| TextChunking.StampedIndices | backend/rag/rag_engine/text_chunker.py:46-49 | the chunk indices are exactly 0..n-1 |
| TextChunking.StampedTwice | backend/rag/rag_engine/text_chunker.py:46-49 | stamping stamped chunks again gives the same chunks |
| TextChunking.TextChunker.constructor | backend/rag/rag_engine/text_chunker.py:15-27 | the chunk size and overlap are stored as given |
| TextChunking.TextChunker.ChunkDocuments | backend/rag/rag_engine/text_chunker.py:29-51 | the stamping loop gives the specified chunks of the splitter output, with the configured size and overlap |
| DocumentIngestion.IngestSpec | backend/rag/rag_engine/document_ingestor.py:53-89 | success exactly when the name is new and loading, chunking, adding and copying all succeed; success adds the chunks once and records the name; a skip or an early failure changes nothing; a failure never records the name |
| DocumentIngestion.IngestIdempotent | backend/rag/rag_engine/document_ingestor.py:64-66 | after a success, ingesting the same name again returns False and changes nothing |
| DocumentIngestion.IngestAtLeastOnce | backend/rag/rag_engine/document_ingestor.py:76-89 | when the copy fails after the add, the chunks stay in the store and the name stays new, so a retry stores them twice |
| DocumentIngestion.DocumentIngestor.constructor | backend/rag/rag_engine/document_ingestor.py:16-38 | the loader and chunker are created with the given size and overlap; the processed set is the folder's current names |
| DocumentIngestion.DocumentIngestor.IsAlreadyProcessed | backend/rag/rag_engine/document_ingestor.py:40-51 | the answer depends only on the base name, so paths with the same name collide |
| DocumentIngestion.DocumentIngestor.IngestPdf | backend/rag/rag_engine/document_ingestor.py:53-89 | store and processed set follow the ingest function with the file's name as the chunks' source; a skip leaves `loader_name` alone |
| RagPipelines.ChosenSpec | backend/rag/rag_engine/rag_pipeline.py:89-97 | without re-ranking the generator gets the retrieved chunks, whatever `rerank_top_k` is; a `None` or 0 `rerank_top_k` falls back to `k`; with re-ranking it gets `min(top_k, n)` of the retrieved chunks |
| RagPipelines.Answered | backend/rag/rag_engine/rag_pipeline.py:69-99 | a query fails exactly when retrieval fails, and with the store's own error, so there is no fallback answer |
| RagPipelines.RagPipeline.constructor | backend/rag/rag_engine/rag_pipeline.py:17-55 | the components are wired to one store, one embedder and one LLM; the ingestor gets the pipeline's size and overlap; the store is initialised exactly when its file exists |
| RagPipelines.RagPipeline.IngestDocument | backend/rag/rag_engine/rag_pipeline.py:57-67 | the result and new state are exactly the ingestor's |
| RagPipelines.RagPipeline.Respond | backend/rag/rag_engine/rag_pipeline.py:89-99 | the answer is generated from the chosen chunks |
| RagPipelines.RagPipeline.Query | backend/rag/rag_engine/rag_pipeline.py:69-99 | retrieve, optionally re-rank, then generate, as the specification function composes them |
| RagPipelines.RagPipeline.GetPipelineStatus | backend/rag/rag_engine/rag_pipeline.py:101-112 | `vector_db_initialized` equals the store's initialisation, with the two folders |
| RagScript.ScriptIngestMatchesEngine | backend/rag/rag_pdf.py:34-79 | the script's ingest changes state exactly as the engine's does, but raises the error instead of returning False |
| RagScript.ScriptIngestIdempotent | backend/rag/rag_pdf.py:36-39 | after a successful run, a second run on the same name returns normally and changes nothing |
| RagScript.DemoAnswerSpec | backend/rag/rag_pdf.py:213-226 | ingesting a new file leaves its chunks at the end of the global store, and the demo answer is defined |
| RagScript.Script.constructor | backend/rag/rag_pdf.py:22-30 | the processed folder is the DB folder's `processed`; the global DB exists exactly when its file does |
| RagScript.Script.IngestPdf | backend/rag/rag_pdf.py:34-79 | the global DB and processed set follow the script's ingest function with the script's fixed chunk size and overlap |
| RagScript.Script.EmbedQuery | backend/rag/rag_pdf.py:83-89 | the query vector, or None instead of raising when embedding fails |
| RagScript.Script.RetrieveTopChunks | backend/rag/rag_pdf.py:93-103 | raises `ValueError` exactly while the global DB is None |
| RagScript.Script.ReRankChunks | backend/rag/rag_pdf.py:107-146 | always one scoring request per chunk, with no branch for a missing LLM; the result is the stable descending re-rank truncated to `top_k` |
| RagScript.Script.ScriptContext | backend/rag/rag_pdf.py:170-183 | the script's context loop builds the same text as the engine's `format_context` |
| RagScript.Script.LlmAnswer | backend/rag/rag_pdf.py:165-210 | the fallback string on an LLM failure, otherwise the stripped reply, exactly as the engine does |
| RagScript.Script.Demo | backend/rag/rag_pdf.py:213-226 | ingest, embed, retrieve, re-rank and answer, as the demo specification composes them |
| SpeechService.StoryPromptTopic | backend/services/speech_service.py:33-46 | the story prompt is the fixed template with the topic inserted once |
| SpeechService.StoryOf | backend/services/speech_service.py:46-52 | a failed model call is an error, and only then |
| SpeechService.StoryOfSpec | backend/services/speech_service.py:46-49 | the story has no edge whitespace and is a prefix of the reply's content after its leading whitespace |
| SpeechService.SafeTopicSpec | backend/services/speech_service.py:68 | `safe_topic` has length `min(30, len(topic))`; position i is `topic[i]` when alphanumeric, else `_`; so every character is a word character |
| SpeechService.Padded | backend/services/speech_service.py:66 | a zero-padded field is all digits and exactly the width when the number fits |
| SpeechService.NatToStringShort | backend/services/speech_service.py:66 | numbers below 10, 100 and 10000 fit in 1, 2 and 4 digits |
| SpeechService.TimestampSpec | backend/services/speech_service.py:66 | the `%Y%m%d_%H%M%S` timestamp is word characters only; for a valid date it is 15 characters, digits except `_` at position 8 |
| SpeechService.ReplaceSuffix | backend/services/speech_service.py:75 | replacing a pattern whose first character does not occur before it changes only that final occurrence |
| SpeechService.WavOnlyChangesExtension | backend/services/speech_service.py:69-76 | the file name is `story_<safe_topic>_<timestamp>.mp3`, and the wav name and path differ from the mp3 ones only in the extension |
| SpeechService.ConvertedSpec | backend/services/speech_service.py:55-93 | conversion succeeds exactly when synthesis succeeds and pydub does not fail; the path is the audio folder plus the file name; the file is `.mp3` after conversion, or `.wav` when pydub is missing |
| SpeechService.Speech.constructor | backend/services/speech_service.py:11-17 | the service keeps its LLM, TTS engine and audio folder |
| SpeechService.Mp3PathNotWav | backend/services/speech_service.py:68-75 | the MP3's path is the stem's path plus `.mp3` and is never the WAV's path |
| SpeechService.AudioFilesSpec | backend/services/speech_service.py:55-93 | a returned audio path is among the files left behind, and no file other than the WAV and the MP3 is added or removed |
| SpeechService.Speech.ConvertTextToAudio | backend/services/speech_service.py:55-93 | the result is the specified conversion; the audio folder gains the wav, or the mp3 with the wav removed, or nothing when synthesis fails |
| SpeechService.Speech.GenerateStoryWithAudio | backend/services/speech_service.py:96-116 | the story's error with the audio folder unchanged, or else the conversion's effect on the audio folder together with the audio's error or the story with `audio_file` and `audio_path` from the conversion; `session_id` is unused |
| SpeechScreen.ClockSpec | frontend/app/SpeechScreen.tsx:90-94 | seconds are in 0..59, and minutes * 60 + seconds is `floor(millis / 1000)` |
| SpeechScreen.NatToStringOfSmall | frontend/app/SpeechScreen.tsx:93 | seconds print as one digit below 10 and two digits otherwise |
| SpeechScreen.LeadingZero | frontend/app/SpeechScreen.tsx:93 | a padding zero does not change a numeral's value |
| SpeechScreen.ColonIndex | frontend/app/SpeechScreen.tsx:93 | the first colon of the clock text, or its length |
| SpeechScreen.FormatTimeRoundTrip | frontend/app/SpeechScreen.tsx:90-94 | parsing `m:ss` gives back `floor(millis / 60000)` and the seconds, and the seconds are exactly two digits |
| SpeechScreen.JsTrimEmpty | frontend/app/SpeechScreen.tsx:26 | a topic trims to "" exactly when it is all whitespace |
| SpeechScreen.ToggledSpec | frontend/app/SpeechScreen.tsx:53-88 | toggling without an audio URL is a no-op; with a loaded sound it flips `isPlaying`, and toggling twice restores the player; with none it loads the URL and plays |
| SpeechScreen.FinishThenToggle | frontend/app/SpeechScreen.tsx:65-75 | when playback finishes, the player stops, drops the sound and resets the position to 0; the next toggle reloads and plays |
| SpeechScreen.Screen.constructor | frontend/app/SpeechScreen.tsx:11-22 | the screen starts with empty text, no sound, not playing, at position 0 |
| SpeechScreen.Screen.HandleGenerateStory | frontend/app/SpeechScreen.tsx:25-50 | a blank topic only shows a hint and changes no story or audio; otherwise the story and audio URL come from the reply, or are cleared on failure; loading ends |
| SpeechScreen.Screen.ToggleAudio | frontend/app/SpeechScreen.tsx:53-88 | the player follows the toggle transition, and the topic, story and audio URL are unchanged |
| SpeechScreen.Screen.OnPlaybackStatusUpdate | frontend/app/SpeechScreen.tsx:65-75 | the player follows the status update and nothing else changes |
| ChatMemory.Converted | backend/memory.py:34-41 | the converted history has one message per stored message |
| ChatMemory.ConvertedSpec | backend/memory.py:34-41 | conversion keeps order and content; "human" stays human and every other type becomes ai |
| ChatMemory.ConvertedAppend | backend/memory.py:34-41 | converting a concatenation is concatenating the conversions |
| ChatMemory.AskedSpec | backend/memory.py:10-52 | the session exists afterwards; other sessions are untouched; a success appends exactly the user input then the AI text, and returns that text; a failure leaves the history as it was |
| ChatMemory.SecondTurnReplaysFirst | backend/memory.py:34-50 | a second turn sends the first turn's messages, the first answer, then the new question |
| ChatMemory.SessionMemories.constructor | backend/memory.py:6 | the session table starts empty |
| ChatMemory.SessionMemories.AskTextModel | backend/memory.py:10-52 | the sessions and the result follow the specification of one turn |
| TextService.ChatHistory.constructor | backend/services/text_service.py:12 | a new history is empty |
| TextService.ChainPromptSpec | backend/services/text_service.py:17-23 | the chain's input is the system message, then the history, then the user input |
| TextService.SessionStore.constructor | backend/services/text_service.py:7 | the history store starts empty |
| TextService.SessionStore.GetSessionHistory | backend/services/text_service.py:10-13 | a known id returns its stored history and changes nothing; an unknown id creates, stores and returns a new empty history |
| TextService.SessionStore.AskTextModel | backend/services/text_service.py:26-40 | the store gains at most this id; other histories are untouched; a success appends the human and AI messages and returns the content |
| DebugUtils.Assigned | backend/lib/utils.py:21-27 | one colour per new instance |
| DebugUtils.AssignedRoundRobin | backend/lib/utils.py:21-27 | auto-coloured instances get `COLORS[_counter % 6]` in turn, and the counter advances by one each |
| DebugUtils.AssignedExplicit | backend/lib/utils.py:23 | explicit colours are kept and the counter does not move |
| DebugUtils.AutoColorPeriod | backend/lib/utils.py:11-27 | the colours repeat with period exactly 6 |
| DebugUtils.NameOr | backend/lib/utils.py:29 | the name defaults to "DebugRunnable" when it is None or empty |
| DebugUtils.ColorCounter.constructor | backend/lib/utils.py:19 | the class-level counter starts at 0 |
| DebugUtils.DebugRunnable.constructor | backend/lib/utils.py:21-31 | an auto colour takes the counter's colour and advances it; an explicit colour leaves it alone |
| DebugUtils.DebugRunnable.LinesSpec | backend/lib/utils.py:33-39 | both lines open with the colour, `[DEBUG]` and the name; one is labelled `INPUT:`, the other `OUTPUT:`, each followed by the reset code; past the label they agree except for the trailing blank line; each ends with the value shown |
| DebugUtils.DebugRunnable.Debug | backend/lib/utils.py:33-39 | `_debug` returns its input unchanged |
| DebugUtils.ColorCode | backend/lib/utils.py:58-69 | the code is always one of the known colours' codes, and it is green's exactly when the name is "green" or unknown |
| DebugUtils.PrettyTextSpec | backend/lib/utils.py:42-71 | the printed text is the blank lines, the code and prefix, the message, then the suffix, reset and blank lines; a known colour prints its own code first; an unknown colour prints as green |

## Left out

- Letters and digits are ASCII. `\w` and `str.isalnum` are modelled on
  ASCII letters, digits and `_`, so a non-ASCII letter in a topic becomes
  `_` in the model where Python keeps it. Python's Unicode letter and digit
  tables are not modelled. Whitespace is not restricted this way: `\s`,
  `str.isspace()`, `str.split()` and `strip` use Python's full whitespace
  set, and JavaScript's `trim` uses ECMAScript's white space and line
  terminators.
- Ranking.ScoreOf: Python's `float()` is modelled on decimal numerals with
  an optional sign, fraction and exponent, as reals. It does not model
  `inf`, `nan`, digit underscores or binary rounding. NaN would make the
  sort ill-defined.
- Chroma internals are not modelled: embeddings and nearest-neighbour order.
  Similarity search is an opaque function of the stored chunks, the vector
  and `k`. No ordering of its result is claimed.
- Retrieval.Retriever.Retrieve: an exception from the embedder is the error
  `Raised("embedding")`. Errors inside Chroma's search are not modelled.
- The text splitter, PDF parsers and TTS engine are functions given to the
  model. Their own validation and boundaries are not modelled.
- pydub's conversion is a three-way input: converted, missing or failed.
  File removal and renaming are only tracked as changes to a set of names.
- `print`, progress output, `mkdir`, module-level script code and the
  construction of clients and models are not modelled. The demo run of
  `rag_pdf.py` is modelled as a method taking its inputs as parameters.
- The model is sequential. Concurrent requests are not modelled, so the
  race between two ingests of the same file is out.
- The front end's asynchronous interleaving and stale React closures are not
  modelled. Each handler is one atomic step over the screen's state.
  Rendering, the progress bar, navigation, speech-to-text upload
  (`handleUploadAudio`) and the unmount effect are not modelled.
- SpeechScreen.ClockSpec: `formatTime` is modelled on non-negative whole
  milliseconds. Negative or fractional values are not modelled.
- SpeechService.TimestampSpec: `strftime` is modelled on the date and time
  fields, with the year zero-filled to four digits. For years below 1000
  that filling depends on the platform's C library. Dates outside the
  calendar ranges are not given a shape.
- The memory sessions in `memory.py` are modelled as a map of message
  lists. Aliasing between memory objects is not modelled, and the summary
  that `ConversationSummaryBufferMemory` writes when the buffer is full is
  not modelled either.
- `RunnableWithMessageHistory` is modelled by its effect on the history.
  Its internals are not modelled.
- `backend/utils.py` holds a copy of `DebugRunnable` identical to the one in
  `backend/lib/utils.py`. One model covers both.
- The re-rank loop is one method, generic over the scoring request and the
  score parser, and shared by the engine and the script. Each caller passes
  its own prompt indentation.
- RagScript.Script.ScriptContext: the context loop of `llm_answer` is a
  method of its own. `LlmAnswer` states its answer through the shared
  specification function.
- RagPipelines.RagPipeline.Respond: the generation half of `query` is a
  method of its own, so that `Query` stays small.
- The LLM is a deterministic function: the same prompt gives the same reply.
  Sampling is not modelled.
- Negative `top_k` and `k` follow Python slicing through `Take`. Only
  `top_k >= 0` has its length stated as `min(top_k, n)`.
- DocumentIngestion.DocumentIngestor.IsAlreadyProcessed: a path whose base
  name is empty (`/` or `.`) is not modelled specially. pathlib joins the
  empty name back to the processed folder itself, which exists, so Python
  answers true; the model answers by set membership. Such a path names a
  directory, not a PDF, so the PDF loaders cannot read it.
- Two LangChain constructors are taken to behave as the repository's own
  lines intend. `ConversationSummaryBufferMemory` is built without an
  `llm` (`backend/memory.py:23-25`); the model treats it as a plain
  message buffer, not as a validation error. `RunnableLambda.__init__`
  runs after `self.name` is set (`backend/lib/utils.py:28-30`); the model
  keeps the name and colour given, not whatever that constructor assigns.
