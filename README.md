# Knowledge retrieval pipeline, modelled in Dafny

This project models the `knowledge/` package of a beam-data analysis assistant: the
retrieval-augmented generation (RAG) layer that turns documents and a curated knowledge
base into answers a language model can use. It has two halves.

- **The offline/online pipeline.**
  - An offline processor scans a directory for `.pdf` and `.txt` files. It parses each file
    through a parser factory and cuts the text into chunks. The chunker is either the
    fixed-size one (overlapping windows) or the semantic one (blank-line paragraphs, with
    sentence re-splitting).
  - It then embeds every chunk with a TF-IDF, remote-API or hybrid embedder. It stores the
    vectors in a flat L2 (FAISS) vector store and writes the index, the chunk texts and the
    chunk metadata to three files.
  - An online retriever loads those files, re-fits a trainable embedder on the loaded texts,
    and answers queries. Each answer gives the nearest texts, their similarities, and (where
    found) the metadata of each text.
- **The knowledge-base side.**
  - A knowledge base holds feature definitions, troubleshooting solutions and domain
    concepts, and flattens them into tagged documents.
  - A legacy retriever ranks those documents against a query by cosine similarity. It builds
    feature explanations, solution lists, concept lists and anomaly recommendations on top.
    It writes a relevance score into the solution and concept records it returns.
  - A tool layer turns every retriever answer, or the exception raised, into a success or
    failure report for the language model.

Each source file is one module:

| module | source file | form |
|---|---|---|
| `FixedSizeChunking` | `knowledge/chunkers/fixed_size_chunker.py` | a method with a loop, specified by a function |
| `SemanticChunking` | `knowledge/chunkers/semantic_chunker.py` | methods with loops, specified by functions |
| `ChunkerFactory` | `knowledge/chunkers/chunker_factory.py` | functions |
| `ParserFactory` | `knowledge/parsers/parser_factory.py` | functions |
| `Embeddings` | `knowledge/embeddings.py` | classes for the stateful embedders |
| `FaissStore` | `knowledge/vector_store/faiss_store.py` | a class, specified by functions on its state |
| `OfflineProcessing` | `knowledge/offline_processor.py` | a class with loops |
| `OnlineRetrieval` | `knowledge/online_retriever.py` | a class |
| `KnowledgeBases` | `knowledge/knowledge_base.py` | classes |
| `LegacyRetrieval` | `knowledge/retriever.py` | a class |
| `RagTools` | `knowledge/rag_tool.py` | classes |

Three further modules are shared: `Common` (Option, Result, Python's errors, and string and
slice helpers), `Storage` (matrices, the flat index, pickled artifacts, and the file store)
and `Ranking` (argsort).

## Inputs from outside

Behaviour that depends on libraries, files or services outside the package becomes an
input. The properties hold for every value of these inputs.

- **TF-IDF weighting** (`Embeddings.Tfidf`): how many features a corpus yields, and the
  weight of feature `j` in a text.
- **Embedding service** (`ServiceReply`): the vectors the service returns for a batch, or the
  message of the exception it raised.
- **Document parsers** (`ParserFactory.ParseOutcome`): the text a parser extracts, or a
  failure.
- **Cosine similarity** of two vectors in the legacy retriever (`LegacyRetrieval.Cosine`).
- **Directory listing** (`OfflineProcessing.DirEntry`) and **files on disk**
  (`Storage.FileStore`). The three knowledge-base JSON files arrive already parsed
  (`KnowledgeBases.KnowledgeFiles`).
- **The embedding section of the configuration** (`Embeddings.EmbeddingConfig`).
  `knowledge/embeddings.py:103` calls `Config.get_embedding_config()` and reads its
  `api_key`, `base_url` and `model` entries, as `test_embedding_config.py:30` also expects.
  `config/config.py` does not define that method. The model takes the configuration that
  method would return as a parameter. With `config/config.py` as it stands, every
  `APIEmbedder(...)` raises `AttributeError` at line 103, before any argument is looked at.
  So `create_embedder("api", ...)` always fails, and the hybrid embedder always catches the
  error (lines 176-178) and runs on TF-IDF alone. The api and hybrid properties below hold
  for a configuration module that defines the method.
- **Non-determinism**, supplied by the caller:
  - the positions `random.sample` draws;
  - the iteration order of the Python `set` in `get_recommendations`.

## Behaviour worth noting

- **Fixed-size chunker.** After each window, `start` advances by
  `chunk_size - chunk_overlap` (`knowledge/chunkers/fixed_size_chunker.py:52`). The
  anti-stall guard (lines 55-56) then moves `start` to the window's end whenever it lies at
  or before `end - chunk_size + chunk_overlap`. For a full window this happens exactly when
  `chunk_size <= 2 * chunk_overlap`, and then consecutive windows do not overlap at all.
  `FixedSizeChunking.FullWindowStep` states this.
- **Semantic chunker.** A whole buffer is emitted only when it is at least `min_chunk_size`
  long (`knowledge/chunkers/semantic_chunker.py:54-56`). The pieces cut from an over-long
  buffer at sentence boundaries (line 73) can be of any length, and the merged final chunk
  (line 83) can exceed `max_chunk_size`. `SemanticChunking.ChunksBounded` states the bound
  the code keeps. `SemanticChunking.ShortParagraphsGiveLongChunks` states when every chunk
  is at least `min_chunk_size` long.
- **Chunker factory.** The offline processor passes `chunk_size` and `chunk_overlap` to the
  factory (`knowledge/offline_processor.py:57-60`). The semantic branch reads only
  `max_chunk_size` and `min_chunk_size` (`knowledge/chunkers/chunker_factory.py:28-31`), so
  the semantic chunker the processor builds always runs with 800/100
  (`ChunkerFactory.SemanticIgnoresChunkSize`).
- **Vector store.** A store built without a dimension keeps `dimension = None`
  (`knowledge/vector_store/faiss_store.py:18`). When `add_documents` creates the index
  lazily (line 46), it does not set `dimension` either
  (`FaissStore.LazyIndexLeavesDimensionUnset`).
- **Online retriever with a hybrid embedder.** The retriever reads `embedder.fitted` on
  every embedder that has a `fit` method (`knowledge/online_retriever.py:64-65`). The hybrid
  embedder has `fit` but no `fitted` attribute, so building an online retriever with a
  hybrid embedder raises `AttributeError` (`OnlineRetrieval.NewOnlineRetriever`).
- **Tool layer.** `get_retriever()` and the `RAGTool` constructor
  (`knowledge/rag_tool.py:13-18`, `24-27`) run outside any `try` block. An exception raised
  while building the process-wide retriever would therefore escape the tool functions
  instead of becoming a failure report. In the model the default retriever (knowledge base
  from the default files, TF-IDF embedder) is always built without error
  (`RagTools.Registry.GetRetriever`), so every tool function returns a report
  (`RagTools.NewRAGTool`).

## Model

| member | source | states |
|---|---|---|
| Common.StripSpec | knowledge/online_retriever.py:88 | `str.strip()` cuts only whitespace from both ends, leaves a slice that neither starts nor ends with whitespace, and is empty exactly for a blank string |
| Common.StripIdempotent | knowledge/chunkers/fixed_size_chunker.py:45-48 | stripping an already stripped chunk changes nothing |
| Common.Lower | knowledge/knowledge_base.py:112 | lower-casing keeps the length and maps each character on its own |
| Common.Contains | knowledge/knowledge_base.py:115 | `kw in search_text` holds exactly when the keyword occurs at some position of the text |
| Common.RFind | knowledge/parsers/parser_factory.py:28 | the last position of the character, or -1 when it does not occur |
| Common.Take | knowledge/rag_tool.py:205-206 | a Python slice `s[:k]` is a prefix of `s`, of length `min(k, len(s))` for `k >= 0` |
| Ranking.ArgsortSpec | knowledge/retriever.py:104 | the ascending ranking lists every position exactly once, in non-decreasing key order |
| FixedSizeChunking.New | knowledge/chunkers/fixed_size_chunker.py:9-25 | a chunker is built exactly when `chunk_size > 0`, `chunk_overlap >= 0` and `chunk_overlap < chunk_size`, keeping both values; otherwise the first failing check's ValueError, in the source's order |
| FixedSizeChunking.NextStart | knowledge/chunkers/fixed_size_chunker.py:51-56 | the next window always starts strictly after the current one, so the loop terminates |
| FixedSizeChunking.WindowsBounds | knowledge/chunkers/fixed_size_chunker.py:44-45 | every visited window lies inside the text, is non-empty and spans at most `chunk_size` characters |
| FixedSizeChunking.Chunk | knowledge/chunkers/fixed_size_chunker.py:27-58 | the loop returns the trimmed non-empty pieces of the visited windows (blank text gives none) |
| FixedSizeChunking.ChunkShape | knowledge/chunkers/fixed_size_chunker.py:46-49 | every chunk returned is non-empty, already stripped, and at most `chunk_size` long |
| FixedSizeChunking.ChunksFromShape | knowledge/chunkers/fixed_size_chunker.py:44-57 | the same shape for the chunks collected from any start position on |
| FixedSizeChunking.ChunksAreWindowPieces | knowledge/chunkers/fixed_size_chunker.py:44-57 | every visited window lies inside the text, and the chunks equal the visited windows' trimmed slices `text[start:end]`, in visiting order, with the empty ones filtered out |
| FixedSizeChunking.WindowCount | knowledge/chunkers/fixed_size_chunker.py:44-56 | the loop runs at most once per remaining character, with strictly increasing starts |
| FixedSizeChunking.FullWindowStep | knowledge/chunkers/fixed_size_chunker.py:52-56 | after a full window the guard drops the overlap (next start = end) exactly when `chunk_size <= 2 * chunk_overlap`; otherwise the step is `chunk_size - chunk_overlap` |
| FixedSizeChunking.NoGap | knowledge/chunkers/fixed_size_chunker.py:52-56 | the next window starts no later than the current one ends, unless the text is exhausted |
| FixedSizeChunking.WindowsCover | knowledge/chunkers/fixed_size_chunker.py:44-57 | every character of the text lies in some visited window |
| SemanticChunking.SeparatorEnd | knowledge/chunkers/semantic_chunker.py:35 | a match of `\n\s*\n` spans at least two characters, all whitespace, beginning and ending with a line break (the greedy `\s*` backs off to the last line break) |
| SemanticChunking.SplitFrom | knowledge/chunkers/semantic_chunker.py:35 | the paragraph split yields one more piece than separators |
| SemanticChunking.RawParagraphs | knowledge/chunkers/semantic_chunker.py:35 | `re.split` always returns at least one piece |
| SemanticChunking.SplitRoundTrip | knowledge/chunkers/semantic_chunker.py:35 | the paragraphs with the separators between them rebuild the text exactly, and every separator is a blank line |
| SemanticChunking.NonBlankHasParagraph | knowledge/chunkers/semantic_chunker.py:31-43 | text that is not blank has some paragraph that is not blank after stripping |
| SemanticChunking.DelimiterEnd | knowledge/chunkers/semantic_chunker.py:101 | the delimiter `[。！？.!?]+[\s\n]*` found at the next terminal mark ends after it, inside the text |
| SemanticChunking.SentenceParts | knowledge/chunkers/semantic_chunker.py:101-102 | a split with one capturing group returns an odd number of parts: text, delimiter, ..., text |
| SemanticChunking.NonBlankOnly | knowledge/chunkers/semantic_chunker.py:115 | no kept piece is blank |
| SemanticChunking.PairUp | knowledge/chunkers/semantic_chunker.py:105-113 | the pairing loop glues each text to the delimiter after it and keeps an odd final part, as the recursive pairing does |
| SemanticChunking.SplitSentences | knowledge/chunkers/semantic_chunker.py:90-115 | the method returns what the split, pairing and blank filter define |
| SemanticChunking.PairIsGlued | knowledge/chunkers/semantic_chunker.py:101-113 | pairing the split parts equals scanning the text sentence by sentence |
| SemanticChunking.DelimitedShaped | knowledge/chunkers/semantic_chunker.py:101-108 | a piece ending at a delimiter is text, then terminal marks, then whitespace, and is not blank |
| SemanticChunking.UndelimitedShaped | knowledge/chunkers/semantic_chunker.py:112-113 | a trailing piece without terminal marks is a sentence on its own |
| SemanticChunking.GluedAt | knowledge/chunkers/semantic_chunker.py:105-113 | every paired piece is sentence-shaped, and only the last can be blank |
| SemanticChunking.GluedFlatten | knowledge/chunkers/semantic_chunker.py:101-113 | the paired pieces concatenate back to the text |
| SemanticChunking.NonBlankOnlyDropsLast | knowledge/chunkers/semantic_chunker.py:115 | when only the last piece can be blank, the filter drops at most that piece |
| SemanticChunking.SentencesAreGlued | knowledge/chunkers/semantic_chunker.py:90-115 | the sentences are the paired pieces, less a blank last one, and those pieces rebuild the text |
| SemanticChunking.CoverFromParts | knowledge/chunkers/semantic_chunker.py:112-115 | the pieces, less the last one exactly when it is blank, glue back to a prefix of the text that only whitespace follows |
| SemanticChunking.SentencesCover | knowledge/chunkers/semantic_chunker.py:90-115 | the sentences glued together give back the text up to trailing whitespace |
| SemanticChunking.SentencesSpec | knowledge/chunkers/semantic_chunker.py:90-115 | no sentence is blank, each keeps its terminal punctuation attached to the text before it, and together they rebuild the input up to trailing whitespace |
| SemanticChunking.SentencesNonEmpty | knowledge/chunkers/semantic_chunker.py:90-115 | text that is not blank has at least one sentence |
| SemanticChunking.CutSentences | knowledge/chunkers/semantic_chunker.py:65-76 | the sentence loop appends the stripped finished pieces to the chunks and leaves the last piece as the buffer |
| SemanticChunking.Chunk | knowledge/chunkers/semantic_chunker.py:21-88 | the method returns what the paragraph packing and the final-buffer rule define |
| SemanticChunking.StepAppends | knowledge/chunkers/semantic_chunker.py:40-76 | a paragraph never removes or changes a chunk already emitted |
| SemanticChunking.JoinOnlyWhenFits | knowledge/chunkers/semantic_chunker.py:46-55 | a paragraph that fits (`len + len + 2 <= max`) joins the buffer with a blank line and emits nothing; one that does not fit emits a buffer of at least `min_chunk_size` |
| SemanticChunking.PackFlushesLong | knowledge/chunkers/semantic_chunker.py:40-76 | when every stripped paragraph is at least `min_chunk_size + 2` shorter than `max_chunk_size` (and `min_chunk_size >= 0`), no buffer is ever cut on sentences, and every chunk the loop emits is a whole buffer of at least `min_chunk_size` characters |
| SemanticChunking.ShortParagraphsGiveLongChunks | knowledge/chunkers/semantic_chunker.py:31-87 | under the same condition on the paragraphs, every chunk returned is at least `min_chunk_size` long, unless the text gives at most one chunk |
| SemanticChunking.StepKeepsBuffer | knowledge/chunkers/semantic_chunker.py:40-76 | after a non-blank paragraph the buffer is not empty |
| SemanticChunking.PackSentencesKeepsBuffer | knowledge/chunkers/semantic_chunker.py:68-76 | cutting non-blank sentences leaves a non-empty buffer |
| SemanticChunking.PackKeepsBuffer | knowledge/chunkers/semantic_chunker.py:40-76 | with some non-blank paragraph the final buffer is not empty |
| SemanticChunking.NonEmptyIffNotBlank | knowledge/chunkers/semantic_chunker.py:31-86 | the chunk list is empty exactly when the text is blank |
| SemanticChunking.FinalBufferKept | knowledge/chunkers/semantic_chunker.py:79-86 | the final buffer is never dropped: it is appended when long enough or alone, otherwise merged into the previous chunk after a blank line |
| SemanticChunking.StripShaped | knowledge/chunkers/semantic_chunker.py:73 | stripping a sentence keeps it sentence-shaped |
| SemanticChunking.StripBounded | knowledge/chunkers/semantic_chunker.py:73 | stripping keeps a piece within the size rule |
| SemanticChunking.PackSentencesBounded | knowledge/chunkers/semantic_chunker.py:68-76 | every sentence-cut piece is at most `max_chunk_size` long or a single sentence |
| SemanticChunking.ResplitBounded | knowledge/chunkers/semantic_chunker.py:63-76 | after an over-long buffer is cut, chunks and buffer obey the size rule |
| SemanticChunking.StepBounded | knowledge/chunkers/semantic_chunker.py:40-76 | the size rule is an invariant of the paragraph loop |
| SemanticChunking.PackBounded | knowledge/chunkers/semantic_chunker.py:40-76 | after all paragraphs, every chunk and the buffer obey the size rule |
| SemanticChunking.ChunksBounded | knowledge/chunkers/semantic_chunker.py:21-88 | every chunk is at most `max_chunk_size` long or a single over-long sentence; only the last can break this, and only through the merge of a short tail |
| ChunkerFactory.CreateChunker | knowledge/chunkers/chunker_factory.py:12-34 | "fixed" (the default) builds a fixed-size chunker from `chunk_size`/`chunk_overlap` (defaults 500/50), propagating its validation error; "semantic" builds a semantic chunker from `max_chunk_size`/`min_chunk_size` (defaults 800/100); any other name is the ValueError "未知的分块器类型: <name>" |
| ChunkerFactory.AvailableChunkers | knowledge/chunkers/chunker_factory.py:37-47 | exactly the two names "fixed" and "semantic" are listed |
| ChunkerFactory.Chunk | knowledge/chunkers/chunker_factory.py:23-32 | `chunk(text)` dispatches to the chunker of the built kind |
| ChunkerFactory.AvailableMatchesCreate | knowledge/chunkers/chunker_factory.py:12-47 | a name is listed exactly when the factory does not reject it as unknown, and exactly when it builds with default arguments |
| ChunkerFactory.SemanticIgnoresChunkSize | knowledge/chunkers/chunker_factory.py:28-32 | the semantic branch ignores `chunk_size`/`chunk_overlap` and never fails |
| ChunkerFactory.DefaultIsFixed | knowledge/chunkers/chunker_factory.py:12-27 | an omitted type is "fixed", and with no arguments it is the 500-by-50 chunker |
| ParserFactory.HasNonDot | knowledge/parsers/parser_factory.py:28 | decides whether a stretch of the path holds a character other than a dot (the leading-dots rule of `splitext`) |
| ParserFactory.ExtensionSpec | knowledge/parsers/parser_factory.py:28 | the extension is a suffix of the path, empty or a dot followed by neither dot nor separator; it is empty exactly when the last component has no dot after a non-dot character |
| ParserFactory.ParseDocument | knowledge/parsers/parser_factory.py:18-42 | an unregistered lower-cased extension gives `None`; a registered one gives the parser's text, or `None` when the parser raises |
| ParserFactory.GetParser | knowledge/parsers/parser_factory.py:45-58 | a parser exists exactly for ".txt" and ".pdf" after lower-casing, the text parser exactly for ".txt" |
| ParserFactory.RegistryIsTxtAndPdf | knowledge/parsers/parser_factory.py:12-15 | the registry holds ".txt" and ".pdf" only, and the lower-cased lookup accepts every capitalisation of ".txt" |
| ParserFactory.UpperCaseExtension | knowledge/parsers/parser_factory.py:28-29 | "a.TXT" has extension ".TXT", which lower-cases to ".txt" |
| ParserFactory.HiddenFileHasNoExtension | knowledge/parsers/parser_factory.py:28 | ".txt" and "dir/..pdf" have no extension, so they are unsupported |
| ParserFactory.UnsupportedNeverParses | knowledge/parsers/parser_factory.py:31-35 | an unsupported extension gives `None` whatever the parsers would do |
| ParserFactory.SameParserSameResult | knowledge/parsers/parser_factory.py:37-42 | the result depends only on what the chosen parser does with the path |
| ParserFactory.ParseUsesGetParser | knowledge/parsers/parser_factory.py:18-58 | `parse_document` uses exactly the parser `get_parser` gives for the path's extension |
| Embeddings.Batch | knowledge/embeddings.py:79-80 | a single string becomes the one-element batch; a list is embedded as given |
| Embeddings.TfidfMatrix | knowledge/embeddings.py:82 | one row per text and one column per feature kept by the fitted vectorizer, each cell the feature's weight in that text |
| Embeddings.SimpleEmbedder.constructor | knowledge/embeddings.py:39-52 | a new TF-IDF embedder keeps its `max_features` and starts unfitted, with no corpus |
| Embeddings.SimpleEmbedder.Fit | knowledge/embeddings.py:54-64 | an empty corpus is refused with the ValueError and leaves the embedder unchanged; any other corpus fits it on exactly that corpus |
| Embeddings.SimpleEmbedder.Embedding | knowledge/embeddings.py:66-82 | it fails with the "not fitted" RuntimeError exactly when the embedder is unfitted; otherwise one row per input text, as wide as the fitted vocabulary |
| Embeddings.SingleTextIsBatch | knowledge/embeddings.py:79-82 | embedding one string is the same as embedding the list holding it, and yields one row |
| Embeddings.TfidfRowwise | knowledge/embeddings.py:82 | a text's row does not depend on the other texts of the batch |
| Embeddings.OrDefault | knowledge/embeddings.py:105-107 | a given non-empty argument wins; a missing or empty one falls back to the configured value |
| Embeddings.NewApiEmbedder | knowledge/embeddings.py:88-119 | given the configuration `get_embedding_config` returns, the API embedder is built exactly when the resolved key is non-empty, with the resolved key, endpoint and model; otherwise the "no API key" ValueError |
| Embeddings.ApiEmbedding | knowledge/embeddings.py:121-146 | a failing call becomes a RuntimeError prefixed "API调用失败: " with the call's message; a success returns the service's vectors as rows, in response order |
| Embeddings.HybridEmbedder.constructor | knowledge/embeddings.py:152-178 | given the configuration `get_embedding_config` returns, the hybrid holds an API embedder exactly when one can be built from the arguments, and always a fresh unfitted TF-IDF embedder with 1000 features |
| Embeddings.HybridEmbedder.Fit | knowledge/embeddings.py:180-182 | fitting the hybrid fits its TF-IDF embedder and nothing else, with the same empty-corpus refusal |
| Embeddings.HybridEmbedder.Embedding | knowledge/embeddings.py:184-200 | whatever it returns is a rectangular matrix |
| Embeddings.HybridFallback | knowledge/embeddings.py:184-200 | without an API embedder or when the call fails the hybrid answers with TF-IDF; a working call is used as is; once TF-IDF is fitted the hybrid never fails, and its only error is "not fitted" |
| Embeddings.CreationOutcome | knowledge/embeddings.py:203-221 | an unknown method name (the default being "simple") gives the "未知的方法类型: " ValueError and only then; each kind built matches the name asked for |
| Embeddings.CreateEmbedder | knowledge/embeddings.py:203-221 | the embedder built is of the kind the outcome names, fresh and unfitted where it has state, and the error is the outcome's |
| Embeddings.Embed | knowledge/embeddings.py:23-33 | `embed` on an embedder of any kind yields a rectangular matrix when it succeeds |
| Embeddings.FittedAttribute | knowledge/online_retriever.py:64-65 | only the TF-IDF embedder has a `fitted` attribute; reading it from another kind is an AttributeError |
| Embeddings.FitEmbedder | knowledge/embeddings.py:54-64 | fitting an embedder that has `fit` refuses an empty corpus unchanged and otherwise fits its TF-IDF part on the corpus |
| Embeddings.CreationCases | knowledge/embeddings.py:203-221 | "hybrid" without stray arguments always succeeds; "simple" without API arguments gives the TF-IDF kind with 1000 features by default; given the configuration `get_embedding_config` returns, "api" succeeds exactly when a key is configured; an omitted method means "simple" |
| Embeddings.FittedEmbedding | knowledge/embeddings.py:184-200 | an embedder of each kind `create_embedder` builds, its TF-IDF part fitted on a corpus, answers `embed` with the TF-IDF matrix (simple kind, or hybrid kind without API part) and fails only for the API kind, exactly as the service fails |
| Embeddings.EmbedAsBuilt | knowledge/embeddings.py:203-221 | an embedder built as a kind, its TF-IDF part fitted on a corpus, embeds exactly as `FittedEmbedding` of that kind says |
| FaissStore.Initial | knowledge/vector_store/faiss_store.py:11-23 | a new store holds no documents and the dimension it was given; it has an empty index of that width exactly when a dimension was given |
| FaissStore.AddSpec | knowledge/vector_store/faiss_store.py:37-58 | `add_documents` always leaves an index behind (the existing one, or a new one as wide as the embeddings) and never sets the dimension; it fails with the count-mismatch ValueError when the counts differ and with FAISS's dimension assertion when the widths differ, leaving the documents and rows as they were; otherwise it appends the vectors and the texts |
| FaissStore.AddKeepsAlignment | knowledge/vector_store/faiss_store.py:55-56 | a successful add keeps index rows and documents aligned, and pairs each new text with its own vector |
| FaissStore.LazyIndexLeavesDimensionUnset | knowledge/vector_store/faiss_store.py:45-46 | a store made without a dimension gets an index as wide as its first embeddings but still reports no dimension |
| FaissStore.SqL2 | knowledge/vector_store/faiss_store.py:34 | the squared Euclidean distance that `IndexFlatL2` ranks by is never negative |
| FaissStore.Knn | knowledge/vector_store/faiss_store.py:83 | FAISS's search returns exactly `k` neighbours, padded with `(-1, FLT_MAX)` exactly past the number of rows; each real neighbour is a row label with its distance to the query |
| FaissStore.KnnNearest | knowledge/vector_store/faiss_store.py:83 | the neighbours are distinct rows in ascending distance, and no row left out is nearer than one reported |
| FaissStore.SimilarityBounds | knowledge/vector_store/faiss_store.py:90 | `1 / (1 + dist)` lies in (0, 1] and never increases with the distance |
| FaissStore.Collect | knowledge/vector_store/faiss_store.py:86-93 | the loop keeps at most one result per neighbour, and every result is one of the stored texts |
| FaissStore.SearchIn | knowledge/vector_store/faiss_store.py:60-93 | every text a search returns is one of the stored documents |
| FaissStore.SearchOutcomes | knowledge/vector_store/faiss_store.py:71-83 | an empty store answers with no results; a search fails exactly on a query of the wrong width, a non-positive `top_k` or a query with no rows; otherwise at most `min(top_k, len(documents))` results come back |
| FaissStore.CollectAll | knowledge/vector_store/faiss_store.py:86-93 | when every label names a document, the loop keeps every neighbour, in order, with its text and its similarity |
| FaissStore.SearchRanked | knowledge/vector_store/faiss_store.py:60-93 | on an aligned store a well-formed search returns exactly `min(top_k, len(documents))` results: the texts of the nearest rows, nearest first, with similarities in (0, 1] that never increase |
| FaissStore.LoadFailures | knowledge/vector_store/faiss_store.py:133-144 | a missing index file changes nothing; a missing documents file fails after the index and dimension were replaced, keeping the old documents; `load` succeeds exactly when both files exist |
| FaissStore.SaveLoadRoundTrip | knowledge/vector_store/faiss_store.py:95-146 | saving a store with an index to two distinct paths always succeeds, and loading those files into any store restores the index and the texts, with the dimension taken from the index |
| FaissStore.StatsOf | knowledge/vector_store/faiss_store.py:148-159 | the statistics report the document count, the dimension and the number of index rows (0 without an index); an aligned store reports as many index rows as documents |
| FaissStore.FaissVectorStore.constructor | knowledge/vector_store/faiss_store.py:11-23 | the new object's state is the initial state for its dimension |
| FaissStore.FaissVectorStore.AddDocuments | knowledge/vector_store/faiss_store.py:37-58 | the error raised and the new fields are those of the `add_documents` specification on the old fields |
| FaissStore.FaissVectorStore.Search | knowledge/vector_store/faiss_store.py:60-93 | the loop over the neighbours returns what the search specification gives for the current state |
| FaissStore.FaissVectorStore.Load | knowledge/vector_store/faiss_store.py:118-146 | the error raised and the new fields are those of the `load` specification on the old fields and the files |
| OfflineProcessing.Basename | knowledge/offline_processor.py:106 | the base name is a suffix of the path with no separator in it |
| OfflineProcessing.BasenameOfJoin | knowledge/offline_processor.py:204-205 | the base name of a listed file's joined path is the name that was listed |
| OfflineProcessing.JoinDistinct | knowledge/offline_processor.py:172-178 | joining two different plain names to one directory gives two different paths |
| OfflineProcessing.OutputPathsDistinct | knowledge/offline_processor.py:172-178 | the index, documents and metadata files of one output directory are three different files, so no write overwrites another |
| OfflineProcessing.InsertString | knowledge/offline_processor.py:212 | inserting a string adds exactly that string to the list's contents |
| OfflineProcessing.SortStrings | knowledge/offline_processor.py:212 | `sorted` returns a permutation of its input |
| OfflineProcessing.SortStringsSorted | knowledge/offline_processor.py:212 | `sorted` returns its strings in Python's string order |
| OfflineProcessing.SortedUnique | knowledge/offline_processor.py:212 | two sorted lists holding the same strings are the same list, so `sorted` has one possible answer |
| OfflineProcessing.ScanDirectory | knowledge/offline_processor.py:190-212 | the loop over the listing returns the sorted joined paths of the wanted entries |
| OfflineProcessing.ScanSpec | knowledge/offline_processor.py:200-212 | the scan is sorted, is a permutation of the selected paths, and lists a path exactly when it joins the directory to a regular file whose lower-cased extension is one of the wanted types (`.pdf` and `.txt` by default) |
| OfflineProcessing.ScanIgnoresListingOrder | knowledge/offline_processor.py:204-212 | the order in which the directory listing comes back does not change the scan |
| OfflineProcessing.Entries | knowledge/offline_processor.py:126-132 | the metadata of a file's chunks carries the file's base name, its path, and consecutive global indices from the running count |
| OfflineProcessing.ChunkLists | knowledge/offline_processor.py:118 | one chunk list per file, each the chunks that file yields |
| OfflineProcessing.AccumulateCounts | knowledge/offline_processor.py:105-139 | every scanned file is counted once, as processed or failed, and there is one detail entry per processed file |
| OfflineProcessing.AccumulateStep | knowledge/offline_processor.py:110-139 | a file without chunks only raises the failure count; any other appends its chunks, their metadata and its detail |
| OfflineProcessing.AccumulateChunks | knowledge/offline_processor.py:126-127 | `all_chunks` is the chunks of the processed files, one file after another in scan order |
| OfflineProcessing.AccumulateDetails | knowledge/offline_processor.py:134-143 | `files_details[k]` describes the `k`-th processed file (name, chunk count, character count), and the chunk counts add up to `total_chunks` |
| OfflineProcessing.MetadataAligned | knowledge/offline_processor.py:126-132 | `all_metadata` runs alongside `all_chunks`: entry `i` has chunk index `i` and names a processed file, by path and base name, that produced chunk `i` |
| OfflineProcessing.PublishRoundTrip | knowledge/offline_processor.py:168-182 | with one embedding row per chunk the store is built aligned, the three files are written, the metadata file holds the chunk metadata, and loading the index and documents files back gives exactly the built store |
| OfflineProcessing.SingleFileSpec | knowledge/offline_processor.py:214-241 | a single file reports a parse failure exactly when its text is missing or empty, a chunking failure exactly when it yields no chunks, and otherwise up to three leading sample chunks with the counts the directory loop would record for it |
| OfflineProcessing.OfflineProcessor.constructor | knowledge/offline_processor.py:47-64 | the processor keeps its directories, chunker and embedder and has no vector store yet |
| OfflineProcessing.OfflineProcessor.CollectChunks | knowledge/offline_processor.py:105-141 | the per-file loop gathers what the accumulation specification gives for the scanned files |
| OfflineProcessing.OfflineProcessor.VisitFile | knowledge/offline_processor.py:106-139 | one iteration of the per-file loop is the specification's step for that file |
| OfflineProcessing.OfflineProcessor.AppendChunks | knowledge/offline_processor.py:126-132 | the inner loop appends the file's chunks and their numbered metadata |
| OfflineProcessing.OfflineProcessor.ProcessDirectory | knowledge/offline_processor.py:72-188 | no scanned files gives the "没有找到可处理的文件" report and changes nothing; no chunks gives the statistics and changes nothing; otherwise the embedder is fitted on the chunks when it can be, an embedding error escapes unchanged, and a successful embedding leaves a new store and the written files, with the statistics |
| OfflineProcessing.OfflineProcessor.IndexChunks | knowledge/offline_processor.py:159-182 | fitting comes before embedding; an embedding failure writes nothing; otherwise a new store sized by the embedding width holds the chunks and the three files are written |
| OfflineProcessing.NewOfflineProcessor | knowledge/offline_processor.py:25-70 | the chunker is built first with `chunk_size` and `chunk_overlap`, so its error wins over the embedder's; when both build, a fresh processor holds the directories, that chunker, a fresh embedder of the requested kind built from the given arguments and not yet fitted, and no store |
| OfflineProcessing.DefaultOutputPaths | knowledge/offline_processor.py:28 | with the default output directory the processor writes exactly the three files the online retriever reads by default |
| OnlineRetrieval.Training | knowledge/online_retriever.py:63-67 | the fitting step raises nothing for an API embedder, always the `fitted` AttributeError for a hybrid, and for a TF-IDF embedder the empty-corpus ValueError exactly when it is unfitted and no texts were loaded |
| OnlineRetrieval.IndexOf | knowledge/online_retriever.py:108 | `documents.index(doc)` is the first position holding the text |
| OnlineRetrieval.Attach | knowledge/online_retriever.py:98-114 | one result per store hit, in the store's order, each built by the per-hit rule |
| OnlineRetrieval.AttachAll | knowledge/online_retriever.py:98-114 | the result-building loop yields exactly the per-hit results the specification lists, in the store's order |
| OnlineRetrieval.AnswerShape | knowledge/online_retriever.py:71-114 | a blank query gives no results; an embedding or store failure escapes as is; otherwise one result per store hit, with the hit's text and score, every text a stored one |
| OnlineRetrieval.MetadataIsFirstOccurrence | knowledge/online_retriever.py:106-110 | metadata is attached exactly when asked for and the text's first position lies inside the metadata list, and it is the record at that first position |
| OnlineRetrieval.DistinctTextsGetOwnMetadata | knowledge/online_retriever.py:106-110 | with distinct texts and one record per text, each result carries its own text's record |
| OnlineRetrieval.AnswerRanked | knowledge/online_retriever.py:71-114 | on an aligned store a well-formed query gives exactly `min(top_k, n)` results with scores in (0, 1] that never increase |
| OnlineRetrieval.FromSource | knowledge/online_retriever.py:137-140 | the filter keeps, in the search's order, exactly the results whose metadata names the source file; results ranked by score stay ranked |
| OnlineRetrieval.FilterKeepsRank | knowledge/online_retriever.py:137-140 | leaving results out of a list ranked by non-increasing score keeps it ranked |
| OnlineRetrieval.SourceAnswerSpec | knowledge/online_retriever.py:116-142 | a source search fails exactly as the wider search for `5 * top_k` results does; otherwise it returns the first `min(top_k, n)` of the `n` wider results whose metadata names the source, in the wider search's order, and misses none of those when `n <= top_k` |
| OnlineRetrieval.SourceAnswerRanked | knowledge/online_retriever.py:116-142 | when the wider search is ranked by score, so is the source search |
| OnlineRetrieval.Sample | knowledge/online_retriever.py:154-158 | fewer texts than asked for gives all texts; a negative size is `random.sample`'s ValueError, and only then is there an error |
| OnlineRetrieval.SampleSpec | knowledge/online_retriever.py:154-158 | a sample has `min(n, len(docs))` stored texts, and repeats none when the stored texts are distinct |
| OnlineRetrieval.SourceFiles | knowledge/online_retriever.py:171 | the set holds exactly the source files the metadata names |
| OnlineRetrieval.SourceFileCount | knowledge/online_retriever.py:171-173 | the source-file count is at most the number of records, and at least 1 when there is one |
| OnlineRetrieval.OnlineRetriever.constructor | knowledge/online_retriever.py:30-39 | the retriever keeps its paths and embedder, with a new store without a dimension and no metadata |
| OnlineRetrieval.OnlineRetriever.LoadIndex | knowledge/online_retriever.py:43-69 | a missing index or documents file raises the matching FileNotFoundError and changes nothing; otherwise the store is loaded, the metadata replaced when its file exists, and the fitting step's outcome decides whether the trainable embedder is now fitted on the loaded texts |
| OnlineRetrieval.OnlineRetriever.Search | knowledge/online_retriever.py:71-114 | returns exactly what the search specification gives for the current store, metadata and embedder |
| OnlineRetrieval.OnlineRetriever.SearchBySource | knowledge/online_retriever.py:116-142 | the source search returns what its specification gives |
| OnlineRetrieval.OnlineRetriever.RandomSamples | knowledge/online_retriever.py:144-158 | samples are stored texts, `min(n, len(documents))` of them for any `n >= 0` |
| OnlineRetrieval.OnlineRetriever.GetStats | knowledge/online_retriever.py:160-175 | the store's statistics, plus the source files and their count exactly when there is metadata; the count is the number of distinct files named, between 1 and the number of records |
| OnlineRetrieval.NewOnlineRetriever | knowledge/online_retriever.py:12-41 | the embedder's creation error, then a missing index file, then a missing documents file abort construction; a built retriever holds the loaded store and metadata with a fitted trainable embedder; with both files present a TF-IDF retriever builds exactly when texts were loaded, an API one always, and a hybrid never |
| OnlineRetrieval.DefaultPathsMatchOffline | knowledge/online_retriever.py:14-16 | the retriever's default paths are the files the offline processor writes into its default output directory |
| KnowledgeBases.SolutionRecord.constructor | knowledge/knowledge_base.py:48 | a solution record keeps its fields and has no relevance score yet |
| KnowledgeBases.ConceptRecord.constructor | knowledge/knowledge_base.py:58 | a concept record keeps its fields and has no relevance score yet |
| KnowledgeBases.KnowledgeBase.constructor | knowledge/knowledge_base.py:12-63 | each collection is the one loaded, or empty when its file or key is missing |
| KnowledgeBases.KnowledgeBase.KnownFeatures | knowledge/knowledge_base.py:77-92 | the result maps exactly the requested names that have non-empty information, each to its own information |
| KnowledgeBases.OtherKeysAreKnown | knowledge/knowledge_base.py:89-91 | an entry that holds only keys the code never reads by name (such as `category`) is a non-empty dict, so `if info:` keeps the feature |
| KnowledgeBases.KnowledgeBase.MultipleFeaturesInfo | knowledge/knowledge_base.py:87-92 | the loop builds the map of the requested names with non-empty information |
| KnowledgeBases.KnowledgeBase.SearchSolutions | knowledge/knowledge_base.py:94-118 | the loop keeps, in order, the solutions whose lower-cased problem, symptoms and root causes contain some lower-cased keyword |
| KnowledgeBases.KnowledgeBase.SolutionsByPriority | knowledge/knowledge_base.py:120-130 | every solution returned has the priority asked for, and every solution with it is returned; at every cut of the solution list the result is the filtered part before the cut followed by the filtered part after it, so order and repeats are kept |
| KnowledgeBases.PriorityFilterSpec | knowledge/knowledge_base.py:130 | the priority comprehension splits over concatenation and keeps a single solution exactly when its priority matches (a missing priority never matches), which fixes the result, in order and with repeats, for every list |
| KnowledgeBases.KnowledgeBase.SearchConcept | knowledge/knowledge_base.py:132-145 | nothing is found exactly when no concept's term matches case-blind; otherwise the first matching concept |
| KnowledgeBases.KnowledgeBase.AllDocuments | knowledge/knowledge_base.py:147-208 | the three loops build the document list: features, then solutions, then concepts |
| KnowledgeBases.KnowledgeBase.Statistics | knowledge/knowledge_base.py:210-223 | the statistics count each collection, and the feature, solution and concept counts add up to the number of documents |
| KnowledgeBases.FirstMatch | knowledge/knowledge_base.py:142-145 | nothing is found exactly when no term matches; otherwise the earliest concept whose term matches |
| KnowledgeBases.SearchSolutionsSpec | knowledge/knowledge_base.py:104-118 | no keywords match nothing; a solution is kept exactly when some keyword matches it; the filter distributes over concatenation, so order is kept |
| KnowledgeBases.KeywordCaseBlind | knowledge/knowledge_base.py:112-115 | a keyword matches the same solutions as its lower-cased form |
| KnowledgeBases.DocumentsLayout | knowledge/knowledge_base.py:154-208 | one document per feature, solution and concept, in that order, each tagged with its kind and pointing back at its record; a solution without a priority is tagged "medium" |
| LegacyRetrieval.DocTexts | knowledge/retriever.py:48 | one text per document, in order |
| LegacyRetrieval.Similarities | knowledge/retriever.py:83-87 | one similarity per pair of document row and query row; with a one-row query, entry `i` is the cosine of document row `i` and the query |
| LegacyRetrieval.TypedPositions | knowledge/retriever.py:91-92 | the ascending positions of exactly the documents of the requested kind |
| LegacyRetrieval.Candidates | knowledge/retriever.py:90-98 | with a kind filter, exactly the positions of documents of that kind (none if no document has it); without one, every position in order |
| LegacyRetrieval.TopLayout | knowledge/retriever.py:104 | `argsort(...)[-top_k:][::-1]` takes the last positions of the ascending order, reversed: `min(top_k, n)` of them for `top_k >= 1` and all `n` for `top_k == 0` |
| LegacyRetrieval.TopSpec | knowledge/retriever.py:104 | the top positions are distinct, by non-increasing key, and no position left out has a larger key than one taken |
| LegacyRetrieval.Narrowed | knowledge/retriever.py:90-98 | with one similarity per document, filtering keeps exactly the candidates' similarities and documents, position by position; every kept document is of the requested kind |
| LegacyRetrieval.Selected | knowledge/retriever.py:104-116 | every hit is one of the filtered documents, with its text and metadata |
| LegacyRetrieval.SelectedTop | knowledge/retriever.py:104-116 | with one document per similarity, selection succeeds with `min(top_k, n)` hits (all for `top_k == 0`), best first, each a document with its own similarity, and nothing left out scores above a hit |
| LegacyRetrieval.Select | knowledge/retriever.py:101-116 | returns exactly the selection specification: nothing for no candidates, otherwise the hits at the top positions |
| LegacyRetrieval.CollectHits | knowledge/retriever.py:107-116 | the loop yields, in order, each position's document text, similarity and metadata, and fails exactly when some position has no document |
| LegacyRetrieval.SelectedAtMost | knowledge/retriever.py:104 | a successful selection keeps at most `top_k >= 1` hits |
| LegacyRetrieval.Ranked | knowledge/retriever.py:83-118 | every hit is a stored document, of the requested kind when filtering |
| LegacyRetrieval.Rank | knowledge/retriever.py:83-118 | the statements after the query is embedded compute the ranking specification |
| LegacyRetrieval.RankedTop | knowledge/retriever.py:83-118 | with an embedding row per document and a well-formed one-row query, ranking succeeds with `min(top_k, #candidates)` hits (all candidates for `top_k == 0`), best first, each a candidate scored by the cosine of its own row, and no candidate left out scores above a hit |
| LegacyRetrieval.RankedAtMost | knowledge/retriever.py:104 | a successful ranking returns at most `top_k >= 1` hits |
| LegacyRetrieval.ScoreAfterDistinct | knowledge/retriever.py:190-194 | when no record occurs twice among the hits, each record holds its own hit's score and a record among no hit keeps its old score |
| LegacyRetrieval.ScoreAfterWritten | knowledge/retriever.py:190-194 | a record some hit was made from ends up holding the score of one of its hits at or after that one |
| LegacyRetrieval.ScoreAfterConcat | knowledge/retriever.py:190-194 | writing the scores of two runs of hits one after the other leaves what writing the joined run leaves |
| LegacyRetrieval.ScoresAfterConcat | knowledge/retriever.py:261-267 | the same, for every record and old score at once, as the two concept searches of `get_recommendations` need it |
| LegacyRetrieval.ConceptsOfConcat | knowledge/retriever.py:261-267 | the concept records of two runs of concept hits, joined, are those of the joined run |
| LegacyRetrieval.DocumentSources | knowledge/knowledge_base.py:174-206 | the records behind the knowledge base's documents are its own solutions and concepts |
| LegacyRetrieval.ScoreSolutions | knowledge/retriever.py:190-194 | each hit yields the solution record its document was made from, and every record holds the score of the last hit made from it (or its old score) |
| LegacyRetrieval.ScoreConcepts | knowledge/retriever.py:211-215 | as for solutions, into concept records |
| LegacyRetrieval.RelatedNames | knowledge/retriever.py:150-153 | at most one name per hit, each the name of a feature hit and none of the requested names |
| LegacyRetrieval.ChosenFeatures | knowledge/retriever.py:237-243 | `list(set(names))[:5]` gives at most five distinct names, all from the anomaly summary, and none only when it names none |
| LegacyRetrieval.FeatureSummariesSpec | knowledge/retriever.py:270-277 | one summary line per chosen name that has an explanation, in order, each showing its name, feature name and impact |
| LegacyRetrieval.SummaryDetails | knowledge/retriever.py:279-282 | the summary shows the details of the first two explained names, or fewer when fewer are explained |
| LegacyRetrieval.Summarize | knowledge/retriever.py:270-282 | the summary loop builds the summary specification |
| LegacyRetrieval.KnowledgeRetriever.constructor | knowledge/retriever.py:27-31 | the retriever keeps its knowledge base and embedder, with no documents and no embeddings yet |
| LegacyRetrieval.KnowledgeRetriever.BuildIndex | knowledge/retriever.py:35-56 | the documents are the knowledge base's; none leaves everything else unchanged; otherwise a trainable embedder is fitted on the texts and the embedding error, if any, escapes, leaving the old embeddings |
| LegacyRetrieval.KnowledgeRetriever.SearchResults | knowledge/retriever.py:58-118 | every hit is a stored document, of the requested kind when filtering |
| LegacyRetrieval.KnowledgeRetriever.Search | knowledge/retriever.py:58-118 | `search` returns what the search specification gives |
| LegacyRetrieval.KnowledgeRetriever.RelatedQuery | knowledge/retriever.py:145-146 | one query word per known name, and no words exactly when no requested name is known |
| LegacyRetrieval.KnowledgeRetriever.GetFeatureExplanations | knowledge/retriever.py:120-155 | the loop returns the explanations specification |
| LegacyRetrieval.KnowledgeRetriever.FeatureTerms | knowledge/retriever.py:177-182 | at most two query words per feature name |
| LegacyRetrieval.KnowledgeRetriever.FindSolutions | knowledge/retriever.py:157-196 | a failed search escapes without writing; otherwise the result is the records of the hits of the solution search for the enhanced query, in rank order, and every solution record holds the score of the last hit made from it; the retriever, its embedder and the concept searches are left as they were |
| LegacyRetrieval.KnowledgeRetriever.ScoreSolutionHits | knowledge/retriever.py:182-196 | the hits' own records, in rank order, each record holding the score of its last hit; the retriever, its embedder and every concept search are unchanged |
| LegacyRetrieval.KnowledgeRetriever.SearchConcepts | knowledge/retriever.py:198-217 | as for solutions, with a concept search for the query |
| LegacyRetrieval.KnowledgeRetriever.GetRecommendations | knowledge/retriever.py:219-284 | the result is that of `RecommendationsFor` over the chosen feature names, evaluated before the call: the empty recommendations for no name, else the first failure of the solution search and the flagged concept searches, else the known chosen features, the solutions found, the concepts found and the summary; every solution and concept record holds the score of its last hit in the searches that ran; on success at most three solutions and at most one concept per flagged statistic |
| LegacyRetrieval.KnowledgeRetriever.RecommendationsShape | knowledge/retriever.py:229-282 | no chosen name gives the empty run; a successful run holds the known chosen features, their summary, at most three solutions and at most one concept per flagged statistic |
| LegacyRetrieval.RunOf | knowledge/retriever.py:245-282 | a run fails exactly when the solution search or a concept search fails, and writes the scores of the solution hits, and of the concept hits only when the solution search succeeded |
| LegacyRetrieval.KnowledgeRetriever.RecommendNamed | knowledge/retriever.py:245-282 | for a non-empty list of names, the result and every score written are those of `RecommendationsFor`, evaluated before the call |
| LegacyRetrieval.KnowledgeRetriever.RecommendWith | knowledge/retriever.py:247-282 | given the outcome of the solution search, the result is `RunOf` of it and of the concept searches as they stood before the call; the concept records hold the scores of the concept hits |
| LegacyRetrieval.KnowledgeRetriever.FlaggedHits | knowledge/retriever.py:261-267 | a flagged statistic's concept search yields at most one hit, all concept documents; an unflagged one yields none |
| LegacyRetrieval.KnowledgeRetriever.FlaggedConceptHits | knowledge/retriever.py:261-267 | the T2 search then the SPE search, the first failure ending them; on success the hits are those both searches returned, in order, at most one per flagged statistic |
| LegacyRetrieval.KnowledgeRetriever.FlaggedConcepts | knowledge/retriever.py:261-267 | the concept records of `FlaggedConceptHits`, or its failure; every concept record holds the score of its last hit among the searches that ran |
| LegacyRetrieval.KnowledgeRetriever.FlaggedSearch | knowledge/retriever.py:261-263 | an unflagged statistic searches nothing and writes nothing; a flagged one returns the records of its search's one hit, writing their scores; every concept search gives the same result afterwards |
| LegacyRetrieval.KnowledgeRetriever.SearchEmpty | knowledge/retriever.py:75-102 | no embeddings or no documents, or a kind no document has, give no hits |
| LegacyRetrieval.KnowledgeRetriever.ExplanationsSpec | knowledge/retriever.py:120-155 | the explanations hold exactly the known requested features; related names appear only when asked for and some requested name is known, and never repeat a requested name |
| LegacyRetrieval.KnowledgeRetriever.RankedAtMostThree | knowledge/retriever.py:254-258 | the solution search `get_recommendations` makes never yields more than three hits |
| LegacyRetrieval.KnowledgeRetriever.ConceptsAtMostOne | knowledge/retriever.py:261-267 | each concept search `get_recommendations` makes yields at most one hit |
| LegacyRetrieval.NewKnowledgeRetriever | knowledge/retriever.py:13-33 | an embedder creation error aborts; otherwise the retriever uses the given knowledge base or a fresh one from the default files, its documents are exactly the knowledge base's, its embedder is the requested kind built from the arguments, fitted on the documents' texts exactly when there are documents, and its index holds their embeddings then (an embedding failure aborts) and nothing otherwise |
| LegacyRetrieval.TfidfSearchNeverFails | knowledge/retriever.py:58-118 | with a fitted TF-IDF embedder over a non-empty knowledge base every search succeeds with the best `min(top_k, #candidates)` documents, best first |
| RagTools.Registry.constructor | knowledge/rag_tool.py:10 | the process starts without a retriever |
| RagTools.Registry.GetRetriever | knowledge/rag_tool.py:13-18 | an existing retriever is returned and kept; otherwise a fresh default one is built and kept: a fresh knowledge base from the default files, its documents, and a TF-IDF embedder of the default size fitted on their texts exactly when there are documents, with their TF-IDF embeddings as index |
| RagTools.KnowledgeReportOf | knowledge/rag_tool.py:46-68 | the report succeeds exactly when the search does; a failure carries the error text and the "知识检索失败: " message; a success carries the query, the count, and one item per hit in rank order with its text, score, metadata and kind |
| RagTools.FeatureEntries | knowledge/rag_tool.py:94-111 | the entries have exactly the requested names as keys: the known fields with their defaults for an explained name, the "not recorded" placeholder otherwise; when the related search ran, a requested name equal to `related_features` makes it fail with an AttributeError, and that is its only failure |
| RagTools.BriefsOf | knowledge/rag_tool.py:116-124 | one brief per solution hit, in order, with the record's problem and priority and at most its first three steps; a failed search passes its error on |
| RagTools.ExplainReport | knowledge/rag_tool.py:85-133 | the report succeeds exactly when the explanations were found, no requested name collides with `related_features`, and the solution search (when asked for) succeeded; failures carry the "特征解释失败: " message; a success counts every requested name, has an entry for each, and has solution briefs exactly when asked for |
| RagTools.Details | knowledge/rag_tool.py:163-174 | one detail per solution record, in order, each with the record's fields and its current relevance score (0 when none) |
| RagTools.AnalysisOf | knowledge/rag_tool.py:200-207 | the analysis has recommendations exactly when some solution was found, keeps the summary and explanations, and holds the first three solutions and the first two concepts |
| RagTools.RAGTool.constructor | knowledge/rag_tool.py:24-27 | the tool holds the retriever it was given, and that retriever's knowledge base |
| RagTools.SolutionSearch | knowledge/rag_tool.py:153-157 | every hit of a solution search is a solution document |
| RagTools.RAGTool.SearchKnowledge | knowledge/rag_tool.py:29-68 | the report is the search report of the retriever's answer to the query |
| RagTools.RAGTool.RelatedSolutions | knowledge/rag_tool.py:114-124 | the briefs of the two-solution search for the features, with the hits' scores written into their records; a failed search writes nothing |
| RagTools.RAGTool.ExplainFeatures | knowledge/rag_tool.py:70-133 | the report is `ExplainOutcome` before the call: the explain report of the explanations with related features and, when asked, the two-solution briefs; the retriever and its searches are unchanged; every solution record holds the score of its last hit among `ExplainScored`, the hits of the solution search when it ran and succeeded |
| RagTools.RAGTool.GetSolutions | knowledge/rag_tool.py:135-182 | the report is `SolutionsReportOf` the solution search before the call; the retriever and that search are unchanged; every solution record holds the score of the last hit made from it |
| RagTools.SolutionsReportOf | knowledge/rag_tool.py:152-182 | a report succeeds exactly when the search does; a failure carries the "解决方案查询失败: " message; a success holds the query, the count and one detail per hit, in rank order, each of the hit's own record |
| RagTools.RAGTool.GetComprehensiveAnalysis | knowledge/rag_tool.py:184-214 | the report is the analysis (`AnalysisOf`) of the recommendations `RecommendationsFor` gives before the call, or their failure with the "综合分析失败: " message; scores as for `get_recommendations`; no anomaly features give the empty analysis, and a success holds the known chosen features, their summary, at most three solutions and at most one concept per flagged statistic |
| RagTools.NewRAGTool | knowledge/rag_tool.py:24-27 | a tool over the existing retriever, or over a newly built default one that is then kept; the tool's solution records are the ones the registry's retriever (or the default files) held, and building the tool does not touch them |
| RagTools.SearchKnowledgeTool | knowledge/rag_tool.py:219-236 | once a retriever exists the tool always answers, and its answer is the search report of the kept retriever |
| RagTools.ExplainFeaturesTool | knowledge/rag_tool.py:239-254 | the report is `ExplainOutcome` over the process-wide retriever, which is kept or newly built as the default one; every solution record it holds keeps the score of its last hit among `ExplainScored` |
| RagTools.TroubleshootingTool | knowledge/rag_tool.py:257-272 | the report is `SolutionsReportOf` the three-solution search over the process-wide retriever, kept or newly built as the default one; a success lists at most three solutions; every solution record holds the score of its last hit |
| RagTools.TfidfKnowledgeReport | knowledge/rag_tool.py:46-62 | with a default TF-IDF retriever over a non-empty knowledge base and `top_k >= 1`, `search_knowledge` always succeeds with `min(top_k, #candidates)` items in non-increasing score, all of the requested kind |
| RagTools.ExplainedEntries | knowledge/rag_tool.py:94-111 | in a successful report a feature is described exactly when the knowledge base has information on it, and with the explanations found, no `related_features` name and the solutions found when asked for, the report succeeds |

## Left out

- Embeddings.NewApiEmbedder: assumes a `Config.get_embedding_config()` that returns `api_key`, `base_url` and `model`, as `test_embedding_config.py:30` expects. `config/config.py` defines no such method. As shipped, the api kind always fails with `AttributeError` and the hybrid is TF-IDF only. `Embeddings.HybridEmbedder.constructor` and `Embeddings.CreationCases` rest on the same assumption.
- Reading and writing files: `faiss.write_index`, `pickle`, `json` and `os.makedirs`. The model has a map from path to artifact (`Storage.FileStore`) instead. A file of the wrong kind at a known path is excluded by `LoadableAt` and `MetadataReadable`, not modelled as an unpickling error.
- Console output (`print`) and the `main()` functions of the modules: they change no modelled state.
- Floating point: vectors are `real`, with no `float32` rounding. The `1e-10` guard in cosine normalisation sits inside the cosine input.
- The internals of the inputs: TF-IDF's `max_features` and n-gram options, scikit-learn's refusal of a corpus with only stop words, PDF and text extraction, and the remote embedding API. Their results are inputs.
- `ImportError` when `faiss`, `openai`, `numpy` or `scikit-learn` is missing: the model assumes every library is installed.
- The abstract base classes `BaseEmbedder`, `BaseChunker` and `BaseParser`: each concrete kind is a datatype alternative or a class of its own.
- The order among equal scores, in two places. NumPy's `argsort` in the legacy retriever (`knowledge/retriever.py:104`) is not stable. The exact FAISS search of the vector index (`IndexFlatL2.search`, `knowledge/vector_store/faiss_store.py:83`) does not specify the order of rows at equal distance either. The model ranks both through `Ranking.Argsort`, which keeps equal keys in index order. No contract depends on that choice: `Ranking.ArgsortSpec` states only that the ranking is a permutation of the positions with the keys ascending, and `FaissStore.KnnNearest` states only ascending distances with no nearer row left out.
- Error messages: each error carries its Python exception class and the detail that varies (the missing path, the unknown name). Python's exact wording is not kept.
- The keyword named in the `TypeError` for an unexpected keyword argument: when several keywords are wrong, the model names them in a fixed order (`api_key`, `base_url`, `model`). Python names the first one in the order they were passed.
- The empty reply of the embedding service: it becomes an empty-batch matrix `Matrix([], 0)`, not NumPy's 1-D empty array.
- The 1-D query reshape in `FaissVectorStore.search`: queries are always two-dimensional matrices.
- `LegacyRetrieval.Similarities`: for a query with several rows, the flattened `(n, m)` product keeps its row-major layout, and the content of each entry comes from the cosine input. Only the one-row case is spelled out entry by entry.
- `random.sample` and the iteration order of a Python `set`: these are caller-supplied parameters (the positions drawn, the order of the set).
- The order of the `features` dictionary in `explain_features`: a map, ordered by nothing.
- The order of the `source_files` list in `get_stats`, which comes from `list(set(...))`: the model keeps the set of names and its size.
- Keys of the knowledge-base JSON files that no code reads by name: the parsed records carry only the fields the code uses. For a feature entry, `KnowledgeBases.FeatureInfo.otherKeys` records whether any other key is present, because `if info:` treats every non-empty dict as known (`OtherKeysAreKnown`). Anomaly flags are booleans.
- `str.lower()` on characters outside ASCII: `Common.Lower` folds only `A`-`Z`.
- The clash between `related_features` written as a list and read with `.get`: modelled as `AttributeError("get")`.
- The `RAG_TOOLS` and `RAG_TOOL_FUNCTIONS` tables (`knowledge/rag_tool.py:277-357`): these are JSON schemas and a name-to-function map for the language model, with no behaviour of their own.
- `MineruParser` and the rest of `knowledge/parsers/` beyond the factory: extraction itself is an input.
- Embeddings.HybridEmbedder.Embedding: states only that the result is rectangular. Which embedder produced it is stated by `Embeddings.HybridFallback`.
- Embeddings.Embed: states only rectangularity, for any kind of embedder. The content of each kind's result is in `Embeddings.TfidfMatrix`, `Embeddings.ApiEmbedding` and `Embeddings.HybridFallback`.
- FaissStore.Collect: states bounds and membership only. The exact list is stated by `FaissStore.CollectAll` and `FaissStore.SearchRanked`.
- FaissStore.SearchIn: states membership only. The exact ranking is stated by `FaissStore.SearchRanked`.
- Path handling on Windows: `ParserFactory.Extension`, `OfflineProcessing.PathJoin` and `OfflineProcessing.Basename` follow the POSIX `os.path` (`posixpath`) rules with `/` as the only separator; `ntpath`, with its `\` separator and drive letters, is not modelled.
