# Retrieval-augmented knowledge chatbot: a verified model of its core

This project models the retrieval core of a small enterprise question-answering service, written in Python.
- Documents are cut into overlapping word windows (`chunk_text`).
- The chunks are embedded into a flat inner-product FAISS index kept in step with a list of (text, source) metadata (`FaissIndex`).
- A question is answered by retrieving the top-k chunks, numbering them into a grounding prompt for a language model, and returning the answer with the chunks' sources (`RAGPipeline`).
- Two entry points feed the index: the `/api/ingest` HTTP handler and the `run_ingest.py` command-line script. The `/api/ask` handler only reads it.

Modules:

- `Wrappers` (wrappers.dfy): `Option` and `Result`.
- `Text` (text.dfy): Python's `str.split()`, the blank test `not s.strip()`, and `sep.join`, with Python's whitespace set.
- `Ingest` (ingest.dfy): the chunker.
  - A window specification: `WindowsFrom`, `Windows` and `Chunks`.
  - The imperative loop `ChunkText`, proved equal to that specification.
  - Lemmas on positions, overlap, coverage, count, reassembly, chunk size and termination.
- `VectorFaiss` (vector_faiss.dfy): the index.
  - Its state is `Store` (the optional FAISS structure plus the metadata list).
  - `AddResult` and `SearchResult` are functional specifications.
  - `Disk` holds the two persisted artifacts of every index directory.
  - The class `FaissIndex` mutates `index` and `meta` and writes `Disk` as the Python object does.
  - The embedding model and FAISS's nearest-neighbour ranking are the parameter `Engine`.
- `Config` (config.dfy): the settings record and its defaults.
- `Rag` (rag.dfy):
  - LLM selection, the `k or TOP_K` fallback, and the numbered context block and prompt.
  - The `ask` specification `AskResult`, and the class `RagPipeline`.
  - The language model's `generate` is the parameter `complete`.
- `IngestBatch` (ingest_batch.dfy): the procedure both ingest entry points share, written once as `IngestDocuments`.
  - Open the index directory, skip blank documents, chunk with 450/80, tag each chunk with the file's base name, and add the batch unless it is empty.
  - Its outcome is the predicate `Ingested`.
- `Api` (main.dfy): the `/api/ask` handler (source de-duplication) and the `/api/ingest` handler.
- `RunIngest` (run_ingest.dfy): the command-line ingester.

Notes on where the model follows the code:

- **The pairing after `add` holds exactly when `len(sources) >= len(texts)`**, not only when the lengths are equal.
  - `zip` silently drops extra sources, but every text still gets a vector.
  - See `VectorFaiss.AddKeepsPairing`.
- **An empty directory argument is handled differently by the two entry points.**
  - The HTTP handler uses `value or default`, so `""` falls back to the default.
  - The command line uses argparse defaults, so an explicit `""` is kept. The script then fails: `os.makedirs("")` raises FileNotFoundError before the index is opened. The model reports this as `EmptyIndexDir`.
  - The same error arises in both entry points, and in `RAGPipeline()`, when INDEX_DIR itself is empty.
  - See `RunIngest.DirectoryDefaultsAgree`.
- **`top_k or TOP_K` treats an explicit 0 like "not given".**
- **`self._meta[idx]` follows Python indexing.** A negative position counts from the end, and only a position outside `[-len, len)` raises `IndexError`.
  - With the pairing invariant this never happens: see `VectorFaiss.PairedSearchSucceeds`.

## Model

| member | source | states |
|---|---|---|
| Text.IsSpace | backend/app/retrieval/ingest.py:37 | space, tab, newline and carriage return are whitespace; no digit, ASCII letter or underscore is |
| Text.IsBlank | backend/app/main.py:43 | `not s.strip()`: the empty string and any run of spaces and newlines are blank; a string with a lower-case letter is not |
| Text.JoinWith | backend/app/rag.py:28 | `sep.join([])` is empty; otherwise the result starts with the first part and ends with the last |
| Text.Join | backend/app/retrieval/ingest.py:36 | `" ".join(ws)`: empty for no words, the word itself for one, and otherwise it starts with the first word and ends with the last |
| Text.Split | backend/app/retrieval/ingest.py:31 | `text.split()` yields only non-empty, whitespace-free words |
| Text.SplitJoin | backend/app/retrieval/ingest.py:31-36 | splitting words joined by single spaces gives back exactly those words |
| Text.SplitEmptyIffBlank | backend/app/retrieval/ingest.py:31 | `split()` is empty if and only if the text is empty or all whitespace |
| Text.JoinNotBlank | backend/app/retrieval/ingest.py:36-38 | a window of at least one word joins to a non-blank chunk, so the `strip()` check never drops a chunk |
| Text.JoinWithSnoc | backend/app/rag.py:28 | joining one more part appends the separator and that part |
| Text.JoinWithHoldsParts | backend/app/rag.py:28 | every part stands unchanged in `sep.join(parts)`, at the offset after the earlier parts and their separators |
| Ingest.NextStart | backend/app/retrieval/ingest.py:40-41 | the next start steps back exactly `overlap` words from `end` when that stays at or above 0, and is 0 otherwise; with `overlap >= 0` it never passes `end` |
| Ingest.WindowsFrom | backend/app/retrieval/ingest.py:34-41 | from `start` the loop visits windows only while `start < len(words)`; each lies within the words, starts at or after `start`, and holds 1 to `max_tokens` words |
| Ingest.Chunks | backend/app/retrieval/ingest.py:29-42 | one chunk per window, in order, each the words of its window joined by single spaces; no chunks only when there are no words |
| Ingest.ChunkText | backend/app/retrieval/ingest.py:29-42 | the while loop returns exactly the joined words of every window of the specification, in order |
| Ingest.ChunkLoopStep | backend/app/retrieval/ingest.py:35-41 | one iteration keeps the loop invariant: the window yields a non-blank chunk, and the collected chunks plus the rest are all the chunks |
| Ingest.WindowPosition | backend/app/retrieval/ingest.py:35-41 | window i starts at word i·(max_tokens − overlap) and ends `max_tokens` words later or at the last word |
| Ingest.ConsecutiveWindowsOverlap | backend/app/retrieval/ingest.py:40-41 | each window starts `overlap` words before the previous one ended |
| Ingest.LastWindowEnds | backend/app/retrieval/ingest.py:35-39 | for a non-empty text and non-negative overlap, the last window ends at the last word |
| Ingest.EveryWordCovered | backend/app/retrieval/ingest.py:34-41 | with a non-negative overlap every word lies in some window |
| Ingest.WindowCount | backend/app/retrieval/ingest.py:34-41 | for `0 <= overlap < max_tokens`, the chunk count is 0 for no words, 1 up to `max_tokens` words, else 1 + ⌈(n − max_tokens)/(max_tokens − overlap)⌉ |
| Ingest.DefaultWindowsOverThousandWords | backend/app/retrieval/ingest.py:29 | with the defaults 450/80, 1000 words give the windows [0,450), [370,820), [740,1000) |
| Ingest.PiecesReassemble | backend/app/retrieval/ingest.py:34-41 | the first window whole, then each later window minus its first `overlap` words, concatenate to the word sequence |
| Ingest.ChunksReassemble | backend/app/retrieval/ingest.py:29-42 | splitting every chunk and dropping the shared words rebuilds `text.split()`: no word is lost or duplicated |
| Ingest.SplitAllJoinAll | backend/app/retrieval/ingest.py:36 | splitting every joined piece gives back the pieces |
| Ingest.ChunkWordCount | backend/app/retrieval/ingest.py:35-38 | chunk i splits into exactly the words of window i, between 1 and `max_tokens` of them |
| Ingest.NoChunksIffBlank | backend/app/retrieval/ingest.py:31-38 | no chunks come back if and only if the text is blank |
| Ingest.ShortTextOneChunk | backend/app/retrieval/ingest.py:34-39 | up to `max_tokens` words give the single chunk `" ".join(words)` |
| Ingest.LoopNeverExits | backend/app/retrieval/ingest.py:40-41 | with `overlap >= max_tokens` and more than `max_tokens` words, `start` returns to 0 after every iteration, so the loop never ends |
| Ingest.LoopExits | backend/app/retrieval/ingest.py:34-41 | with `0 < max_tokens` and `overlap < max_tokens` the loop has exited after at most `len(words) − start` iterations |
| Ingest.StartAfter | backend/app/retrieval/ingest.py:34-41 | while the loop still runs, `start` is below `len(words)`; after at least one iteration it is not negative; before any iteration the loop runs exactly when `start < len(words)` |
| Ingest.StartAfterIsWindowStart | backend/app/retrieval/ingest.py:34-41 | from any `start`, the loop position after i iterations is the start of window i of `WindowsFrom` |
| Ingest.StartAfterMatchesWindows | backend/app/retrieval/ingest.py:33-41 | while the loop runs, `start` after i iterations is the first word of window i, so the termination lemmas describe the loop of `ChunkText` |
| VectorFaiss.Zip | backend/app/retrieval/vector_faiss.py:83 | `zip(texts, sources)` pairs position by position, up to the shorter list |
| VectorFaiss.EmbedderError | backend/app/retrieval/vector_faiss.py:33-43 | only "sentence-transformers", or "openai" with the package installed, is accepted; any other name is a ValueError carrying the name. Building the embedder itself is taken to succeed |
| VectorFaiss.Embedded | backend/app/retrieval/vector_faiss.py:45-57 | one vector per input text |
| VectorFaiss.AddResult | backend/app/retrieval/vector_faiss.py:77-84 | an embedder error is raised as is; the index bookkeeping of a first add cannot fail; a success creates or keeps the structure, adds one vector per text and appends `zip(texts, sources)` to the metadata |
| VectorFaiss.AddVectors | backend/app/retrieval/vector_faiss.py:79-83 | creates the structure on the first add with that batch's width and never recreates it; appends the vectors after the old ones and the zipped entries after the old metadata; a width mismatch is the only failure |
| VectorFaiss.AddKeepsPairing | backend/app/retrieval/vector_faiss.py:82-83 | after a successful add of a paired store, vectors and metadata are still one-to-one if and only if `len(texts) <= len(sources)` |
| VectorFaiss.AddEqualLengths | backend/app/retrieval/vector_faiss.py:77-84 | with equal-length lists the metadata grows by exactly `zip(texts, sources)`, the pairing is kept, and a new structure has the embedding width |
| VectorFaiss.MetaAt | backend/app/retrieval/vector_faiss.py:95 | `self._meta[idx]` succeeds exactly for `-len <= idx < len`, and yields the entry at `idx` wrapped once around the list |
| VectorFaiss.HitsOf | backend/app/retrieval/vector_faiss.py:91-97 | the result loop returns at most one hit per slot |
| VectorFaiss.HitsOfErrorStops | backend/app/retrieval/vector_faiss.py:92-96 | once a slot raises, no later slot changes the outcome |
| VectorFaiss.KeptAppend | backend/app/retrieval/vector_faiss.py:92-94 | skipping the -1 slots is an order-preserving filter that keeps only real slots |
| VectorFaiss.HitsOfOkIff | backend/app/retrieval/vector_faiss.py:92-96 | the loop raises IndexError if and only if some slot other than -1 is outside `-len(_meta) <= idx < len(_meta)` |
| VectorFaiss.HitsOfMatchesKept | backend/app/retrieval/vector_faiss.py:92-96 | a successful result has one hit per non-(-1) slot, in ranking order, with the metadata at that position and the slot's score |
| VectorFaiss.HitsAreStored | backend/app/retrieval/vector_faiss.py:95-96 | every returned (text, source) pair is a stored metadata entry |
| VectorFaiss.SearchResult | backend/app/retrieval/vector_faiss.py:86-97 | an empty index never raises, and every hit of a successful search is a stored (text, source) entry |
| VectorFaiss.PairedSearchSucceeds | backend/app/retrieval/vector_faiss.py:86-97 | under the pairing invariant, with a valid provider, matching width and k > 0, search succeeds with at most k hits, each a stored entry |
| VectorFaiss.Loaded | backend/app/retrieval/vector_faiss.py:60-68 | both artifacts present restores them; otherwise the index is absent and the metadata empty (which is paired) |
| VectorFaiss.SaveLoadRoundTrip | backend/app/retrieval/vector_faiss.py:70-74 | loading right after saving a created structure gives back exactly the saved state |
| VectorFaiss.FaissIndex.constructor | backend/app/retrieval/vector_faiss.py:16-30 | for a non-empty directory: no embedder is built, and the state is what loading the directory gives |
| VectorFaiss.FaissIndex.Load | backend/app/retrieval/vector_faiss.py:60-68 | the state becomes `Loaded` of the directory |
| VectorFaiss.FaissIndex.Save | backend/app/retrieval/vector_faiss.py:70-74 | writes the structure only when it exists, and always writes the metadata; other directories are unchanged |
| VectorFaiss.FaissIndex.EnsureEmbedder | backend/app/retrieval/vector_faiss.py:33-43 | reports exactly `EmbedderError`; the model or client is built lazily and at most once (`EmbedderBuilt`) |
| VectorFaiss.FaissIndex.EmbedTexts | backend/app/retrieval/vector_faiss.py:45-57 | the embedder error, or one vector per text |
| VectorFaiss.FaissIndex.Add | backend/app/retrieval/vector_faiss.py:77-84 | the embedder of the provider is built if it was not (`EmbedderBuilt`); success: the new state is `AddResult` of the old and only this directory's two artifacts are rewritten. Error: state and disk are unchanged. Nothing else of the object changes |
| VectorFaiss.FaissIndex.Search | backend/app/retrieval/vector_faiss.py:86-97 | the loop returns `SearchResult` of the state; an empty index returns [] without building an embedder, and a non-empty one builds the provider's embedder (`EmbedderBuilt`) |
| Rag.SelectLlm | backend/app/rag.py:14-17 | "openai" selects the OpenAI backend, which fails without the package (llm/openai_llm.py:12-13) or a non-empty key (14-15); any other name selects Ollama |
| Rag.DefaultsNeedApiKey | backend/app/config.py:13-23 | with default settings the pipeline needs OPENAI_API_KEY, builds `gpt-4o-mini` when given one, and retrieves 5 hits |
| Rag.EffectiveTopK | backend/app/rag.py:20 | a non-zero k is used, None or 0 fall back to TOP_K; the result is 0 only if TOP_K is |
| Rag.SystemInstruction | backend/app/rag.py:23-27 | the system instruction demands answers strictly from the provided context, an admission when the answer is unknown, and ends by asking for file names cited in square brackets |
| Rag.NumberedEntry | backend/app/rag.py:28 | `f"[{i+1}] {c}"`: an opening bracket, decimal digits that read back as `i + 1`, then `] ` and the context unchanged |
| Rag.NatToString | backend/app/rag.py:28 | the entry number is printed as non-empty decimal digits without a leading zero |
| Rag.ContextBlock | backend/app/rag.py:28 | the block is empty exactly when there are no contexts, and entry `[i+1] c` stands at its offset for every context c at position i |
| Rag.Prompt | backend/app/rag.py:29 | the prompt grounds the question: it opens with "Context:", carries every context numbered from 1, and ends with the question and "Answer:" |
| Rag.ParseNatToString | backend/app/rag.py:28 | the printed entry number reads back as the number |
| Rag.ContextBlockSmall | backend/app/rag.py:28 | the context block is empty if and only if there are no contexts; one context gives `[1] c` |
| Rag.ContextBlockSnoc | backend/app/rag.py:28 | one more context adds a blank line and the entry numbered with its 1-based position |
| Rag.FramedBlockGrounds | backend/app/rag.py:29 | putting "Context:\n" before and the question cue after a block that holds every numbered entry gives a grounding prompt |
| Rag.PromptWithoutHits | backend/app/rag.py:29 | with no contexts the prompt is the bare template around the question |
| Rag.Contexts | backend/app/rag.py:34 | one context per hit: context i is the text of hit i |
| Rag.Sources | backend/app/rag.py:35 | one source per hit, duplicates kept: source i is the source of hit i |
| Rag.AskResult | backend/app/rag.py:32-37 | an empty index gives an answer with no sources; every returned source names a stored metadata entry |
| Rag.AskAnswersFromStore | backend/app/rag.py:32-37 | the sources are those of the retrieved hits, and every (context, source) pair is a stored metadata entry |
| Rag.AskOnEmptyIndex | backend/app/rag.py:32-37 | on an empty index the model is still asked, with an empty context block, and no sources are returned |
| Rag.RagPipeline.Retrieve | backend/app/rag.py:19-20 | the index's search with `k or TOP_K`; the embedder is built only when the index is non-empty |
| Rag.RagPipeline.Generate | backend/app/rag.py:22-30 | the backend is asked, under the fixed system instruction, a prompt that grounds the question in every context (`Grounds`) |
| Rag.RagPipeline.Ask | backend/app/rag.py:32-37 | the result is `AskResult`: the search error, or the model's answer to the prompt built from the hit texts, plus the hit sources; embedder flags as in `Retrieve` |
| Rag.NewRagPipeline | backend/app/rag.py:9-17 | an empty INDEX_DIR fails in `os.makedirs` (retrieval/vector_faiss.py:18); otherwise the index is opened on INDEX_DIR and loaded, and the pipeline exists if and only if LLM selection succeeds |
| IngestBatch.Basename | backend/app/main.py:47 | `posixpath.basename`: the longest '/'-free suffix of the path |
| IngestBatch.Repeat | backend/app/main.py:47 | `[name] * n`: n copies of the name |
| IngestBatch.DocChunks | backend/app/main.py:45 | `chunk_text(text, 450, 80)` yields nothing exactly for a blank document, and one chunk, the words joined by single spaces, for a document of at most 450 words |
| IngestBatch.DocBatch | backend/app/main.py:43-47 | one document adds as many sources as texts |
| IngestBatch.DocBatchChunks | backend/app/main.py:43-47 | a document contributes exactly its chunks as texts and its base name repeated once per chunk as sources, and something exactly when it is not blank |
| IngestBatch.BatchOfSnoc | backend/app/main.py:42-47 | one more document appends exactly its chunks to `texts` and as many copies of its base name to `sources`, after what the earlier documents built |
| IngestBatch.BatchOf | backend/app/main.py:41-47 | `texts` and `sources` always have the same length |
| IngestBatch.BatchSize | backend/app/main.py:42-47 | the batch has as many texts as the documents have chunks in total; skipping blanks loses no count (the contents and their order are stated by `BatchOfSnoc` and `DocBatchChunks`) |
| IngestBatch.BatchEmptyIffAllBlank | backend/app/main.py:42-49 | the batch is empty (so "No documents found") if and only if every document is blank |
| IngestBatch.BatchTagged | backend/app/main.py:45-47 | every batched text is a chunk of some non-blank document, and its source is that document's base name |
| IngestBatch.ChunkDocuments | backend/app/main.py:41-47 | the for loop builds exactly `BatchOf(docs)`, with as many texts and sources as chunks |
| IngestBatch.IngestAppendsBatch | backend/app/main.py:50 | adding the batch appends one vector per chunk and `zip(texts, sources)` to the metadata, keeping the pairing |
| IngestBatch.Rewritten | backend/app/retrieval/vector_faiss.py:70-74 | after saving a store into a directory, that directory loads back to the store and every other directory loads as before |
| IngestBatch.Ingested | backend/app/main.py:36-51 | an error writes nothing, and no directory other than the index directory changes |
| IngestBatch.IngestedAfterAdd | backend/app/main.py:50-51 | a successful add of a non-empty batch, saved to the index directory, meets the `Ingested` outcome with the chunk count |
| IngestBatch.IngestDocuments | backend/app/main.py:36-51 | creating and opening the directory, chunking and adding (shared with scripts/run_ingest.py:12-28) meets `Ingested`: an empty directory path fails before anything is read; nothing is written on an empty batch or an add error; a success rewrites only this directory's two artifacts |
| IngestBatch.IngestedCount | backend/app/main.py:48-51 | a reported count is 0 exactly when every document is blank, and otherwise the total number of chunks |
| Api.OrDefault | backend/app/main.py:34-35 | a missing or empty value falls back to the default; otherwise the value is kept |
| Api.Dedup | backend/app/main.py:30 | `list(dict.fromkeys(xs))` is no longer than xs and keeps the first element first |
| Api.DedupSameElements | backend/app/main.py:30 | `list(dict.fromkeys(xs))` has exactly the elements of xs |
| Api.DedupNoDuplicates | backend/app/main.py:30 | no element is listed twice |
| Api.DedupFirstOccurrenceOrder | backend/app/main.py:30 | elements are listed in the order of their first occurrence |
| Api.DedupOfDistinct | backend/app/main.py:30 | a list without repetitions comes back unchanged |
| Api.ApiAsk | backend/app/main.py:27-30 | the pipeline's answer, with distinct sources covering exactly the retrieved ones in first-seen order; the embedder is built only for a non-empty index |
| Api.ApiIngest | backend/app/main.py:32-51 | a missing or empty directory falls back to its default. The outcome is `Ingested`: an empty INDEX_DIR fails in `os.makedirs`; no chunks means "No documents found" and nothing written; an add error means nothing written; otherwise only the index directory is rewritten, and it reloads to its old metadata plus one (chunk, base name) entry per chunk, pairing kept. A success reports a positive count and the directories used |
| RunIngest.ParseArgs | scripts/run_ingest.py:7-10 | an absent flag takes its default (`./data/docs`, INDEX_DIR); a given one is kept even when empty |
| RunIngest.DirectoryDefaultsAgree | scripts/run_ingest.py:8-9 | the script and the HTTP handler choose the same directory unless the argument is the empty string |
| RunIngest.ReportLine | scripts/run_ingest.py:24-28 | an empty batch prints "No documents found." |
| RunIngest.ReportCountReadsBack | scripts/run_ingest.py:28 | the report line is "Added " followed by the chunk count, which reads back as the count |
| RunIngest.Run | scripts/run_ingest.py:6-28 | the same outcome as `Api.ApiIngest` (`Ingested`), with argparse defaults, so `--index_dir ""` fails in `os.makedirs`; a success reports a positive chunk count and the index directory |

## Left out

- Document discovery and text extraction (`iter_docs`, `read_file_text`: globbing, PDF and DOCX parsing, decoding) are the parameter `listDocs`; file-system walking and third-party parsers are outside the model.
- The embedding models (SentenceTransformer, OpenAI embeddings, normalisation) and FAISS's inner-product ranking are the uninterpreted parameter `Engine`; only their shape is assumed (`Engine.Valid`: fixed width, k slots each -1 or a stored position). Floating-point scores are `real`.
- The on-disk formats (FAISS binary, pickle) are abstracted to one map entry per directory string in `Disk`. Of `os.makedirs`, only its failure on the empty path is modelled; permission and other I/O errors are not.
- VectorFaiss.Disk: keyed by the directory string as given. Spellings of one directory (`./backend_index`, `backend_index`, `backend_index/`) are distinct keys here, but `os.path.join` reaches the same files through each; path normalisation is not modelled.
- IngestBatch.Basename: models `posixpath.basename`. On Windows, `ntpath.basename` also splits at `\` and after a drive colon; that variant is not modelled.
- VectorFaiss.FaissIndex.constructor: requires a non-empty directory, because `os.makedirs("")` raises there; `IngestBatch.IngestDocuments` and `Rag.NewRagPipeline` return that error before constructing.
- VectorFaiss.EmbedderError: building the embedder and calling it are taken to succeed. `OpenAI()` without an API key raises, `SentenceTransformer(...)` can fail to load its model, and the embedding calls can raise network or API errors; none of these is modelled, so `AddResult` and `SearchResult` fail only with the errors listed in `IndexError`.
- The language-model backends (OpenAI chat completion, Ollama HTTP call, `.strip()` of the reply) are the parameter `complete`; network errors are not modelled.
- Environment reading in backend/app/config.py is not modelled: settings are a value. ENV, LOG_LEVEL, HOST, PORT and the Slack/Teams secrets are not part of the model, nor are the `/health` route, the Slack and Teams integrations, the CORS set-up and the Streamlit frontend.
- The embedding model names (`EMBEDDINGS_MODEL`, `OPENAI_EMBEDDING_MODEL`) are folded into `Engine`: one `encode` stands for whichever provider is configured.
- Ingest.ChunkText: requires `0 < max_tokens` and `overlap < max_tokens`, so it excludes every input with `overlap >= max_tokens`. The source loops forever on such an input only when the text has more than `max_tokens` words (stated by `Ingest.LoopNeverExits`); with at most `max_tokens` words it returns one chunk, a case the requires also excludes. `max_tokens <= 0` relies on Python's negative-slice semantics. Both entry points use 450/80.
- VectorFaiss.FaissIndex.Add: requires a non-empty batch. Python's `vecs.shape[1]` on an empty embedding array is not modelled; both callers return before adding an empty batch.
- Concurrency (several requests sharing one index) and the process-wide `rag` object's lifetime are not modelled.
