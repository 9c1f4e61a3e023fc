# Intelligent Engine Maintenance Assistant — a verified model of the RAG core

The Maintenance Assistant answers fleet-maintenance questions using
retrieval-augmented generation (RAG). It loads maintenance logs, fleet data
and OBD fault codes from CSV files, plus one built-in service manual. It turns
them into documents, chunks them and stores them in a vector store (Chroma).
To answer a question it retrieves the nearest documents and packs them into a
bounded context. It then asks a Gemini model for an answer, and reports that
answer with a confidence score and the sources used.

This project models the following parts in Dafny and proves properties about
them:

* document loading (`document_loader.dfy`, module `DocumentLoader`);
* embedding generation and the embedding cache (`embeddings.dfy`, module `Embeddings`);
* vector-store insertion and search, context assembly, the prompt, confidence
  and source formatting, and the query flow (`pipeline.dfy`, module `Pipeline`);
* the metrics collector (`metrics.dfy`, module `Metrics`);
* the configuration defaults (`config.dfy`, module `Config`).

Small shared modules:

* `Wrappers` (`Option`);
* `Text` (`Join`/`Split`/number rendering);
* `Documents` (the document record and metadata values).

External services are parameters of the model:

* the embedding service is a function from a task type and a text to an
  optional vector;
* the generative client is a function from a prompt and generation settings
  to optional text;
* Chroma is a nearest-neighbour function over the stored documents, plus a
  predicate saying whether a batch insert succeeds;
* the file system and pandas are a presence test and a CSV reader;
* the text splitter is a function.

`None` stands for "the call raised". The classes that hold mutable state carry
ghost logs, so contracts can state which calls reached a collaborator:
`GoogleEmbeddings.calls`/`submitted`, `LanguageModel.prompts` and
`VectorStore.added`. Examples of such contracts: the embedding provider is
called once, with exactly the cache misses; the language model is not called
when nothing was retrieved.

Three behaviours of the code are easy to miss, and the model captures all three:

* The vector store is built around the raw embedding model
  (`embedding_function=self.embedding_manager.embedding_model`). Search
  therefore never consults `EmbeddingManager`'s cache, and the model keeps
  the two apart.
* `_prepare_context` counts only document bodies against
  `max_context_length`. The `Source: …` header lines, the `"\n\n"`
  separators and the `"..."` marker all come on top.
  `Pipeline.ContextExceedsBudget` shows that a single document exactly as
  long as the budget (4000 by default) gives a context of
  `budget + 9 + |source|` characters.
* The threshold in `similarity_search` goes through Python's `or`. An explicit
  threshold of `0.0` therefore falls back to the configured 0.7
  (`Config.SimilarityThreshold`, which the store reads directly), and filtering
  is skipped only when the resulting threshold is zero.

## Model

| member | source | states |
|---|---|---|
| Config.IntOr | src/data_processing/document_loader.py:27-28 | Python `value or default` on integers: the value when given and non-zero, else the default |
| Config.RealOr | src/rag_pipeline/pipeline.py:137 | the same falsiness rule on floats: an absent or 0.0 value gives the default |
| Documents.Render | src/rag_pipeline/pipeline.py:263-266 | how an f-string writes a metadata value: a string as itself, an integer as its decimal digits (with '-' for a negative one) |
| Documents.SourceName | src/rag_pipeline/pipeline.py:263-266 | `metadata.get('source', 'Unknown')`: "Unknown" exactly when the key is absent, the string itself otherwise |
| Text.Join | src/data_processing/document_loader.py:72 | `sep.join`: an empty list gives "", a single part is returned unchanged |
| Text.SplitJoin | src/data_processing/document_loader.py:72 | joining separator-free parts with `c` and splitting on `c` gives the parts back (round trip) |
| Text.NatToString | src/rag_pipeline/pipeline.py:263-266 | the f-string rendering of a non-negative integer is non-empty, all digits, and without a leading zero ("0" for zero) |
| Text.NatToStringValue | src/rag_pipeline/pipeline.py:263-266 | those digits denote the number rendered |
| Text.IntToString | src/rag_pipeline/pipeline.py:263-266 | the rendering starts with '-' exactly when the number is negative |
| Text.IntToStringValue | src/rag_pipeline/pipeline.py:263-266 | a negative number renders as '-' followed by the digits of its magnitude, a non-negative one as its digits |
| DocumentLoader.NewProcessor | src/data_processing/document_loader.py:20-28 | chunk size and overlap are the given values when non-zero, else 1000 and 200 |
| DocumentLoader.RowContent | src/data_processing/document_loader.py:72 | an empty row gives "", a one-column row gives its single "column: value" line (RowContentLines gives the general case) |
| DocumentLoader.CsvMetadata | src/data_processing/document_loader.py:75-79 | exactly the keys source, row_index and type, holding the file path, the row index and "csv_data" |
| DocumentLoader.Fields | src/data_processing/document_loader.py:72 | one "column: value" line per column of the row |
| DocumentLoader.RowContentLines | src/data_processing/document_loader.py:72 | the row text splits on newlines back into exactly the "column: value" lines, in column order |
| DocumentLoader.LoadCsvData | src/data_processing/document_loader.py:56-87 | a reader error gives []; otherwise one document per row, in row order, with the row's text and metadata source/row_index/type "csv_data" |
| DocumentLoader.TaggedCsv | src/data_processing/document_loader.py:89-126 | a missing or unreadable file gives []; otherwise one document per row, with exactly the keys source, row_index, type and document_type |
| DocumentLoader.Tag | src/data_processing/document_loader.py:98-99 | every document keeps its content and gains `document_type`; the length and order are unchanged |
| DocumentLoader.LoadTagged | src/data_processing/document_loader.py:89-100 | the file-exists check, then the CSV load, then tagging: equal to `TaggedCsv` |
| DocumentLoader.LoadMaintenanceLogs | src/data_processing/document_loader.py:89-100 | the maintenance-log CSV tagged "maintenance_log" |
| DocumentLoader.LoadFleetInfo | src/data_processing/document_loader.py:102-113 | the fleet CSV tagged "fleet_info" |
| DocumentLoader.LoadObdCodes | src/data_processing/document_loader.py:115-126 | the OBD-code CSV tagged "obd_codes" |
| DocumentLoader.ChunkDocuments | src/data_processing/document_loader.py:128-144 | the splitter's chunks, or the input unchanged when the splitter raises |
| DocumentLoader.SampleManual | src/data_processing/document_loader.py:175-263 | the built-in manual: its fixed text and exactly the metadata source, document_type and type |
| DocumentLoader.UnchunkedShape | src/data_processing/document_loader.py:146-166 | all documents are the maintenance logs, then the fleet data, then the OBD codes, then the manual last, in that order |
| DocumentLoader.LoadAllDocuments | src/data_processing/document_loader.py:146-173 | the result is the chunking of that concatenation |
| Embeddings.Truncate | src/data_processing/embeddings.py:50-52 | the text sent is a prefix of at most 2048 characters; a shorter text is unchanged |
| Embeddings.ZeroVector | src/data_processing/embeddings.py:71 | a vector of the given length, all zeros |
| Embeddings.EmbedText | src/data_processing/embeddings.py:49-71 | the provider's vector for the truncated text, or 768 zeros when the provider raises |
| Embeddings.Requests | src/data_processing/embeddings.py:53-58 | one request per text with the task type; each text is a prefix of at most 2048 characters |
| Embeddings.GoogleEmbeddings.constructor | src/data_processing/embeddings.py:19-35 | a provider wrapper with empty call logs |
| Embeddings.GoogleEmbeddings.EmbedDocuments | src/data_processing/embeddings.py:37-74 | one vector per text, in order, each `EmbedText(RetrievalDocument, ·)`; every truncated text is submitted once, in order |
| Embeddings.GoogleEmbeddings.EmbedQuery | src/data_processing/embeddings.py:80-105 | the query vector with the `retrieval_query` task, or zeros on error; one submission |
| Embeddings.CacheKey | src/data_processing/embeddings.py:180-182 | the key is "embed_" followed by the text, which stands in for its hash |
| Embeddings.CacheKeyInjective | src/data_processing/embeddings.py:180-182 | distinct texts have distinct cache keys |
| Embeddings.Misses | src/data_processing/embeddings.py:136-145 | the uncached texts are at most the texts given |
| Embeddings.MissesSnoc | src/data_processing/embeddings.py:138-145 | one more text adds itself to the misses exactly when its key is not cached |
| Embeddings.MissesMembers | src/data_processing/embeddings.py:138-145 | every miss is one of the texts and not cached, and every uncached text is a miss |
| Embeddings.MissesOfEmpty | src/data_processing/embeddings.py:138-145 | with an empty cache every text is a miss, in order |
| Embeddings.MissesWhenCached | src/data_processing/embeddings.py:138-148 | when every text is cached there are no misses, so the provider is not called |
| Embeddings.MissIndicesMatchMisses | src/data_processing/embeddings.py:143-145 | the recorded positions align one-to-one with the missed texts |
| Embeddings.MissIndicesCover | src/data_processing/embeddings.py:143-145 | every uncached position is recorded |
| Embeddings.TotalSizeRemove | src/data_processing/embeddings.py:193 | the total cache size is one entry's length plus the size of the rest |
| Embeddings.Unwrap | src/data_processing/embeddings.py:134-157 | once every slot is filled, the result has those vectors in slot order |
| Embeddings.Partition | src/data_processing/embeddings.py:134-145 | cached positions get the cached vector; uncached positions stay empty and are listed, in order, together with their texts |
| Embeddings.CachedOrEmbedded | src/data_processing/embeddings.py:140-155 | a text's vector is the cached one when its key is present, else the provider's |
| Embeddings.EmbeddingManager.constructor | src/data_processing/embeddings.py:111-118 | the given model and an empty cache |
| Embeddings.EmbeddingManager.GetEmbeddings | src/data_processing/embeddings.py:120-157 | without the cache: a direct batch call and an unchanged cache. With the cache: `CachedOrEmbedded` per text; a single provider call with exactly the misses, or none; old entries kept; every text's key present afterwards, with the new vectors |
| Embeddings.EmbeddingManager.GetCachedEmbeddings | src/data_processing/embeddings.py:133-157 | the cached branch of the above |
| Embeddings.EmbeddingManager.StoreNew | src/data_processing/embeddings.py:150-155 | each new vector is written at its position and under its text's key; nothing else changes |
| Embeddings.EmbeddingManager.GetQueryEmbedding | src/data_processing/embeddings.py:159-178 | without the cache: a direct call. A hit: the cached vector and no provider call. A miss: one query call, with the result stored under the key |
| Embeddings.EmbeddingManager.ClearCache | src/data_processing/embeddings.py:184-187 | the cache is empty |
| Embeddings.EmbeddingManager.GetCacheStats | src/data_processing/embeddings.py:189-194 | the number of entries, and the sum of the vector lengths |
| Embeddings.MergeAll | src/data_processing/embeddings.py:152-154 | writing results into slots keeps the slot count |
| Embeddings.StoreAllKeys | src/data_processing/embeddings.py:152-155 | the keys after storing are the old keys plus the keys of the new texts |
| Embeddings.StoreAllKeepsOld | src/data_processing/embeddings.py:152-155 | entries that already existed are untouched |
| Embeddings.StoreAllNew | src/data_processing/embeddings.py:152-155 | every new text's key maps to its provider vector |
| Embeddings.MergeAllWrites | src/data_processing/embeddings.py:152-154 | listed positions hold the new vector; all other positions are unchanged |
| Embeddings.UncachedIndices | src/data_processing/embeddings.py:140-145 | every recorded position was a miss |
| Embeddings.MergeComplete | src/data_processing/embeddings.py:134-157 | after the merge every slot holds `CachedOrEmbedded`, and the cache covers every text |
| Embeddings.KeysCovered | src/data_processing/embeddings.py:150-155 | storing the misses makes every text's key present |
| Embeddings.RepeatedQuery | src/data_processing/embeddings.py:159-178 | asking the same query twice gives the same vector, and calls the provider at most once |
| Embeddings.DocumentThenQuery | src/data_processing/embeddings.py:120-178 | a query text that was first embedded as a document gets the document vector back from the shared cache |
| Metrics.Rate | src/utils/metrics.py:61-76 | a rate is in [0, 1], is 0 for an empty whole, and otherwise times the whole equals the part |
| Metrics.MetricsCollector.constructor | src/utils/metrics.py:30-38 | all counters start at zero |
| Metrics.MetricsCollector.RecordQuery | src/utils/metrics.py:40-51 | the query count rises by one. An error counts as an error and leaves the times alone; a success adds its time, and the average is total time over successful queries |
| Metrics.MetricsCollector.RecordCacheHit | src/utils/metrics.py:53-55 | hits rise by one; nothing else changes |
| Metrics.MetricsCollector.RecordCacheMiss | src/utils/metrics.py:57-59 | misses rise by one; nothing else changes |
| Metrics.MetricsCollector.GetMetrics | src/utils/metrics.py:61-76 | the counters, plus a hit rate of hits over lookups and an error rate of errors over queries, each 0 when undefined and within [0, 1] |
| Metrics.MetricsCollector.ResetMetrics | src/utils/metrics.py:78-80 | all counters are zero |
| Pipeline.GoogleGenerate | src/rag_pipeline/pipeline.py:38-60 | the client's text under max tokens, temperature 0.1 and top-p 0.8, or the fixed apology when the client raises |
| Pipeline.LanguageModel.constructor | src/rag_pipeline/pipeline.py:19-32 | a model with an empty prompt log |
| Pipeline.LanguageModel.Generate | src/rag_pipeline/pipeline.py:38-60 | the answer is the model's reply to the prompt; the prompt is logged |
| Pipeline.Batches | src/rag_pipeline/pipeline.py:106-108 | there are ceil(n / 50) batches |
| Pipeline.FlattenBatchesPrefix | src/rag_pipeline/pipeline.py:107-109 | the first b batches together are exactly the first min(50·b, n) documents |
| Pipeline.BatchesPartition | src/rag_pipeline/pipeline.py:106-109 | the batches concatenate back to the input; each holds 1 to 50 documents, and all but the last hold exactly 50 |
| Pipeline.BatchStep | src/rag_pipeline/pipeline.py:107-109 | batch b is `documents[50b : 50b+50]` and extends the inserted prefix by itself |
| Pipeline.FirstRejected | src/rag_pipeline/pipeline.py:107-118 | every batch before the first rejected one is accepted, and that batch is rejected |
| Pipeline.StoppedAtFirstRejected | src/rag_pipeline/pipeline.py:107-118 | an insertion loop that stops at a rejection stopped at the first one |
| Pipeline.FilterByScore | src/rag_pipeline/pipeline.py:143-144 | filtering never lengthens the results |
| Pipeline.FilterByScoreKeeps | src/rag_pipeline/pipeline.py:144 | a hit is kept if and only if its score is at least the threshold, and the kept hits keep their order (a subsequence) and their multiplicities (each hit at or above the threshold occurs as often as in the input, every other hit not at all) |
| Pipeline.FilterByScoreAppend | src/rag_pipeline/pipeline.py:144 | filtering distributes over concatenation |
| Pipeline.SearchResults | src/rag_pipeline/pipeline.py:136-151 | an error gives []; a non-zero effective threshold filters; a zero one leaves the results unfiltered; an absent or 0.0 threshold uses the default; every result is one of the hits |
| Pipeline.VectorStore.constructor | src/rag_pipeline/pipeline.py:66-92 | the given collaborators, over the reopened collection holding exactly the persisted documents |
| Pipeline.VectorStore.AddDocuments | src/rag_pipeline/pipeline.py:94-118 | empty input is a no-op. Otherwise the batches are inserted in order up to the first rejected one; the store gains exactly those documents; it persists once and succeeds exactly when every batch was accepted |
| Pipeline.VectorStore.InsertBatches | src/rag_pipeline/pipeline.py:107-110 | the accepted batches are those before the first rejection; the inserted documents are the matching input prefix |
| Pipeline.VectorStore.SimilaritySearch | src/rag_pipeline/pipeline.py:120-151 | exactly `SearchResults` of what the backend returns, with the configured 0.7 as the fallback threshold; a backend error gives []; every returned hit is one the backend found |
| Pipeline.EntryTexts | src/rag_pipeline/pipeline.py:254-269 | one text per planned entry |
| Pipeline.EntryTextsCons | src/rag_pipeline/pipeline.py:254-269 | rendering distributes over a leading entry |
| Pipeline.EntryTextsSnoc | src/rag_pipeline/pipeline.py:254-267 | rendering distributes over a trailing entry |
| Pipeline.EntryText | src/rag_pipeline/pipeline.py:262-266 | a block is 9 characters plus the source and the body (plus 3 when cut): "Source: ", the source, a newline, then the body |
| Pipeline.EntryTextShape | src/rag_pipeline/pipeline.py:255-263 | an entry is "Source: " + source + newline + body, with "..." after a truncated body |
| Pipeline.Plan | src/rag_pipeline/pipeline.py:250-267 | no more entries than retrieved documents |
| Pipeline.PlanFollowsRetrieval | src/rag_pipeline/pipeline.py:254-267 | entries follow retrieval order with the document's source. A body is the whole content, or, only for the last entry, a strict prefix of it |
| Pipeline.PlanWithinBudget | src/rag_pipeline/pipeline.py:258-263 | the body lengths fit the budget, and exactly fill it when the last entry was truncated |
| Pipeline.ContentLengthPrefix | src/rag_pipeline/pipeline.py:258 | the book-keeping of the running length over a prefix |
| Pipeline.WholeCountCons | src/rag_pipeline/pipeline.py:265-267 | an untruncated leading entry counts as whole |
| Pipeline.PlanWholePrefixFits | src/rag_pipeline/pipeline.py:258-267 | the documents taken whole are a prefix whose total length fits the budget |
| Pipeline.PlanStopsAtOverflow | src/rag_pipeline/pipeline.py:258-264 | assembly stops at the first document that overflows; a truncated part is added exactly when more than 100 characters remain |
| Pipeline.PlanStep | src/rag_pipeline/pipeline.py:256-264 | one loop step: append whole; truncate and stop; or stop |
| Pipeline.Context | src/rag_pipeline/pipeline.py:269 | no planned entries give "", and a single entry gives its block alone |
| Pipeline.PrepareContext | src/rag_pipeline/pipeline.py:242-269 | the loop's result equals `Context`, the `"\n\n"` join of the planned entries |
| Pipeline.ContextExceedsBudget | src/rag_pipeline/pipeline.py:253-269 | a document exactly as long as the budget is taken whole, and the context then exceeds the budget by the header, 9 characters plus the source name |
| Pipeline.AnswerPrompt | src/rag_pipeline/pipeline.py:281-296 | the prompt is exactly as long as the template's fixed parts plus the context and the question |
| Pipeline.PromptCarriesContextAndQuestion | src/rag_pipeline/pipeline.py:281-296 | the prompt is the fixed head, the context, the fixed middle, the question and the fixed tail |
| Pipeline.CalculateConfidence | src/rag_pipeline/pipeline.py:300-318 | confidence is in [0, 1], and 0 with no documents. Otherwise it is the mean score when that lies in [0, 1], 1 when the mean is at least 1, and 0 when it is at most 0 |
| Pipeline.ConfidenceNearestToMean | src/rag_pipeline/pipeline.py:312-316 | the confidence is the point of [0, 1] nearest to the mean score |
| Pipeline.ScoreSumBounds | src/rag_pipeline/pipeline.py:313 | the sum of n scores within [lo, hi] is within [n·lo, n·hi] |
| Pipeline.MeanBounds | src/rag_pipeline/pipeline.py:313 | a mean of values within [lo, hi] stays within [lo, hi] |
| Pipeline.ConfidenceIsMeanScore | src/rag_pipeline/pipeline.py:312-316 | for scores within [0, 1] the clamp is inert: confidence is the mean score and lies within the scores' bounds |
| Pipeline.ConfidenceOfTwoScores | src/rag_pipeline/pipeline.py:312-316 | scores 0.8 and 0.6 give confidence 0.7 |
| Pipeline.Excerpt | src/rag_pipeline/pipeline.py:334 | content of at most 200 characters is kept; longer content becomes its first 200 characters plus "..." |
| Pipeline.SourceEntry | src/rag_pipeline/pipeline.py:332-337 | the entry carries the 1-based id, the excerpt of the content, the metadata and the score |
| Pipeline.FormatSources | src/rag_pipeline/pipeline.py:320-340 | one entry per retrieved document, in order, with 1-based ids, excerpt, metadata and score |
| Pipeline.RAGPipeline.constructor | src/rag_pipeline/pipeline.py:170-185 | the given store and model; the context budget is the given length, or 4000 when it is absent or 0 |
| Pipeline.RAGPipeline.GenerateAnswer | src/rag_pipeline/pipeline.py:271-298 | one model call with the answer prompt and 1000 tokens |
| Pipeline.RAGPipeline.Query | src/rag_pipeline/pipeline.py:189-240 | no hits: the fixed "couldn't find" answer, and the model is not called. Otherwise one prompt built from `Context`. A language model that raises gives the fixed error answer (the default Gemini model never raises: see `QueryWithGemini`); a reply gives the answer, the mean confidence and, only when asked, the formatted sources. Confidence is always in [0, 1] |
| Pipeline.QueryWithGemini | src/rag_pipeline/pipeline.py:38-60 | with the default Gemini model and a context budget of 4000: when documents are found, the answer is Gemini's reply, or the apology when Gemini fails (the query's error branch is not taken), and the response still carries the mean confidence and, when asked, source i is exactly `SourceEntry(i, docs[i])` for every retrieved document |

## Left out

- Retry and back-off: `@retry` on `GoogleLLM.generate`, `GoogleEmbeddings.embed_documents` and `GoogleEmbeddings.embed_query`. Each of the three catches its own exceptions and returns a fallback, so the retry never fires, and one attempt per call is exact. The one-second pause every ten documents in `embed_documents` is timing only.
- The internals of `genai`, Chroma, langchain's text splitter and pandas. They are parameters, and the model states only what the pipeline does with their outputs.
- `VectorStore.get_collection_info` and `DocumentProcessor.load_pdfs`: these only wrap library calls.
- Pipeline.VectorStore.constructor: `_initialize_vectorstore` reopening the collection is modelled by the `persisted` parameter, which is the documents an earlier session persisted. A failure to open the collection (the re-raised exception) is not modelled.
- Pipeline.VectorStore.AddDocuments: `persist()` is assumed to succeed; only a rejected batch makes the call fail.
- Collaborators are deterministic functions: the same request always gets the same outcome, and a transient failure cannot hit one call and spare the next. In particular, a text repeated within one `embed_documents` call gets the same vector at every position. The source calls the service once per occurrence (`embeddings.py` lines 48-71). If one of those calls fails and a later one succeeds, the result list holds zeros at the failed position while the cache keeps the last vector written. The model does not capture that divergence.
- Embeddings.CacheKey: Python's `hash(text)` is salted per process and may collide. It is modelled as an injective `"embed_" + text`.
- Pipeline.CalculateConfidence: `round(confidence, 2)` is not modelled, and confidence is the exact clamped mean. Likewise the score in `_format_sources` is unrounded. Floats are modelled as exact reals.
- Pipeline.VectorStore.SimilaritySearch: the order and meaning of Chroma's scores belong to Chroma. The model does not say which k documents are nearest, only that the search filters and passes on what the backend returns.
- DocumentLoader.LoadCsvData: the pandas row index is taken to be the row's position (the default `RangeIndex`). Column values are given as strings already rendered.
- Documents: `doc.metadata.update({"document_type": …})` mutates Document objects in place. The model updates Document values instead, which is safe because the loaders own freshly created documents.
- Default construction of collaborators (`vector_store or VectorStore()`, `llm or GoogleLLM()`, `embedding_model or GoogleEmbeddings()`): collaborators are always passed in.
- API keys, model names, directories and the other settings are unused by the modelled logic. Only chunk size, chunk overlap, the similarity threshold and the maximum context length are modelled.
- Logging, `measure_time`, the module-level `metrics_collector` and the Streamlit front end: these are I/O and wall-clock time.
