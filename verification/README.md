# server-rag core in Dafny

A model of the deterministic logic of `server-rag`. It is a retrieval-augmented
chat server that speaks the Ollama chat/generate protocol. The server ingests
ClickUp CSV exports and markdown documents as chunks and stores them in a Milvus
collection through `MilvusVectorStore`. It picks a retriever policy and answers
questions through `ChatHandler.process_with_rag`, either as one reply or as a
two-words-per-unit stream. Each exchange goes to a logging server through
`RAGLoggingClient`.

Every collaborator the code calls but does not define is a parameter of the
operation that uses it:

- the markdown header splitter;
- the embedding model and the Milvus search;
- the retriever and the LLM chain;
- the HTTP post;
- MD5, uuid4, `float()`, `str()` and the clock readings.

Python exceptions are values of `PyValues.PyError`. A `Raised(kind, message)`
prints as its message. An `HttpError(status, detail)` prints as `"<status>: <detail>"`.

Modules, one per source file:

| module | file |
|---|---|
| `PyText`, `PyValues`, `Wrappers` | Python string and value semantics: `split`, `strip`, `join`, slicing, dict truthiness |
| `CsvChunking` | `chunking/chunking_csv.py` |
| `MarkdownChunking` | `chunking/chunking_md.py` |
| `VectorStore` | `vector_db/milvus.py` |
| `RetrieverPolicy` | `retriever/retriever.py` |
| `ChatHandling` | `api/chat_handler.py` |
| `Streaming` | `api/streaming.py` |
| `RagLogging` | `api/logging_client.py` |
| `Responses` | `api/responses.py` |
| `Endpoints` | `api/endpoints.py` |

## Model

| member | source | states |
|---|---|---|
| CsvChunking.CleanKey | server-rag/chunking/chunking_csv.py:45 | a cleaned column name holds no U+FEFF and has no whitespace at either end, and a name that already has neither is kept as it is |
| CsvChunking.CleanKeyDropsPadding | server-rag/chunking/chunking_csv.py:43-46 | a clean column name surrounded by any mix of whitespace and U+FEFF cleans back to that name, so "\ufeff Task ID " is looked up as "Task ID" |
| CsvChunking.CleanRow | server-rag/chunking/chunking_csv.py:43-46 | the cleaned row's keys are exactly the cleaned names of the row's columns |
| CsvChunking.CleanRowFaithful | server-rag/chunking/chunking_csv.py:43-46 | every cleaned key is free of U+FEFF and surrounding whitespace; each value is the unchanged cell of the last column whose name cleans to that key |
| CsvChunking.KeptFromSpec | server-rag/chunking/chunking_csv.py:84-88 | the kept row indices are exactly the rows whose Space Name is not excluded, strictly increasing, and kept plus excluded equals the row count |
| CsvChunking.ChunkRowsFromSpec | server-rag/chunking/chunking_csv.py:84-190 | the j-th chunk emitted is built from the j-th kept row, with j chunks before it in the file |
| CsvChunking.FileChunksSpec | server-rag/chunking/chunking_csv.py:84-190 | per file: one chunk per kept row in row order; emitted plus filtered equals the row count; chunk j is `<filename>_<j+1>`; `row_number` is the original index + 1 and strictly increasing; `source` is the filename; no chunk comes from an excluded space |
| CsvChunking.ChunkIdsDistinct | server-rag/chunking/chunking_csv.py:174-188 | chunk ids within a file are pairwise distinct |
| CsvChunking.ChunkCsvFilesIsConcat | server-rag/chunking/chunking_csv.py:64-193 | the output is the flattening of the per-file chunk lists, in file order |
| CsvChunking.ChunkCsvFilesAt | server-rag/chunking/chunking_csv.py:75-188 | chunk j of file i sits at the offset of file i plus j: file order, then row order |
| CsvChunking.ChunkCsvFilesLength | server-rag/chunking/chunking_csv.py:64-193 | the output holds nothing besides the files' chunks |
| CsvChunking.NoFilesNoChunks | server-rag/chunking/chunking_csv.py:69-190 | an empty or None list of files yields no chunks, and the output is empty exactly when every row of every file has an excluded Space Name |
| CsvChunking.RenderMember | server-rag/chunking/chunking_csv.py:116-150 | a line appears in the content exactly when some shown field prints it |
| CsvChunking.RenderDistinctLabel | server-rag/chunking/chunking_csv.py:116-150 | a field whose caption is distinguishable prints `caption + v` exactly when it is shown with value v |
| CsvChunking.PageLayout | server-rag/chunking/chunking_csv.py:116-169 | `page_content` starts with "=== 작업 정보 ==="; the body section follows the info lines and the comment section closes the content |
| CsvChunking.InfoOmissions | server-rag/chunking/chunking_csv.py:125-150 | in the content a Parent ID is shown iff non-blank and not "null"; Tags and Assignees are shown iff non-empty and not "[]" |
| CsvChunking.HeaderInclusions | server-rag/chunking/chunking_csv.py:91-113 | the header starts with "Source: <filename>" and keeps any non-empty Parent ID, Tags and Comments, "null" and "[]" included |
| MarkdownChunking.Basename | server-rag/chunking/chunking_md.py:58 | the base name is the longest suffix of the path without a '/' |
| MarkdownChunking.Feature | server-rag/chunking/chunking_md.py:94-98 | the feature is a non-empty 'Header 2', otherwise "Unknown" |
| MarkdownChunking.PostProcess | server-rag/chunking/chunking_md.py:88-101 | `source` becomes the file name; other metadata keys are untouched; the content starts with the feature marker and ends with the old content |
| MarkdownChunking.PostProcessAll | server-rag/chunking/chunking_md.py:89-101 | one processed chunk per splitter chunk, in the same order |
| MarkdownChunking.PostProcessContent | server-rag/chunking/chunking_md.py:94-101 | the new content is "\n---\nfeature: " + Header 2 + "\n" + old content, or "feature: Unknown" when Header 2 is missing or empty |
| MarkdownChunking.ProcessFile | server-rag/chunking/chunking_md.py:56-104 | an unreadable file yields no chunks; a readable one yields one chunk per splitter chunk |
| MarkdownChunking.ProcessFileSource | server-rag/chunking/chunking_md.py:58-91 | every chunk of a file carries the file's base name as `source` |
| MarkdownChunking.ChunkMarkdownFiles | server-rag/chunking/chunking_md.py:112-114 | with no files the result is empty |
| MarkdownChunking.ChunkMarkdownFilesAppend | server-rag/chunking/chunking_md.py:116-121 | aggregation distributes over concatenation of the file list |
| MarkdownChunking.UnreadableFileSkipped | server-rag/chunking/chunking_md.py:56-121 | an unreadable file contributes nothing and the files after it still contribute |
| MarkdownChunking.ChunkMarkdownFilesAt | server-rag/chunking/chunking_md.py:106-129 | chunk j of file i sits at the offset of file i plus j: file order, then splitter order |
| MarkdownChunking.ChunkMarkdownFilesLength | server-rag/chunking/chunking_md.py:106-129 | the result holds exactly the per-file chunks and nothing else |
| VectorStore.FamilyOf | server-rag/vector_db/milvus.py:89-94 | HNSW and the three IVF types are the tuned families |
| VectorStore.BuildParams | server-rag/vector_db/milvus.py:89-94 | HNSW builds with M=8, efConstruction=64; IVF_FLAT/IVF_SQ8/IVF_PQ with nlist=128; any other type with no parameters |
| VectorStore.SearchParams | server-rag/vector_db/milvus.py:244-249 | HNSW searches with ef=64, the IVF types with nprobe=10, others with none |
| VectorStore.CreateIndexRequest | server-rag/vector_db/milvus.py:87-108 | the index request carries the metric, the type and that type's build parameters |
| VectorStore.SearchMatchesBuild | server-rag/vector_db/milvus.py:87-249 | an index type is tuned at search time exactly when it was tuned at build time: ef equals efConstruction, and nprobe is at most nlist |
| VectorStore.Batch | server-rag/vector_db/milvus.py:124-128 | a batch is the slice `texts[i:i+16]`, non-empty and full except at the end |
| VectorStore.BatchesCover | server-rag/vector_db/milvus.py:124-135 | the batches, re-joined, give back the texts in order |
| VectorStore.BatchesShape | server-rag/vector_db/milvus.py:124-135 | there are ceil(n/16) batches, all of size 16 except possibly the last |
| VectorStore.EmbedSingles | server-rag/vector_db/milvus.py:141-145 | the per-item fallback gives one vector per text when it succeeds |
| VectorStore.EmbedSinglesInOrder | server-rag/vector_db/milvus.py:141-145 | when every text embeds on its own to one vector, the fallback succeeds and its vector j is the vector of text j embedded alone |
| VectorStore.EmbedBatch | server-rag/vector_db/milvus.py:129-147 | a batch uses the batch call; a CUDA RuntimeError falls back to single items; any other error propagates |
| VectorStore.CudaFallbackInOrder | server-rag/vector_db/milvus.py:138-145 | a batch whose call raises a CUDA RuntimeError still yields one vector per text, in order, each the vector of that text embedded alone, provided each single call succeeds |
| VectorStore.EmbedFromNoFailure | server-rag/vector_db/milvus.py:124-135 | when no call fails the vectors are the batches' vectors concatenated in order |
| VectorStore.EmbedFrom | server-rag/vector_db/milvus.py:124-147 | the batches from position i on are embedded in order, stopping at the first error; with an embedder that returns one vector per input, success gives one vector per remaining text |
| VectorStore.EmbedAll | server-rag/vector_db/milvus.py:124-147 | the batching loop, with its accumulated vectors, computes exactly the batch-by-batch result `EmbedFrom` from the first batch |
| VectorStore.MetadataList | server-rag/vector_db/milvus.py:118-119 | None metadatas become one empty dict per text |
| VectorStore.Columns | server-rag/vector_db/milvus.py:152-178 | the columns have one entry per text, with missing Header 1, Header 2 and source as ''; a too-short metadata list raises IndexError |
| VectorStore.AddTexts | server-rag/vector_db/milvus.py:114-178 | an embedding error propagates; otherwise the columns are built from the embedded vectors and the texts, the contents column is the texts, and without metadatas the columns always build |
| VectorStore.NoMetadataEmptyColumns | server-rag/vector_db/milvus.py:118-169 | without metadatas every header and source cell is '' |
| VectorStore.HitToDocument | server-rag/vector_db/milvus.py:286-300 | a hit becomes a Document with the hit's content and exactly the Header 1, Header 2, source, score and id keys |
| VectorStore.HitDocumentRoundTrip | server-rag/vector_db/milvus.py:286-300 | the hit can be read back from its Document |
| VectorStore.HitsToDocuments | server-rag/vector_db/milvus.py:286-303 | one Document per hit, in hit order |
| VectorStore.SimilaritySearch | server-rag/vector_db/milvus.py:211-303 | an empty collection issues no request and returns []; otherwise a collection without an index raises IndexError, and with one the request asks for min(k, total) hits with the index's metric and search parameters; an engine error returns [] and hits become Documents in order |
| VectorStore.WithScore | server-rag/vector_db/milvus.py:306-315 | each Document is paired with its score, 0.0 when absent |
| VectorStore.WithScoreOfHits | server-rag/vector_db/milvus.py:306-315 | for converted hits the paired score is the hit's own score |
| RetrieverPolicy.GetRetriever | server-rag/retriever/retriever.py:5-34 | 'top_k' gives similarity with k=4; 'threshold' gives similarity_score_threshold with 0.2; 'mmr' gives mmr with k=4, fetch_k=20; any other name raises NameError |
| RetrieverPolicy.PolicyRecoverable | server-rag/retriever/retriever.py:10-26 | the three configurations differ, so distinct policies give distinct retrievers |
| RetrieverPolicy.UnknownPolicyFails | server-rag/retriever/retriever.py:6-31 | the name "similarity" reaches the fallback and raises NameError |
| RetrieverPolicy.GetRetrieverIntended | server-rag/retriever/retriever.py:28-31 | the corrected fallback returns a similarity retriever with k=4 |
| RetrieverPolicy.IntendedTotal | server-rag/retriever/retriever.py:5-34 | the corrected table agrees with the written one on the known policies and treats every other name like 'top_k' |
| ChatHandling.Init | server-rag/api/chat_handler.py:16-43 | after construction current = default = the initial prompt, or the built-in prompt when none is given |
| ChatHandling.UpdateSystemPrompt | server-rag/api/chat_handler.py:49-87 | an update succeeds iff an LLM is configured and the template builds; success sets the prompt and the chain; failure changes nothing |
| ChatHandling.ResetToDefault | server-rag/api/chat_handler.py:89-91 | a successful reset makes `get_system_prompt` return the default prompt |
| ChatHandling.UpdatePreserves | server-rag/api/chat_handler.py:26-91 | an update keeps the default prompt and the chain/prompt agreement, and the reported prompt is the new one iff the update succeeded |
| ChatHandling.ApplyAllPreserves | server-rag/api/chat_handler.py:26-91 | over any sequence of updates and resets the default is never reassigned and the chain matches the prompt |
| ChatHandling.ResetRestoresInitial | server-rag/api/chat_handler.py:26-91 | after any history, a successful reset restores the constructed prompt |
| ChatHandling.GenerateSessionId | server-rag/api/chat_handler.py:93-98 | a supplied session id is returned verbatim, otherwise "session_" + 12 uuid hex digits |
| ChatHandling.SessionIdsAgree | server-rag/api/chat_handler.py:93-98 | the handler and the logging client derive the same id when one is supplied |
| ChatHandling.ExtractContexts | server-rag/api/chat_handler.py:100-108 | a failing retriever gives no contexts |
| ChatHandling.InfoField | server-rag/api/chat_handler.py:139-140 | a request-info field is present iff the info dict is non-empty and holds the key |
| ChatHandling.ProcessWithRag | server-rag/api/chat_handler.py:110-163 | success returns the chain output; a chain failure raises HTTP 500; a log call is made iff logging is enabled, with the retrieved contexts on success and none plus the apology on failure |
| ChatHandling.FailureTextRecoverable | server-rag/api/chat_handler.py:146-163 | the failure's message can be read back from both the HTTP 500 detail and the logged apology |
| Streaming.Units | server-rag/api/streaming.py:16-23 | W words give ceil(W/2) units |
| Streaming.UnitsConcat | server-rag/api/streaming.py:16-23 | the units concatenated give the words joined by single spaces |
| Streaming.UnitShape | server-rag/api/streaming.py:19-23 | unit k holds words 2k and 2k+1; every unit but the last ends with one space, and the last ends with a word |
| Streaming.FinalStats | server-rag/api/streaming.py:47-52 | the terminal unit counts the question's and the answer's words |
| Streaming.ChatStream | server-rag/api/streaming.py:10-68 | non-terminal units are not done; exactly one terminal unit follows, with empty content and the word counts; a failure gives a single "Error: " unit |
| Streaming.GenerateStream | server-rag/api/streaming.py:70-119 | the same structure in the response field; the terminal unit carries context [] |
| Streaming.ChatStreamText | server-rag/api/streaming.py:16-23 | the streamed texts concatenate to the whitespace-normalised answer, which has the same words |
| Streaming.StreamsAgree | server-rag/api/streaming.py:10-119 | the generate stream matches the chat stream unit for unit (texts, done flags, statistics), so its text is the whitespace-normalised answer too |
| RagLogging.Enabled | server-rag/api/logging_client.py:27-30 | logging is on only when httpx is available, and is on by default |
| RagLogging.EnabledSpellings | server-rag/api/logging_client.py:27-30 | logging is on exactly for "true" in any letter case |
| RagLogging.ExtractSessionId | server-rag/api/logging_client.py:40-54 | a supplied session id wins; else "ip_" + 12 MD5 characters of ip and date; else "temp_" + 12 uuid characters |
| RagLogging.GeneratedSessionIdShape | server-rag/api/logging_client.py:40-54 | a generated id is its prefix plus exactly 12 characters |
| RagLogging.DocContexts | server-rag/api/logging_client.py:61 | retrieved Documents become contexts, one each, in order |
| RagLogging.CapValue | server-rag/api/logging_client.py:70 | string values are capped at 500 characters, other values kept |
| RagLogging.ChunkMetadata | server-rag/api/logging_client.py:69-73 | `chunk_metadata` holds exactly the keys other than source, Header 1, Header 2 and score whose values are not None, with strings capped at 500 |
| RagLogging.Score | server-rag/api/logging_client.py:68-82 | a truthy score converts with `float`, whose error propagates; a missing or falsy score is None |
| RagLogging.Field | server-rag/api/logging_client.py:65-81 | a field is at most n characters and '' when the key is missing |
| RagLogging.ConvertContext | server-rag/api/logging_client.py:60-99 | for a Document: the capped page content, `str` of source/Header 1/Header 2 capped at 255 ("" when missing), the float of a truthy score (else None), and the remaining metadata; for a dict: the same from its content/source_document/header1/header2/similarity_score keys with chunk_metadata as given; unrecognised items give source "unknown", empty headers and no score; fails exactly when a truthy score is not a number |
| RagLogging.LogFormatStable | server-rag/api/logging_client.py:60-84 | a log row within the caps, converted again as a dict, gives itself back, except that a 0.0 score becomes None |
| RagLogging.ConvertContexts | server-rag/api/logging_client.py:56-103 | conversion keeps length and order and fails only where one context fails |
| RagLogging.CapOptional | server-rag/api/logging_client.py:138-139 | an optional field is capped when non-empty, else None |
| RagLogging.BuildRecord | server-rag/api/logging_client.py:128-144 | each text field is its argument cut to its cap (session 255, question 2000, response 5000, model 100, languages 10), ip and agent are capped to 45 and 500 or None when empty, `contexts_count` is the number of converted contexts, and the timestamp and server name are stored as given |
| RagLogging.LogConversation | server-rag/api/logging_client.py:105-173 | disabled logging sends nothing and returns False; a record is sent iff every context converts; the result is True iff the sent record was answered 200 with a JSON-object body |
| RagLogging.LogFailuresReturnFalse | server-rag/api/logging_client.py:154-173 | a non-200 status, a body that is not a JSON object, a timeout or any other exception gives False |
| RagLogging.LogConversationBackground | server-rag/api/logging_client.py:175-212 | a call is scheduled iff logging is enabled |
| RagLogging.BackgroundAgreesWithDirect | server-rag/api/logging_client.py:175-212 | a scheduled call is exactly the direct call, and nothing is sent while logging is off |
| Responses.ReplyStats | server-rag/api/responses.py:18-23 | constant durations, the given prompt count, and the reply's word count |
| Responses.CreateChatResponse | server-rag/api/responses.py:8-24 | role "assistant", content as given, prompt count 10 |
| Responses.CreateGenerateResponse | server-rag/api/responses.py:26-40 | response as given, context [], prompt count 10 |
| Responses.CreateChatErrorResponse | server-rag/api/responses.py:42-52 | a done assistant reply whose content is exactly "Error: " followed by the error, with no statistics |
| Responses.CreateGenerateErrorResponse | server-rag/api/responses.py:54-61 | a done reply whose response is exactly "Error: " followed by the error, without context or statistics |
| Responses.ErrorResponsesRoundTrip | server-rag/api/responses.py:42-61 | both error builders carry the error text verbatim after "Error: " |
| Responses.EvalCountIgnoresSpacing | server-rag/api/responses.py:22-38 | `eval_count` does not depend on how the words are spaced, and both builders report the same statistics |
| Endpoints.GetChatHandler | server-rag/api/endpoints.py:27-31 | a missing handler raises HTTP 503 |
| Endpoints.LastUserIndex | server-rag/api/endpoints.py:38 | the index of the last message whose role is "user", if there is one |
| Endpoints.Question | server-rag/api/endpoints.py:38-42 | a question exists iff some message has role "user" |
| Endpoints.QuestionAppend | server-rag/api/endpoints.py:38 | a new user message becomes the question; a non-user message changes nothing |
| Endpoints.HandleChatRequest | server-rag/api/endpoints.py:33-84 | no handler raises 503; no user message raises 400; the RAG model answers with the stream or a reply built from `process_with_rag`, whose failure becomes an error reply |
| Endpoints.HandleGenerateRequest | server-rag/api/endpoints.py:86-110 | other models get an error reply naming the RAG model; the RAG model streams or replies, and a failure becomes an error reply |
| Endpoints.NotSupportedNamesModels | server-rag/api/endpoints.py:103-106 | the not-supported message names the requested model and the available one |
| Endpoints.ChatReportsRagFailure | server-rag/api/endpoints.py:54-84 | a failing `process_with_rag` reaches the client as "Error: 500: RAG 처리 실패: <message>" |
| Endpoints.ChatReportsChainFailure | server-rag/api/endpoints.py:46-84 | with the handler's own `process_with_rag`, a failing chain reaches a non-streamed chat client as "Error: 500: RAG 처리 실패: <the chain's error>" |
| Endpoints.Http500Text | server-rag/api/endpoints.py:82-84 | an HTTP 500 prints as "500: <detail>" |
| Endpoints.GetHealthStatus | server-rag/api/endpoints.py:137-152 | "healthy"/"initialized" iff a handler is set, else "degraded"/"not_initialized"; the service is "cheeseade-rag-server"; exactly one supported model, the configured one or "unknown" |
| Endpoints.HealthMatchesDispatch | server-rag/api/endpoints.py:27-143 | the health check is healthy exactly when requests reach a handler |

## Left out

- File reading, globbing and saving (`load_csv_from_docs`, `load_md_from_docs`, `chunk_csv_file`, `save_*_chunks_to_file`): these are I/O. A CSV file is its rows and a markdown file is its text, or `None` when reading it raised.
- CSV cells that `csv.DictReader` fills with `None` are modelled as absent keys. The `None` key of surplus columns is not modelled.
- The markdown header splitter is an uninterpreted parameter.
- The Milvus engine is an oracle: connection, schema, index creation, insert, flush, load, `num_entities` and the ranking. Index creation swallows its own failure; its consequence, a collection without an index, is modelled as the IndexError of `similarity_search`. The primary keys `add_texts` returns are not modelled either.
- The embedding model and `embed_query` are oracles. A raising `embed_query` is not modelled.
- `add_texts` checks no vector dimension, and neither does the model.
- `similarity_search` reports the engine's error only by returning []. Scores are opaque reals.
- RuntimeError subclasses are modelled as the kind "RuntimeError".
- `lower()` is modelled as ASCII lowering. No non-ASCII character lowers to a letter of "true", so the gate is decided exactly.
- The LLM chain, the retriever and the prompt-template parser are parameters.
- The prompt is swapped without a lock. That race is concurrency and is not modelled.
- Timestamps, `created_at`, `asyncio.sleep`, `run_in_executor` and the background task's fallback to a direct call are clock or concurrency. `log_conversation_background` is modelled as the call it schedules.
- The logging server URL and the httpx client are left out. A post is an oracle with three outcomes: a response, a timeout or another exception.
- The proxy branch of `handle_chat_request` forwards to the LLM server over the network. It is modelled only as the `Forwarded` reply.
- `get_model_list`, `set_chat_handler`, `health_check`, and the conversation stats and search helpers of `ChatHandler` are network plumbing and are not modelled.
- `server.py`, `api/router.py`, `api/proxy.py`, `api/models.py` and `embedding/bge_m3.py` are not part of this model.
- An HTTPException's `str()` is modelled as "<status>: <detail>".
- `ChatHandling.GetSystemPrompt`: its contract is stated through `UpdatePreserves` and `ResetToDefault`, not on the function itself.

## Findings

| source | as written | input that shows it | evidently intended | confidence | as-written member | corrected member |
|---|---|---|---|---|---|---|
| server-rag/retriever/retriever.py:28-31 | the fallback branch calls `vector_db.as_retriever`, but the parameter is named `vertor_db`, so any other policy raises NameError | `get_retriever(store, 'similarity')` | the fallback builds a similarity retriever with k=4 from the store parameter | high (not executed) | RetrieverPolicy.UnknownPolicyFails | RetrieverPolicy.IntendedTotal |
