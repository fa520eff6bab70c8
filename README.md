# IntelliForge retrieval and search core, in Dafny

IntelliForge is a Flask application for building retrieval-augmented chat projects. A project
has a language model, a vector store, uploaded documents and a prompt template. The app can also
answer plain chat messages with optional live web search. This project models the logic that sits
between the external engines and states what that logic guarantees:

- **The search tool's vector database** (`VectorStore`, with `Chunking`).
  - Boundary-aware chunking with overlap.
  - Three parallel stores (index, texts, metadata) kept in step by ingestion, clearing and
    switching embedding models.
  - The two-stage search: over-retrieve, filter by a strict score threshold, then rerank with
    the cross-encoder or cut to `k`.
- **The paginated link search** (`Links`). It finds new URLs page by page and never repeats a URL
  that is already in the durable store, in the caller's session set (which it updates in place) or
  already taken. The quick mode does the same on one page.
- **Web search** (`WebSearching`, `WebContext`).
  - Search, crawl and keep pages with more than 100 characters of content.
  - Re-ingest them into an emptied store, and retrieve five reranked contexts.
  - Assemble the context block for the language model from the top three results.
- **Reranking** (`Reranking`, `Retrieval`, `Ranking`).
  - A stable descending sort by cross-encoder score, cut to `top_k`, with a fallback to the input
    order.
  - The score and position are written into the returned documents' metadata.
  - The retriever that branches on the reranking flag.
- **Chat** (`Chat`).
  - The history window: the last eight messages, truncated, plus the two most similar older ones.
  - The token estimate and the cut on overflow, and the steps of `process_message`.
  - `str.format` is modelled, which shows that web content containing a replacement field such as
    `{name}` makes formatting the prompt raise (`Chat.FormatRejectsOtherFields`).
- **Project setup** (`RagSetup`, `PromptGeneration`, `FileUtils`).
  - The setup wizard's status and next-step rules, which agree with each other.
  - The checks before a project's store is built or queried, and the creation and naming of a chat session.
  - Prompt generation with `</think>` stripping and the default prompt.
  - The upload allow-list and the pdf/text classification. The allow-list ignores case but the
    type test does not, so "Report.PDF" is accepted and saved as text
    (`FileUtils.UpperCasePdfIsText`).

The external engines are oracles, passed in as functions:

| engine | modelled as |
|---|---|
| FAISS index search | hits for (index, query, count) |
| sentence and cross-encoders | scores of (query, text) |
| DuckDuckGo search | a list of records or a raised exception |
| crawler | crawled pages or a failure |
| Groq and Ollama | a reply or a failure |
| Werkzeug's `secure_filename` | a function on names |
| SQLite repository | the rows it returns |

Python's falsy values are written as `""` for text and `0` for numbers. Python slicing with
negative bounds, negative list indices, `str.strip`, `str.find`, `str.rfind` and `str.join` are
modelled exactly (`TextUtil`).

## Model

| member | source | states |
|---|---|---|
| Chunking.LastBoundaryIn | app/services/searchtool/vector_database.py:123-126 | the position found is a `.` or newline inside the window and no later position of the window is one |
| Chunking.MaxRFindIsLastBoundary | app/services/searchtool/vector_database.py:123-126 | `max(rfind('.'), rfind('\n'))` on the window is that last boundary, as an offset into the window |
| Chunking.CutRule | app/services/searchtool/vector_database.py:118-129 | every window is non-empty and at most `chunk_size` long; past the text's end it is a full window; it is cut just after a boundary exactly when one lies beyond half the chunk size |
| Chunking.Ends | app/services/searchtool/vector_database.py:118-129 | one window end per start position, each the end the loop computes for that start |
| Chunking.ProgressAdvances | app/services/searchtool/vector_database.py:117-132 | when the overlap is below the advance, every window ends after its start and the next start lies beyond the current one |
| Chunking.WindowsOver | app/services/searchtool/vector_database.py:117-132 | the windows visited from a start: none once the start is past the text, otherwise the first one begins there |
| Chunking.WindowsOverChain | app/services/searchtool/vector_database.py:117-132 | consecutive windows are linked by `start = end - overlap`, every window starts inside the text, and the last one reaches its end |
| Chunking.WindowsShape | app/services/searchtool/vector_database.py:115-132 | the first window starts at 0, every window obeys the cut rule, each next one starts at the previous end minus the overlap, and the last reaches the end of the text |
| Chunking.WindowsOverStep | app/services/searchtool/vector_database.py:131-132 | one loop iteration appends the current window and moves to `end - overlap` without changing the overall window list |
| Chunking.ChunksOf | app/services/searchtool/vector_database.py:131 | one stripped chunk per window |
| Chunking.ChunksOfAt | app/services/searchtool/vector_database.py:131 | chunk `i` is window `i` of the text, clipped to the text and stripped |
| Chunking.ChunksOfStep | app/services/searchtool/vector_database.py:131 | appending `text[start:end].strip()` extends the chunk list by the new window's chunk |
| Chunking.NextEnd | app/services/searchtool/vector_database.py:118-129 | the loop body's `end` is the window end of the cut rule |
| Chunking.ChunkText | app/services/searchtool/vector_database.py:101-134 | the result is the text itself, unstripped, when it fits in one chunk, and otherwise the stripped windows in order |
| Chunking.WindowsOverCover | app/services/searchtool/vector_database.py:132 | with a non-negative overlap, every position from the start on lies in some visited window |
| Chunking.WindowsCover | app/services/searchtool/vector_database.py:117-132 | windows overlap or abut, so every character of the text lies in some window |
| Chunking.ChunksBounded | app/services/searchtool/vector_database.py:111-134 | there is at least one chunk and none is longer than `chunk_size` |
| VectorStore.TableKeys | app/services/searchtool/vector_database.py:13-32 | the embedding table has exactly the keys gemma, minilm and bge |
| VectorStore.ProfilesProgress | app/services/searchtool/vector_database.py:13-37 | every profile's chunk size, with the default overlap of 50, lets the chunker advance, and every dimension is positive |
| VectorStore.ChunkMetaShape | app/services/searchtool/vector_database.py:170-176 | a chunk's metadata is a copy of its document's with `chunk_id`, `total_chunks` and `original_doc` set, and `original_doc` is the document or its first 100 characters plus "..." |
| VectorStore.ChunkMetas | app/services/searchtool/vector_database.py:170-177 | one metadata entry per chunk |
| VectorStore.ChunkMetadata | app/services/searchtool/vector_database.py:170-177 | the inner loop builds the metadata of chunks `0..n-1` in order |
| VectorStore.PerDocument | app/services/searchtool/vector_database.py:165-166 | one chunk list per paired document |
| VectorStore.PerDocumentIs | app/services/searchtool/vector_database.py:165-167 | a table whose entry `t` is document `t`'s chunk list is the per-document table |
| VectorStore.PerDocumentBounded | app/services/searchtool/vector_database.py:165-167 | every document yields at least one chunk and every chunk is at most `chunk_size` long |
| VectorStore.PiecesAligned | app/services/searchtool/vector_database.py:164-177 | the chunk list and the chunk metadata list have the same length, and there are at least as many chunks as documents |
| VectorStore.ChunkDocuments | app/services/searchtool/vector_database.py:164-177 | the loop over `zip(documents, metadatas)` yields the concatenated chunks and their metadata, document by document |
| VectorStore.IngestedAligned | app/services/searchtool/vector_database.py:164-180 | with chunking the appended texts and metadata have equal length and at least one entry per paired document; without it they are equal only when the caller's lists are |
| VectorStore.Admitted | app/services/searchtool/vector_database.py:359-363 | every surviving hit has an idx below the store size and a score strictly above the threshold |
| VectorStore.AdmittedMembers | app/services/searchtool/vector_database.py:360 | a hit survives exactly when it was returned and passes the strict test |
| VectorStore.AdmittedAppend | app/services/searchtool/vector_database.py:359-363 | filtering distributes over concatenation, so surviving hits keep retrieval order |
| VectorStore.AdmittedStep | app/services/searchtool/vector_database.py:359-363 | examining one more hit adds it exactly when it passes |
| VectorStore.PyIndex | app/services/searchtool/vector_database.py:361-362 | Python's negative index (such as FAISS's -1) names a valid position counted from the end |
| VectorStore.ResolveSpec | app/services/searchtool/vector_database.py:359-363 | the lookup succeeds exactly when every surviving idx is a valid Python index of both lists, and then yields each hit's document, metadata and score in order; otherwise IndexError |
| VectorStore.ResolveStep | app/services/searchtool/vector_database.py:360-363 | resolving one more hit extends the three lists or fails |
| VectorStore.ResolveErrExtends | app/services/searchtool/vector_database.py:361-362 | a failed lookup stays failed whatever hits follow |
| VectorStore.FilterHits | app/services/searchtool/vector_database.py:355-363 | the filtering loop returns the lookup of the surviving hits, or IndexError |
| VectorStore.SliceLength | app/services/searchtool/vector_database.py:256 | the length of `s[:k]` never exceeds the list's |
| VectorStore.RerankOrder | app/services/searchtool/vector_database.py:256 | the positions taken are a top selection: `min(top_k, n)` distinct positions, non-increasing scores, none left out scoring higher |
| VectorStore.Rerank | app/services/searchtool/vector_database.py:241-263 | empty input gives empty lists; no cross-encoder gives AttributeError; `top_k` 0 gives IndexError; otherwise aligned documents, metadata and scores of a top selection in non-increasing order, each score the cross-encoder's for its document |
| VectorStore.RankedSpec | app/services/searchtool/vector_database.py:348-418 | three aligned lists of at most `k` entries taken from the store; scores above the threshold without reranking and non-increasing with it; errors only from a bad index or a missing cross-encoder |
| VectorStore.PlainPathIsPrefix | app/services/searchtool/vector_database.py:403-418 | without reranking the result is the first `min(k, m)` surviving hits in retrieval order |
| VectorStore.VectorDatabase.ModelConfig | app/services/searchtool/vector_database.py:58 | `model_config` is always the current key's profile |
| VectorStore.VectorDatabase.Init | app/services/searchtool/vector_database.py:57-72 | a falsy dimension or chunk size takes the profile's value; the stores and models start empty |
| VectorStore.VectorDatabase.Create | app/services/searchtool/vector_database.py:53-72 | ValueError with the available keys exactly for an unknown key, otherwise an empty store for that key |
| VectorStore.VectorDatabase.Initialize | app/services/searchtool/vector_database.py:74-80 | a fresh empty index of the configured dimension and empty stores; nothing else changes |
| VectorStore.VectorDatabase.LoadEmbeddingModel | app/services/searchtool/vector_database.py:82-92 | loads once, from the given name or the profile's, and flags EmbeddingGemma by a case-insensitive name test |
| VectorStore.VectorDatabase.LoadRerankModel | app/services/searchtool/vector_database.py:94-99 | the cross-encoder is loaded once, and exactly when reranking is enabled |
| VectorStore.VectorDatabase.AddDocuments | app/services/searchtool/vector_database.py:136-220 | an empty list changes nothing; otherwise the (chunked) texts and metadata are appended in order, the index holds all texts, and equal store lengths are kept |
| VectorStore.VectorDatabase.RerankResults | app/services/searchtool/vector_database.py:222-263 | the result is `Rerank` of the inputs, and the cross-encoder is loaded on first use |
| VectorStore.VectorDatabase.Search | app/services/searchtool/vector_database.py:265-422 | empty lists for a missing index or an empty store; otherwise the ranking of the index's hits for `RetrievalK` neighbours, with the embedding model loaded |
| VectorStore.VectorDatabase.UpdateChunkSize | app/services/searchtool/vector_database.py:424-435 | the chunk size is replaced, and the overlap only when one is given |
| VectorStore.VectorDatabase.GetStats | app/services/searchtool/vector_database.py:437-451 | the document count, the key's model name, a rerank model exactly when reranking is enabled |
| VectorStore.VectorDatabase.SwitchEmbeddingModel | app/services/searchtool/vector_database.py:458-487 | ValueError for an unknown key, no change for the current key, otherwise cleared stores with the new profile's dimension and chunk size and the embedding model dropped |
| VectorStore.VectorDatabase.Clear | app/services/searchtool/vector_database.py:489-494 | no index and empty stores |
| Links.BuildQuerySpec | app/services/searchtool/link_search.py:50-54 | the query keeps the caller's text in front; ` before:X` follows it directly and ` after:Y` comes last, each only when given |
| Links.Search | app/services/searchtool/link_search.py:28-77 | the engine's results for a non-empty reply; an empty list for an empty reply or an exception |
| Links.Hrefs | app/services/searchtool/link_search.py:108 | the URLs of the results in order, or a KeyError when a record has no "href" |
| Links.BatchSpec | app/services/searchtool/link_search.py:122-140 | a page takes only new, distinct URLs in page order, stops at the target, and when it does not stop early every URL was taken or counted as a duplicate |
| Links.FilterBatch | app/services/searchtool/link_search.py:122-140 | the inner loop returns the page's batch and its duplicate count |
| Links.StepSpec | app/services/searchtool/link_search.py:100-151 | one iteration keeps the loop invariant, moves to the next page, only appends URLs, and records the page's size as `total_found` |
| Links.AppendNew | app/services/searchtool/link_search.py:144-147 | extending the taken URLs by a page's new ones keeps them distinct and clear of the store and of the starting session |
| Links.RunSpec | app/services/searchtool/link_search.py:100-155 | the paging loop keeps the invariant, only appends, makes at most `max_attempts` attempts and reports the last page's size, not a sum |
| Links.UniqueUrlsSpec | app/services/searchtool/link_search.py:79-165 | the result is distinct URLs new to the store and the session, at most `target_count` of them, and the session grows by exactly those |
| Links.QuickSpec | app/services/searchtool/link_search.py:181-228 | quick mode takes new distinct URLs of page 1 in page order, adds them to the session, returns at most `target_count`, and on an exception takes none with `total_found` 0 |
| Links.BatchBoundedAfterFirst | app/services/searchtool/link_search.py:197-209 | with nothing taken before, a page takes at most `max(target, 1)` URLs |
| Links.BatchAtMostOneBelowTarget | app/services/searchtool/link_search.py:205-209 | with a target below 1, the first new URL is still taken and the loop then stops |
| Links.UrlSet.constructor | app/services/searchtool/link_search.py:79 | the session set holds the given URLs |
| Links.LinkSearch.constructor | app/services/searchtool/link_search.py:12-26 | the exclusion list, or the default six sites when none is given |
| Links.LinkSearch.SearchUniqueUrls | app/services/searchtool/link_search.py:79-165 | the URLs and statistics of the paging loop, with the session set updated in place to its final value; attempts equal pages searched |
| Links.LinkSearch.SearchUrlsQuickMode | app/services/searchtool/link_search.py:167-228 | the URLs and statistics of quick mode, with one attempt and one page, and the session updated in place |
| Ranking.SortIndices | app/services/reranking_service.py:54-55 | every position exactly once, in non-increasing score order, equal scores in input order |
| Ranking.StablePrefixIsTopSelection | app/services/searchtool/vector_database.py:256 | the first `t` positions of the stable sort are a valid descending top selection |
| Reranking.Limit | app/services/reranking_service.py:44 | the whole list for a falsy `top_k`, otherwise Python's prefix `s[:top_k]` |
| Reranking.RerankOrder | app/services/reranking_service.py:54-62 | distinct positions in non-increasing score order, ties in input order, none left out scoring higher, all taken without a limit |
| Reranking.TagTwice | app/services/reranking_service.py:68-69 | tagging again replaces the score and the position |
| Reranking.LastBefore | app/services/reranking_service.py:65-69 | the last earlier position where a document occurs, or -1 |
| Reranking.TagStep | app/services/reranking_service.py:65-69 | tagging the document at one position changes that document's metadata only |
| Reranking.TaggedOnce | app/services/reranking_service.py:65-69 | a document returned once carries its own score and its 1-based position |
| Reranking.Contents | app/services/reranking_service.py:48 | the page contents of the documents, in order |
| Reranking.Rerank | app/services/reranking_service.py:46-77 | with scores there is one score per returned document, and never more scores than documents |
| Reranking.RerankSpec | app/services/reranking_service.py:46-77 | the fallback is the input cut by `Limit` with no tags; with scores, the documents in `RerankOrder` each with its own score |
| Reranking.RerankOutcome | app/services/reranking_service.py:43-44 | skipped reranking returns the input cut by `Limit` and tags nothing |
| Reranking.RerankTagsOwnScore | app/services/reranking_service.py:65-69 | for distinct documents, the i-th returned document carries its own score and position i + 1 |
| Reranking.RerankingService.constructor | app/services/reranking_service.py:12-14 | no model loaded, the configured default model name |
| Reranking.RerankingService.Reranker | app/services/reranking_service.py:16-28 | loads on first use; a failed load leaves the model None |
| Reranking.RerankingService.TagDocuments | app/services/reranking_service.py:65-69 | every document's metadata becomes its tagging outcome and no content changes |
| Reranking.RerankingService.RerankDocuments | app/services/reranking_service.py:30-77 | the documents of the rerank outcome, with each document's metadata tagged accordingly and no content changed |
| Reranking.RerankingService.ApplyScores | app/services/reranking_service.py:53-72 | the successful path: the documents in score order, each tagged with its own score and position |
| Reranking.RerankingService.SetRerankerModel | app/services/reranking_service.py:79-84 | a new name drops the loaded model; the same name keeps it |
| Retrieval.OrDefault | app/services/retriever_service.py:32-33 | Python's `x or default`: the default exactly for a falsy value, never falsy when the default is not |
| Retrieval.BaseRetriever.constructor | app/services/retriever_service.py:39-42 | the base retriever's `search_kwargs` and `k` as given |
| Retrieval.BaseRetriever.EffectiveK | app/services/retriever_service.py:39-42 | the count the base retriever uses: `search_kwargs['k']` when it has `search_kwargs`, else `k` |
| Retrieval.BaseRetriever.SetK | app/services/retriever_service.py:39-42 | `search_kwargs['k']` is set when present, else `k` when present |
| Retrieval.RerankingRetriever.constructor | app/services/retriever_service.py:19-42 | falsy counts take 20 and 5, reranking needs both flags, and the base retriever is set to the retrieval count |
| Retrieval.RerankingRetriever.GetRelevantDocuments | app/services/retriever_service.py:44-76 | none for no candidates; the reranking outcome when reranking is on; otherwise the first `top_k_reranked` candidates untouched |
| Retrieval.RerankingRetriever.ConfigureRetrieval | app/services/retriever_service.py:78-89 | only truthy counts are taken, and a new retrieval count is passed to the base retriever |
| Retrieval.CreateRerankingRetriever | app/services/retriever_service.py:92-102 | a fresh retriever over the store's base retriever with the constructor's defaults |
| WebSearching.SearchAndCrawl | app/services/searchtool/web_search.py:34-76 | nothing for no URLs; otherwise the URLs in result order, with what the crawler returned for them |
| WebSearching.PageMeta | app/services/searchtool/web_search.py:106-111 | the page's metadata is its URL, its title or "Unknown", its content length and its timestamp or None |
| WebSearching.KeptSpec | app/services/searchtool/web_search.py:96-111 | kept documents and metadata are aligned, no more than the pages, each longer than 100 characters with its length recorded |
| WebSearching.KeptAppend | app/services/searchtool/web_search.py:96-115 | pages are kept one by one, so keeping distributes over concatenation |
| WebSearching.KeptSingle | app/services/searchtool/web_search.py:97-111 | a page is kept exactly when it has markdown and fit markdown and more than 100 characters of stripped content |
| WebSearching.GatherPages | app/services/searchtool/web_search.py:93-115 | the loop collects exactly the kept contents and their metadata |
| WebSearching.Bodies | app/services/searchtool/web_search.py:210 | the bodies of the results that have one |
| WebSearching.WebSearch.constructor | app/services/searchtool/web_search.py:22-32 | a store for the given key with its profile's chunk size, the default overlap and reranking on |
| WebSearching.WebSearch.ProcessAndStore | app/services/searchtool/web_search.py:78-132 | the store is emptied and re-initialised, the kept pages are added in one chunked call, and the returned count is the chunk count, or 0 when nothing was kept |
| WebSearching.WebSearch.SearchContext | app/services/searchtool/web_search.py:134-157 | the store's search with reranking, multiplier 3 and threshold 0.3 |
| WebSearching.WebSearch.SearchTool | app/services/searchtool/web_search.py:176-248 | simple mode returns the bodies and URLs, or None for no results; advanced mode stores the crawl and returns exactly the documents of `search_context(query, k=5)` on the re-filled store (nothing when it raises) with the crawled URLs, and nothing for an empty crawl |
| WebSearching.ToolTextsBounded | app/services/searchtool/web_search.py:233-246 | the advanced mode's contexts are at most five documents of the store |
| WebContext.Truncate | app/services/web_search_service.py:42-44 | content over 3000 characters is cut to 3000 plus "...", so at most 3003 characters |
| WebContext.ContextEnds | app/services/web_search_service.py:47-55 | the context template starts with its header and ends with the footer's full stop |
| WebContext.ContextStripped | app/services/web_search_service.py:47-57 | stripping the template removes only its trailing indentation |
| WebContext.Assemble | app/services/web_search_service.py:34-63 | the error text for an exception, the no-results text for no documents, otherwise the template around the first three documents joined and truncated, starting with the header and query, with at most three URLs |
| WebContext.CombinedStartsWithBest | app/services/web_search_service.py:38-39 | the combined content starts with the best document |
| WebContext.WebSearchService.constructor | app/services/web_search_service.py:10-11 | a web search over the minilm store |
| WebContext.WebSearchService.SearchAndGetContext | app/services/web_search_service.py:13-63 | the no-results text for an empty search or crawl, otherwise `Assemble` of the search tool's actual reply: the five reranked documents of the store and the crawled URLs; the sources are none or the first three crawled URLs |
| Chat.Truncated | app/services/chat_service.py:62-63 | both texts of a turn are at most 500 characters |
| Chat.TruncatedAll | app/services/chat_service.py:61-64 | one truncated turn per message, in order |
| Chat.CandidatesSpec | app/services/chat_service.py:75-94 | the candidates are exactly the qualifying older messages, in order, one per message: candidate i is what the message at the i-th of increasing qualifying positions contributes (truncated, similarity above 0.3), and every qualifying message's position is among them |
| Chat.CandidatesBounded | app/services/chat_service.py:87-88 | every candidate's prompt and response are at most 500 characters |
| Chat.CandidatesComplete | app/services/chat_service.py:77-91 | every qualifying older message yields its truncated turn and similarity as a candidate |
| Chat.Similarities | app/services/chat_service.py:97 | the candidates' similarities, in order |
| Chat.Turns | app/services/chat_service.py:98-99 | the candidates' turns, in order |
| Chat.SimilarOrder | app/services/chat_service.py:97-98 | the positions chosen are valid candidate positions |
| Chat.SimilarTurnsSpec | app/services/chat_service.py:97-99 | at most two, distinct, by non-increasing similarity, none left out more similar |
| Chat.SelectedBounded | app/services/chat_service.py:98-99 | the similar turns are at most two and each within the length limit |
| Chat.WindowSpec | app/services/chat_service.py:56-64 | the window is the last `min(8, n)` messages in order, truncated |
| Chat.OptimizedHistorySpec | app/services/chat_service.py:50-104 | no history gives none; the window comes first; at most two similar turns follow, only when there are older messages and the input was embedded; every text is at most 500 characters |
| Chat.TruncateAll | app/services/chat_service.py:61-64 | the first loop yields the truncated window |
| Chat.CollectCandidates | app/services/chat_service.py:75-94 | the second loop yields the qualifying older messages |
| Chat.AppendSelected | app/services/chat_service.py:98-99 | the third loop appends the selected turns in the selected order |
| Chat.GetOptimizedHistory | app/services/chat_service.py:50-104 | the method computes the optimized history |
| Chat.EstimateTokens | app/services/chat_service.py:240-242 | a quarter of the length, rounded down |
| Chat.FormatCopiesPlainText | app/services/chat_service.py:248 | formatting copies text without braces unchanged |
| Chat.FormatRejectsOtherFields | app/services/chat_service.py:152-172 | a replacement field with another name, such as one in spliced web content, makes formatting raise |
| Chat.PromptTemplateShape | app/services/chat_service.py:152-181 | the template ends with the question, opens with the history line exactly when there is history, and holds the web context between the fixed web wording when it is used |
| Chat.Fitted | app/services/chat_service.py:184-189 | over 6000 estimated tokens the history is cut to its last four entries, otherwise kept |
| Chat.SearchQuery | app/services/chat_service.py:140-142 | the input with " 2025 current latest" appended exactly when its lower-case form contains a keyword |
| Chat.WebContextFor | app/services/chat_service.py:135-149 | no context and no sources when web search is off |
| Chat.WithSources | app/services/chat_service.py:206-208 | the answer is kept in front, and is unchanged without sources |
| Chat.SearchWeb | app/services/chat_service.py:135-149 | the web step's context and sources: the service's reply, or the unavailable text when it raises |
| Chat.ProcessMessage | app/services/chat_service.py:106-238 | a missing chat and an unconfigured model raise; the first message renames the chat, and the new name is reported also when the prompt's formatting raises afterwards; the answer comes from the chosen template and the fitted history, with its sources appended |
| RagSetup.ComputeStatus | app/services/rag_service.py:59-77 | ready exactly when all four setup steps are done |
| RagSetup.NextStep | app/services/rag_service.py:79-105 | the panel exactly for an unknown project, the details page exactly when all steps are done, otherwise the first step not done |
| RagSetup.DetailsIffReady | app/services/rag_service.py:62-105 | the wizard reaches the details page exactly when the status is ready |
| RagSetup.Digits | app/services/rag_service.py:121 | a non-empty decimal digit string |
| RagSetup.IntToString | app/services/rag_service.py:121 | a non-empty text with a minus sign exactly for a negative number |
| RagSetup.DigitsInjective | app/services/rag_service.py:121 | different numbers have different digits |
| RagSetup.IntToStringInjective | app/services/rag_service.py:121 | different integers print differently |
| RagSetup.CollectionNamesDistinct | app/services/rag_service.py:121 | different projects never share a vector store collection |
| RagSetup.CreateVectorDatabase | app/services/rag_service.py:107-124 | an error for an unknown project or no documents, otherwise the store built with the project's settings under `rag_<id>` |
| RagSetup.QueryRag | app/services/rag_service.py:126-161 | an error exactly for an unknown project, otherwise the chain's answer for the project's `rag_<id>` store with reranking of 20 down to 5, the question and the history or an empty one |
| RagSetup.ChatSessions.constructor | app/repositories/database.py:82-100 | the freshly created chat tables: no sessions, no messages, ids starting at 1 |
| RagSetup.ChatSessions.CreateChatSession | app/repositories/rag_repository.py:167-178 | a session under a new id never used before, with the given name and project; the messages are unchanged |
| RagSetup.ChatSessions.History | app/services/rag_service.py:191-192 | a session's messages, none for an unknown session |
| RagSetup.ChatSessions.AddChatMessage | app/services/rag_service.py:171-189 | the exchange is always appended; the session is renamed exactly on its first message for a given project with a model type and model name |
| PromptGeneration.CleanResponse | app/services/prompt_generation_service.py:101-107 | the reply unchanged without a closing think tag, otherwise the stripped text after the first one |
| PromptGeneration.CleanedIsTrimmed | app/services/prompt_generation_service.py:104-106 | a cleaned reply has no blanks at either end |
| PromptGeneration.DefaultPromptEnds | app/services/prompt_generation_service.py:111-127 | the default prompt starts with the base sentence and ends with the guidelines |
| PromptGeneration.DefaultPromptPurpose | app/services/prompt_generation_service.py:113-114 | the purpose clause follows the base exactly when the purpose is non-empty and not the generic one |
| PromptGeneration.DefaultPromptDocs | app/services/prompt_generation_service.py:116-117 | the documentation clause comes next exactly when there are documentation details |
| PromptGeneration.PlainDefaultPrompt | app/services/prompt_generation_service.py:109-127 | without arguments the default prompt is the base sentence and the guidelines |
| PromptGeneration.FromProviderFallback | app/services/prompt_generation_service.py:78-80 | a failed provider call gives the plain default prompt |
| PromptGeneration.FromProviderTrimmed | app/services/prompt_generation_service.py:75-76 | a reply gives a text without blanks at either end, the stripped reply when it has no think tag |
| PromptGeneration.GeneratePrompt | app/services/prompt_generation_service.py:45-56 | Groq and Ollama are asked with the user message; GitHub and any other type get the project's default prompt |
| PromptGeneration.GeneratedPromptForms | app/services/prompt_generation_service.py:47-99 | the template is the project's default prompt, the plain one, or a text without surrounding blanks |
| FileUtils.AllowedFileIff | app/utils/file_utils.py:10-13 | allowed exactly when the text after the last dot, lower-cased, is one of txt, pdf, doc, docx, md |
| FileUtils.ExtensionAfter | app/utils/file_utils.py:13 | the extension is the text after a dot that no other dot follows |
| FileUtils.AllowedFileIgnoresCase | app/utils/file_utils.py:13 | a name and its lower-case form are allowed alike |
| FileUtils.RejectsInnerExtension | app/utils/file_utils.py:13 | only the last extension counts: "a.pdf.exe" is refused |
| FileUtils.AcceptsUpperCase | app/utils/file_utils.py:13 | "Report.PDF" is allowed |
| FileUtils.RejectsNoDot | app/utils/file_utils.py:12 | a name without a dot is refused |
| FileUtils.PathJoin | app/utils/file_utils.py:32 | the joined path ends with the file name |
| FileUtils.SaveUploadedFile | app/utils/file_utils.py:16-41 | an error exactly without a file or a name; otherwise the secured name joined to the directory, and "pdf" exactly when the secured name ends with ".pdf" |
| FileUtils.UpperCasePdfIsText | app/utils/file_utils.py:13-39 | "Report.PDF" passes the allow-list yet is saved as text when the secured name keeps its case |

## Left out

- The numeric engines are oracles: the FAISS HNSW index, the sentence-transformer encoders and the cross-encoder's `predict`. The ANN structure, normalisation, cosine arithmetic and floating point are not modelled.
- The DuckDuckGo engine, the crawl4ai crawler and its URL extraction are oracles, and so are the Groq and Ollama clients, LangChain's chains and loaders, and `secure_filename`. `url_for` becomes the `Step` datatype.
- The SQLite repositories are represented by what they return: the configuration, the history, the project row and its document rows.
- The RAG chat tables are the `ChatSessions` class. Its new ids follow AUTOINCREMENT: each is one more than the last one handed out. The connection does not turn on foreign keys, so a message may name a session that does not exist, and the model allows this too.
- In `ProcessMessage` and `AddChatMessage`, repository writes are modelled only as the returned or stored values. The execution time, the timestamps and the stored message embedding are not modelled.
- The mlflow span in `search` and all logging and printing are telemetry only.
- Async and await are modelled as sequential calls, and the event loop of `search_and_get_context_sync` is not modelled. Its exception text is a parameter of `Chat.ProcessMessage`.
- Exception messages are constants or parameters, not Python's `str(e)`.
- `get_available_models` is a copy of the constant table.
- `model_config` is the derived function `VectorDatabase.ModelConfig`, because it is always set together with the key.
- `update_chunk_configuration`, `get_database_stats`, `get_stored_documents_count` and `clear` of `WebSearch` are one-line forwards to the vector database, which is modelled.
- `create_rag`, `get_rag`, `get_all_rags` and the other pass-throughs to the repository in `rag_service.py` are not modelled. Neither are `create_vectordb`, `load_vectordb`, `get_llm` and `create_retrieval_chain`: the query is given to the single oracle `ask`.
- Exceptions raised by those oracles inside `query_rag` and `create_vector_database` are not modelled.
- The base retriever's three fallback ways of retrieving (`_get_relevant_documents`, `get_relevant_documents`, `invoke`) are merged into the given `initialDocs`.
- `excluded_sites` is stored but never used by the source's queries, so the model only stores it.
- The fixed system instruction text sent to Groq and Ollama is part of the oracles and is not reproduced.
- Creating the upload directory and writing the file are I/O.
- `os.path.join` is modelled for POSIX paths only.
- `TextUtil.Lower` lower-cases ASCII letters only; Python's full Unicode case mapping is not modelled.
- The regular expression's `\s` is modelled by Python's `str.isspace` character set.
- Chunking.ChunkText: requires that the overlap is below the advance (`Progresses`), because the source has no guard and its loop does not end otherwise; the hanging case is not modelled.
- VectorStore.VectorDatabase.AddDocuments: requires `Progresses` of the chunk settings when chunking, for the same reason.
- Chunking.Progresses: a sufficient condition for the loop to advance, not the weakest one.
- VectorStore.VectorDatabase.Search: states the cross-encoder's load only as "unchanged or loaded now", not when exactly it is loaded.
- `rerank_results` promises only some descending top selection, as `np.argsort` has no tie order. The model computes it with the stable sort.
- FAISS's behaviour for a neighbour count of 0 or less is part of the oracle.
- `rerank_documents` sorts `doc_scores` in place. The model computes the same order functionally, by a stable sort of positions.
- Chat.Format: the field grammar is simplified to `{{`, `}}`, `{chat_history}`, `{question}` and anything else raising; format specs and conversions are not modelled.
- Chat.WebContextFor: its own contract covers only the disabled case; `Chat.SearchWeb` ties the method to its whole definition.
- The `WebSearch` constructor is modelled only for known embedding keys, so the source's ValueError for an unknown key is not reached there (`VectorStore.VectorDatabase.Create` models it).
