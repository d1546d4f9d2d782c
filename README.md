# Neuroplex-Agent core, modelled in Dafny

Neuroplex-Agent is a retrieval-augmented question-answering service. A
question goes through a retriever. The retriever recognises entities with a
language model and may rewrite the query (plainly or in the HyDE style). It
then gathers hits from a vector knowledge base, triples from a Neo4j graph and
results from a Tavily web search. Finally it builds the prompt the chat model
answers from. Around this sit:

- the knowledge-base query engine (distance filter, reranking, top_k);
- the knowledge-base facade (databases, file uploads and their status);
- the document processor and the embedding models;
- the OneKE knowledge-extraction helpers;
- the two agent configuration stores;
- the Neo4j connection manager;
- the admin token table of the backend;
- the agent registry with its chatbot and ReAct agents;
- a few engine utilities.

This project models that decision and transformation logic. Each source file
becomes one Dafny module:

| module | file |
|---|---|
| `QueryEngine` | ai_engine/knowledge_database/query_engine.py |
| `CoreRetriever`, `Prompts` | ai_engine/core/retriever.py, ai_engine/utils/prompts.py |
| `Operators` | ai_engine/core/operators.py |
| `DataTransformer` | ai_engine/graph_database/managers/data_transformer.py |
| `History` | ai_engine/core/history.py |
| `OneKE` | ai_engine/tools/oneke.py |
| `Embedding` | ai_engine/models/embedding.py |
| `WebSearch` | ai_engine/utils/web_search.py |
| `DocumentProcessor` | ai_engine/knowledge_database/document_processor.py |
| `KnowledgeBase` | ai_engine/knowledge_database/knowledge_base.py |
| `ConfigsAgent` | ai_engine/configs/agent.py |
| `ConfigItems` | ai_engine/config/__init__.py |
| `ConfigValues` | what the two configuration stores share |
| `ConnectionManager` | ai_engine/graph_database/managers/connection_manager.py |
| `AdminTokens` | backend/routers/admin.py, with the rows of backend/models/token_model.py |
| `AgentRegistry` | ai_engine/agents/registry.py |
| `ChatbotAgent` | ai_engine/agents/chatbot/graph.py, ai_engine/agents/chatbot/configuration.py |
| `Agents` | ai_engine/agents/__init__.py |
| `EngineUtils` | ai_engine/utils/__init__.py |

`Wrappers` (Option and Result), `Py` (the Python built-ins the code relies on)
and `StrFormat` (str.format on parsed templates) are shared helpers.

**Code that changes state keeps its form.** Objects whose methods update
fields are Dafny classes whose methods carry `modifies` clauses:

- the history manager;
- the retriever;
- the status tracker;
- the knowledge base;
- both configuration stores;
- the connection manager;
- the token table;
- the agent manager.

Loops are methods with invariants, each proved against a defining
function. Pure branching code is functions.

Raising an exception is a `Failure` that names the exception and its message.

**Collaborators are parameters, never modelled:**

- the language model;
- the vector store and its collection statistics;
- the file table;
- the Neo4j driver factory and the graph lookup;
- the Tavily client;
- the embedding inference;
- the chunker and the PDF reader;
- the MD5 digest;
- the clock and random draws;
- the process environment;
- the platform tool table.

Each appears as a function parameter or as a value handed in.

## Model

| member | source | states |
|---|---|---|
| QueryEngine.Search | ai_engine/knowledge_database/query_engine.py:42-55 | the hits are the vector store's answer for the query's encoding in that collection with that limit; when the store honours its limit, there are at most `limit` of them |
| QueryEngine.Resolve | ai_engine/knowledge_database/query_engine.py:37-40 | each absent keyword takes its default (distance 0.5, rerank 0.1, max_query_count 20, no top_k) and a given one is used as is |
| QueryEngine.AboveDistance | ai_engine/knowledge_database/query_engine.py:91 | exactly the hits whose distance is strictly above the threshold, each once, in the store's order |
| QueryEngine.TextsOfAbove | ai_engine/knowledge_database/query_engine.py:91-95 | the texts sent to the reranker are exactly the entity texts of the hits above the distance threshold, in the store's order (a filter over the hits, stated independently of the index list) |
| QueryEngine.SortDescStable | ai_engine/knowledge_database/query_engine.py:101 | sorting by rerank score in reverse gives a permutation, non-increasing by score, with ties kept in their earlier order (Python's stable sort) |
| QueryEngine.SortDescPermutes | ai_engine/knowledge_database/query_engine.py:101 | the reverse sort keeps every hit and adds none |
| QueryEngine.KeepAbove | ai_engine/knowledge_database/query_engine.py:102-103 | the comprehension keeps exactly the hits whose rerank score is above the threshold, and keeps a sorted list sorted |
| QueryEngine.CutTopK | ai_engine/knowledge_database/query_engine.py:106-107 | `[:top_k]` under `if top_k:` is a prefix; absent or 0 keeps everything, a positive value bounds the length, a negative one drops that many from the end |
| QueryEngine.AttachFiles | ai_engine/knowledge_database/query_engine.py:82-88 | one fresh dict per hit, in order, with `file` set exactly when the file table returns a truthy record |
| QueryEngine.WriteScores | ai_engine/knowledge_database/query_engine.py:98-99 | the k-th filtered dict gets the k-th score and nothing else in any dict changes |
| QueryEngine.RankedPicksProps | ai_engine/knowledge_database/query_engine.py:101-103 | after sort and filter, the references are ordered by score and are exactly the filtered hits above the rerank threshold |
| QueryEngine.PlainOutcome | ai_engine/knowledge_database/query_engine.py:90-107 | without reranking the results are an order-preserving selection of the hits above the distance threshold, cut by top_k |
| QueryEngine.RankedOutcome | ai_engine/knowledge_database/query_engine.py:94-107 | with reranking every result carries its own score, the results are ordered by score, exceed both thresholds and are cut by top_k |
| QueryEngine.AdvancedQuery | ai_engine/knowledge_database/query_engine.py:57-112 | `all_results` holds one dict per hit; `results` are distinct dicts of it above the distance threshold, plain or reranked as above, and they are exactly the first top_k of that selection (`CutTopK`, all of it when top_k is falsy); the only error is the IndexError of a reranker returning too few scores |
| QueryEngine.RetrieverParams | ai_engine/knowledge_database/query_engine.py:129-134 | the closure's parameters: every key present, with the engine defaults and top_k 10 for absent ones |
| QueryEngine.Retrieve | ai_engine/knowledge_database/query_engine.py:136-138 | the answer is advanced_query's with the create_retriever parameters (top_k 10 unless given), keeping only `results`; so every hit returned is above the distance threshold, and at most 10 come back unless top_k says otherwise |
| Operators.Construct | ai_engine/core/operators.py:20-23 | a subclass without a (non-empty) template raises ValueError naming the class; BaseOperator itself and any class with a template construct |
| Operators.HyDEConstructs | ai_engine/core/operators.py:81-85 | the HyDE operator constructs, since its template is not empty |
| Operators.HydePrompt | ai_engine/core/operators.py:122-125 | the exact prompt text: the HyDE template with the question and the context, or "" for no context |
| Operators.Execute | ai_engine/core/operators.py:110-141 | a blank question raises ValueError, a non-callable handler TypeError, otherwise the handler's reply for the HyDE prompt; a handler AttributeError or KeyError becomes ValueError("Failed to generate HyDE prompt: ...") and any other handler error RuntimeError("HyDE execution failed: ...") |
| Operators.BlankQuestionRefused | ai_engine/core/operators.py:110-111 | an empty or all-whitespace question is refused whatever the handler and context |
| Operators.ExecuteKw | ai_engine/core/operators.py:88-92 | a keyword call missing llm_handler, user_question or related_context raises TypeError; otherwise it is execute |
| Operators.Call | ai_engine/core/operators.py:25-58 | calling an operator binds its keywords first: a missing `llm_handler`, `user_question` or `related_context` is a TypeError; with all three bound, BaseOperator raises NotImplementedError and HyDEOperator gives exactly the result of its execute |
| CoreRetriever.RewriteSpan | ai_engine/core/retriever.py:141-144 | in search mode the request's use_rewrite_query (default "off"), otherwise the global query_mode |
| CoreRetriever.UserContentsAt | ai_engine/core/retriever.py:150 | the k-th content collected is the content of the k-th message whose role is "user": every user message contributes once, in history order, and no other message does |
| CoreRetriever.RewriteQuery | ai_engine/core/retriever.py:136-158 | "off" keeps the query; another mode sends the rewrite prompt and uses the model's answer, its error propagating; "hyde" then answers with the HyDE passage (corrected keyword names, see Findings) |
| CoreRetriever.RewriteQueryAsWritten | ai_engine/core/retriever.py:154-156 | as written, hyde mode fails with TypeError once the rewrite call succeeds; every other mode is as in RewriteQuery |
| CoreRetriever.HydeAsWrittenAlwaysFails | ai_engine/core/retriever.py:155 | whatever the model answers, hyde mode as written fails, while the corrected call returns the model's passage |
| CoreRetriever.RecoEntities | ai_engine/core/retriever.py:160-174 | no entities unless use_graph; otherwise the model's answer split on "<->": rejoining the pieces gives the answer back, and no piece holds the separator |
| CoreRetriever.KbParams | ai_engine/core/retriever.py:111-114 | the request's thresholds and counts, or 0.5, 0.1, 20 and 10 |
| CoreRetriever.QueryKnowledgebase | ai_engine/core/retriever.py:89-120 | without a db_id or with the knowledge base off, the fixed disabled response; otherwise the rewritten query and the engine's results, each above the distance threshold and among all_results, at most top_k of them; a rewrite failure propagates, and the result is exactly what the engine's advanced_query answers for the rewritten query (`KbOutcome`) |
| CoreRetriever.NonEmptyAt | ai_engine/core/retriever.py:80-82 | the entities looked up are exactly the non-empty entities, each once per occurrence, in their order |
| CoreRetriever.GraphRowsSkipsEmpty | ai_engine/core/retriever.py:80-85 | skipping empty entities is the same as looking up only the non-empty ones |
| CoreRetriever.QueryGraph | ai_engine/core/retriever.py:77-86 | without use_graph and enable_kb, the empty graph and no lookup; otherwise exactly the non-empty entities are looked up, in order, and their rows concatenated and formatted; a lookup error propagates |
| CoreRetriever.GraphRowsFailStays | ai_engine/core/retriever.py:80-85 | the first failing lookup decides the outcome of the whole loop |
| CoreRetriever.Headers | ai_engine/core/retriever.py:44-61 | each section header is present exactly when its source has results (for the graph, nodes) |
| CoreRetriever.SectionsHeaders | ai_engine/core/retriever.py:47-61 | the parts alternate header and text, the k-th header at position 2k |
| CoreRetriever.SectionsEmptyIff | ai_engine/core/retriever.py:41-64 | no section contributes exactly when all three sources came back empty |
| CoreRetriever.KbSectionLines | ai_engine/core/retriever.py:44-47 | the knowledge-base section comes first and splits back, on newlines, into exactly one "id: text" line per result, in order, when no id or text holds a newline |
| CoreRetriever.GraphSectionLines | ai_engine/core/retriever.py:50-55 | the graph section follows the knowledge-base one and splits back into exactly one "<source> and <target> are connected by <type>" line per edge, in order, when no name or type holds a newline |
| CoreRetriever.WebSectionLines | ai_engine/core/retriever.py:58-61 | the web section comes after the other two and splits back into exactly one "title: content" line per result, in order, when no title or content holds a newline |
| CoreRetriever.QaPrompt | ai_engine/utils/prompts.py:23-37 | the QA template filled with a context and a question is its literal text around them |
| CoreRetriever.ConstructQuery | ai_engine/core/retriever.py:36-68 | no refs or no contributing section give the query itself; otherwise the QA prompt with the sections joined by blank lines as context (corrected keyword, see Findings) |
| CoreRetriever.ConstructQueryAsWritten | ai_engine/core/retriever.py:66 | as written, any call with a contributing section raises KeyError('context') |
| CoreRetriever.Retriever.constructor | ai_engine/core/retriever.py:11-13 | a retriever starts without a web searcher attribute |
| CoreRetriever.Retriever.LoadModels | ai_engine/core/retriever.py:15-20 | with web search enabled, a WebSearcher is built (failing without an API key); otherwise the attribute is left as it was |
| CoreRetriever.Retriever.Restart | ai_engine/core/retriever.py:32-34 | restart has exactly the effect of loading the models |
| CoreRetriever.Retriever.QueryWeb | ai_engine/core/retriever.py:122-134 | disabled unless the request asks for the web and web search is on (corrected gate, see Findings); no searcher gives the error reply; otherwise up to five results of a basic search |
| CoreRetriever.Retriever.SearchOrError | ai_engine/core/retriever.py:128-134 | a never-set searcher gives "Web search error", otherwise the searcher's five-result reply |
| CoreRetriever.Retriever.QueryWebAsWritten | ai_engine/core/retriever.py:125-126 | as written, the disabled reply comes exactly when use_web is off and web search is on, and a search is tried in every other case |
| CoreRetriever.Retriever.Retrieval | ai_engine/core/retriever.py:22-30 | the corrected composition: refs record the query, history, meta and model name, the recognised entities, and the three sources' replies, each as the rules above say; an error from entity recognition, from query_knowledgebase (`KbOutcome`) or from a graph lookup ends it with that error, in that order (`Assemble`) |
| CoreRetriever.Retriever.Call | ai_engine/core/retriever.py:176-179 | the corrected composition: a retrieval error propagates; otherwise the result is the prompt construct_query builds from the retrieved refs (the query itself when no section contributes) together with those refs |
| CoreRetriever.NewRetriever | ai_engine/core/retriever.py:12-13 | a new retriever exists exactly when web search is off or a searcher can be built, and has the searcher then |
| CoreRetriever.WebGateInverted | ai_engine/core/retriever.py:125 | with web search off the gate as written answers "Web search error" to every request, where the corrected gate says the search is disabled |
| Prompts.TemplateFields | ai_engine/utils/prompts.py:23-87 | the QA, rewrite, NER and HyDE templates name exactly the fields context/query, history/query, text, and context_str/query |
| DataTransformer.FormatQueryResults | ai_engine/graph_database/managers/data_transformer.py:37-76 | the loop with its seen-id sets computes the row-by-row fold `Run` from the empty graph |
| DataTransformer.FormatDistinct | ai_engine/graph_database/managers/data_transformer.py:47-74 | no node id and no edge id occurs twice in the formatted graph |
| DataTransformer.FormatFirstOccurrence | ai_engine/graph_database/managers/data_transformer.py:49-74 | the node ids are the truthy ids of the rows' first and third elements in first-occurrence order, the edge ids those of the second elements, matching an independent de-duplication |
| DataTransformer.FormatSourced | ai_engine/graph_database/managers/data_transformer.py:52-73 | every node and edge comes from one input row, with ids, names and type taken from that row (defaults "unknown") |
| DataTransformer.FormatSelfConcat | ai_engine/graph_database/managers/data_transformer.py:49-74 | formatting a list followed by itself gives the same graph as formatting it once |
| DataTransformer.FormatEmpty | ai_engine/graph_database/managers/data_transformer.py:46 | no rows give {"nodes": [], "edges": []} |
| DataTransformer.FormatSkipsShortRow | ai_engine/graph_database/managers/data_transformer.py:50-51 | a row of fewer than three elements changes nothing wherever it occurs |
| DataTransformer.RunAppend | ai_engine/graph_database/managers/data_transformer.py:49 | the loop over a concatenation is the loop over the second list started from the result of the first |
| DataTransformer.Blank | ai_engine/graph_database/managers/data_transformer.py:29-32 | an element with a properties dict gets `embedding` set to None and keeps every other property; one without is untouched |
| DataTransformer.CleanEmbeddings | ai_engine/graph_database/managers/data_transformer.py:17-34 | the same list comes back with positions 0 and 2 of every row blanked; a row shorter than three stops the loop with IndexError, rows before it cleaned and the rest untouched |
| WebSearch.New | ai_engine/utils/web_search.py:8-13 | construction succeeds exactly when TAVILY_API_KEY is set and non-empty, otherwise ValueError with the source's message |
| WebSearch.Shape | ai_engine/utils/web_search.py:50-55 | each kept result has its title, content and url or "" and its score or 0 |
| WebSearch.Search | ai_engine/utils/web_search.py:15-61 | the client's arguments are passed on; a client error gives []; otherwise the shaped results[:max_results]: exactly max_results of them when that many came back, all of them for a larger max_results, and for a negative max_results all but the last -max_results, as Python slicing gives |
| WebSearch.LinesFromShape | ai_engine/utils/web_search.py:77-80 | three lines per result: its 1-based number and title, its indented content, and its source URL followed by a newline |
| WebSearch.FormatSearchResults | ai_engine/utils/web_search.py:63-82 | no results give the fixed "No related web search results found."; otherwise the header and the result lines joined by newlines |
| History.HistoryManager.constructor | ai_engine/core/history.py:8-12 | a non-empty history list is kept (the same object) and a falsy one replaced by a new list; one system message is appended, the given prompt or else the time prompt |
| History.HistoryManager.Add | ai_engine/core/history.py:14-17 | appends exactly one role/content message and returns the manager's own list |
| History.HistoryManager.AddUser | ai_engine/core/history.py:19-21 | appends one "user" message |
| History.HistoryManager.AddSystem | ai_engine/core/history.py:23-24 | appends one "system" message |
| History.HistoryManager.AddAi | ai_engine/core/history.py:26-28 | appends one "assistant" message |
| History.HistoryManager.UpdateAi | ai_engine/core/history.py:30-37 | an empty history raises IndexError; a last assistant message gets the new content and nothing else changes; otherwise an assistant message is appended |
| History.HistoryManager.HistoryWithMsg | ai_engine/core/history.py:39-47 | the history is not changed; the copy ends with the new message and holds all messages (None or 0 rounds) or the last 2*max_rounds (a negative count drops that many from the front) |
| History.HistoryManager.ToString | ai_engine/core/history.py:49-54 | the loop builds the rendering `Render` of the messages |
| History.RenderJoin | ai_engine/core/history.py:50-53 | the rendering is "" followed by one role/content line per message, joined by newlines |
| History.StrOneLinePerMessage | ai_engine/core/history.py:52-53 | when no role holds a newline, splitting the rendering on newlines gives back "" and exactly one line per message; newlines in content never break a line |
| OneKE.PreparePrompts | ai_engine/tools/oneke.py:72-96 | one instruction per schema batch, in order, each with the template of `{op}_{lang}` and the same source text; a missing batch limit or template raises KeyError (the template only once there is a batch) |
| OneKE.UnbatchedOnePrompt | ai_engine/tools/oneke.py:82-83 | without batching the schema is one batch, whole |
| OneKE.DefaultLangHasNoTemplate | ai_engine/tools/oneke.py:23-30 | no template exists for the default language "zh", whatever the operation |
| OneKE.ListBatches | ai_engine/tools/oneke.py:75-81 | a list schema is cut into non-empty consecutive slices of at most the operation's limit whose concatenation is the schema |
| OneKE.DictBatches | ai_engine/tools/oneke.py:76-79 | a dict schema's keys are cut in order into sub-dicts of at most the limit, whose members together are the dict again, values unchanged |
| OneKE.StreamTextChunks | ai_engine/tools/oneke.py:168-187 | the read loop over a file yields exactly the windows of the cleaned text that `ChunkSpec` describes |
| OneKE.ChunkShape | ai_engine/tools/oneke.py:185-187 | every chunk but the last has exactly chunk_length characters, none is empty, and each starts with the last overlap_buffer characters of the one before |
| OneKE.ChunkGlue | ai_engine/tools/oneke.py:176-187 | gluing the chunks back without their overlaps gives the cleaned text: nothing is lost, including the final rest |
| OneKE.ChunkChars | ai_engine/tools/oneke.py:186 | every character of a chunk comes from the cleaned text |
| OneKE.ChunksHaveNoLineBreaks | ai_engine/tools/oneke.py:181 | no chunk holds "\n" or "\r", and a text of line breaks only yields nothing |
| OneKE.Clean | ai_engine/tools/oneke.py:181 | the cleaned text holds no "\n" and no "\r" |
| OneKE.CleanAppend | ai_engine/tools/oneke.py:181-182 | cleaning read by read is cleaning the whole text |
| OneKE.PropertyTriples | ai_engine/tools/oneke.py:203-216 | one triple per list element or scalar value, each headed by the entity id and named by a property of that entity |
| OneKE.ConvertOutput | ai_engine/tools/oneke.py:189-240 | the nested loops compute the item-by-item fold `Convert` |
| OneKE.ConvertFailStays | ai_engine/tools/oneke.py:189-240 | an uncaught exception (a pair without subject or object) ends the whole conversion |
| OneKE.SkippedItemIsolated | ai_engine/tools/oneke.py:196-232 | an item that is not brace-delimited after strip, or does not decode, adds nothing and does not change how the others are converted |
| OneKE.ConvertConcat | ai_engine/tools/oneke.py:193-238 | items are converted independently: converting a + b is converting a, then b |
| OneKE.MiningOnePerPair | ai_engine/tools/oneke.py:218-226 | in relationship_mining mode each well-formed pair gives one triple, in order, with its subject, object and the category as r |
| OneKE.SynthesisCount | ai_engine/tools/oneke.py:199-216 | in knowledge_synthesis mode an entity list whose property sets are all dicts gives one triple per scalar value and per list element |
| Embedding.StatusTracker.constructor | ai_engine/models/embedding.py:18 | the shared status tracker starts empty |
| Embedding.BatchVectorize | ai_engine/models/embedding.py:104-141 | the result is vectorize over the consecutive segments of at most batch_limit items, in order, its first error propagating; a zero limit raises ValueError and a negative one gives []; a tracker entry under the items' hash is written only for more items than the limit, and ends "completed" with progress len(items) |
| Embedding.BatchingTransparent | ai_engine/models/embedding.py:130-135 | for a vectorizer that maps each text on its own, batching changes nothing: the vectors of the concatenated segments in order |
| Embedding.BatchVectorizeTransparent | ai_engine/models/embedding.py:130-141 | for such a vectorizer, batch_vectorize with any positive limit gives one vector per item, in order, and [] for no items |
| Embedding.BatchLengths | ai_engine/models/embedding.py:133-135 | a vectorizer that returns one vector per text gives one vector per item overall |
| Embedding.GetDimension | ai_engine/models/embedding.py:20-38 | the dimension attribute first, then the full-name lookup (its missing key a KeyError), then the model lookup, which subscripts a string by a string and so always raises TypeError (AttributeError without a config), else None |
| Embedding.BuiltModelsKnowDimension | ai_engine/models/embedding.py:31-32 | a model with the dimension attribute reports exactly it |
| Embedding.InitializeEmbedding | ai_engine/models/embedding.py:450-464 | None when the knowledge base is disabled; a name without '/' raises ValueError, an unsupported one AssertionError; otherwise the class named by the text before the first '/' (local, ollama, or other) |
| Embedding.ProviderByPrefix | ai_engine/models/embedding.py:453-464 | two supported names with the same provider prefix get the same model class |
| Embedding.ResolveLocalModelPath | ai_engine/models/embedding.py:467-479 | the registered path of the name, or the fallback when it has none |
| DocumentProcessor.ValidateByExtension | ai_engine/knowledge_database/document_processor.py:99-111 | a path is supported exactly when the lowercased text after its last '.' is pdf, txt, md or docx |
| DocumentProcessor.ValidateUpperCaseExtension | ai_engine/knowledge_database/document_processor.py:110 | the extension is compared lowercased: "Report.PDF" is supported |
| DocumentProcessor.ValidateOnlyLastExtension | ai_engine/knowledge_database/document_processor.py:110 | only the last extension counts: "a.md.gz" is not supported |
| DocumentProcessor.Record | ai_engine/knowledge_database/document_processor.py:52-82 | each record holds its id, the basename, the path, the lowercased extension and the time; it is "waiting" with the chunked nodes exactly when reading (for a pdf) and chunking succeed, and otherwise "failed" with no nodes and the exception's `str(e)` as its error |
| DocumentProcessor.RecordNodes | ai_engine/knowledge_database/document_processor.py:56-60 | a waiting record holds what the chunker returned, for a pdf from the text read out of the file first |
| DocumentProcessor.ProcessFiles | ai_engine/knowledge_database/document_processor.py:28-84 | the loop builds the dict `Records`, one assignment per file |
| DocumentProcessor.OneRecordPerFile | ai_engine/knowledge_database/document_processor.py:51-82 | with distinct file ids, one record per input file, in input order, under its own id |
| DocumentProcessor.RecordsDistinct | ai_engine/knowledge_database/document_processor.py:62-73 | whatever the ids, the result is a dict: no id is listed twice |
| DocumentProcessor.ProcessUrl | ai_engine/knowledge_database/document_processor.py:86-97 | always raises NotImplementedError with the source's message |
| KnowledgeBase.FindDb | ai_engine/knowledge_database/knowledge_base.py:208-209 | a database is found exactly when a registered row has that id, and it is that row |
| KnowledgeBase.Initialize | ai_engine/knowledge_database/knowledge_base.py:84-98 | fails exactly when the knowledge base is on and the vector store does not connect, with ConnectionError("Failed to connect to Milvus") |
| KnowledgeBase.DimensionOr | ai_engine/knowledge_database/knowledge_base.py:117 | a given non-zero dimension is kept; None or 0 falls back to the embedding model's |
| KnowledgeBase.StoredRows | ai_engine/knowledge_database/knowledge_base.py:219-241 | every processed file ends with its own row and its own outcome, whatever happened to the others |
| KnowledgeBase.StoredOthers | ai_engine/knowledge_database/knowledge_base.py:219-241 | the file table gains exactly the processed ids, and files outside the batch keep their rows |
| KnowledgeBase.StatusWritesPairs | ai_engine/knowledge_database/knowledge_base.py:221-241 | each file's status is written twice, "processing" and then "done" or "failed", file after file |
| KnowledgeBase.CompatibleDbs | ai_engine/knowledge_database/knowledge_base.py:321-332 | an entry exists exactly for each compatible registered database, built from its own row |
| KnowledgeBase.RetrieversCompatible | ai_engine/knowledge_database/knowledge_base.py:321-332 | with distinct database ids the retriever dict is the compatible databases in registration order |
| KnowledgeBase.KnowledgeBase.constructor | ai_engine/knowledge_database/knowledge_base.py:39-62 | the facade's components: it holds the given databases and files and has written no status yet |
| KnowledgeBase.NewKnowledgeBase | ai_engine/knowledge_database/knowledge_base.py:39-98 | KnowledgeBase() succeeds exactly when the knowledge base is off or the vector store connects, and otherwise raises ConnectionError("Failed to connect to Milvus"); on success it holds the given databases and files |
| KnowledgeBase.KnowledgeBase.CreateDatabase | ai_engine/knowledge_database/knowledge_base.py:104-131 | the row "kb_" + salted hash, with the model name and the resolved dimension, is registered before the collection is created, and stays when creating the collection raises |
| KnowledgeBase.KnowledgeBase.AddFiles | ai_engine/knowledge_database/knowledge_base.py:190-241 | an unknown database gives "Database not found" and a model mismatch a failed "Model mismatch: ..." status, neither touching a file; otherwise each processed file is stored as `Stored` and `StatusWrites` say |
| KnowledgeBase.KnowledgeBase.StoreFile | ai_engine/knowledge_database/knowledge_base.py:220-241 | one file's row is added, then set to "done" or "failed", with exactly those two status writes |
| KnowledgeBase.KnowledgeBase.GetDatabases | ai_engine/knowledge_database/knowledge_base.py:133-164 | an AssertionError with the knowledge base off; otherwise one entry per registered database, in order, with its statistics or the Disconnected fallback |
| KnowledgeBase.KnowledgeBase.GetDatabaseInfo | ai_engine/knowledge_database/knowledge_base.py:365-391 | None exactly for an unknown id; otherwise that database with its statistics or the Disconnected fallback |
| KnowledgeBase.KnowledgeBase.GetRetrievers | ai_engine/knowledge_database/knowledge_base.py:314-332 | the loop builds the compatible-database dict `Retrievers` |
| KnowledgeBase.ListedAgreesWithDetailed | ai_engine/knowledge_database/knowledge_base.py:151-160 | get_databases and get_database_info (lines 381-390 of the same file) agree: the same statistics, or the same fallback with row_count 0, status "Disconnected" and the error's text |
| ConfigsAgent.Key | ai_engine/configs/agent.py:31-32 | None and "" normalise to the same key "", and every other key is itself |
| ConfigsAgent.Updated | ai_engine/configs/agent.py:59-61 | update keeps every existing key, and the key of the last pair holds that pair's value |
| ConfigsAgent.UpdatedDomain | ai_engine/configs/agent.py:59-61 | update adds exactly the normalised keys of the other dict, and keys it does not name keep their values |
| ConfigsAgent.UpdatedLastWins | ai_engine/configs/agent.py:59-61 | a key takes the value of the last pair that normalises to it (None and "" collide) |
| ConfigsAgent.AgentConfig.constructor | ai_engine/configs/agent.py:65-95 | the entries are exactly the nine attributes with the twelve item defaults written over them (`AttributeEntries` + `FlagDefaults` + `ModelDefaults`), the store holds exactly the twelve defaults and the metadata exactly the twelve items with their descriptions and choices |
| ConfigsAgent.WorkspaceOverridden | ai_engine/configs/agent.py:71-84 | after construction the workspace entry is the item default "workspace", not the attribute "saves" |
| ConfigsAgent.EmbedModelOverridden | ai_engine/configs/agent.py:76-91 | after construction embed_model is the item default "ollama/bge-m3", not the attribute {} |
| ConfigsAgent.PathsKept | ai_engine/configs/agent.py:72-95 | the three path attributes, which no item names, keep the values the constructor gave them |
| ConfigsAgent.StoreMatchesItems | ai_engine/configs/agent.py:84-108 | the initial store has exactly the items' keys, each holding that item's default |
| ConfigsAgent.AgentConfig.SetAttributes | ai_engine/configs/agent.py:71-81 | the entries become the old entries with the nine plain attributes assigned in order: workspace "saves", the three paths, empty models, embed_model and rankers dicts, provider "siliconflow" and the default model; store and items are unchanged |
| ConfigsAgent.AgentConfig.AddItems | ai_engine/configs/agent.py:84-95 | the entries and the store gain exactly the twelve defaults and the metadata exactly the twelve items, written over whatever was there |
| ConfigsAgent.AgentConfig.AddFlagItems | ai_engine/configs/agent.py:84-89 | the new entries, store defaults and metadata are the old ones with the six workspace, feature-flag and provider items written over them in order, so earlier attributes such as config_path stay |
| ConfigsAgent.AgentConfig.AddModelItems | ai_engine/configs/agent.py:90-95 | the new entries, store defaults and metadata are the old ones with the six model, embedding, ranker, path, query-mode and device items written over them in order, so the earlier items stay |
| ConfigsAgent.AgentConfig.GetItem | ai_engine/configs/agent.py:50-51 | self[key] reads the key normalised as `__key` (lines 31-32) does and gives None when it is absent |
| ConfigsAgent.AgentConfig.Get | ai_engine/configs/agent.py:110-118 | get looks the key up as given, so a None key gives the default and never the "" entry |
| ConfigsAgent.AgentConfig.GetAttr | ai_engine/configs/agent.py:44-48 | a public name reads its entry (None when absent); the two internal stores are attributes; any other underscore name raises AttributeError |
| ConfigsAgent.AgentConfig.SetItem | ai_engine/configs/agent.py:53-54 | self[key] = value writes the normalised key and reads back as value, leaving the stores alone |
| ConfigsAgent.AgentConfig.SetAttr | ai_engine/configs/agent.py:37-42 | a public name becomes an entry; an underscore name never touches the entries |
| ConfigsAgent.AgentConfig.Exported | ai_engine/configs/agent.py:129-138 | __dict__ holds exactly the entries whose keys are not in the blocklist, with their values |
| ConfigsAgent.AgentConfig.Update | ai_engine/configs/agent.py:59-61 | the entries become the pairwise fold of __setitem__ over the other dict |
| ConfigsAgent.AgentConfig.AddItem | ai_engine/configs/agent.py:97-108 | the store gets the default, the metadata gets default, description and choices, and the entry gets the default |
| ConfigsAgent.AgentConfig.Set | ai_engine/configs/agent.py:120-127 | the entry and the store's default both become the value, creating the store item when missing; get and self[key] then give the value |
| ConfigsAgent.AgentConfig.CompareCustomModels | ai_engine/configs/agent.py:166-175 | an error building the stored-key table leaves the list alone; otherwise each model up to the first unhashable custom_id gets its stored key back when it carries the mock key, the rest are untouched, and an unhashable id raises TypeError |
| ConfigValues.Iterate | ai_engine/configs/agent.py:168-169 | iteration gives a list's elements, a string's one-character strings and a dict's keys, in order, and raises for every other value |
| ConfigValues.Subscript | ai_engine/configs/agent.py:168 | model["custom_id"] succeeds exactly on a dict holding the key, with KeyError otherwise |
| ConfigValues.CurrentKeysStep | ai_engine/configs/agent.py:168 | the stored-key table of a list is the table of its prefix with the last model's id set |
| ConfigValues.CurrentKeysDistinct | ai_engine/configs/agent.py:168 | the table's custom_ids are distinct |
| ConfigValues.CurrentKeysIds | ai_engine/configs/agent.py:168 | every stored model is a dict whose custom_id is in the table |
| ConfigValues.CurrentKeysLast | ai_engine/configs/agent.py:168 | the last stored model with a given custom_id gives the table its key for that id |
| ConfigValues.Preserve | ai_engine/configs/agent.py:169-174 | a model changes only when its custom_id is known and its key is the mock key, and then only its api_key, which becomes the stored key |
| ConfigValues.PreserveIdempotent | ai_engine/configs/agent.py:169-174 | restoring keys twice changes nothing more than once, when no stored key is itself the mock key |
| ConfigValues.FirstUnhashable | ai_engine/configs/agent.py:170-172 | the first model whose custom_id cannot be looked up in the table; every model before it can be |
| ConfigValues.ModelList.constructor | ai_engine/configs/agent.py:166 | the list object holds the given models |
| ConfigValues.RestoreKeys | ai_engine/configs/agent.py:169-175 | the loop rewrites in place each model before the first unhashable id, leaves the rest, and then raises TypeError or returns the same list |
| ConfigItems.Lookup | ai_engine/config/__init__.py:56-58 | get gives the item's default when the key is present and the fallback otherwise |
| ConfigItems.SetItems | ai_engine/config/__init__.py:60-65 | set keeps an existing item's description and choices, creates a default-only item for a new key, and changes no other key |
| ConfigItems.Saved | ai_engine/config/__init__.py:90 | the saved mapping has exactly the item keys, each mapped to its default |
| ConfigItems.AgentConfig.SavedMapping | ai_engine/config/__init__.py:86-90 | the mapping save writes has exactly the item keys, each with what get gives for it |
| ConfigItems.SetThenGet | ai_engine/config/__init__.py:56-65 | after set, get returns the value whatever the fallback, other keys read as before, and the mapping save writes (line 90) changes at that key only |
| ConfigItems.SetTwice | ai_engine/config/__init__.py:60-65 | setting a key twice is the same as setting it the second time alone |
| ConfigItems.AgentConfig.constructor | ai_engine/config/__init__.py:25-46 | workspace is "saves"; config_path, model_path and private_path are the given paths when non-empty and None otherwise; the three model tables are empty; the items are exactly those the twelve add_item calls make from an empty table |
| ConfigItems.InitialItems | ai_engine/config/__init__.py:35-46 | in the initial items workspace defaults to "workspace", enable_graph to False and query_mode to "off", and the provider item carries its five choices |
| ConfigItems.FlagItems | ai_engine/config/__init__.py:35-40 | the six add_item calls add exactly the workspace, flag and provider keys, workspace defaults to "workspace", every flag to False, the provider item carries its five choices, and other keys keep their items |
| ConfigItems.AgentConfig.AddFlagItems | ai_engine/config/__init__.py:35-40 | the items become FlagItems of the old items and the plain attributes stay |
| ConfigItems.ModelItems | ai_engine/config/__init__.py:41-46 | the six add_item calls add exactly the model, embedding, ranker, path, query-mode and device keys, query_mode defaults to "off" with its three choices, embed_model to "ollama/bge-m3", and other keys keep their items |
| ConfigItems.AgentConfig.AddModelItems | ai_engine/config/__init__.py:41-46 | the items become ModelItems of the old items and the plain attributes stay |
| ConfigItems.AgentConfig.AddItem | ai_engine/config/__init__.py:48-54 | add_item replaces the item outright with default, description and choices |
| ConfigItems.AgentConfig.Get | ai_engine/config/__init__.py:56-58 | get gives the item's default for a present key and the fallback for an absent one |
| ConfigItems.AgentConfig.Set | ai_engine/config/__init__.py:60-65 | the items become the set fold, and get then gives the value |
| ConfigItems.AgentConfig.CompareCustomModels | ai_engine/config/__init__.py:93-102 | the same key-restoring rule over the item store's custom_models default |
| ConnectionManager.Neo4jConnectionManager.constructor | ai_engine/graph_database/managers/connection_manager.py:22-33 | closed, without a driver, on the configured database, and satisfying the driver-iff-open invariant |
| ConnectionManager.Neo4jConnectionManager.ConnectedIffDriver | ai_engine/graph_database/managers/connection_manager.py:68-75 | under the invariant, being connected is having a driver and is the status being "open" |
| ConnectionManager.Neo4jConnectionManager.Connect | ai_engine/graph_database/managers/connection_manager.py:35-56 | an existing driver is kept; otherwise a driver for "<uri>/<db>" opens the connection, and a factory failure closes it and raises Neo4jConnectionError with the cause; the invariant is kept |
| ConnectionManager.Neo4jConnectionManager.Disconnect | ai_engine/graph_database/managers/connection_manager.py:58-66 | a driver is dropped and the status closed; nothing changes without one; afterwards it is not connected |
| ConnectionManager.Neo4jConnectionManager.GetSession | ai_engine/graph_database/managers/connection_manager.py:77-90 | a connected manager gives a session on its driver; otherwise it connects first and gives a session on the new driver or the connect error; the "not connected" error is unreachable under the invariant |
| ConnectionManager.Neo4jConnectionManager.UseDatabase | ai_engine/graph_database/managers/connection_manager.py:119-134 | the database name becomes the given one; a different name, or not being connected, reconnects on "<uri>/<name>"; the same name while connected changes nothing |
| AdminTokens.AlphabetIsAlnum | backend/routers/admin.py:41 | the alphabet has 62 characters, exactly the ASCII letters and digits |
| AdminTokens.GenerateToken | backend/routers/admin.py:39-42 | a token has the requested length and only letters and digits |
| AdminTokens.GenerateTokenReaches | backend/routers/admin.py:39-42 | a character can appear at a given position exactly when it is a letter or digit |
| AdminTokens.NextId | backend/models/token_model.py:11 | the autoincrement id is positive and above every existing id |
| AdminTokens.WithAgent | backend/routers/admin.py:51-53 | the agent filter keeps exactly that agent's rows |
| AdminTokens.WithAgentAt | backend/routers/admin.py:51-53 | the filtered rows are the rows at that agent's positions (`AgentPositions`, strictly increasing and complete): each matching row once, in rowid order, and no other |
| AdminTokens.Listed | backend/routers/admin.py:50-54 | a non-empty agent id gives that agent's rows, each once and in rowid order; None or "" lists every row |
| AdminTokens.WithAgentTokensDistinct | backend/routers/admin.py:50-54 | one agent's rows keep the token column unique |
| AdminTokens.FirstWithId | backend/routers/admin.py:79 | the lookup finds a row exactly when some row has the id, and it is such a row |
| AdminTokens.WithoutId | backend/routers/admin.py:83-84 | deleting keeps exactly the rows with other ids |
| AdminTokens.FirstMatch | backend/routers/admin.py:94-97 | the lookup finds a row exactly when some row has both the agent id and the token |
| AdminTokens.Verify | backend/routers/admin.py:94-100 | verification succeeds exactly when some row carries both the agent id and the token, and otherwise fails with 401 "Invalid token" |
| AdminTokens.DeleteThenVerifyFails | backend/routers/admin.py:79-100 | once a token's row is deleted, that token no longer verifies |
| AdminTokens.TokenTable.constructor | backend/models/token_model.py:7-15 | a new table is empty and valid |
| AdminTokens.TokenTable.List | backend/routers/admin.py:44-54 | GET /admin/tokens lists the agent's rows, each once and in rowid order, or every row without a non-empty agent id |
| AdminTokens.TokenTable.Create | backend/routers/admin.py:56-74 | a row with the next id and a fresh 32-character token is appended; a token already in the table raises the unique-column IntegrityError and leaves the table alone; the new token verifies |
| AdminTokens.TokenTable.Delete | backend/routers/admin.py:76-86 | an unknown id gives 404 "Token not found" and leaves the table; a known id removes exactly its row |
| AdminTokens.TokenTable.VerifyToken | backend/routers/admin.py:88-100 | verification on the current table, with 401 when no row matches |
| AdminTokens.WithoutIdIncreasing | backend/routers/admin.py:83-84 | deleting keeps the remaining rows in rowid order |
| AdminTokens.WithoutIdDistinct | backend/routers/admin.py:83-84 | deleting keeps the token column unique |
| AgentRegistry.FirstUnexpected | ai_engine/agents/registry.py:26-39 | none exactly when every keyword is an accepted field name; otherwise a given keyword that is not accepted |
| AgentRegistry.FirstUnmet | ai_engine/agents/registry.py:26-39 | none exactly when every required __init__ field of the keyword-only dataclass is given; otherwise the name of the first such field, in declaration order, that is not given |
| AgentRegistry.Instantiate | ai_engine/agents/registry.py:26-39 | a keyword-only dataclass call succeeds exactly when all keywords are accepted and every required field is given; a given field takes the given value and every other its default |
| AgentRegistry.Configurable | ai_engine/agents/registry.py:37 | no config or an empty one gives the empty dict |
| AgentRegistry.Keep | ai_engine/agents/registry.py:38-39 | keeps exactly the keys that are accepted field names |
| AgentRegistry.FromRunnableConfig | ai_engine/agents/registry.py:32-39 | no config behaves as cls(); a TypeError can only come from a required field |
| AgentRegistry.KeepGet | ai_engine/agents/registry.py:39 | keeping the accepted keys keeps their values |
| AgentRegistry.FromRunnableConfigValues | ai_engine/agents/registry.py:32-39 | every __init__ field named in the configurable section takes that value, and every other field its default |
| AgentRegistry.ToDict | ai_engine/agents/registry.py:41-64 | the one loop over the fields builds the schema that SchemaOf defines |
| AgentRegistry.SchemaKeys | ai_engine/agents/registry.py:47-62 | to_dict shows exactly the __init__ fields that are not hidden, and describes exactly those of them that are configurable |
| AgentRegistry.SchemaItem | ai_engine/agents/registry.py:55-62 | with distinct field names, each configurable shown field is described by its type, name (falling back to the field name), options, default and description |
| AgentRegistry.GetInfo | ai_engine/agents/registry.py:81-89 | the class's name, description and schema, with [] for missing requirements or tools; a schema error propagates |
| AgentRegistry.CheckRequirements | ai_engine/agents/registry.py:91-96 | succeeds exactly when every requirement is set, and otherwise raises ValueError naming the first missing one |
| ChatbotAgent.ToolNames | ai_engine/agents/chatbot/graph.py:37 | a name is chosen exactly when it is a platform tool and requested, and never more names than the platform has |
| ChatbotAgent.RequestedAt | ai_engine/agents/chatbot/graph.py:37 | the positions, strictly increasing, of exactly the platform names that are requested |
| ChatbotAgent.ToolNamesAt | ai_engine/agents/chatbot/graph.py:37 | the chosen names are the platform names at those positions: a subsequence in the platform's order that keeps every requested platform name and no other |
| ChatbotAgent.GetTools | ai_engine/agents/chatbot/graph.py:25-39 | None, a non-list or an empty list give no tools; otherwise the k-th tool is the platform's tool under the k-th chosen name |
| ChatbotAgent.ToolNamesDistinct | ai_engine/agents/chatbot/graph.py:37 | no tool is chosen twice, however often it is requested |
| ChatbotAgent.ToolNamesBySet | ai_engine/agents/chatbot/graph.py:37 | the choice depends only on which names are requested, not on order or repetition |
| ChatbotAgent.ToolNamesAll | ai_engine/agents/chatbot/graph.py:37 | requesting every platform name chooses all of them, in the platform's order |
| Agents.RegisteredRequirements | ai_engine/agents/chatbot/graph.py:19 | the chatbot needs exactly both API keys; the ReAct agent needs nothing |
| Agents.AgentManager.constructor | ai_engine/agents/__init__.py:11-12 | a new manager has no agents |
| Agents.AgentManager.AddAgent | ai_engine/agents/__init__.py:14-18 | registers or replaces one id, which then resolves to the class, and no other id changes |
| Agents.AgentManager.GetAgent | ai_engine/agents/__init__.py:27-31 | a registered id gives its class; any other raises KeyError |
| Agents.AgentManager.GetRunnableAgent | ai_engine/agents/__init__.py:20-25 | succeeds exactly when the id is registered and its requirements are met, with an instance of that class; an unknown id raises KeyError and unmet requirements ValueError |
| Agents.DefaultManager | ai_engine/agents/__init__.py:34-36 | the module-level manager holds exactly "chatbot" and "react" |
| EngineUtils.DockerSafeUrl | ai_engine/utils/__init__.py:33-39 | outside Docker the URL is unchanged |
| EngineUtils.DockerSafeUrlKeepsRemote | ai_engine/utils/__init__.py:33-39 | a URL naming neither local address is unchanged, in Docker too |
| EngineUtils.DockerSafeUrlRewritesLocal | ai_engine/utils/__init__.py:34-37 | in Docker, a leading local address is replaced by the Docker host and the rest is kept |
| EngineUtils.HasTextIff | ai_engine/utils/__init__.py:17 | a page has text exactly when some character of it is not whitespace |
| EngineUtils.TextPages | ai_engine/utils/__init__.py:13-18 | the number of pages with text never exceeds the number of pages |
| EngineUtils.CountAppend | ai_engine/utils/__init__.py:13-18 | counting pages with text over two runs adds up |
| EngineUtils.CountAll | ai_engine/utils/__init__.py:13-18 | the count equals the length exactly when every page has text |
| EngineUtils.CountNone | ai_engine/utils/__init__.py:13-18 | the count is zero exactly when no page has text |
| EngineUtils.TextPdfCases | ai_engine/utils/__init__.py:20-21 | all pages with text make a text PDF when there are any pages; none do not; exactly half do not |
| EngineUtils.IsTextPdf | ai_engine/utils/__init__.py:6-21 | false without pages, otherwise whether more than half the pages have text |
| EngineUtils.Hashstr | ai_engine/utils/__init__.py:23-30 | hexadecimal digits forming a prefix of the digest of the (salted) input, with Python slice lengths for every length, negative included |
| EngineUtils.HashstrDefault | ai_engine/utils/__init__.py:23-30 | the default is the first 8 digits of the unsalted digest |

## Left out

- Network and storage services are represented only by the parameters that stand for them. Their internals are not modelled: Milvus, the Ollama and HTTP embedding APIs, the OpenAI chat clients, the Tavily client and Neo4j Cypher.
- SQLAlchemy persistence is held as in-memory sequences and maps. SQLite gives a new row the largest id plus one. `query.all()` returns rows in rowid order. The unique token column raises IntegrityError.
- File I/O is not modelled: configuration `load`/`save` file handling, `_update_models_from_file` and `handle_self`, kb2sqlite, and the metadata files.
- Knowledge-base file system work is not modelled: `delete_database`, `_ensure_db_folders`, `get_db_upload_path`, and the internals of inserting into the vector store.
- Model loading and generation are not modelled (OneKE's `execute_knowledge_extraction`, `transform_text_to_knowledge_graph` and model loading, FlagEmbedding and transformers), because they are machine-learning library calls.
- The reranker's initialisation in `_load_models` (ai_engine/core/retriever.py:16-17) and its float sigmoid are left out. Rerank scores are `real` values handed in, and they are only compared.
- Concurrency is not modelled: the `avectorize` wrappers, `run_inference`, thread pools and `run_in_executor`.
- HTTP plumbing is not modelled: FastAPI validation and routing, streaming, agent `get_graph`/`llm_call`/`stream_*` graph building, and `create_database`'s Cypher.
- Side effects with no effect on state are left out: logging and `driver.close()`.
- `query_classification` always raises NotImplementedError. It is not on any path the model takes and is not modelled.
- CoreRetriever.QueryGraph: the graph lookup is one function parameter taking the entity. The source passes the entity name as the `num` argument of `get_sample_nodes` (ai_engine/core/retriever.py:83), so what the store returns for it is left to that parameter.
- DataTransformer.CleanEmbeddings: node objects shared between rows are treated as separate values, so aliasing between rows is not modelled.
- ConfigValues.RestoreKeys: the entries of the list are held as dict values. A dict object shared with other lists, including the stored custom_models, is not modelled as shared.
- EngineUtils.DockerSafeUrlRewritesLocal: "every occurrence is replaced" is proved only for a URL that starts with a local address and holds no other one. Several occurrences are covered by the definition through `Py.Replace`, but no lemma states them.
- CoreRetriever.Retriever.Retrieval and CoreRetriever.Retriever.Call compose the corrected members of the Findings table (RewriteQuery, QueryWeb, ConstructQuery). The pipeline as written is stated only piece by piece, by the as-written members, and no lemma states the whole of it.
- Collaborators that cannot fail in the model: the query engine's `encode`, `searchVectors`, `getFile` and `rerankScores`, the knowledge base's `compatible` and `modelName` return plain values. An exception raised inside Milvus search, the query encoding, the file lookup, the reranker or the model compatibility check is assumed away. The collaborators whose failures the source handles or propagates on a modelled path return a Result: the chat model, the graph lookup, the Tavily client, the batch vectorizer, `read_text`, the chunker, `insert` and `collectionInfo`.
- ConfigsAgent.AgentConfig: the entries are a `map`, so the insertion order of the dict is not kept. `__dict__`, `str()` and anything exported from them list the same entries, but the model does not fix their order.
- DocumentProcessor.Record: `created_at` is `time.time()`, a float. The model takes the time as an `int` handed in, since it is only stored.
- ConfigsAgent.AgentConfig.GetAttr: Python calls `__getattr__` only after the normal attribute lookup fails. A name that AgentConfig, BaseConfig or dict defines (`add_item`, `get`, `set`, `save`, `items`, `keys`, ...) gives that attribute, not an entry. The model covers only the names these classes do not define.
- ConfigsAgent.AgentConfig.SetAttr: an underscore name is set on the object itself (line 40). The model records only that the entries do not change. It keeps no attributes other than the two internal stores, so a later GetAttr of such a name gives AttributeError where Python gives the stored value.
- CoreRetriever.ListRepr: each content is written between single quotes as it is. Python's repr escapes backslashes and quotes, and switches to double quotes for a string that holds a single quote but no double quote.
- Py.Lower: only ASCII letters are lowered. Python's str.lower also lowers the other Unicode letters.
- AgentRegistry.ToDict: the "configurable_items" entry is kept apart from the shown fields. Python writes it last into the same dict, so a shown field of that name is overwritten. The model does not capture that collision.
- AgentRegistry.Instantiate: the TypeError message names the first missing argument only. Python lists all of them.
- Embedding.GetDimension: the per-model `.get("dimension", None)` is held as an optional dimension per full name. A full name missing from `embed_model_names` raises KeyError. The lookup by `model` subscripts the configured embed_model string by a string, so it always raises TypeError("string indices must be integers"). The model does not cover a configuration whose embed_model is a dict.
- KnowledgeBase.KnowledgeBase.AddFiles: file ids and creation times are handed in, one of each per file, in place of the hash and the clock.
- Py.Strip and the other whitespace helpers treat only space, tab, newline, carriage return, vertical tab and form feed as whitespace. Python's `str.strip()` also strips \x1c-\x1f, \x85 and the other Unicode whitespace characters, which the model keeps.
- EngineUtils.IsTextPdf: the float division `text_pages / total_pages > 0.5` is modelled exactly, as `2 * text_pages > total_pages`.
- Agents: the ReAct agent's schema is taken as the base Configuration, which has no fields, because ReActAgent sets no config_schema.

## Findings

| source | as written | input that shows it | evidently intended | confidence | as-written member | corrected member |
|---|---|---|---|---|---|---|
| ai_engine/core/retriever.py:66 | construct_query formats the QA template with `external=`, but the template's field is `{context}` (ai_engine/utils/prompts.py:23-37) | refs whose knowledge-base, graph or web section contributes text: the call raises KeyError('context') | fill the `{context}` field with the joined sections | not executed | CoreRetriever.ConstructQueryAsWritten | CoreRetriever.ConstructQuery |
| ai_engine/core/retriever.py:155 | the HyDE operator is called with model_callable / query / context_str, but execute takes llm_handler / user_question / related_context (ai_engine/core/operators.py:88-92) | query_mode "hyde" with a successful rewrite: the call raises TypeError | pass the handler, the original query and the context under execute's own names | not executed | CoreRetriever.RewriteQueryAsWritten | CoreRetriever.RewriteQuery |
| ai_engine/core/retriever.py:125 | the gate `not (use_web or not enable_websearch)` answers "disabled" only when web search is on and the request does not ask for it | enable_websearch false: no searcher exists and every request gets "Web search error" | the disabled reply unless use_web and enable_websearch both hold | not executed | CoreRetriever.Retriever.QueryWebAsWritten | CoreRetriever.Retriever.QueryWeb |
