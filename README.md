# TE-RAG chatbot core, modelled in Dafny

This project models the core of a retrieval-augmented chatbot. The chatbot
answers questions about a data-warehouse catalogue. It has five parts:

- **Ingestion.** A builder turns a fixed catalogue of assets (schemas,
  tables and columns) into documents. Each document's text is the asset's
  rewritten description. Each document gets one embedding from a batched
  embedding call. The catalogue's 27 description texts are a parameter of
  `Ingest.Catalogue`, and the literal texts are one instance of it
  (`Ingest.Data`). So the layout lemmas hold for any description texts.
- **Loading the chat engine.** The loader configures one semantic-search
  tool per vector collection and three canned tools (problem reporting,
  general interaction, chatbot information). A single-selection router
  chooses between them. The router sits inside a condense-question chat
  engine with a 1024-token memory.
- **Retrieval.** Each semantic-search tool uses a hybrid retriever. It asks
  BM25 first and the vector index second. It merges the two result lists,
  keeping the first node seen for each id. An LLM reranker then keeps the
  best 10 of at most 20 candidates.
- **The chat turn.** The user's message is streamed through the chat
  engine. The sources with a truthy score are listed as "Fonte 1", "Fonte 2",
  and so on, and are attached as side elements. Memory receives the user
  message. It also receives the assistant answer, unless the reranker left
  nothing ("Empty Response"); in that case the fixed apology is shown.
- **The step log.** A callback handler mirrors the framework's events as
  UI steps. It starts a step for each tracked event type and finishes it
  when the event ends:
  - it renames retrieval steps to "BM25 Retrieval" or "Vector Retrieval";
  - it names LLM steps after the application's prompt prefixes;
  - it removes the LLM steps no one should see.

Python's semantics are written out where they matter:

- `str.split`, `join`, `capitalize` and `strip`;
- `zip` truncation;
- the first `KeyError` of a comprehension;
- the `ImportError` raised when a module loads;
- the `AttributeError` of a `None` payload or a `None` response;
- the `TypeError` of `None > 1`.

Foreign calls become parameters:

- the retrievers;
- the LLM (`generate`, `streamChat`);
- the embedding model (`embedBatch`);
- the JSON decoder (`decode`, `queryStrOf`).

Where code works by changing state, the model is imperative:

- the merge loop and the embedding loop;
- the row concatenation and the source formatting;
- the session and the callback handler, as classes.

Calls to the UI are recorded as a list of actions.

## Model

| member | source | states |
|---|---|---|
| HybridRetriever.MergeNodes | app/chat_engine/SemanticSearchQE/HybridRetriever.py:17-25 | the merge loop returns exactly `Merge(bm25, vector)`: the nodes of both lists, BM25 first, keeping the first node seen for each id |
| HybridRetriever.MergeProperties | app/chat_engine/SemanticSearchQE/HybridRetriever.py:18-25 | merged ids are unique and are the union of both lists' ids; BM25's deduplicated list is a prefix; a node whose id BM25 returned is BM25's first node with it, otherwise the vector retriever's first; the length is at most the sum, with equality iff no id repeats |
| HybridRetriever.MergeSources | app/chat_engine/SemanticSearchQE/HybridRetriever.py:18-25 | a merged node whose id BM25 returned is BM25's first node with that id; any other merged node is the vector retriever's first node with its id |
| HybridRetriever.DedupFirstOccurrences | app/chat_engine/SemanticSearchQE/HybridRetriever.py:20-23 | every kept node is the input's first node with that id, and kept nodes appear in the order of their first occurrences |
| HybridRetriever.DedupUnique | app/chat_engine/SemanticSearchQE/HybridRetriever.py:20-23 | the kept nodes have pairwise distinct ids, including for ids repeated within one retriever's list |
| HybridRetriever.DedupIds | app/chat_engine/SemanticSearchQE/HybridRetriever.py:20-23 | no id is lost: the kept ids are the input's ids |
| HybridRetriever.DedupLength | app/chat_engine/SemanticSearchQE/HybridRetriever.py:20-23 | deduplication never lengthens the list, and keeps its length iff the ids were already unique |
| HybridRetriever.DedupPrefix | app/chat_engine/SemanticSearchQE/HybridRetriever.py:18-23 | appending nodes never changes the nodes already kept |
| HybridRetriever.FirstIndex | app/chat_engine/SemanticSearchQE/HybridRetriever.py:20-21 | the position of the first node with a given id: it has that id and no earlier node does |
| HybridRetriever.FirstIndexUnique | app/chat_engine/SemanticSearchQE/HybridRetriever.py:20-21 | a position with the id and none earlier is the first index |
| HybridRetriever.FirstIndexAppend | app/chat_engine/SemanticSearchQE/HybridRetriever.py:18-21 | in `a + b`, the first node with an id is found in `a` if `a` has it, otherwise at the length of `a` plus its first index in `b` |
| HybridRetriever.Hybrid.constructor | app/chat_engine/SemanticSearchQE/HybridRetriever.py:7-10 | the retriever keeps the two retrievers it is given and has made no calls |
| HybridRetriever.Hybrid.Retrieve | app/chat_engine/SemanticSearchQE/HybridRetriever.py:12-25 | BM25 is asked with the query string, then the vector retriever with the bundle; the result is the merge of their answers |
| SemanticSearchTool.CapitalizeAll | app/chat_engine/SemanticSearchQE/SemanticSearchQETool.py:83 | each underscore-separated word is capitalized, and the word count is kept |
| SemanticSearchTool.DisplayNameAt | app/chat_engine/SemanticSearchQE/SemanticSearchQETool.py:83 | the display name of a collection key has the key's length: an underscore becomes a space, the first letter of each word is upper case, and the other letters are lower case |
| SemanticSearchTool.Description | app/chat_engine/SemanticSearchQE/SemanticSearchQETool.py:83 | the tool description is the semantic-search template formatted with the display name, which sits between the template's two literal runs |
| SemanticSearchTool.ToolNameInjective | app/chat_engine/SemanticSearchQE/SemanticSearchQETool.py:84 | distinct collection keys give distinct tool names |
| SemanticSearchTool.SemanticToolConfig | app/chat_engine/SemanticSearchQE/SemanticSearchQETool.py:44-85 | the tool is named `semantic_search_<key>` and carries the described engine. The engine has a vector retriever over the key's index and a BM25 retriever over the key's nodes, both with top-k 10 and Italian stemming. It reranks with batch 20 and keeps the top 10. Its synthesizer is compact, streaming and not asynchronous |
| SemanticSearchTool.SemanticToolsSpec | app/chat_engine/SemanticSearchQE/SemanticSearchQETool.py:40-87 | building succeeds iff every collection key has nodes; on success there is one tool per collection, in order; otherwise the error is the `KeyError` of the first key with no nodes |
| SemanticSearchTool.SemanticToolsOkIff | app/chat_engine/SemanticSearchQE/SemanticSearchQETool.py:40-54 | building succeeds iff every collection key has nodes |
| SemanticSearchTool.SemanticToolsErr | app/chat_engine/SemanticSearchQE/SemanticSearchQETool.py:40-54 | a failed build reports the `KeyError` of the first key with no nodes |
| SemanticSearchTool.SemanticToolsErrSticks | app/chat_engine/SemanticSearchQE/SemanticSearchQETool.py:40-54 | once a prefix of the collections fails, the whole loop fails with the same error |
| SemanticSearchTool.SemanticToolNamesDistinct | app/chat_engine/SemanticSearchQE/SemanticSearchQETool.py:42-84 | distinct collection keys give tools with pairwise distinct names |
| SemanticSearchTool.BuildSemanticSearchTools | app/chat_engine/SemanticSearchQE/SemanticSearchQETool.py:40-87 | the building loop returns exactly the tool list specified above, or the first `KeyError` |
| SemanticSearchTool.CandidatesFitOneBatch | app/chat_engine/SemanticSearchQE/SemanticSearchQETool.py:45-70 | two retrievers with top-k 10 give at most 20 merged candidates, which fit one reranking batch; the reranker's top 10 fits that batch |
| Prompts.SemanticSearchTemplateShape | app/common/prompts_templates/PromptTemplates.py:33-39 | the parsed semantic-search template unparses to the source text, and formatting puts the value between its two literal runs |
| CustomQE.CannedStream | app/chat_engine/GeneralInteractionQE/CustomQE.py:20-32 | the problem-reporting and general-interaction engines stream their fixed message one character per token, with no source nodes |
| CustomQE.ChatbotInfoStream | app/chat_engine/GeneralInteractionQE/CustomQE.py:42-47 | the chatbot-information engine streams the model's answer with surrounding whitespace stripped, one character per token, with no source nodes |
| GeneralInteractionTool.CannedTool | app/chat_engine/GeneralInteractionQE/GeneralInteractionQETool.py:11-47 | a canned tool's description is the tool-description entry for its name, and its engine is the canned engine of its kind |
| GeneralInteractionTool.BuildProblemsReportingQueryEngine | app/chat_engine/GeneralInteractionQE/GeneralInteractionQETool.py:11-21 | the problem-reporting tool is the canned tool of that kind |
| GeneralInteractionTool.BuildGeneralInteractionQueryEngine | app/chat_engine/GeneralInteractionQE/GeneralInteractionQETool.py:24-34 | the general-interaction tool is the canned tool of that kind |
| GeneralInteractionTool.BuildChatbotInfoQueryEngine | app/chat_engine/GeneralInteractionQE/GeneralInteractionQETool.py:37-47 | the chatbot-information tool is the canned tool of that kind |
| GeneralInteractionTool.ModuleBuilders | app/chat_engine/GeneralInteractionQE/GeneralInteractionQETool.py:11-47 | the module defines exactly the three canned builders, each building a canned engine; it has no asset-mapping builder |
| GeneralInteractionTool.CannedNamesDistinct | app/chat_engine/GeneralInteractionQE/GeneralInteractionQETool.py:20-46 | the canned tools' names are distinct, none starts with `semantic_search_`, and none is `asset_mapping` |
| ChatEngine.ImportBuilders | app/chat_engine/load_chat_engine.py:22-28 | importing from a module succeeds iff the module defines every name, giving the builders in order; otherwise the error is the `ImportError` of the first undefined name |
| ChatEngine.LoadChatEngineAsWrittenFails | app/chat_engine/load_chat_engine.py:22-28 | as written, loading always fails with the `ImportError` of `build_AssetMappingQueryEngine` |
| ChatEngine.ImportedBuildersResolve | app/chat_engine/load_chat_engine.py:25-27 | without the asset-mapping import, the import resolves to the three canned tools |
| ChatEngine.RouterToolListShape | app/chat_engine/load_chat_engine.py:68-72 | the router's tool list is the semantic tools in collection order followed by the imported builders' tools in import order (as written: asset mapping, problem reporting, general interaction, chatbot information); its length is the sum of both |
| ChatEngine.Values | app/chat_engine/load_chat_engine.py:68 | `.values()` of the semantic tools keeps their count and order |
| ChatEngine.SemanticNameNotCanned | app/chat_engine/load_chat_engine.py:68-72 | no semantic-search tool name equals a canned tool's name |
| ChatEngine.NamesAppend | app/chat_engine/load_chat_engine.py:68-72 | the names of a concatenated tool list are the concatenation of the names |
| ChatEngine.RegistryNamesDistinct | app/chat_engine/load_chat_engine.py:68-72 | distinct semantic tool names followed by the canned names are pairwise distinct, so the router's choices are never ambiguous by name |
| ChatEngine.LoadedTools | app/chat_engine/load_chat_engine.py:57-72 | after a successful build the router's tools are one semantic tool per collection, in collection order, then the three canned tools; there are collections plus three of them and their names are distinct |
| ChatEngine.LoadChatEngineSpec | app/chat_engine/load_chat_engine.py:41-86 | the corrected loader succeeds iff every collection key has nodes, and otherwise fails with the first missing key. On success the router offers one semantic tool per collection followed by the three canned tools, with distinct names. It uses the single-selection prompt. The engine condenses with the condense prompt, has an empty 1024-token memory, streams and is not asynchronous |
| ChatApp.DisplayedSourcesSpec | app/main.py:45 | a source is displayed iff it is among the response's sources and its score is truthy; the count never grows; none is displayed iff no score is truthy |
| ChatApp.DisplayedSourcesAppend | app/main.py:45 | the filter distributes over concatenation, so it keeps the response's order |
| ChatApp.SourceLabels | app/main.py:47-48 | labels are 1-based (the first is "Fonte 1") and distinct positions get distinct labels |
| ChatApp.LabelsUpTo | app/main.py:47 | the reference list has one label per displayed source, label i for position i |
| ChatApp.SourceElements | app/main.py:48-50 | one side element per displayed source |
| ChatApp.SourceElementsSpec | app/main.py:48-50 | element i is labelled "Fonte i+1", shows the formatted source, and is displayed at the side |
| ChatApp.TurnContentSpec | app/main.py:39-52 | the message starts with the streamed answer. It is extended iff some source has a truthy score, and then only by "\n\n Fonti: " and the references |
| ChatApp.TurnMemorySpec | app/main.py:54-60 | the turn keeps the old memory and appends the user message. It appends the assistant message, with exactly the content shown, unless the answer is "Empty Response"; then the shown content is the apology |
| ChatApp.StreamTokens | app/main.py:39-42 | the streaming loop yields the initial response followed by every token in order |
| ChatApp.BuildSourceElements | app/main.py:48-50 | the element-building loop returns exactly the specified elements |
| ChatApp.Session.constructor | app/main.py:24-26 | a new session has none of the query engine, memory and assets keys set |
| ChatApp.Session.StartChat | app/main.py:19-26 | the greeting is the hello message and the loaded engine is the corrected loader's result. On success the session stores that engine, an empty memory and an empty asset list; a failed load raises before any key is set, so the session is untouched |
| ChatApp.Session.HandleMsg | app/main.py:31-63 | without a stored engine the turn raises `AttributeError` and the session is untouched. Otherwise the stored engine is asked with the stored history; memory becomes the turn memory and assets are unchanged. The shown content and the elements of the displayed sources are as specified |
| UserOutput.FormatSource | app/utils/user_output.py:1-12 | the formatting loop returns the metadata lines of the shown keys, in metadata order, followed by the text and score sections |
| UserOutput.MetadataLinesSnoc | app/utils/user_output.py:7-9 | each loop step appends exactly the next item's line |
| UserOutput.MetadataLinesAppend | app/utils/user_output.py:7-9 | the metadata lines of concatenated metadata are the concatenated lines |
| UserOutput.MetadataLineOfItem | app/utils/user_output.py:5-9 | a key in the shown list gives `**Key**: value` and a newline; any other key gives nothing |
| UserOutput.NoShownKeysNoLines | app/utils/user_output.py:5-9 | metadata with no shown key adds no lines |
| UserOutput.ShownLabels | app/utils/user_output.py:5-9 | every shown key is its own label, since the shown keys are already capitalized and have no underscores |
| UserOutput.LabelNoUnderscore | app/utils/user_output.py:9 | a key without underscores is labelled by capitalizing it |
| UserOutput.CapitalizedLabel | app/utils/user_output.py:9 | a capitalized key is its own label |
| UserOutput.CapitalizeFixed | app/utils/user_output.py:9 | capitalizing a word that already starts with a non-lower-case letter, and is lower case after that, changes nothing |
| UserOutput.ShownNamesCapitalized | app/utils/user_output.py:5 | every key in the shown list is capitalized |
| UserOutput.FormatSourceSections | app/utils/user_output.py:10-11 | the formatted source ends with its text and score sections and is never empty, so the "Empty node" fallback never shows |
| ChromaUtils.ParseChromaNodeSpec | app/chat_engine/LoadIndex/chroma_utils.py:4-9 | a record parses iff its metadata has `_node_content` and that decodes. The node keeps the decoded id, metadata and embedding, and takes its text from the stored document. A missing key gives its `KeyError` |
| ChromaUtils.OnlyNodeContentRead | app/chat_engine/LoadIndex/chroma_utils.py:5 | parsing reads no metadata field other than `_node_content` |
| ChromaUtils.Zip | app/chat_engine/LoadIndex/chroma_utils.py:13 | `zip` pairs positions and stops at the shorter list |
| ChromaUtils.ParseAll | app/chat_engine/LoadIndex/chroma_utils.py:13 | the comprehension succeeds iff every record parses, with the nodes in order; otherwise it fails with the first record's error |
| ChromaUtils.GetChromaNodesSpec | app/chat_engine/LoadIndex/chroma_utils.py:11-13 | one node per metadata/document pair up to the shorter list, each with the stored document as text; success iff every such pair parses |
| Ingest.ConcatenateRow | app/ingest.py:291-308 | the successive appends build exactly the seven labelled lines of the row joined by newlines |
| Ingest.AppendLine | app/ingest.py:301-306 | appending a newline, a label and a field to the joined lines joins one more line |
| Ingest.RowTextLines | app/ingest.py:299-306 | for fields without newlines, splitting the rewritten description at newlines gives back the seven labelled lines |
| Ingest.NoNewlineConcat | app/ingest.py:299-306 | a label and a field without newlines make a line without newlines |
| Ingest.PrepareRows | app/ingest.py:285-286 | the row count is kept, each description becomes the rewritten description, and every other column is unchanged |
| Ingest.OtherColumnsKeyList | app/ingest.py:335 | a row's metadata record has the six keys name, kind, schema, schema description, table and table description, in that order |
| Ingest.ColumnsWithoutDescription | app/ingest.py:335 | filtering "descrizione asset" out of the seven columns leaves exactly those six keys, in order |
| Ingest.OtherColumnsKeys | app/ingest.py:335 | a document's metadata holds every column but the description, in column order |
| Ingest.ExcludedEmbedKeysAreColumns | app/ingest.py:327 | the embedding exclusion list is every column, because no column is named "Descrizione" |
| Ingest.BuildDocuments | app/ingest.py:322-338 | one document per row, in order, with the description as text and the other columns as metadata |
| Ingest.DocumentsOfRows | app/ingest.py:285-338 | document i of the prepared catalogue has row i's rewritten description as text and its other columns as metadata. It excludes every column from embedding and nothing from the LLM, and has no embedding yet |
| Ingest.IngestMetadataNotShown | app/ingest.py:333-336 | the catalogue metadata has no key in the UI's shown list, so a retrieved catalogue node is shown as its score and text only |
| Ingest.Texts | app/ingest.py:342 | the text list has one entry per document, in order |
| Ingest.AssignEmbeddings | app/ingest.py:346-348 | the loop succeeds iff the batch has enough embeddings. Document i receives embedding i of those available, and the rest are untouched when the `IndexError` stops the loop |
| Ingest.EmbedDocuments | app/ingest.py:342-348 | with enough embeddings, every document receives the embedding at its position; otherwise `IndexError` |
| Ingest.BuildNodes.constructor | app/ingest.py:23-25 | a new builder holds the prepared catalogue and the collection name "demo" |
| Ingest.BuildNodes.RunBuilder | app/ingest.py:310-348 | the builder embeds the texts of the prepared catalogue's documents in one batch and assigns embedding i to document i. It succeeds iff the batch is long enough |
| Ingest.Catalogue | app/ingest.py:38-282 | the catalogue literal has 27 rows; the descriptions are a parameter, so every lemma below holds for any description texts |
| Ingest.AssetNamesDistinct | app/ingest.py:38-282 | the 27 asset names are pairwise distinct |
| Ingest.CatalogNames | app/ingest.py:38-282 | the catalogue has 27 rows, named in order |
| Ingest.CatalogNamesUnique | app/ingest.py:38-282 | no two catalogue rows share an asset name |
| Ingest.CatalogShapes | app/ingest.py:38-282 | every row is a schema with no parents, a table naming a schema only, or a column naming a schema and a table |
| Ingest.CatalogRoots | app/ingest.py:38-282 | the three schema rows and the three table rows have empty parent fields at and below their own level |
| Ingest.CatalogSchemaColumns | app/ingest.py:38-282 | every row below a schema row repeats that schema's name and description |
| Ingest.CatalogColumnKinds | app/ingest.py:38-282 | every row that is neither a schema nor a table row is a column |
| Ingest.CatalogTableColumns | app/ingest.py:38-282 | every column row repeats its table's name and description |
| Ingest.CatalogSchemaParents | app/ingest.py:38-282 | every schema a row names is a schema row of the catalogue with the description the row repeats |
| Ingest.CatalogTableParents | app/ingest.py:38-282 | every table a row names is a table row of the same schema with the description the row repeats |
| LogHandler.TrackedEvents | app/chat_engine/LogHandler/LogHandler.py:12-100 | six event types start steps (retrieve, reranking, query, synthesize, sub-question, LLM), and reranking is the only one of them not ignored by default |
| LogHandler.ParentIdSpec | app/chat_engine/LogHandler/LogHandler.py:46-54 | a step's parent is the parent event's step if one exists, else the current step, else the root message, else none |
| LogHandler.LlmStepNameIsFirstMatch | app/chat_engine/LogHandler/LogHandler.py:187-196 | the if/elif chain names an LLM step after the first of the four recognised prompt prefixes its prompt starts with, and "LLM Generation" when none matches |
| LogHandler.AppPromptsNamed | app/chat_engine/LogHandler/LogHandler.py:187-196 | condensation and tool-selection prompts get their step names and are not removed |
| LogHandler.ScoresAboveOne | app/chat_engine/LogHandler/LogHandler.py:136 | scores compare iff every node has a score, and then the comparisons are pointwise `score > 1.0` |
| LogHandler.AnySpec | app/chat_engine/LogHandler/LogHandler.py:136 | `any` is true iff some element is true |
| LogHandler.RetrieveStepNameSpec | app/chat_engine/LogHandler/LogHandler.py:136-140 | a retrieval step raises `TypeError` iff some node has no score. If every score is present, the step is "BM25 Retrieval" iff some score exceeds 1 and "Vector Retrieval" otherwise |
| LogHandler.StepSourceLabels | app/chat_engine/LogHandler/LogHandler.py:141 | step source labels are 0-based, "Fonte 0", one per node |
| LogHandler.FormatStepSource | app/chat_engine/LogHandler/LogHandler.py:229-234 | the loop returns every metadata item's line followed by the text section |
| LogHandler.StepSourceTextEnds | app/chat_engine/LogHandler/LogHandler.py:229-234 | a step source ends with its text section and is never empty |
| LogHandler.StepSourceElements | app/chat_engine/LogHandler/LogHandler.py:141-143 | one element per node, labelled by position, showing the formatted source (or "Empty node") with the given display |
| LogHandler.EventNamesKept | app/chat_engine/LogHandler/LogHandler.py:220-223 | a step still named after its event type is never removed |
| LogHandler.FinishStepFrame | app/chat_engine/LogHandler/LogHandler.py:117-224 | whatever the event, a finished step keeps its id, type and parent |
| LogHandler.FinishStepErrors | app/chat_engine/LogHandler/LogHandler.py:117-224 | finishing fails iff a retrieval has an unscored node, a query has no response, an LLM event has a completion without a prompt, or a query, synthesize or sub-question branch that decodes `json.loads(step.input)['query_str']` cannot read it |
| LogHandler.FinishStepErrorKind | app/chat_engine/LogHandler/LogHandler.py:150-175 | a failure is the query_str decoding error exactly when a branch that decodes the step input cannot read its query_str |
| LogHandler.StepOnErrorSpec | app/chat_engine/LogHandler/LogHandler.py:154-160 | an exception leaves the registered step unchanged, except that a failed decode in the query branch with sources leaves the source elements already attached |
| LogHandler.FinishStepRemoval | app/chat_engine/LogHandler/LogHandler.py:117-224 | a step that started with its event's name ends up with a removed name only for an LLM event with a prompt and a completion whose prompt starts like neither the condensation nor the selection prompt |
| LogHandler.FinishStepSpec | app/chat_engine/LogHandler/LogHandler.py:117-224 | finishing keeps the step's id, type and parent. It fails iff a retrieval has an unscored node, a query has no response, an LLM event has a completion without a prompt, or a branch that decodes the step input's query_str cannot read it; only the last raises the decoding error. A step that started with its event's name is removed only for an LLM event with a prompt and a completion, named "LLM Intermediate Answer" or "LLM Generation", and whose prompt starts like neither the condensation nor the selection prompt |
| LogHandler.CallbackHandler.constructor | app/chat_engine/LogHandler/LogHandler.py:32-44 | a new handler has no open steps and has sent nothing |
| LogHandler.CallbackHandler.OnEventStart | app/chat_engine/LogHandler/LogHandler.py:69-115 | an untracked event changes nothing. A tracked event opens a step with the event's name, type and parent. If computing its input raises, the step stays open unsent. Otherwise the step is sent with that input, and the event id is returned |
| LogHandler.CallbackHandler.OnEventEnd | app/chat_engine/LogHandler/LogHandler.py:117-224 | with no payload or no open step, nothing changes. If finishing raises, no action is recorded and the step stays registered, as the exception leaves it. Otherwise the step is closed and exactly one update or removal is recorded, for a step with the event's id and the open step's parent |

## Left out

- Chainlit transport is left out because it is foreign code. This covers message sending, token streaming to the browser, the `AUTHOR` environment variable and the step send/update/remove tasks. The handler records these as actions. `user_session` itself is modelled as the fields of `ChatApp.Session`, where an unset key is None.
- The LLM calls themselves are parameters or constant configuration values, because they are foreign. This covers question condensation, the router's selection, `LLMRerank`'s choice, compact synthesis and `ChatMemoryBuffer` token eviction.
- BM25 scoring, vector search, the Vertex embedding model, Chroma persistence and `index.insert` (app/ingest.py:340-357) are left out. They are foreign or only perform I/O.
- app/chat_engine/LoadIndex/load_vector_indices.py, app/models and app/common/base_logger.py are not part of this model. Their results arrive as parameters: the nodes per collection, the vector indices and the credentials.
- Logging and printing are left out. They do not change results.
- Floating-point formatting is left out. A score is either absent or a real value paired with its printed form, and truthiness means "present and nonzero".
- `custom_print_choice_select_answer_fn` (app/chat_engine/SemanticSearchQE/SemanticSearchQETool.py:16-26) is left out. It only prints, then calls the library's default choice-select parser. With logging left out, the reranker's answer parser is that foreign default, and `RerankConfig` does not record it.
- Chroma entries are assumed to have metadata and a document. A collection entry whose metadata or document is None cannot be represented, since a record is a metadata map paired with a document string.
- The placeholder message that handle_msg sends before it calls the engine (app/main.py:35-36) is Chainlit transport and is left out. So is the empty message sent before the `AttributeError` of a session without an engine.
- JSON decoding is passed in as `decode` and `queryStrOf`, because it is library code. `queryStrOf` returns None when `json.loads(step.input)['query_str']` raises, whether with a `JSONDecodeError` or a `KeyError`; the model does not tell the two apart.
- SemanticSearchTool.DisplayNameAt: case mapping is ASCII only. Python's Unicode case mapping of accented letters is not modelled.
- CustomQE.ChatbotInfoStream: the call to the model is a parameter. The update of `_system_instruction` on the model's global state (CustomQE.py:42-47) is not modelled.
- `SYSTEM_PROMPT_ASSISTANT` and `MAPPING_SEARCH_RESPONSE` are not modelled. Only the model call and the missing asset-mapping tool use them.
- LogHandler.FinishStepSpec: the query branch assumes a response always has at least one selection. The `IndexError` of an empty selection list is not modelled.
- LogHandler.FinishStepErrors: the same assumption about selections applies. An empty selection list is not counted as an error.
- LogHandler.TrackedEvents: the framework's callback manager dispatches events and applies `DEFAULT_IGNORE`. That dispatch is foreign, so the ignore list is stated only as a lemma.
- The step fields that Chainlit serialises are left out: timestamps, `show_input` and language. `Step.input` and `Step.output` are kept as strings.
- Thread-context restoration in the handler's constructor is left out. The context is a given value.
- Ingest's pandas DataFrame is modelled as a sequence of rows in column order. The document text and metadata templates are kept as values and are not rendered.

## Findings

| source | as written | input that shows it | evidently intended | confidence | as-written member | corrected member |
|---|---|---|---|---|---|---|
| app/chat_engine/load_chat_engine.py:24 | imports `build_AssetMappingQueryEngine` from GeneralInteractionQETool.py, which defines no such function, so loading the module raises `ImportError` | none needed: the from-import at load_chat_engine.py:23-28 runs when main.py:4 imports the module, so the application fails at startup, before any chat handler runs; `LoadChatEngineAsWritten(nodes, indices)` is `Err(ImportError("build_AssetMappingQueryEngine"))` for every input | a router without the asset-mapping tool, since main.py:11-15 says asset mapping is not supported | not executed | ChatEngine.LoadChatEngineAsWrittenFails | ChatEngine.LoadChatEngineSpec |
