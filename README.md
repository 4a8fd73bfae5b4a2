# RAG assistant core, modelled in Dafny

This project models the deterministic logic of a retrieval-augmented chat
assistant, and proves properties of that logic. The assistant is built on
llama_index, a Qdrant vector store, Gemini LLMs and a Gradio front end. Every
call into an LLM, a retriever, a tokenizer, a splitter or a serialiser is an
oracle: a function-typed parameter or field, or an object in `Services` that
logs the requests it gets (`queries`, `prompts`, `calls`). That log lets a
contract say that something was asked once, or never.

The modules, in the order the data flows:

- `Json` decodes JSON texts the way CPython's `json.loads` does. Text is a
  value with optional whitespace around it (section 2 of RFC 8259); the
  module covers arrays (section 5), objects (section 4), numbers (section 6),
  strings and their escapes (section 7), and the `NaN`/`Infinity`
  extensions. It also has a compact serialiser for arrays of strings, and
  proves the round trip for it.
- `JsonExtractor` models `extract_json_array`. It decodes the span from the
  first `[` to the last `]`, and the result must be an array.
- `Relevance` holds the relevance filter that both front ends share. It builds
  the `"id": """text"""` candidate listing and the id → text map, and turns
  the filter LLM's reply into either no context (`False`) or the `"\n\n"`
  join of the named texts.
- `ChatWorkflow` is the workflow front end. Its first step checks the
  arguments, stores them and emits the context. Its second step answers
  through the custom chat engine, over the user's `user_<id>` history.
- `ClassicRag` is the class front end. It has the relevance check, the
  per-user engine cache and `query`, which either apologises or asks the
  user's engine.
- `CustomChatEngine` models `CustomSimpleChatEngine.achat`. It covers the
  initial token count, the wrapped question, the messages sent and the two
  memory appends.
- `ContextEngine` models `CustomContextChatEngine`. It runs the
  postprocessor pipeline, returns no answer when there are no nodes, and
  otherwise answers and appends to memory.
- `Registry` is the chat-engine registry: one cached engine per user id.
- `QdrantStore` models `parse_to_query_result` of the dual-schema vector
  store. It covers metadata filtering and merging, the choice of text source
  and the similarity list.
- `MdChunker` models `hybrid_hierarchical_chunking`, which keeps short
  sections and splits and re-prefixes long ones.
- `AuthApp` models the Gradio app's account table, its register and login
  actions, and the chat handler's guest id.
- Shared modules:
  - `PyStr` holds the Python string operations that are used: `find`,
    `rfind`, `join`, `strip`, `isspace` and `str(int)`.
  - `Schema` holds nodes, messages and prompts.
  - `Services` holds the oracle objects.
  - `Wrappers` holds `Option` and `Result`.
  - `Seqs` holds generic facts about sequences and maps.

Where the source has state, the model has a class. The account table, the
engine caches, the chat store, the step context and the oracles' request logs
are all classes. The loops of the source are `while` loops proved against
specification functions: the candidate listing, the postprocessor pipeline,
the metadata loop, the points loop and the chunking loop.

One modelling note concerns `CustomSimpleChatEngine.achat`. The fallback in
`m.content or ""` never changes a value that passed the
`isinstance(m.content, str)` filter: a `None` content has already been
dropped, and a string content, even `""`, is kept as it is. The model
therefore skips missing contents and keeps the others unchanged.

## Model

| member | source | states |
|---|---|---|
| JsonExtractor.ExtractJsonArray | helpers/json_extractor.py:4-16 | fails with "No JSON array found" exactly when no `[` stands before some `]`; it never fails with "JSON is not a list" |
| JsonExtractor.SpanBounds | helpers/json_extractor.py:5-7 | when some `[` stands before some `]`, the first `[` stands before the last `]`, so the guard lets the text through |
| JsonExtractor.SplitAtSpan | helpers/json_extractor.py:5-10 | such a text is a prefix without `[`, then a span that starts with `[` and ends with `]`, then a suffix without `]` |
| JsonExtractor.ExtractReadsSpan | helpers/json_extractor.py:5-14 | with no `[` before the span and no `]` after it, the result is what decoding the span alone gives |
| JsonExtractor.BracketSpanPadded | helpers/json_extractor.py:5-8 | bracket-free text on both sides neither creates nor removes a `[`…`]` span |
| JsonExtractor.ExtractIgnoresPadding | helpers/json_extractor.py:5-16 | bracket-free text on both sides of a reply does not change the result, error or array |
| JsonExtractor.SpacePaddingIgnored | helpers/json_extractor.py:5-16 | whitespace on both sides of a reply does not change the result |
| JsonExtractor.StripKeepsExtraction | core/src/rag/rag_workflow.py:130 | stripping the reply before extracting does not change the result |
| JsonExtractor.ExtractRoundTrip | helpers/json_extractor.py:5-16 | the serialisation of an array of strings, with bracket-free prose around it, is extracted as exactly those strings |
| JsonExtractor.ExtractExample | helpers/json_extractor.py:5-16 | `Sure, here you go: ["a","c"] Hope that helps!` gives the strings `a` and `c` |
| JsonExtractor.ExtractSpacedExample | helpers/json_extractor.py:5-16 | a reply with the spaced array `["n3", "n5"]` that `json.dumps` writes gives the strings `n3` and `n5` |
| JsonExtractor.TrailingTextFails | helpers/json_extractor.py:11 | a decoded value followed by anything but whitespace is not one JSON text |
| JsonExtractor.TwoArraysFail | helpers/json_extractor.py:5-11 | a reply holding two serialised arrays fails with a decode error, whatever stands between them |
| JsonExtractor.TwoNumberArraysFail | helpers/json_extractor.py:5-11 | the reply `[1] x [2]` fails with a decode error, because the span is the whole reply |
| JsonExtractor.OneArrayThenText | helpers/json_extractor.py:11 | a text starting `[1] x` does not decode |
| Json.ParseValue | helpers/json_extractor.py:11 | a decoded value ends after it starts, and its first character decides whether it is an array, a string or an object |
| Json.Loads | helpers/json_extractor.py:11-14 | a text that starts with `[` can only decode to an array |
| Json.SpacedPairParses | helpers/json_extractor.py:11 | any array of two two-character strings with a blank after the comma loads to those two strings |
| Json.SpacedPairLoads | helpers/json_extractor.py:11 | `["n3", "n5"]`, with the blank `json.dumps` puts after the comma, loads to the strings `n3` and `n5` |
| Json.QuoteRoundTrip | helpers/json_extractor.py:11 | a quoted, escaped string wherever it stands in a text decodes to that string, and ends right after its closing quote |
| Json.ControlEscapeRoundTrip | helpers/json_extractor.py:11 | the `\u00XX` escape of a control character reads back as that character's code |
| Json.DumpsParsesAt | helpers/json_extractor.py:11 | the serialisation of an array of strings decodes wherever it stands in a text, to that array, ending right after it |
| Json.DumpsRoundTrip | helpers/json_extractor.py:11 | decoding the serialisation of an array of strings gives the array back |
| Json.DumpsBrackets | helpers/json_extractor.py:5-6 | a serialised array starts with `[` and ends with `]` |
| PyStr.Find | helpers/json_extractor.py:5 | `find`: the first index of the character, or -1 exactly when it is absent |
| PyStr.RFind | helpers/json_extractor.py:6 | `rfind`: the last index of the character, or -1 exactly when it is absent |
| PyStr.Strip | core/src/rag/rag_workflow.py:130 | `strip`: the middle of the text between two all-whitespace ends, neither starting nor ending with whitespace |
| PyStr.JoinSnoc | core/src/rag/rag_workflow.py:141-143 | joining one more part adds exactly one separator and that part at the end |
| PyStr.NatToStringRoundTrip | helpers/qdrant_setup.py:31 | `str` of an integer id reads back as that integer |
| Relevance.BuildCandidateListing | core/src/rag/rag_workflow.py:110-116 | the loop builds exactly the entries `"id": """text"""`, in node order, joined by newlines |
| Relevance.ListingEmpty | core/src/rag/rag_workflow.py:110-116 | zero nodes give the empty listing |
| Relevance.ListingSnoc | core/src/rag/rag_workflow.py:111-116 | one more node adds a newline and its entry at the end |
| Relevance.ListingEnd | core/src/rag/rag_workflow.py:112-113 | a non-empty listing ends with the last entry's closing quotes, not with a newline |
| Relevance.IdMapKeys | core/src/rag/rag_workflow.py:128 | the id map's keys are exactly the ids of the retrieved nodes |
| Relevance.IdMapLastWins | core/src/rag/rag_workflow.py:128 | an id maps to the text of the last node that carries it |
| Relevance.LookupTexts | core/src/rag/rag_workflow.py:141-143 | the lookup succeeds exactly when every id is a string key of the map, and then gives the texts in id order; otherwise it gives the fault of the first id that fails |
| Relevance.KnownIdsContext | core/src/rag/rag_workflow.py:132-145 | decoded ids that were all retrieved give no context when there are none, and otherwise the `"\n\n"` join of their texts in reply order, repeats kept |
| Relevance.UnknownIdContext | core/src/rag/rag_workflow.py:141-143 | the first decoded id that was not retrieved raises a `KeyError` on it |
| Relevance.ReplyReadsIds | core/src/rag/rag_workflow.py:130 | a reply holding a serialised id array, with bracket-free text around it, is read as those ids |
| Relevance.ReplyNamesNodes | core/src/rag_workflow.py:133-148 | such a reply naming retrieved ids gives `False` for no ids, and otherwise the `"\n\n"` join of their texts in reply order |
| Relevance.ReplyUnknownId | core/src/rag_workflow.py:135-147 | such a reply whose k-th id is the first not retrieved raises a `KeyError` on that id |
| ChatWorkflow.RagChatWorkflow.IsRetrievalRelevant | core/src/rag/rag_workflow.py:84-145 | with a missing or falsy argument, or no router retriever: no event, nothing stored, no retrieval, no LLM call. Otherwise: query, name and id stored; one retrieval; no context if it raised; else one filter prompt over the listing, and the event is what the reply gives (a fault escapes) |
| ChatWorkflow.MemoryKeysDistinct | core/src/rag/rag_workflow.py:163 | different users have different store keys |
| ChatWorkflow.RagChatWorkflow.Synthesize | core/src/rag/rag_workflow.py:149-174 | whatever the context, even `False`: the chat LLM gets one call with the system prompt, that user's history window and the wrapped stored question; only that user's history changes, gaining the raw question and then the reply; the result is the reply's text |
| ClassicRag.RagSystem.IsRetrievalRelevant | core/src/rag_workflow.py:104-148 | one retrieval; no context when it raised, and then no LLM call; otherwise one filter prompt over the listing, and the result is what the reply gives |
| ClassicRag.RagSystem.GetOrCreateChatEngine | core/src/rag_workflow.py:151-171 | a hit returns the cached engine and leaves the cache unchanged; a miss stores a fresh engine (fresh memory, test session id, 2000 tokens) under the id and returns it |
| ClassicRag.RagSystem.AskEngine | core/src/rag_workflow.py:188-191 | the user's engine, cached or new, is sent the prompt once, no other engine is sent anything, and its answer is returned |
| ClassicRag.RagSystem.Answer | core/src/rag_workflow.py:179-191 | a falsy context gives the apology and creates or uses no engine; a truthy one sends the answer prompt to the user's engine and returns its response |
| ClassicRag.RagSystem.Query | core/src/rag_workflow.py:174-191 | one retrieval; one filter prompt over the listing when the retrieval succeeded and none when it raised; then the answer the relevance check allows; a fault of the check escapes and no engine is created or used |
| CustomChatEngine.TextContents | core/src/rag/custom_chat_engine.py:26-32 | never more contents than messages; when every message has content, exactly those contents, in order |
| CustomChatEngine.TextContentsAppend | core/src/rag/custom_chat_engine.py:26-32 | the filter keeps order: the contents of two lists one after the other are the first list's contents followed by the second's |
| CustomChatEngine.TextContentsSnoc | core/src/rag/custom_chat_engine.py:26-32 | one more message adds its content when it has one and nothing otherwise, so a message without content is skipped and the others are kept in order |
| CustomChatEngine.QueryNamesUser | core/src/rag/custom_chat_engine.py:38-39 | the wrapped question contains `User's name: ` and the name |
| CustomChatEngine.QueryHoldsQuestion | core/src/rag/custom_chat_engine.py:38-40 | the wrapped question contains `Question: ` and the question |
| CustomChatEngine.QueryCarriesContext | core/src/rag/custom_chat_engine.py:42 | with a truthy context, the wrapped question contains `<context>`, a newline and the context |
| CustomChatEngine.QueryWithoutContext | core/src/rag/custom_chat_engine.py:38-43 | with a falsy context the paragraph is empty: the name line and the question line, then a blank line, an empty indented line and the closing indentation |
| CustomChatEngine.SentOrder | core/src/rag/custom_chat_engine.py:47-49 | the messages sent are the prefix, then the memory window read after the initial token count, then the wrapped question, last |
| CustomChatEngine.CustomSimpleChatEngine.AChat | core/src/rag/custom_chat_engine.py:13-57 | a given history first replaces the memory; the LLM is called once with the sent messages; the history gains the raw question and then the reply, and nothing else; the response is `str` of the reply's content |
| ContextEngine.PipelineAppend | core/src/chat_engine.py:18-21 | running two lists of postprocessors one after the other is running their concatenation |
| ContextEngine.PipelineFirst | core/src/chat_engine.py:18-21 | the first postprocessor sees the retrieved nodes |
| ContextEngine.CustomContextChatEngine.AGetNodes | core/src/chat_engine.py:13-23 | one retrieval; an empty one is returned with no postprocessor run; otherwise every postprocessor runs once, in order, each on the previous output |
| ContextEngine.CustomContextChatEngine.AChat | core/src/chat_engine.py:26-66 | a given history replaces the memory; no nodes means no response and nothing appended; otherwise the synthesizer answers from the nodes, the memory gains the message then the answer, and the response carries the answer, one retriever tool output and exactly those nodes |
| Registry.ChatEngineRegistry.constructor | core/src/chat_engine_registry.py:12-14 | the registry starts with an empty cache |
| Registry.ChatEngineRegistry.GetOrCreateChatEngine | core/src/chat_engine_registry.py:16-37 | a hit returns the cached engine, cache unchanged; a miss caches and returns a fresh engine with the workflow prompt, the test session id and the token limit; afterwards the cache maps the id to the returned engine and no other entry changes |
| Registry.ChatEngineRegistry.GetTwice | core/src/chat_engine_registry.py:19-21 | two calls in a row for one id return the very same engine |
| QdrantStore.ParseToQueryResult | helpers/qdrant_setup.py:15-133 | one node, one id and one similarity per point, in response order; the node is the point's node, the id is `str(point.id)` and the node's id, the similarity is the point's score (`None` when it has none) |
| QdrantStore.PointToNode | helpers/qdrant_setup.py:30-111 | the loop body gives the point's node and its id string, which is the node's id |
| QdrantStore.IntIdsDistinct | helpers/qdrant_setup.py:31 | different integer point ids give different node ids |
| QdrantStore.ExtractMetadata | helpers/qdrant_setup.py:44-53 | the metadata loop builds the payload's metadata, item by item |
| QdrantStore.MetadataKeys | helpers/qdrant_setup.py:47-53 | a key is in the metadata exactly when it is a payload key that is not one of the seven reserved keys, or a key of a `_node_metadata` dict |
| QdrantStore.MetadataValue | helpers/qdrant_setup.py:47-50 | without a `_node_metadata` dict, a key that is not reserved keeps its payload value |
| QdrantStore.UpdateKeys | helpers/qdrant_setup.py:53 | `update` adds exactly the dict's keys |
| QdrantStore.UpdateValue | helpers/qdrant_setup.py:53 | after `update`, a key of the dict holds the dict's value for it, and any other key keeps its old value or stays absent |
| QdrantStore.MetadataMergedLast | helpers/qdrant_setup.py:47-53 | a `_node_metadata` dict item is not copied itself but merged, with `update`, into the metadata built so far |
| QdrantStore.MetadataPlainLast | helpers/qdrant_setup.py:47-50 | an item that is not reserved sets its key to its value in the metadata built so far |
| QdrantStore.MergedOverridesItem | helpers/qdrant_setup.py:47-53 | a `_node_metadata` dict after a payload item with the same key overrides that item's value |
| QdrantStore.ItemOverridesMerged | helpers/qdrant_setup.py:47-53 | a payload item after a `_node_metadata` dict overrides the value merged from the dict |
| QdrantStore.Get | helpers/qdrant_setup.py:61 | `get` finds nothing exactly when no item carries the key; otherwise it finds the value of the last item with that key, as a dict built from the items holds it |
| QdrantStore.TableText | helpers/qdrant_setup.py:64-75 | a table point's text is the dump of truthy table data, and `""` otherwise |
| QdrantStore.PointUsesSummary | helpers/qdrant_setup.py:61-80 | a point whose `doc_type` is missing (read as `"point"`) or anything but `"table"` has its usable summary as its text |
| QdrantStore.UnusableSummaryFallsBack | helpers/qdrant_setup.py:80-85 | a missing, falsy or whitespace-only summary gives way to `str` of `_node_content` |
| QdrantStore.WhitespaceSummaryIsUnusable | helpers/qdrant_setup.py:83 | a whitespace-only summary is unusable |
| QdrantStore.NoTextIsNone | helpers/qdrant_setup.py:85-95 | with neither summary nor node content the text is the string `None` |
| QdrantStore.Present | helpers/qdrant_setup.py:125 | filtering never lengthens the list, and a score is in the result exactly when it is a present score of the input |
| QdrantStore.PresentAppend | helpers/qdrant_setup.py:125 | the filter keeps order: filtering two lists one after the other is filtering the first, then the second |
| QdrantStore.PresentSnoc | helpers/qdrant_setup.py:125 | one more score is kept at the end when present and dropped when missing |
| QdrantStore.PresentAll | helpers/qdrant_setup.py:125-133 | filtering loses nothing exactly when every score is present, and then changes nothing, so the chosen list is always the points' scores |
| MdChunker.HybridHierarchicalChunking | etl/md_chunker.py:32-59 | the loop's output is the sections' outputs, section by section |
| MdChunker.ChunkedAppend | etl/md_chunker.py:34-57 | the output follows section order: chunking a concatenation concatenates the outputs |
| MdChunker.ShortSectionKept | etl/md_chunker.py:36-38 | a section shorter than 500 characters is emitted unchanged, with no prefix |
| MdChunker.LongSectionSplit | etl/md_chunker.py:41-57 | a section of 500 characters or more becomes its splitter chunks in order, each with the section's metadata and `Context: <header path>\nContent: ` before its text |
| MdChunker.MissingHeaderPath | etl/md_chunker.py:54-55 | without a header path the prefix is the two labels alone |
| AuthApp.AccountTable.constructor | core/src/ui/app.py:7 | the table starts with the two built-in accounts |
| AuthApp.AccountTable.Register | core/src/ui/app.py:29-35 | an empty field gets the warning and an existing name gets the error, table unchanged; otherwise the table gains exactly the new account, and logging in with it succeeds |
| AuthApp.AccountTable.Login | core/src/ui/app.py:37-46 | the app shows exactly when the stored password matches (a missing user never matches); on success auth hides and the user is set, on failure auth shows, the status is the error and the user is `""` |
| AuthApp.ActiveId | core/src/ui/app.py:17 | the id is the name, or `guest_user` when the name is empty, and never empty |
| AuthApp.GuestTurnNotReady | core/src/ui/app.py:17-25 | as written a guest turn never passes the first step's guard, because the empty name is passed on |
| AuthApp.GuestTurnReady | core/src/ui/app.py:17-25 | with the fallback applied to the name too, a guest turn with a question passes the guard whenever there is a router retriever |

## Left out

- LLM completions and chats, the router retriever and its selector, the response synthesizer, the semantic splitter, the tokenizer and the memory's history window are oracles. They are function-typed fields or parameters, or objects in `Services` that log their requests. The memory's token-bounded trimming is the `window` function, not an algorithm.
- `json.dumps` of table data and Python's `str`/`repr` of non-string values are uninterpreted functions (`dumps`, `repr`). The `TypeError` fallback to `str` at helpers/qdrant_setup.py:71-73 is not modelled.
- The metadata `except` fallback (helpers/qdrant_setup.py:56-58) and the failure of `TextNode` construction (helpers/qdrant_setup.py:120-121) are not modelled. Construction is taken to succeed.
- Similarity scores and embeddings are opaque `real` values, passed through untouched.
- The Redis client, pool and chat store setup (`redis_chat_store_init`) is network I/O. The chat store is an in-memory map of histories.
- `async`/`await`, tracing, callbacks and logging calls are left out. The model is sequential.
- The workflow runtime is not modelled: routing events between steps, `run`, and `str` of its result in `chat_handler`. The steps are methods, and `chat_handler` is reduced to the start event it builds.
- Prompt templates are opaque: a formatted prompt is the template's name with its fields, in order.
- `ToolOutput.content = str(nodes)` (core/src/chat_engine.py:60) is not modelled. The tool output keeps its name, the raw input message and the raw output nodes.
- The Markdown parser and the reader (etl/md_chunker.py:62 on) are left out. Their output, the base sections, is the input.
- The Gradio layout and launch are UI plumbing and are left out.
- Python dicts are ordered item lists where order matters (the Qdrant payload, JSON objects). Duplicate JSON object keys are kept as they stand.
- Json.Loads: lone surrogate escapes are refused, because a Dafny `char` is a Unicode scalar value, whereas Python accepts them. Numbers are kept as their lexeme, since no arithmetic is done on them apart from the truthiness test below.
- Json.Truthy: a number is falsy exactly when every digit of its mantissa is `0`. A nonzero lexeme whose value underflows to `0.0` as a double, such as `1e-400`, counts as truthy in the model, while Python's `float` makes it falsy. So a `summary` or `table_data` of that kind (helpers/qdrant_setup.py:66-67 and 80-85) is used by the model where the source falls back. Double rounding is not modelled.
- Json.DumpsRoundTrip: the serialiser is this model's own compact writer for arrays of strings. It escapes `"`, `\` and control characters (as `\u00XX`). It writes the compact form `["a","b"]`, not Python's `json.dumps` form `["a", "b"]` with a blank after each comma. The round trip is proved for the compact form only. For the spaced form the parser's whitespace skipping is shown on the two-element arrays of SpacedPairParses and on the reply of JsonExtractor.ExtractSpacedExample, not for arrays of any length.
- CustomChatEngine.TextContents: message contents are `Option<string>`. A non-string content other than `None` cannot occur, so the `isinstance` filter amounts to skipping a missing content.
- ChatWorkflow.RagChatWorkflow.Synthesize: requires the query, name and id in the context store, where the source reads them with a `None` default. The first step stores all three before it emits an event (IsRetrievalRelevant's contract), so within a run the `None` case never arises.
- ContextEngine.CustomContextChatEngine.AChat: the `prev_chunks` branch (core/src/chat_engine.py:39-40) is shown dead with `assert false`. An empty node list has already returned.

## Findings

| source | as written | input that shows it | evidently intended | confidence | as-written member | corrected member |
|---|---|---|---|---|---|---|
| core/src/ui/app.py:17-25 | `chat_handler` falls back to `guest_user` for the id but passes the empty name on, and the first workflow step's guard (core/src/rag/rag_workflow.py:92) rejects a falsy name, so a guest turn ends with no event | `chat_handler("hi", history, "")`, a session with no logged-in user | the guest fallback, commented as such, lets a guest turn run | not executed | AuthApp.ChatHandlerEvent, AuthApp.GuestTurnNotReady | AuthApp.GuestChatHandlerEvent, AuthApp.GuestTurnReady |
