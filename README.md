# Support Co-Pilot pipeline — a Dafny model

This project models the core of the Support Co-Pilot, a LangGraph pipeline that answers support queries.

The pipeline's stages:
- **Ingestion** normalises the query and runs the input guardrails.
- A **planner** fans out to three parallel stages:
  - **intent** classification by an LLM;
  - **knowledge retrieval** from a vector store, with query expansion;
  - **memory** reads from a SQLite-backed store.
- **Reasoning** and **response synthesis** call the LLM.
- The output **guardrails** decide between the draft, a safe fallback and escalation.
- The run ends at a **response** terminal or an **escalate** terminal.

Around the pipeline, the model also covers:
- the sliding-window chunker and the vector-store wrapper used for indexing;
- the guardrails layer and its policy dispatch;
- the tool-event bus and streaming-event builders used for observability;
- the QA validation harness that classifies agent answers and checks them rule by rule;
- the markdown line parser of the presentation builder;
- the three synthetic-corpus generators: word-count clamping, grow-until-long-enough loops and file-name lists.

How the model is built:
- One Dafny module per source file.
- Code that computes a value is modelled by functions and lemmas.
- Code that changes state in place is modelled by classes and methods with loops. These are:
  - `MemoryStore`, `VectorStore`, `ToolEventBus`, `GraphBuilder` and `GraphCache`;
  - the chunking, filtering, expansion, pruning, parsing, test-running and file-list loops.
- Each method is proved against a specification function, and the properties of that function are proved as lemmas.
- Each agent stage is a function from the state to a `StageResult`. A `StageResult` holds the partial update and the log of outgoing calls (LLM, policy, retrieval, memory, events). This makes "exactly one call" and "no call" statements about the result.
- External services are parameters of the model:
  - the LLMs;
  - the moderation service;
  - the Chroma collection's answers;
  - SHA-256;
  - the JSON codec;
  - regular-expression search;
  - the random generator's draws;
  - `str()` of arbitrary objects.

Where the code and its comments or tests disagree, the model follows the code:
- `check_input` escalates nothing by itself, but ingestion escalates whenever the input is unsafe (`IngestionStage.UnsafeInputEscalates`).
- The guardrails stage writes no `escalate` key on its two early paths.
- Knowledge retrieval asks for `k = 8`, where `tests/unit/test_knowledge_retrieval.py:23` expects 5.
- `tests/unit/test_guardrails_agent.py` imports a keyword classifier that the agent does not define; that classifier is not part of this model.

## Model

| member | source | states |
|---|---|---|
| Chunking.MakeConfig | data/chunking.py:30-39 | Construction fails exactly when overlap ≥ chunk size or chunk size < 100, and the overlap check wins when both fail. A configuration that is built is the one asked for and has a step of at least 1. |
| Chunking.ChunksFrom | data/chunking.py:53-62 | The sliding window from `start` on, as the specification of the chunking loop. Its properties are `ChunksWellFormed`, `ChunkStartsOnGrid`, `NothingAfterEnd` and `Coverage`. |
| Chunking.ChunkText | data/chunking.py:46-63 | The while loop returns exactly `ChunksFrom(text, cfg, 0)`, where `cfg` is the given configuration or the 800/100 default. The loop invariant is `chunks + ChunksFrom(text, cfg, start) == ChunksFrom(text, cfg, 0)`. |
| Chunking.KeepIffNotBlank | data/chunking.py:56-59 | A window is emitted, as one chunk carrying its text and range, exactly when its stripped text is non-empty. |
| Chunking.ChunksFromStep | data/chunking.py:55-62 | One loop step: a window reaching the end of the text is the last one. Otherwise the loop continues one step further on. |
| Chunking.ChunksFromAdvance | data/chunking.py:55-62 | Keeps the loop invariant when the loop goes on after a window. |
| Chunking.ChunksFromLast | data/chunking.py:61-62 | When the loop breaks, the chunks collected so far are the whole output. |
| Chunking.ChunksWellFormed | data/chunking.py:54-59 | Every chunk has start < end ≤ len(text) and end − start ≤ chunk_size. Its text is text[start:end], and it starts no earlier than where the scan began. |
| Chunking.ChunkStartsOnGrid | data/chunking.py:54-60 | Chunk starts lie on the grid start + i·step and are strictly increasing. |
| Chunking.NothingAfterEnd | data/chunking.py:55-62 | A chunk that ends at len(text) is the last chunk. |
| Chunking.Coverage | data/chunking.py:31-62 | With a non-negative overlap, every non-whitespace character at or after the scan start lies inside some emitted chunk. The lemma returns that chunk's index. |
| Chunking.CoveredHere | data/chunking.py:56-59 | A non-space character inside the current window lies in the first chunk emitted from that window. |
| Chunking.CoveredLater | data/chunking.py:59-60 | A chunk emitted from the next window appears in the output shifted by the number of chunks the current window emitted. |
| Chunking.ChunkProperties | data/chunking.py:46-63 | The whole-text summary, for output starting at 0: empty input gives no chunks; every chunk is well formed, on the grid and in increasing order; only the last chunk can end at len(text); and, with overlap ≥ 0, every non-whitespace character is covered. |
| VectorIndex.ChunkKey | tools/vector_store.py:140 | The hashed key is the source file followed by ':' and the chunk index in decimal. |
| VectorIndex.ChunkKeyInjective | tools/vector_store.py:138-141 | Two keys are equal only when both the source file and the index are equal. The digest of a key therefore depends on nothing else. |
| VectorIndex.ChunkId | tools/vector_store.py:138-141 | The id is the first 32 characters of the hex digest of the key, so it is at most 32 characters long. |
| Common.UnwrapOr | tools/vector_store.py:124-127 | `value if value is not None else default`: the stored value when present, the default otherwise. It is `meta.get(key, default)` on a search result's metadata, and `JsonValue.GetOr` builds `d.get(key, default)` on it. |
| VectorIndex.ResultAt | tools/vector_store.py:120-129 | The i-th result carries documents[i]. Without metadata it falls back to ("", i, 0, 0). Its distance is present exactly when i < len(distances), and then equals distances[i]. |
| VectorIndex.SearchResults | tools/vector_store.py:105-130 | An empty collection, or a reply with no ids, gives []. Otherwise there is one result per returned document, built by `ResultAt`. |
| VectorIndex.SearchRecoversIndexed | tools/vector_store.py:92-129 | A result built from an entry that `add_document` wrote returns that chunk's text, source file, index, start and end. |
| VectorIndex.AddBatch | tools/vector_store.py:85-98 | The add call holds one id, one document and one metadata entry per chunk. |
| VectorIndex.AddBatchEntries | tools/vector_store.py:88-97 | Entry i has id `_chunk_id(source_file, i)`, the chunk's text, and metadata {source_file, i, start, end}. No two entries of a batch have the same key. |
| VectorIndex.BuildBatch | tools/vector_store.py:85-97 | The loop that fills `ids`, `documents` and `metadatas` produces the add call `AddBatch` describes. |
| VectorIndex.AssembleResults | tools/vector_store.py:119-130 | The result loop returns one record per document, the i-th being `ResultAt(response, i)`. |
| VectorIndex.VectorStore.constructor | tools/vector_store.py:41-56 | A new store keeps its directory, key and collection name. It has opened no client and made no collection calls. |
| VectorIndex.VectorStore.EnsureClient | tools/vector_store.py:58-71 | After the call a client is open. It is opened at most once over the store's life, and the collection sees no call. |
| VectorIndex.VectorStore.AddDocument | tools/vector_store.py:73-100 | Returns the number of chunks of the text. No chunks means no collection call. Otherwise exactly one add call is made, with `AddBatch` of those chunks. |
| VectorIndex.VectorStore.Search | tools/vector_store.py:102-130 | Returns `SearchResults`. It always counts first. It queries with n_results = min(k, n) only when the collection is not empty. |
| VectorIndex.VectorStore.Count | tools/vector_store.py:132-135 | Returns the collection's count after making exactly one count call. |
| Retrieval.SelectApiKey | tools/retrieval.py:27-34 | Uses the given key, else the configured key when it is non-empty, else none (also when settings fail to load). |
| Retrieval.ResolveMaxDistance | tools/retrieval.py:49-54 | Uses the given bound, else the configured `rag_max_distance`, else 1.2 when settings fail to load. |
| Retrieval.Filtered | tools/retrieval.py:65-73 | The relevance filter keeps results without a distance and results with distance ≤ max_distance. It never returns more than it was given. |
| Retrieval.FilteredMembers | tools/retrieval.py:65-73 | A result is kept if and only if it was returned by the search and is relevant. |
| Retrieval.FilteredOrdered | tools/retrieval.py:65-77 | The output is a subsequence of the search output, in the same order. |
| Retrieval.FilteredAllRelevant | tools/retrieval.py:65-73 | When every result is relevant, the filter returns the search output unchanged. |
| Retrieval.FilterRelevant | tools/retrieval.py:65-73 | The for loop that appends to `filtered` computes `Filtered`. |
| Retrieval.GetVectorStore | tools/retrieval.py:23-34 | Returns a fresh store whose key is `SelectApiKey`, under the default collection name. |
| Retrieval.RetrieveResults | tools/retrieval.py:37-77 | Every result `retrieve` returns is within the bound that `ResolveMaxDistance` picks. |
| Retrieval.Retrieve | tools/retrieval.py:37-77 | Builds a store with the selected key, searches it (a count, then a query for min(k, n) only when the store is not empty), and returns the filtered results. |
| Retrieval.RetrievalToolRaw | tools/retrieval.py:89-91 | Equals `retrieve(query, k)` with every other argument at its default. |
| Guardrails.CallModerationApi | guardrails/layer.py:38-44 | A blank or whitespace-only key makes no moderation call and gives no result. Otherwise the service is called with the stripped key. |
| Guardrails.ConfidenceFromModeration | guardrails/layer.py:62-68 | Confidence is 0.0 exactly when there is a result and it is flagged, and 1.0 otherwise. |
| Guardrails.ResolveKey | guardrails/layer.py:118-151 | Uses a non-empty given key, else the configured key, else "" when settings fail to load. |
| Guardrails.AnyPatternMatches | guardrails/layer.py:102-108 | The `for pat in use` scan, tried in order, with a malformed pattern skipped. `AnyPatternMatchesSpec` characterises it. |
| Guardrails.AnyPatternMatchesSpec | guardrails/layer.py:102-108 | The pattern scan is true if and only if some pattern's search reports a match. A malformed pattern counts as no match. |
| Guardrails.PatternsInUse | guardrails/layer.py:101 | `patterns or DEFAULT_NO_ANSWER_PATTERNS` is never empty. |
| Guardrails.DetectNoAnswer | guardrails/layer.py:97-108 | `_detect_no_answer`. `DetectNoAnswerSpec` characterises it. |
| Guardrails.DetectNoAnswerSpec | guardrails/layer.py:97-108 | Blank text is never a no-answer. Otherwise the text is a no-answer if and only if some pattern in use matches it. |
| Guardrails.ScanRulesFound | guardrails/layer.py:85-91 | When the rule scan escalates, it names the first firing rule: it fires, and no earlier rule fires or aborts the scan. |
| Guardrails.ScanRulesComplete | guardrails/layer.py:85-91 | Conversely, a rule that fires before any earlier rule fires or aborts makes the scan escalate. |
| Guardrails.ScanRules | guardrails/layer.py:83-93 | The `for rule in rules` scan of the escalation policy, where a rule that raises ends the scan with no escalation. `ScanRulesFound`, `ScanRulesComplete` and `ScanRulesSpec` characterise it. |
| Guardrails.ScanRulesSpec | guardrails/layer.py:85-93 | The rule scan escalates if and only if some rule fires first. |
| Guardrails.ShouldEscalateByPolicy | guardrails/layer.py:71-94 | Escalates on no-answer when so configured, and on confidence below the threshold. Any other escalation needs a policy that parses. |
| Guardrails.ShouldEscalateByPolicySpec | guardrails/layer.py:71-94 | Escalates if and only if: (no_answer ∧ escalate_on_no_answer), or confidence < threshold, or the policy (empty meaning "[]") parses and some rule fires before any malformed entry. |
| Guardrails.CheckInput | guardrails/layer.py:111-136 | Safe if and only if there is no moderation result or it is not flagged. Escalate and no_answer are always false. Details are the moderation result. Confidence is 1.0 when safe and 0.0 when not. |
| Guardrails.CheckInputReason | guardrails/layer.py:122-126 | The reason is "moderation_skipped_no_key" exactly when the resolved key is empty, "content_safety_flagged" exactly when unsafe, and "ok" exactly when safe with a key. |
| Guardrails.CheckOutput | guardrails/layer.py:139-170 | Same safety test as the input check. Escalate is always false. no_answer is `_detect_no_answer(text)` with the defaults. A confidence override wins. The reason follows flagged > no_answer > ok. |
| Guardrails.BlankKeyFailsOpen | guardrails/layer.py:38-41 | With a blank resolved key, neither check depends on the moderation service. Both report safe, with confidence 1.0 unless overridden. (Also lines 117-121, 150-154.) |
| Guardrails.PolicyCheck | tools/policy_tool.py:33-37 | check_type "output" dispatches to `check_output` and anything else to `check_input`. The result never escalates. |
| GuardrailsStage.FinalChoice | agents/guardrails_agent.py:38-46 | An unsafe draft gets `SAFE_FALLBACK`. Safe and escalated gets the "no confident answer" text when no_answer holds, else the generic escalation text. Safe and not escalated gets the draft verbatim. |
| GuardrailsStage.GuardrailsAgent | agents/guardrails_agent.py:20-30 | An escalated state gets reason "input_guardrails" (with safe false) and `SAFE_FALLBACK`. An empty draft gets reason "no_draft" and `SAFE_FALLBACK`. Neither path calls the policy or writes an `escalate` key. |
| GuardrailsStage.GuardrailsDecision | agents/guardrails_agent.py:32-53 | Otherwise: exactly one output policy call on the draft; `guardrails_result` is its result verbatim; escalate = ¬safe ∨ result.escalate (a missing safe counts as true); the final response follows `FinalChoice`. The update holds only these three keys. |
| GuardrailsStage.OutputEscalatesOnlyWhenUnsafe | agents/guardrails_agent.py:33-46 | With the real `policy_check`, the stage escalates exactly when the draft is unsafe. It then answers with the draft or `SAFE_FALLBACK`. (Also guardrails/layer.py:161-162.) |
| IngestionStage.Ingestion | agents/ingestion.py:26 | Exactly one policy call, of type "input", on `normalized or query`. |
| IngestionStage.NormalizedFallbackUnused | agents/ingestion.py:20-23 | Once the query has been stripped, normalisation is lower(query)[:2000]. The fallback at lines 22-23 never changes the text that is checked. |
| IngestionStage.IngestionSpec | agents/ingestion.py:18-34 | The update has exactly the keys normalized_query, input_guardrails_result (the policy result verbatim) and escalate = escalate ∨ ¬safe. The normalized query is at most 2000 characters, has no upper-case letter and no leading space, and is "" exactly when the query is missing or blank. |
| IngestionStage.UnsafeInputEscalates | agents/ingestion.py:27 | With the real `policy_check`, ingestion escalates exactly when moderation flags the input. So unsafe input does escalate, whatever the comment in `check_input` says. (Also guardrails/layer.py:119-128.) |
| IntentStage.StripFence | agents/intent.py:53-56 | A reply that does not start with a fence is left as it is. |
| IntentStage.StripFenceBlock | agents/intent.py:53-56 | "```json" + body + "```" + anything is read back as body when body has no backquote. |
| IntentStage.FindFenceAfter | agents/intent.py:54 | In t + "```" + rest, where t has no backquote, the first fence is right after t. |
| IntentStage.Field | agents/intent.py:59-61 | `str(obj.get(key, default))`: the default when the key is missing, otherwise the stored string or its `str` rendering. |
| IntentStage.ParseIntent | agents/intent.py:52-64 | A reply that does not decode, or decodes to something other than an object, gives the default triple (unknown, medium, low). |
| IntentStage.ParseIntentRoundTrip | agents/intent.py:52-62 | When the codec decodes the encoding of this intent object back to itself, the encoded object is read back as its three fields, whether it comes bare or inside a ```json fence. |
| IntentStage.IntentAgent | agents/intent.py:43-47 | An escalated state returns {} with no call. An empty query returns the default intent with no call. |
| IntentStage.IntentUsesQueryPrefix | agents/intent.py:45-66 | Otherwise exactly one LLM call is made, and the update holds only `intent_result`. Two queries with the same first 500 characters give the same result. |
| IntentStage.IntentPrompt | agents/intent.py:49 | The classifier prompt. `IntentPromptPrefix` characterises it. |
| IntentStage.IntentPromptPrefix | agents/intent.py:49 | The classifier sees the first 500 characters of the query and nothing else of it: two prompts are equal iff the queries' 500-character prefixes are. |
| JsonValue.Lookup | agents/intent.py:59-61 | `d.get(key)` finds a value exactly when some entry has that key, and the value it finds is one stored under the key. |
| JsonValue.GetOr | agents/reasoning.py:53 | `d.get(key, default)`: the value stored under the key when the key is present, the default when it is absent. |
| JsonValue.Put | api/schemas/stream.py:72 | `d[key] = v`: afterwards the key maps to v, and every other key keeps its old lookup. |
| JsonValue.UpdateLookup | api/schemas/stream.py:72 | `{**d, **more}`: a key takes its last value in `more` when `more` has it, and otherwise keeps its value in `d`. |
| JsonValue.LookupAppend | api/schemas/stream.py:72 | A lookup in a + b finds a's entry first, and only then b's. |
| KnowledgeRetrievalStage.KnowledgeRetrieval | agents/knowledge_retrieval.py:19-23 | An escalated state gets {} with no call. An empty query gets `retrieval_result = []` with no call. |
| KnowledgeRetrievalStage.KnowledgeRetrievalAgent | agents/knowledge_retrieval.py:17-57 | The imperative agent, with its expansion loop, returns what `KnowledgeRetrieval` specifies. |
| KnowledgeRetrievalStage.KnowledgeRetrievalSpec | agents/knowledge_retrieval.py:21-57 | The first call is retrieval(query, 8), and every call uses k = 8. Non-empty first results are kept with no further call. Expansion happens iff the first call is empty and the query mentions a keyword. Every call before the last came back empty. A non-empty result is the last call's. An empty result means every call was empty. The update holds only `retrieval_result`. |
| KnowledgeRetrievalStage.ExpandQuery | agents/knowledge_retrieval.py:38-44 | The loop over the expansions returns the results and calls of `TryExpanded`. |
| KnowledgeRetrievalStage.TryExpandedSpec | agents/knowledge_retrieval.py:38-44 | Candidates equal to the query are skipped, so every call is on a candidate different from the query. The loop stops at the first non-empty result. |
| KnowledgeRetrievalStage.Expansions | agents/knowledge_retrieval.py:32-37 | There are four candidates, and the first is the query itself. |
| KnowledgeRetrievalStage.ExpansionsDiffer | agents/knowledge_retrieval.py:34-36 | The second and fourth candidates always differ from the query, so at least they are tried. |
| KnowledgeRetrievalStage.ThirdExpansionSkipped | agents/knowledge_retrieval.py:35-39 | The third candidate equals the query, and is skipped, exactly when the query contains neither "12th" nor "science". |
| MemoryStage.SessionOf | agents/memory_agent.py:25 | The session id is never empty. It is the state's id when that is truthy, else "default". |
| MemoryStage.MemoryAgent | agents/memory_agent.py:21-42 | An escalated state gets {} with no call. Otherwise the stage makes exactly the two recent reads and sets `memory_result`. |
| MemoryStage.MemoryAgentUpdate | agents/memory_agent.py:28-42 | The update holds only `memory_result`. Its working part is the session's last 20 turns, and its episodic and semantic parts are the store's newest 5 records of each type. |
| MemoryStage.RecentSpec | agents/memory_agent.py:33-34 | A recent read returns at most 5 records. They come from the table, all of the requested type, newest first. (Also memory/store.py:178-203.) |
| MemoryStage.MemoryAgentSessionDefault | agents/memory_agent.py:25 | A missing or empty session id behaves exactly like the session "default". |
| MemoryTable.Filter | memory/store.py:137-144 | A WHERE filter keeps at most the rows it is given. |
| MemoryTable.FilterStep | memory/store.py:137-144 | Filtering distributes over appending one row. |
| MemoryTable.FilterMembers | memory/store.py:137-144 | A row survives the filter iff it is in the table and meets the criterion. |
| MemoryTable.FilterWellFormed | memory/store.py:137-144 | Filtering or deleting keeps the table well formed: distinct ids, strictly increasing creation times, and timestamps below the clock. (Also lines 180, 190.) |
| MemoryTable.SnocWellFormed | memory/store.py:109-113 | Appending a newer row with a fresh id keeps the table well formed. |
| MemoryTable.FilterCommute | memory/store.py:139-144 | The type and session filters can be applied in either order. |
| MemoryTable.NotInUnion | memory/store.py:180 | Deleting the ids of a, then deleting id, equals deleting a ∪ {id} at once. |
| MemoryTable.IdsOfMembers | memory/store.py:121 | An id is in the table's id set iff some row carries it. |
| MemoryTable.IdsOfCount | memory/store.py:71-93 | With distinct ids there are as many ids as rows. |
| MemoryTable.NotInCount | memory/store.py:180-181 | Deleting a set of ids removes exactly as many rows as the set has ids present. |
| MemoryTable.FindById | memory/store.py:117-126 | A lookup finds a row with that id exactly when the id is present. |
| MemoryTable.AppendWellFormed | memory/store.py:105-115 | Inserting a fresh id stamped with the current clock keeps the table well formed, and the insert can then be read back by its id. |
| MemoryTable.FindByIdFinds | memory/store.py:117-126 | With distinct ids, looking up a row's id gives that row. |
| MemoryTable.NotInIds | memory/store.py:180 | After a delete, the ids left are the old ids minus the deleted ones. |
| MemoryTable.Newest | memory/store.py:145 | `LIMIT ? OFFSET ?`: a listing returns at most `limit` rows. |
| MemoryTable.WindowIndex | memory/store.py:145 | The i-th row of the window is the (offset + i)-th row of the ordered listing. |
| MemoryTable.NewestMembers | memory/store.py:137-148 | Every listed row is in the table and matches the type and session filters. |
| MemoryTable.NewestOrdered | memory/store.py:145 | A listing is strictly newest first (`ORDER BY created_at DESC`). |
| MemoryTable.NewestComplete | memory/store.py:137-148 | When the limit covers every match, every matching row is listed. |
| MemoryTable.LatestFirst | memory/store.py:207-212 | Sessions already listed are never listed again. |
| MemoryTable.ChronologicalInit | memory/store.py:105-113 | In a chronological table, every row before the last is older than it. |
| MemoryTable.LatestFirstOrdered | memory/store.py:207-211 | `list_sessions` comes strictly newest first. |
| MemoryTable.LatestFirstSound | memory/store.py:207-210 | Each listed session has a non-empty id and rows of that type. Its time is the newest creation time of its rows of that type (`MAX(created_at)`). |
| MemoryTable.LatestFirstComplete | memory/store.py:207-210 | Every non-empty session id with rows of that type is listed. |
| MemoryTable.LatestFirstBelow | memory/store.py:207 | A bound on the rows' creation times bounds every time `list_sessions` reports. That each reported time is the `MAX(created_at)` of its session's rows is `LatestFirstSound`. |
| MemoryTable.ReviseById | memory/store.py:169-173 | An update changes no row count. |
| MemoryTable.ReviseWellFormed | memory/store.py:166-173 | An update that stamps `updated_at` with the clock keeps the table well formed. |
| MemoryTable.ReviseFinds | memory/store.py:158-175 | After an update, reading the id back gives the revised record: new content and/or metadata, same creation time, new `updated_at`. |
| MemoryTable.MemoryStore.constructor | memory/store.py:52-56 | A new store is empty and well formed. |
| MemoryTable.MemoryStore.Get | memory/store.py:117-126 | `get` returns a row with that id, or None when no row has it. |
| MemoryTable.MemoryStore.Create | memory/store.py:95-115 | An id already present fails with an integrity error and changes nothing. Otherwise the record, stamped with the clock and with metadata defaulting to {}, is appended and can be read back by its id. |
| MemoryTable.MemoryStore.List | memory/store.py:128-148 | At most `limit` records. |
| MemoryTable.MemoryStore.Update | memory/store.py:150-175 | A missing id gives None with nothing changed. Nothing to update returns the record as it is, with nothing changed. Otherwise the record is revised in place, and the revised record is returned. |
| MemoryTable.MemoryStore.Delete | memory/store.py:177-184 | Returns true iff the id was present. The rows left are the old rows without that id. |
| MemoryTable.MemoryStore.DeleteBySession | memory/store.py:186-196 | Removes exactly the rows of that session and type, and returns their count. |
| MemoryTable.MemoryStore.ListSessions | memory/store.py:198-216 | At most `limit` sessions. |
| MemoryTable.PartitionCount | memory/store.py:186-196 | The rows kept plus the rows deleted by a session delete make up the table. |
| WorkingMemory.MessageContent | memory/working_memory.py:25-27 | `_message_content`: the codec's text for `{"role": role, "content": content}`. `ParseMessageContent` is its round trip with `_parse_message`. |
| WorkingMemory.ParseMessage | memory/working_memory.py:30-36 | Content that does not decode to an object is read as ("user", content). An object with no role is read with role "user". |
| WorkingMemory.ParseMessageContent | memory/working_memory.py:25-36 | When the codec decodes the encoding of this message object back to itself, `_parse_message(_message_content(role, content))` gives back the role and the content. |
| WorkingMemory.GetWorking | memory/working_memory.py:61-73 | At most `limit` messages. |
| WorkingMemory.GetWorkingIsNewestWindow | memory/working_memory.py:61-73 | The result is the session's last min(n, limit) working messages, in stored (chronological) order, each parsed. |
| WorkingMemory.NewestInStoredOrder | memory/working_memory.py:67-70 | Reversing the newest-first window gives the tail of the chronological list. |
| WorkingMemory.ContextEmptyIffNoMessages | memory/working_memory.py:96-102 | The context is "" exactly when there are no messages. A single message gives its "role: content" line. |
| WorkingMemory.GetWorkingAsContext | memory/working_memory.py:96-102 | `get_working_as_context`: one "role: content" line per message of `get_working`. `WorkingContextEmpty` and `ContextEmptyIffNoMessages` characterise it. |
| WorkingMemory.WorkingContextEmpty | memory/working_memory.py:96-102 | The context is "" exactly when the limit is 0 or the session holds no working message. |
| WorkingMemory.NewestIndex | memory/working_memory.py:67 | The i-th listed working record is the session's (n-1-i)-th. |
| WorkingMemory.PruneTargetsIndex | memory/working_memory.py:82-86 | `records[max_items:]` lists the older records, newest of them first. There are n - max_items of them (within the 9999 listing). |
| WorkingMemory.PruneTargetsSpec | memory/working_memory.py:82-86 | The records to delete have distinct ids, and all are the session's working records. |
| WorkingMemory.PruneWorking | memory/working_memory.py:76-93 | Deletes exactly those records, returns their count, and keeps the store well formed. |
| WorkingMemory.DeleteEach | memory/working_memory.py:87-90 | The deletion loop removes each listed id. Each delete succeeds, so the count is the list's length. |
| WorkingMemory.PruneSparesOthers | memory/working_memory.py:82 | Records of other sessions or types survive pruning. |
| WorkingMemory.PruneCount | memory/working_memory.py:82-90 | Pruning removes exactly `PruneCountOf(n, max_items)` of the session's working records. |
| WorkingMemory.PruneKeepsNewest | memory/working_memory.py:81-90 | With at most 9999 records, what remains of the session is its newest max_items records, in order. |
| WorkingMemory.PrunedSession | memory/working_memory.py:88-90 | What remains of the session is its records minus the deleted ids. |
| WorkingMemory.PruneNothing | memory/working_memory.py:83-84 | A session within the limit loses nothing. |
| WorkingMemory.PruneOldest | memory/working_memory.py:85-86 | Deleting the targets leaves exactly the newest max_items records. |
| WorkingMemory.KeepNewestWindow | memory/working_memory.py:85-86 | The same, stated over the session's record list. |
| WorkingMemory.AddWorking | memory/working_memory.py:39-58 | A clashing id fails before anything changes. Otherwise a working record is appended, holding the JSON message with its role recorded in the metadata, and the session is then pruned. The caller's metadata dict is left with "role" set, as the in-place `meta["role"] = role` leaves it. |
| WorkingMemory.AddWorkingBounded | memory/working_memory.py:57-86 | After an add, a session that held fewer than 9999 records holds at most max_items. |
| WorkingMemory.AddWorkingOverflow | memory/working_memory.py:82 | With 9999 records already stored, the `limit=9999` listing misses the oldest, and the session keeps max_items + 1 records. |
| Observability.SafeValue | tools/observability.py:114-132 | None, numbers and booleans are kept as they are. A string over 2000 characters keeps its first 2000 and gets "..." appended. A list over 50 items keeps 50 bounded items plus one marker. A dict keeps its first 50 entries. Any other object becomes a string of at most 500 characters. |
| Observability.SafeValueItems | tools/observability.py:122-126 | The kept list items are each bounded in turn. The marker says how many items were dropped. |
| Observability.SafeValueEntries | tools/observability.py:127-128 | The kept dict entries keep their keys, in order, and have bounded values. |
| Observability.SafeValueKeepsSmall | tools/observability.py:114-128 | A value already within every bound is returned unchanged. |
| Observability.SafeValueFits | tools/observability.py:114-132 | Every result lies within the bounds, at every depth. |
| Observability.RemoveFirst | tools/observability.py:62-65 | Unregistering a callback that is not registered changes nothing. |
| Observability.RemoveFirstSpec | tools/observability.py:64-65 | `list.remove` drops exactly the first occurrence of the callback. |
| Observability.RemoveFirstCount | tools/observability.py:64-65 | Unregistering removes one copy of the callback from the multiset of callbacks. |
| Observability.UnregisterUndoesRegister | tools/observability.py:57-65 | Registering a new callback and then unregistering it restores the list. |
| Observability.EventPayload | tools/observability.py:33-37 | `ToolCallEvent.to_dict` without the timestamps. `EventPayloadFields` characterises it. |
| Observability.EventPayloadFields | tools/observability.py:33-37 | `to_dict` is a dict carrying the tool name, the bounded result and the error (or null). |
| Observability.ToolEventBus.constructor | tools/observability.py:18 | The callback list starts empty. |
| Observability.ToolEventBus.Register | tools/observability.py:57-59 | Appends the callback. |
| Observability.ToolEventBus.Unregister | tools/observability.py:62-65 | Removes the first occurrence, if there is one. |
| Observability.ToolEventBus.Emit | tools/observability.py:40-54 | Every registered callback receives the payload, in order. A callback that raises does not stop the later ones. |
| Observability.InputHoldsArg | tools/observability.py:79-82 | The input dict holds `arg_i`, bounded, for each positional argument. |
| Observability.InputKeepsKeyword | tools/observability.py:77-78 | Keyword arguments are copied unbounded, unless a positional `arg_i` overwrites them. |
| Observability.InputOf | tools/observability.py:74-82 | The input dict: the keyword arguments, then `arg_i` set to the bounded i-th positional argument. `InputHoldsArg` and `InputKeepsKeyword` characterise it. |
| Observability.BuildInput | tools/observability.py:74-82 | The input-building loop produces `InputOf(kwargs, args)`. |
| Observability.WrappedEventAsWritten | tools/observability.py:98-106 | The event built by `observed` holds an already bounded result, which `to_dict` bounds a second time. |
| Observability.AsWrittenMiscountsDropped | tools/observability.py:36 | A 60-item result is bounded once into 50 items plus "... 10 more". The second bounding turns the marker into "... 1 more", so the payload differs from a single bounding. (Also lines 104, 124-125.) |
| Observability.WrappedEvent | tools/observability.py:86-106 | The corrected event, holding the raw result: it carries an error exactly when the tool raised. |
| Observability.EmittedResultBoundedOnce | tools/observability.py:36 | With the event holding the raw result, the payload's result is the result bounded once. It lies within the bounds. (Also lines 104.) |
| Observability.Observed | tools/observability.py:71-107 | As written: the wrapper returns (or re-raises) the tool's own outcome. It emits exactly one event, to every registered callback in order. The event holds `_safe_value(result)` and an error exactly when the tool raised. The payload holds that result bounded a second time. |
| PipelineState.DisjointKeys | agents/graph.py:90-95 | Updates from the parallel branches write disjoint keys. |
| PipelineState.MergeHas | agents/state.py:12-40 | After a merge, a key is present iff it was present in the state or in the update. |
| PipelineState.MergeCommutesInputs | agents/graph.py:90-95 | Merging two disjoint updates in either order gives the same input and early-stage keys. |
| PipelineState.MergeCommutesOutputs | agents/graph.py:90-95 | The same holds for the later keys. |
| PipelineState.MergeCommutes | agents/graph.py:90-95 | So the fan-in after the parallel intent, retrieval and memory stages does not depend on their order. |
| PipelineState.MergeAssociative | agents/state.py:12-13 | Merging is associative, and the empty update is its identity. |
| PipelineState.QueryText | agents/reasoning.py:46 | `normalized_query or query or ""` is one of the two strings, and it is "" iff both are missing or empty. |
| ReasoningStage.RetrievalText | agents/reasoning.py:52-54 | No chunks gives "No retrieved context.". Otherwise the text starts with "[" (the first chunk's source). |
| ReasoningStage.JoinStarts | agents/reasoning.py:52 | A join starts with its first part. |
| ReasoningStage.WorkingText | agents/reasoning.py:55-56 | No working messages gives "No working memory.". |
| ReasoningStage.RetrievalTextShowsPrefix | agents/reasoning.py:52-54 | The prompt sees only the first 5 chunks, and only their sources and first 300 characters. |
| ReasoningStage.WorkingTextShowsPrefix | agents/reasoning.py:55-56 | It sees only the first 10 working messages, each by its role and first 100 characters. |
| ReasoningStage.Reasoning | agents/reasoning.py:44-74 | An escalated state gets {} with no call. Otherwise there is one LLM call, then one memory write. |
| ReasoningStage.ReasoningSpec | agents/reasoning.py:58-74 | The update holds only `reasoning_result`, the LLM reply. The write is episodic, for the state's session, with metadata {"agent": "reasoning"}. Its content is "Query: q\nReasoning: " followed by at most 500 characters of the reply. |
| ReasoningStage.ReasoningPrompt | agents/reasoning.py:58 | The reasoning prompt. `ReasoningPromptShows`, `RetrievalTextShowsPrefix` and `WorkingTextShowsPrefix` characterise it. |
| ReasoningStage.ReasoningPromptShows | agents/reasoning.py:58 | The prompt opens with "Query: " and the whole query, and closes with the working-memory block and the instruction. |
| ResponseSynthesisStage.Refs | agents/response_synthesis.py:52 | The references are the non-empty source files, in order. There are none exactly when every chunk's source is empty. |
| ResponseSynthesisStage.RefsMembers | agents/response_synthesis.py:52 | Every non-empty source is referenced, and every reference is some chunk's source. |
| ResponseSynthesisStage.Summary | agents/response_synthesis.py:53 | The summary is "No sources." exactly when there are no references. |
| ResponseSynthesisStage.ContextBlock | agents/response_synthesis.py:54-57 | The block is "No retrieved context." exactly when there are no chunks. |
| ResponseSynthesisStage.ContextBlockShowsPrefix | agents/response_synthesis.py:54-57 | The prompt sees only the first 3 chunks, and only their sources and first 400 characters. |
| ResponseSynthesisStage.Strs | agents/response_synthesis.py:76 | The sources are carried into the event as strings, one for one. |
| ResponseSynthesisStage.ResponseSynthesis | agents/response_synthesis.py:44-45 | An escalated state gets {} with no call. |
| ResponseSynthesisStage.ResponseSynthesisSpec | agents/response_synthesis.py:46-86 | Otherwise there is one LLM call, then one synthesis event with no error. The event's result holds the draft's length and the references of the first 5 chunks. The update holds exactly the draft and the stub action list. |
| ResponseSynthesisStage.SynthesisPrompt | agents/response_synthesis.py:60 | The synthesis prompt. `SynthesisPromptShows` and `ContextBlockShowsPrefix` characterise it. |
| ResponseSynthesisStage.SynthesisPromptShows | agents/response_synthesis.py:60 | The prompt opens with "Query: " and the whole query, and closes with the mandatory "[Sources: …]" line naming the first five chunks' sources, or "No sources.". |
| StreamEvents.Sanitize | api/schemas/stream.py:76-94 | A short string is kept. A list over max_list items keeps max_list of them plus a marker. A dict keeps its first 50 entries. |
| StreamEvents.SanitizeDefaultAgrees | api/schemas/stream.py:76 | With the default bounds (2000, 50), `_sanitize_payload` agrees with `_safe_value` on every value. (Also tools/observability.py:114.) |
| StreamEvents.SanitizeKeepsKeys | api/schemas/stream.py:89-90 | A sanitized dict keeps its keys, in order. |
| StreamEvents.SanitizeCuts | api/schemas/stream.py:81-88 | A long string is cut to max_str characters plus "...". A long list ends with "... n more", where n is the number dropped. The kept items are sanitized in turn. |
| StreamEvents.Keys | api/schemas/stream.py:21-73 | The key list of an event, in order. |
| StreamEvents.AgentStepEvent | api/schemas/stream.py:21-28 | The keys are exactly type, agent_id, step, payload. |
| StreamEvents.ToolCallStreamEvent | api/schemas/stream.py:31-37 | The keys are exactly type, tool_calls, payload. |
| StreamEvents.EscalationEvent | api/schemas/stream.py:40-45 | The keys are exactly type, payload. |
| StreamEvents.DoneEvent | api/schemas/stream.py:48-65 | The keys are exactly type, payload. |
| StreamEvents.DonePayloadKeys | api/schemas/stream.py:58-64 | The done payload has exactly the five keys, in order, and carries the escalate flag as given. |
| StreamEvents.ErrorEvent | api/schemas/stream.py:68-73 | The keys are exactly type, payload. |
| StreamEvents.ErrorEventMessage | api/schemas/stream.py:72 | In the error payload, a key in `details` takes its last value there, and "message" takes the message otherwise. Other keys are absent. |
| TextWords.WordLength | agents/dataset_generator.py:27 | The length of the leading word (a maximal run of non-space characters) is at most the text's length, and at least 1 when the text starts with a non-space. |
| TextWords.WordLengthSpec | agents/dataset_generator.py:27 | The leading run holds no space, and is followed by a space or the end of the text. |
| TextWords.Words | agents/dataset_generator.py:31 | `text.split()`. `WordsAreWords`, `BlankHasNoWords`, `WordsConcat` and `WordsOfJoin` characterise it. |
| TextWords.WordCount | agents/dataset_generator.py:25-26 | `_word_count`: the number of items of `split()`, the same count as the `\S+` matches. `WordCountSeparated`, `WordCountJoin` and `WordCountRepeat` characterise it. |
| TextWords.WordsAreWords | agents/dataset_generator.py:27-32 | Every item of `split()` is a non-empty run of non-space characters. |
| TextWords.BlankHasNoWords | agents/dataset_generator.py:32 | A blank text has no words. |
| TextWords.WordsConcat | agents/dataset_generator.py:32 | When the seam falls on a space, the words of a + b are the words of a followed by those of b. |
| TextWords.WordCountSeparated | agents/dataset_generator.py:36 | A blank separator adds the word counts of both sides. |
| TextWords.WordsOfWord | agents/dataset_generator.py:39 | A single word splits into itself. |
| TextWords.WordsOfJoin | agents/dataset_generator.py:39 | `" ".join(words).split()` gives the words back. |
| TextWords.Repeat | agents/dataset_generator.py:36 | `[text] * m` has m items. |
| TextWords.WordCountRepeat | agents/dataset_generator.py:36 | m copies joined by spaces have m times the words. |
| TextWords.JoinSnoc | agents/dataset_generator.py:36 | Joining one more part appends the separator and the part. |
| TextWords.WordCountJoin | scripts/generate_corpus.py:24-25 | A blank-separated join has the sum of its parts' word counts. |
| TextWords.WordsOfPrefix | agents/dataset_generator.py:38-39 | Re-splitting the first n words joined by spaces gives those n words. |
| TextWords.PadExceeds | agents/dataset_generator.py:35 | `(min_w // n + 1) * n` exceeds min_w. |
| TextWords.EnsureWordCount | agents/dataset_generator.py:30-40 | It fails (ZeroDivisionError) exactly when the text has no words and min_w > 0. A text already within the range is returned unchanged. |
| TextWords.EnsureWordCountTruncates | agents/dataset_generator.py:38-39 | A text over max_w words is cut to its first max_w words. |
| TextWords.EnsureWordCountPads | agents/dataset_generator.py:33-39 | A text under min_w words is repeated m = min_w // n + 1 times, giving more than min_w words, capped at max_w. |
| TextWords.EnsureWordCountBounds | agents/dataset_generator.py:30-40 | With min_w <= max_w and some words, the result has between min_w and max_w words. |
| TextWords.EnsureWordCountIdempotent | agents/dataset_generator.py:30-40 | Applying the clamp twice gives the same text as applying it once. |
| AgentGraph.RouteAfterIngestion | agents/graph.py:36-40 | `_route_after_ingestion`: `EscalateOr` with "planner" as the next node. `RoutesInPathMaps` shows its route is a key of the ingestion path map. |
| AgentGraph.RouteAfterGuardrails | agents/graph.py:43-47 | `_route_after_guardrails`: `EscalateOr` with "response" as the next node. `RoutesInPathMaps` shows its route is a key of the guardrails path map. |
| AgentGraph.PlannerAgent | agents/planner.py:18-25 | `planner_agent` returns `{}` on both branches: a `Passthrough` node. |
| AgentGraph.TerminalResponse | agents/graph.py:50-52 | `_terminal_response` returns `{}`: a `Passthrough` node. |
| AgentGraph.EscalateOr | agents/graph.py:36-47 | Both routers: "escalate" exactly when the state is escalated, otherwise the next node of the normal path ("planner" after ingestion, "response" after guardrails). |
| AgentGraph.Passthrough | agents/graph.py:50-52 | A node returning `{}` leaves the state unchanged. This is what the planner and the response terminal do. |
| AgentGraph.TerminalEscalate | agents/graph.py:55-59 | Afterwards a final response is always set. An existing one is kept; otherwise it is the escalation message. |
| AgentGraph.GraphBuilder.constructor | agents/graph.py:67 | A new builder has no nodes, edges or branches. |
| AgentGraph.GraphBuilder.AddNode | agents/graph.py:70-79 | Appends a node and changes nothing else. |
| AgentGraph.GraphBuilder.AddEdge | agents/graph.py:82-108 | Appends an edge, and changes nothing else. |
| AgentGraph.GraphBuilder.AddConditionalEdges | agents/graph.py:83-106 | Appends a conditional branch with its path map, and changes nothing else. |
| AgentGraph.GraphBuilder.Compile | agents/graph.py:110 | The compiled graph has exactly the builder's nodes, edges and branches. |
| AgentGraph.AddStageNodes | agents/graph.py:70-79 | Adds the ten nodes, in order. |
| AgentGraph.AddFrontEdges | agents/graph.py:82-95 | Adds the start edge, the ingestion branch, the three planner edges and the fan-in. |
| AgentGraph.AddBackEdges | agents/graph.py:98-108 | Adds the serial edges, the guardrails branch and the two end edges. |
| AgentGraph.BuildGraph | agents/graph.py:62-110 | The built graph is exactly the support graph. |
| AgentGraph.EdgesForward | agents/graph.py:82-108 | Every edge goes from a lower stage rank to a higher one. |
| AgentGraph.GraphAcyclic | agents/graph.py:82-108 | So every path goes forward, and the graph has no cycle. |
| AgentGraph.FanOutAndJoin | agents/graph.py:89-95 | The planner's successors are exactly intent, retrieval and memory. The only edge into reasoning waits for all three. |
| AgentGraph.RoutesInPathMaps | agents/graph.py:83-106 | Every route either router returns is a key of its path map. It leads to the escalate node exactly when the state is escalated. |
| AgentGraph.GraphCache.constructor | agents/graph.py:114 | The cache starts empty, with no build yet. |
| AgentGraph.GraphCache.GetGraph | agents/graph.py:117-122 | Builds the graph only when the cache is empty, and returns the cached graph otherwise. |
| AgentGraph.GetGraphTwice | agents/graph.py:117-122 | Two calls return the same graph after a single build. |
| AgentGraph.FanOutDisjoint | agents/graph.py:89-95 | The three parallel stages write pairwise disjoint keys. |
| AgentGraph.FanOutOrderFree | agents/graph.py:89-95 | Every order of merging the three branch updates gives the same state. |
| AgentGraph.MiddleStagesKeepFlags | agents/graph.py:89-98 | The parallel stages, reasoning and synthesis never write `escalate` or `final_response`. |
| AgentGraph.GuardrailsSetsFinal | agents/graph.py:99 | Guardrails always sets a final response. When not escalated and it writes no `escalate`, the draft was empty. (Also agents/guardrails_agent.py:20-53.) |
| AgentGraph.GuardedStateAnswered | agents/graph.py:97-108 | After guardrails the state has a final response, and the run ends through the route guardrails chose. |
| AgentGraph.TerminalSpec | agents/graph.py:43-59 | Both terminals leave a final response, and the run ends at escalate exactly when the state is escalated. (Also lines 102-108.) |
| AgentGraph.RunTailSpec | agents/graph.py:95-108 | Reasoning to the end takes four steps, and ends at escalate iff the final state is escalated. |
| AgentGraph.EscalatedIngestionSkipsStages | agents/graph.py:36-40 | An input escalated at ingestion goes straight to escalate. The only call made is the policy check, and the final response is the escalation message. (Also lines 55-59, 83-87.) |
| AgentGraph.LateRunIsTail | agents/graph.py:82-108 | Otherwise the run is ingestion, planner and the fan-out, followed by the four-step tail. The fan-out never escalates. |
| AgentGraph.RunEndsAnswered | agents/graph.py:55-59 | Every run ends with a non-empty final response, at the escalate node exactly when it is escalated. (Also lines 82-108.) |
| AgentGraph.RunGraph | agents/graph.py:62-115 | One `invoke` of the compiled graph. `EscalatedIngestionSkipsStages`, `LateRunIsTail`, `RunEndsAnswered` and `FlaggedInputNeverReachesLlm` characterise it. |
| AgentGraph.FlaggedInputNeverReachesLlm | agents/graph.py:36-40 | Input that moderation flags escalates at ingestion, and no LLM is ever called. (Also agents/ingestion.py:26-27; guardrails/layer.py:119-128.) |
| QaValidation.AnyPhraseSpec | agents/qa_validation.py:256 | `any(p in s ...)` holds iff some phrase occurs in s. |
| QaValidation.IsNoAnswer | agents/qa_validation.py:244-256 | `_is_no_answer_response`. `IsNoAnswerSpec` and `NoAnswerWherever` characterise it. |
| QaValidation.IsNoAnswerSpec | agents/qa_validation.py:244-256 | A response is a no-answer iff its lower-cased text contains one of the seven phrases. |
| QaValidation.ContainsInfix | agents/qa_validation.py:256 | A phrase occurs in any text that embeds it. |
| QaValidation.LowerConcat | agents/qa_validation.py:246 | Lower-casing distributes over concatenation. |
| QaValidation.PhrasesLower | agents/qa_validation.py:247-255 | The phrases are already lower case. |
| QaValidation.LowerUnchanged | agents/qa_validation.py:246 | A text with no upper-case letter is unchanged by lower-casing. |
| QaValidation.NoAnswerWherever | agents/qa_validation.py:244-256 | A response that contains a phrase, with any text around it, is a no-answer. |
| QaValidation.ParseBehaviorName | agents/qa_validation.py:360 | A behaviour name and its parse correspond both ways. |
| QaValidation.FinalAction | agents/qa_validation.py:189-195 | The action is escalate exactly when the run escalated. It is answer exactly when the run did not escalate and the response is non-empty and not a no-answer. |
| QaValidation.AgentsRanSpec | agents/qa_validation.py:159-162 | IntentAgent is listed iff an intent result is present. RAGAgent is listed iff some chunk was retrieved. |
| QaValidation.FromGraphState | agents/qa_validation.py:156-211 | The response's answer is the final response, and its action follows `FinalAction`. The docs-used count is the number of retrieved chunks, positive iff something was retrieved. Memory use and guardrails triggering are read off the state as the source does. |
| QaValidation.FromApiReply | agents/qa_validation.py:213-242 | The API path uses the same action rule, with zero docs, no memory and no agents. |
| QaValidation.BothPathsAgree | agents/qa_validation.py:189-224 | On the same state, the graph path and the API path give the same action. |
| QaValidation.GraphRunAction | agents/qa_validation.py:186-195 | For a real graph run: no_answer iff not escalated and the response reads as a no-answer (it is never empty). Escalate iff the run ended at the escalate node. (Also agents/graph.py:55-59.) |
| QaValidation.HasRuleConcat | agents/qa_validation.py:262-371 | A rule is present in a + b iff it is present in a or in b. The verdicts combine the same way. |
| QaValidation.CheckRule | agents/qa_validation.py:265-358 | A single conditional check yields its rule exactly when it applies, with its verdict. |
| QaValidation.Assertions | agents/qa_validation.py:258-371 | `run_assertions`: one conditional check per rule, in the order they are appended. `RuleInAssertions`, `GroundingRules`, `HallucinationRules`, `EscalationTest` and `BehaviorMatchLast` characterise it. |
| QaValidation.RuleInAssertions | agents/qa_validation.py:258-371 | A rule appears among the assertions iff it applies, and it carries its verdict. |
| QaValidation.GroundingRules | agents/qa_validation.py:265-285 | Answer cases get the grounding rule "docs > 0". No-answer cases get "docs == 0". Others get neither. |
| QaValidation.HallucinationRules | agents/qa_validation.py:289-303 | With no docs, the response must be no_answer with an uncertainty phrase. |
| QaValidation.BehaviorMatchLast | agents/qa_validation.py:359-371 | The behaviour-match check is always last, and only there. |
| QaValidation.EscalationTest | agents/qa_validation.py:265-358 | An escalation case gets no grounding, out-of-scope or planning checks, and fails unless the action is escalate. |
| QaValidation.FailedRulesSpec | agents/qa_validation.py:384-387 | The failed rules are exactly the rules of failed assertions. There are none iff every assertion passed. |
| QaValidation.RunTestCase | agents/qa_validation.py:373-425 | The result keeps the case's id, query and expected behaviour, and passes iff no rule failed. An invocation error gives exactly one failed EXECUTION_ERROR assertion. |
| QaValidation.TestPassesIff | agents/qa_validation.py:384-396 | A case passes iff the invocation succeeded and every assertion passed. |
| QaValidation.ErrorIffRaised | agents/qa_validation.py:408-425 | EXECUTION_ERROR is among the failed rules iff the invocation raised. |
| QaValidation.PassedCount | agents/qa_validation.py:471 | The passed count is at most the number of results. |
| QaValidation.Count | agents/qa_validation.py:484-497 | One result counted in the first category its failed rules select: execution error, hallucination, then the name tests. |
| QaValidation.BreakdownOf | agents/qa_validation.py:475-497 | The category breakdown of a list of results. `BreakdownAtMostFailed` bounds it, and `CountFailures` computes it with a loop. |
| QaValidation.BreakdownAtMostFailed | agents/qa_validation.py:484-497 | Each failed result is counted in at most one category, so the breakdown total is at most the failed count. |
| QaValidation.RunCases | agents/qa_validation.py:464-466 | The loop runs each case once, in order. |
| QaValidation.CountFailures | agents/qa_validation.py:484-497 | The category loop computes `BreakdownOf(results)`. |
| QaValidation.RunAllTests | agents/qa_validation.py:452-514 | One result per case, in order. passed + failed == total. The breakdown counts at most the failed cases. |
| Presentation.LeadingDigits | scripts/create_presentation.py:172-176 | The leading run of decimal digits: every character in it is a digit, and the character after it is not. |
| Presentation.RemoveBold | scripts/create_presentation.py:167 | Removing `**…**` markers never lengthens the text. |
| Presentation.RemoveBoldPlain | scripts/create_presentation.py:167 | Text without any `*` is left unchanged. |
| Presentation.RemoveBoldWord | scripts/create_presentation.py:167 | `**w**` followed by more text becomes w, followed by the rest with its markers removed. |
| Presentation.ClosingMarker | scripts/create_presentation.py:167 | The lazy `(.+?)` closes at the first `**` after at least one character. |
| Presentation.RemoveBoldAt | scripts/create_presentation.py:167 | One replacement: from an opening `**`, the shortest non-empty content up to the next `**` is kept without its markers. |
| Presentation.FindSubFirst | scripts/create_presentation.py:167 | The first occurrence found is at or before any occurrence. |
| Presentation.Kind | scripts/create_presentation.py:130-178 | How a right-stripped line is classified: separator, fence, header, bullet, numbered or text. `SeparatorLine`, `FenceLine`, `ItemLine` and `TextLineJoins` characterise it. |
| Presentation.Step | scripts/create_presentation.py:127-184 | One iteration of the line loop. `RunSnoc`, `CodeModeParity` and `StepNoEmpty` characterise it. |
| Presentation.ParseLines | scripts/create_presentation.py:121-187 | `parse_content_lines` over the split lines, with the final flush. `RunNoEmpty`, `ParagraphsNonEmpty`, `ElementsAtMostLines` and `PlainTextIsOneParagraph` characterise it. |
| Presentation.ParseContentLines | scripts/create_presentation.py:119-186 | The imperative line loop produces `ParseLines` of `content.split('\n')`. |
| Presentation.RunSnoc | scripts/create_presentation.py:127-181 | Each line is one step of the parser. |
| Presentation.SeparatorLine | scripts/create_presentation.py:130-135 | An empty or `---` line flushes the paragraph, emits nothing else, and keeps the code mode. |
| Presentation.FenceLine | scripts/create_presentation.py:137-142 | A fence line flushes the paragraph and toggles the code mode. |
| Presentation.CodeLine | scripts/create_presentation.py:144-146 | Inside a code block every other line joins the paragraph verbatim (right-stripped). |
| Presentation.TextLineJoins | scripts/create_presentation.py:181 | A plain line joins the current paragraph. |
| Presentation.ItemLine | scripts/create_presentation.py:149-178 | Outside code, a `###` line emits a header, a bullet line emits a bullet with its bold markers removed, and a numbered line emits the text after `N.` and spaces. |
| Presentation.BulletNotNested | scripts/create_presentation.py:157-165 | Once right-stripped lines reach the bullet test, a line starting `  - ` never passes `- `/`* `, so every bullet has indent 0. |
| Presentation.Fences | scripts/create_presentation.py:137 | The number of fence lines is at most the number of lines. |
| Presentation.CodeModeParity | scripts/create_presentation.py:137-142 | After any lines, the parser is in code mode iff an odd number of them were fences. |
| Presentation.StepInCode | scripts/create_presentation.py:137-142 | Only a fence line flips the code mode. |
| Presentation.FlushNoEmpty | scripts/create_presentation.py:131-133 | Flushing emits only non-empty paragraphs. |
| Presentation.RunNoEmpty | scripts/create_presentation.py:127-184 | The parser never holds an empty paragraph element or an empty pending line list. |
| Presentation.StepNoEmpty | scripts/create_presentation.py:127-181 | Each step keeps that invariant. |
| Presentation.ParagraphsNonEmpty | scripts/create_presentation.py:131-184 | Every paragraph element has non-empty text. |
| Presentation.RunPending | scripts/create_presentation.py:127-181 | Elements plus pending lines never outnumber the lines read. |
| Presentation.ElementsAtMostLines | scripts/create_presentation.py:119-186 | There are never more elements than lines. |
| Presentation.RStripAll | scripts/create_presentation.py:128 | Right-stripping keeps the number of lines. |
| Presentation.RunPlain | scripts/create_presentation.py:181 | Plain lines only accumulate, right-stripped, in the paragraph. |
| Presentation.PlainTextIsOneParagraph | scripts/create_presentation.py:181-184 | Plain text becomes a single paragraph of its right-stripped lines joined by newlines. |
| CorpusGenerator.ClampAsWritten | scripts/generate_corpus.py:28-32 | A text within max_w words is returned unchanged. |
| CorpusGenerator.ClampAsWrittenOverflows | scripts/generate_corpus.py:32 | A longer text keeps max_w + 1 words, one over the maximum. |
| CorpusGenerator.Clamp | scripts/generate_corpus.py:28-32 | The corrected clamp also returns a text within max_w words unchanged. |
| CorpusGenerator.ClampWithinMax | scripts/generate_corpus.py:28-32 | The corrected clamp keeps exactly the first max_w words of a longer text, so no result exceeds max_w. |
| CorpusGenerator.Sections | scripts/generate_corpus.py:117-131 | The n sections drawn are section(0) … section(n-1). |
| CorpusGenerator.SectionsSnoc | scripts/generate_corpus.py:117-131 | One more section appends the next draw. |
| CorpusGenerator.SumWordsSnoc | scripts/generate_corpus.py:117 | The word count of the space-joined parts grows by the new part's words. |
| CorpusGenerator.GrowParts | scripts/generate_corpus.py:116-131 | The section loop appends drawn sections until the parts reach 1500 words. It stops at the first point where they do. (Also lines 181-197, 217-231.) |
| CorpusGenerator.SectionedDocument | scripts/generate_corpus.py:97-132 | The runbook, incident and product documents, as written: the initial parts plus the drawn sections, clamped by `_ensure_word_count`. They have between 1500 and 1801 words. With an introduction of at most 1800 words and sections of at most 300, the text is returned unclamped with at most 1800 words, so the off-by-one of line 32 stays latent. (Also lines 169-232.) |
| CorpusGenerator.GrowthStaysUnder | scripts/generate_corpus.py:116-131 | The growth loop overshoots 1500 words by at most its last section. With an introduction of at most 1800 words and sections of at most 300, the parts hold at most 1800 words. |
| CorpusGenerator.BoundedCard | scripts/generate_corpus.py:147-153 | The set of distinct FAQ items seen is bounded by the item count. |
| CorpusGenerator.TimesMono | scripts/generate_corpus.py:148 | Repeated addition is monotone in the count. |
| CorpusGenerator.TimesIsProduct | scripts/generate_corpus.py:148 | Repeated addition is multiplication. |
| CorpusGenerator.CollectFaqItems | scripts/generate_corpus.py:146-165 | The FAQ loop as written adds one part per new item key, so every part after the header has a distinct key. It never holds more words than the header plus the seen items' words. |
| CorpusGenerator.FaqStep | scripts/generate_corpus.py:149-165 | Accepting an unseen item keeps that bound. |
| CorpusGenerator.FaqContent | scripts/generate_corpus.py:135-166 | As written, the text is produced only once the parts reach 1500 words, and it is clamped by `_ensure_word_count` as written. When the header and every item together are shorter, no text is ever produced: the loop runs forever. |
| CorpusGenerator.FaqContentFixed | scripts/generate_corpus.py:135-166 | The corrected FAQ adds the answers in a given order of distinct items. It stops at 1500 words or when the items run out, and never exceeds 1800 words. |
| CorpusGenerator.CollectAnswers | scripts/generate_corpus.py:146-165 | The corrected loop: the header, then the answers in order, stopping at 1500 words or at the end of the list. |
| CorpusGenerator.Answers | scripts/generate_corpus.py:165 | One part per item of the order. |
| CorpusGenerator.AnswerStep | scripts/generate_corpus.py:165 | Appending the next answer extends both the parts and their word count. |
| CorpusGenerator.AnswersAt | scripts/generate_corpus.py:165 | The i-th part is the answer of the i-th item. |
| CorpusGenerator.GenerateDocuments | scripts/generate_corpus.py:235-262 | One document per index, with stem "type_NNN" for index i + 1. |
| CorpusGenerator.StemIndex | scripts/generate_corpus.py:246 | The last three characters of the stem read back as the index. |
| CorpusGenerator.StemsDistinct | scripts/generate_corpus.py:246 | Different indices below 1000 give different stems. |
| Common.Lower | agents/ingestion.py:21 | `lower()` keeps the length and maps each character. (Also agents/qa_validation.py:246.) |
| Common.LeadingSpacesSpec | agents/ingestion.py:20 | The leading run is all spaces, and is followed by a non-space. |
| Common.TrailingSpacesSpec | scripts/create_presentation.py:128 | The trailing run is all spaces, and is preceded by a non-space. |
| Common.Strip | agents/ingestion.py:20 | `str.strip()`. `StripEmptyIffBlank`, `StripEnds` and `StripLength` characterise it. |
| Common.StripEmptyIffBlank | agents/ingestion.py:20-22 | `strip()` gives "" exactly for blank text. |
| Common.StripEnds | agents/ingestion.py:20 | A non-empty stripped text starts and ends with a non-space. |
| Common.StripLength | agents/ingestion.py:20 | Stripping never lengthens. |
| Common.Take | agents/ingestion.py:21 | `s[:n]` has at most n items, and is s itself when s is short enough. |
| Common.Drop | memory/store.py:145 | `OFFSET n` drops n items, or everything. |
| Common.FindSub | agents/intent.py:54 | `find` returns the first position where the pattern starts, or fails exactly when the pattern does not occur. |
| Common.Replace | agents/knowledge_retrieval.py:35 | `replace` leaves a text without the pattern unchanged. |
| Common.ReplaceLengthens | agents/knowledge_retrieval.py:35 | Replacing "12th" or "science" by a longer text, when present, lengthens the query. |
| Common.ReplaceNotShorter | agents/knowledge_retrieval.py:35 | Replacing with something at least as long never shortens. |
| Common.Join | scripts/create_presentation.py:132 | Joining no parts gives "", and one part gives itself. |
| Common.IndexOf | agents/intent.py:54 | The first occurrence of a character, or None when it is absent. |
| Common.Split | scripts/create_presentation.py:121 | `split('\n')` gives at least one piece, none containing the separator. |
| Common.JoinSplit | scripts/create_presentation.py:121 | Splitting and joining back gives the original text. |
| Common.NatToString | scripts/generate_corpus.py:246 | The decimal rendering is all digits, with no leading zero beyond a single digit. |
| Common.NatToStringInjective | scripts/generate_corpus.py:246 | Different numbers render differently. |
| Common.Pad3 | scripts/generate_corpus.py:246 | `{idx:03d}` gives at least three digits. |
| Common.Pad3Small | scripts/generate_corpus.py:246 | It gives exactly three for numbers below 1000. |
| Common.Pad3RoundTrip | scripts/generate_corpus.py:246 | Reading the padded digits back gives the number. |
| Common.IndexedNamesDiffer | agents/dataset_generator.py:839-852 | Names that differ only in a 3-digit index below 1000 differ. |
| Common.FirstMissing | agents/dataset_generator.py:768 | `str.format` with keywords raises KeyError at the first placeholder not supplied. It succeeds iff every placeholder is supplied. |
| Common.FirstMissingIs | agents/dataset_generator.py:768 | Placeholders supplied up to a missing one make that one the error. |
| DatasetGenerator.ExpandFaq | agents/dataset_generator.py:713-720 | The FAQ loop appends "\n\n" + template until the text reaches 2250 words: the fewest copies that do, at least one. The clamped result has between 2250 and 2700 words. (Also lines 750-755, 779-784.) |
| DatasetGenerator.ExpandStep | agents/dataset_generator.py:719 | One more copy adds the template's word count. |
| DatasetGenerator.RepeatSnoc | agents/dataset_generator.py:719 | m + 1 copies are m copies plus one. |
| DatasetGenerator.PdfName | agents/dataset_generator.py:836 | `{domain}_runbook_{i:03d}_{env}.pdf`. Its distinctness is not proved: see "Left out". |
| DatasetGenerator.DocxName | agents/dataset_generator.py:841 | `{domain}_faq_{i:03d}.docx`. `FileNamesDistinct` shows different indices give different names. |
| DatasetGenerator.ErrorCodesName | agents/dataset_generator.py:846 | `{domain}_error_codes_{i:03d}.txt`. `FileNamesDistinct` and `TxtKindsDiffer` characterise it. |
| DatasetGenerator.ConfigReferenceName | agents/dataset_generator.py:847 | `{domain}_config_reference_{i:03d}.txt`. `FileNamesDistinct` and `TxtKindsDiffer` characterise it. |
| DatasetGenerator.ImageName | agents/dataset_generator.py:852 | `{domain}_architecture_diagram_{i:03d}.png`. `FileNamesDistinct` characterises it. |
| DatasetGenerator.RunbookName | agents/dataset_generator.py:833-836 | The i-th runbook name from draws 2i and 2i + 1. `RunbookNames` states the loop produces it. |
| DatasetGenerator.FaqName | agents/dataset_generator.py:839-841 | The i-th FAQ name from draw 80 + i. `FaqNames` states the loop produces it. |
| DatasetGenerator.TextPair | agents/dataset_generator.py:844-847 | The i-th pair of text names, sharing draw 110 + i. `TextNames` states the loop produces them. |
| DatasetGenerator.DiagramName | agents/dataset_generator.py:850-852 | The i-th diagram name from draw 130 + i. `DiagramNames` states the loop produces it. |
| DatasetGenerator.RunbookNames | agents/dataset_generator.py:833-836 | 40 runbook names. The i-th is built from the 2i-th and (2i+1)-th draws and index i + 1. |
| DatasetGenerator.FaqNames | agents/dataset_generator.py:839-841 | 30 FAQ names. The i-th is built from draw 80 + i. |
| DatasetGenerator.TextNames | agents/dataset_generator.py:844-847 | 40 text names. Pair i is the error-code and configuration references of draw 110 + i, in that order. |
| DatasetGenerator.DiagramNames | agents/dataset_generator.py:850-852 | 10 diagram names. The i-th is built from draw 130 + i. |
| DatasetGenerator.GenerateDatasetFileList | agents/dataset_generator.py:817-854 | 120 names whatever `count` is: 40 PDF, 30 DOCX, 40 TXT and 10 images. |
| DatasetGenerator.FileNamesDistinct | agents/dataset_generator.py:839-852 | FAQ, text-reference and diagram names with different indices differ. An error-code name never equals a configuration name. |
| DatasetGenerator.TxtKindsDiffer | agents/dataset_generator.py:846-847 | An error-code reference and a configuration reference never coincide. |
| DatasetGenerator.KafkaRunbookKeyError | agents/dataset_generator.py:343-406 | As written, formatting the Kafka runbook raises KeyError for `consumer_service`, its first placeholder with no keyword. (Also lines 768-777.) |
| DatasetGenerator.KafkaRunbookFormats | agents/dataset_generator.py:403 | With `consumer_service` and `broker_host` supplied, every placeholder is filled. (Also lines 406, 768-777.) |
| EducationLoanGenerator.PdfName | agents/education_loan_dataset_generator.py:724 | `{domain}_runbook_{i:03d}_{region}_{env}.pdf`. Its distinctness is not proved. |
| EducationLoanGenerator.DocxName | agents/education_loan_dataset_generator.py:731 | `{domain}_{doc_type}_{i:03d}.docx`. |
| EducationLoanGenerator.ErrorCodesName | agents/education_loan_dataset_generator.py:736 | `{domain}_error_codes_{i:03d}.txt`. `TxtNamesDistinct` characterises it. |
| EducationLoanGenerator.ConfigReferenceName | agents/education_loan_dataset_generator.py:737 | `{domain}_config_reference_{i:03d}.txt`. `TxtNamesDistinct` characterises it. |
| EducationLoanGenerator.ImageName | agents/education_loan_dataset_generator.py:742 | `{domain}_architecture_diagram_{i:03d}.png`. |
| EducationLoanGenerator.RunbookName | agents/education_loan_dataset_generator.py:720-724 | The i-th runbook name from draws 3i, 3i + 1 and 3i + 2. `RunbookNames` states the loop produces it. |
| EducationLoanGenerator.DocumentName | agents/education_loan_dataset_generator.py:728-731 | The i-th document name from draws 120 + 2i and 121 + 2i. `DocumentNames` states the loop produces it. |
| EducationLoanGenerator.TextPair | agents/education_loan_dataset_generator.py:734-737 | The i-th pair of text names, sharing draw 180 + i. `TextNames` states the loop produces them. |
| EducationLoanGenerator.DiagramName | agents/education_loan_dataset_generator.py:740-742 | The i-th diagram name from draw 200 + i. `DiagramNames` states the loop produces it. |
| EducationLoanGenerator.RunbookNames | agents/education_loan_dataset_generator.py:720-724 | 40 runbook names. The i-th uses draws 3i (type), 3i + 1 (environment) and 3i + 2 (region), with index i + 1. |
| EducationLoanGenerator.DocumentNames | agents/education_loan_dataset_generator.py:728-731 | 30 document names. The i-th uses draws 120 + 2i (domain) and 121 + 2i (kind). |
| EducationLoanGenerator.TextNames | agents/education_loan_dataset_generator.py:734-737 | 40 text names. Pair i is the error-code and configuration references of draw 180 + i. |
| EducationLoanGenerator.DiagramNames | agents/education_loan_dataset_generator.py:740-742 | 10 diagram names. The i-th is built from draw 200 + i. |
| EducationLoanGenerator.GenerateFilenameList | agents/education_loan_dataset_generator.py:704-745 | 120 names whatever `count` is: 40/30/40/10. |
| EducationLoanGenerator.TxtNamesDistinct | agents/education_loan_dataset_generator.py:734-737 | Text references with different indices differ. |
| EducationLoanGenerator.PaymentRunbookKeyError | agents/education_loan_dataset_generator.py:47-212 | As written, formatting the sample runbook raises KeyError for `loan_ids`. (Also lines 753-760.) |
| EducationLoanGenerator.PaymentRunbookFormats | agents/education_loan_dataset_generator.py:149 | With `loan_ids`, `loan_id` and `payment_id` supplied, every placeholder is filled. (Also lines 212, 753-760.) |
| IngestionStage.StripIdentity | agents/ingestion.py:20 | A text with no space at either end is its own `strip()`. |
| IntentStage.StripFenceAt | agents/intent.py:53-56 | After an opening fence, the text up to the next fence is kept, without a leading "json" tag when there is one. |
| KnowledgeRetrievalStage.TryExpanded | agents/knowledge_retrieval.py:38-44 | It makes at most one call per candidate. |
| Common.ParseNatToString | scripts/generate_corpus.py:246 | Reading a decimal rendering back gives the number. |
| Common.FirstMissingAfter | agents/dataset_generator.py:768 | Placeholders that are all supplied do not change where formatting fails. |

## Left out

- The LLM calls, the moderation service's network call, the Chroma client and embedding choice, SHA-256, the JSON codec, regular-expression search and `str()` of arbitrary objects are parameters.
  - Their results are arbitrary.
  - Only one property of the JSON codec is assumed, as an explicit precondition of the two lemmas that need it: the one object the pipeline encodes there decodes back to itself. No codec is assumed to round-trip every value; floats and arbitrary objects do not.
- Logging is not modelled, and neither are the floating-point values that are only logged: timestamps, durations and the distance statistics of knowledge retrieval. Tool events carry no timestamps or duration.
- The parallel fan-out is modelled as a sequential merge of the three updates. `AgentGraph.FanOutOrderFree` shows that the order does not matter. Threads and LangGraph's scheduler are not modelled.
- SQLite mechanics are replaced by a sequence of rows in insertion order and a logical clock: the connection, the schema, the ISO timestamps and `datetime_from_iso`.
  - Creation times are strictly increasing, so ties in `created_at`, which SQLite leaves unordered, do not arise.
  - The wall clock is not modelled.
- `limit`, `offset` and `max_items` are natural numbers. SQLite's negative `LIMIT` and Python's negative slicing are not modelled.
- `lower` is modelled over ASCII letters only: Unicode case mapping is not modelled. Whitespace, for `strip`, `split` and `\S`, is the set of characters Python's `str.isspace` accepts. `\d` is modelled as the ASCII digits only.
- `rng.choice(options)` is `options[d % len(options)]` for an arbitrary draw `d`. The Mersenne Twister and `rng.choices` weights are not modelled.
- The generators' template texts are not modelled.
  - Only the placeholder lists of the two runbooks that fail to format are kept, in order of first appearance, as `str.format` meets them.
  - Formatting is modelled only as which placeholder raises first.
- `CorpusGenerator.GenerateDocuments`: produces only each document's type and stem. The content of each type is modelled separately (`SectionedDocument`, `FaqContentFixed`), not generated per document.
- `CorpusGenerator.FaqContent`: the as-written loop runs for at most `fuel` draws. Its ensures state what holds after that many draws. Non-termination shows as `None` whatever the fuel.
- `DatasetGenerator.ExpandFaq`: requires a template with at least one word. The source's templates are fixed non-empty texts, and with an empty one its loop would never end.
- `DatasetGenerator.GenerateDatasetFileList`: states only the sizes of the four lists. The name of every element is stated by the four loop methods it calls (`RunbookNames`, `FaqNames`, `TextNames`, `DiagramNames`).
- `EducationLoanGenerator.GenerateFilenameList`: the same. Per-element names are stated by `RunbookNames`, `DocumentNames`, `TextNames` and `DiagramNames`.
- `DatasetGenerator.FileNamesDistinct`: covers the FAQ, text and diagram names. Distinctness of the runbook PDF names is not proved.
- `QaValidation.BreakdownAtMostFailed`: proves only that each failed result lands in at most one category. Which category a given set of failed rule names selects (the substring tests on `str(failed_rules)`) is not proved.
- The QA harness's HTTP path, `load_test_cases` (file I/O), the assertion messages and the report printers are not modelled. Agent invocation is a parameter indexed by call number.
- `ReasoningStage.WorkingLine`: renders a non-string role or content through `str()`. The source slices `m.get('content', '')[:100]` directly (agents/reasoning.py:56), which raises TypeError for a number, a dict or null. Messages written by `add_working` always hold strings.
- `QaValidation.FromApiReply`: reads a null `final_response` as "". The action is the same as the source's, because `not final_response` decides it first. The source keeps None, though, and the later `_is_no_answer_response` call and `final_answer[:100]`/`[:500]` slices raise on it, so `run_test_case` reports an execution error where the model runs the assertions.
- `Presentation.RemoveBold`: lets `.` in `\*\*(.+?)\*\*` match every character. Bullet text never contains a newline, because the content is split on newlines first.
- Only `parse_content_lines` of the presentation builder is modelled. The slide regexes and the pptx rendering are not.
- The memory write of the reasoning stage and the synthesis event are recorded as calls. Their failure is swallowed in the source, and the model's update never depends on their outcome, so no failure is modelled.
- Configuration loading from the environment is not modelled. A run receives the loaded settings or `None` when loading raised, and the field defaults are constants.
- `WorkingMemory.AddWorkingBounded`: needs fewer than 9999 working records in the session before the add. With exactly 9999, `AddWorkingOverflow` shows that one record more than `max_items` survives, because the pruning listing is capped at 9999.
- `PipelineState` stores `memory_result` as a record, which is what the memory stage builds, rather than the `list` that `agents/state.py` declares.

## Findings

| source | as written | input that shows it | evidently intended | confidence | as-written member | corrected member |
|---|---|---|---|---|---|---|
| scripts/generate_corpus.py:32 | `" ".join(words[: max_w + 1])` keeps max_w + 1 words | any text with more than 1800 words: the result has 1801 (the content builders return it; see `SectionedDocument` for when it stays latent) | keep at most max_w words, as the generators in agents/ do | high (not executed) | CorpusGenerator.ClampAsWrittenOverflows | CorpusGenerator.ClampWithinMax |
| scripts/generate_corpus.py:147-153 | the FAQ loop draws until 1500 words, but skips any item already seen | the header plus all five FAQ items hold far fewer than 1500 words, so every later draw is a duplicate and the loop never ends | stop when the distinct items run out (or allow repeats) | high (not executed) | CorpusGenerator.FaqContent | CorpusGenerator.FaqContentFixed |
| agents/dataset_generator.py:768-777 | the Kafka runbook template uses `{consumer_service}` (line 403) and `{broker_host}` (line 406), which `format` is not given | `_generate_kafka_runbook(rng, "prod")` raises KeyError('consumer_service') | pass both keywords | high (not executed) | DatasetGenerator.KafkaRunbookKeyError | DatasetGenerator.KafkaRunbookFormats |
| agents/education_loan_dataset_generator.py:753-759 | the sample runbook template uses `{loan_ids}` (line 149), `{loan_id}` and `{payment_id}` (line 212), which `format` is not given | `generate_sample_documents()` raises KeyError('loan_ids') | pass the three identifiers | high (not executed) | EducationLoanGenerator.PaymentRunbookKeyError | EducationLoanGenerator.PaymentRunbookFormats |
| tools/observability.py:104 | the result is bounded by `_safe_value` when the event is built (line 36) and again in `to_dict` | a tool returning a 60-item list: the payload's marker reads "... 1 more" instead of "... 10 more" | bound the result once | medium (not executed) | Observability.AsWrittenMiscountsDropped | Observability.EmittedResultBoundedOnce |
