# Query orchestration for the personal / web / hybrid assistant

This project models the orchestration layer of a small question-answering web UI. A coordinator,
`AIAssistantService`, owns up to three backend adapters:

- a personal-documents retrieval adapter, `PersonalRAGService`;
- a web-search adapter, `WebSearchService`, which searches DuckDuckGo and then asks an LLM to answer;
- a hybrid adapter, `HybridRAGService`.

Each adapter turns whatever its engine returns, or the exception it raises, into a uniform
`(answer, source_description)` pair. The UI tabs guard every call against a missing coordinator
and a blank question.

The external engines are oracles: total functions from their request to
`Outcome<T> = Ok(value) | Err(msg)`. `Err(msg)` stands for the exception and `str(e)`. These
engines are the retrieval engine, the hybrid engine, the search provider and the completion
client. Every adapter `Query` is a total function, so no exception escapes by construction. Each
failure path is a branch the contracts name.

All failure markers start with the glyph `❌` (`Results.Failed`). The contracts state for each
layer exactly when a result is a failure.

Layout, one module per source file:

| file | module | models |
|---|---|---|
| Results.dfy | `Results` | `Option`, `Outcome`, the `QueryResult` pair, the failure marker |
| Text.dfy | `Text` | `in` on strings, `str.join`, `str.strip`, `f"{n}"` for integers |
| PersonalRag.dfy | `PersonalRag` | services/personal_rag_service.py |
| HybridRag.dfy | `HybridRag` | services/hybrid_rag_service.py |
| WebSearch.dfy | `WebSearch` | services/web_search_service.py |
| Coordinator.dfy | `Coordinator` | services/ai_assistant.py (class `AIAssistantService`) |
| PersonalRagTab.dfy, WebSearchTab.dfy, HybridRagTab.dfy, ComparisonTab.dfy | one module each | the `safe_*_query` guards in components/ |

Form of the model:

- The coordinator is a class. Its adapter fields are `Option` values that only `Create` and
  `InitializeServices` assign.
- The queries, `CompareAllSystems` and `IsAvailable` are functions that only read those fields.
  `GetSystemStatus` is a method without a `modifies` clause. So no query, status check or
  availability check can change which adapters exist. Repeated `IsAvailable()` calls agree,
  because it is a function of unchanged fields.
- `search_web` loops over the provider's hits. It is the method `WebSearch.SearchWeb`, proved
  equal to the function `WebSearch.SearchText`. Functions cannot call methods, so the function
  `WebSearch.Query` uses `SearchText`.
- The LLM calls are made explicit. `WebSearch.LlmCalls` lists the completion requests `query`
  issues, zero or one. `Query` consults the client only on that list, and
  `QueryUsesClientOnlyOnCalls` proves it.

Only the UI guards reject blank questions (components/*_tab.py:12-13). The coordinator's
`query_*` methods pass any question through.

## Model

| member | source | states |
|---|---|---|
| Coordinator.AIAssistantService.Create | services/ai_assistant.py:18-31 | Fails with "OPENAI_API_KEY not found in environment variables" exactly when the key is missing or empty. On failure no coordinator exists. Otherwise it returns a fresh coordinator whose three fields are what each adapter's construction yielded, each independently of the others. |
| Coordinator.AIAssistantService.constructor | services/ai_assistant.py:27-29 | Stores the key; all three adapter fields start absent. |
| Coordinator.AIAssistantService.InitializeServices | services/ai_assistant.py:33-55 | Attempts personal, web, then hybrid. A successful construction sets its field. A failing one leaves its field as it was and does not stop the later attempts. The key is unchanged. |
| Coordinator.AIAssistantService.QueryPersonalRag | services/ai_assistant.py:57-62 | Absent adapter: exactly ("Personal RAG Service not available", "❌ Service unavailable"). Present: the adapter's result unchanged. A failure exactly when absent or the engine raised. |
| Coordinator.AIAssistantService.QueryWebSearch | services/ai_assistant.py:64-69 | Absent adapter: exactly ("Web Search Service not available", "❌ Service unavailable"), a failure. Present: the adapter's result unchanged. |
| Coordinator.AIAssistantService.QueryHybridRag | services/ai_assistant.py:71-76 | Absent adapter: exactly ("Hybrid RAG Service not available", "❌ Service unavailable"). Present: the adapter's result unchanged. A failure exactly when absent or the engine raised. |
| Coordinator.AIAssistantService.CompareAllSystems | services/ai_assistant.py:78-86 | The personal, web and hybrid pairs in that order, each equal to the single-backend query. |
| Coordinator.ComparisonIsolated | services/ai_assistant.py:78-86 | Each pair of the comparison depends only on its own backend's adapter, so an absent or failing backend does not change the other two. |
| Coordinator.AIAssistantService.GetSystemStatus | services/ai_assistant.py:88-107 | Exactly three lines in the order personal, web, hybrid. Line k is the "✅ … Ready" line iff adapter k is present, else the "❌ … Not available" line. Some line is marked ready iff `IsAvailable()`. |
| Coordinator.StatusLinesDistinct | services/ai_assistant.py:92-105 | The ready and not-available lines of every backend differ, and only the ready line carries the ready glyph. |
| Coordinator.AIAssistantService.IsAvailable | services/ai_assistant.py:109-111 | True iff at least one of the three adapters, taken in the fixed order, is present. |
| WebSearch.SearchRequestFor | services/web_search_service.py:25 | The provider is asked for the original question with at most 3 results. |
| WebSearch.FormatAll | services/web_search_service.py:25-26 | One rendered block per hit, in provider order, each `"**" + title + "**\n" + href + "\n" + body + "\n"`. |
| WebSearch.SearchWeb | services/web_search_service.py:20-30 | The loop over the hits computes exactly `SearchText` of the provider's outcome for the adapter's request. |
| WebSearch.SearchFailureText | services/web_search_service.py:28-30 | A provider failure yields "Search error: " + message, and that text short-circuits. |
| WebSearch.NoHitsText | services/web_search_service.py:27 | Zero hits yield exactly "No results found.", and that text short-circuits. |
| WebSearch.HitsText | services/web_search_service.py:24-27 | With hits, every rendered hit occurs in the text. Splitting the hit list after k hits splits the text at one "\n---\n" separator, so provider order is kept. |
| WebSearch.EmptyEvidenceSkipsLlm | services/web_search_service.py:36-39 | On a provider failure or zero hits, no completion request is issued. The result is (search text, "❌ Web search failed"). |
| WebSearch.ShortCircuitResult | services/web_search_service.py:38-39 | Whenever the search text contains a marker phrase, no completion is requested and the result is exactly (search text, "❌ Web search failed"). |
| WebSearch.MarkerInHitShortCircuits | services/web_search_service.py:38-39 | The test is a substring test. A genuine hit whose rendering contains "Search error" or "No results found" also suppresses the completion, and the result is exactly (search text, "❌ Web search failed"). |
| WebSearch.TitleNoResultsFoundShortCircuits | services/web_search_service.py:26-38 | A concrete instance: a hit titled "No results found" triggers the short-circuit. |
| WebSearch.OneLlmCallOtherwise | services/web_search_service.py:42-56 | Without a marker, exactly one completion is requested. It uses model "gpt-4o-mini", 500 max tokens and temperature 0.1. Its prompt contains the search text and the original question. |
| WebSearch.LlmOutcomeMapping | services/web_search_service.py:58-65 | Completion success gives (completion text, "🌐 Web Search (DuckDuckGo)"). Completion failure gives ("Error processing web search: " + message, "❌ Error"). |
| WebSearch.QueryUsesClientOnlyOnCalls | services/web_search_service.py:36-56 | Two completion clients that agree on the requests `LlmCalls` lists give the same result. So the client is never consulted on short-circuit, and only on the one prompt otherwise. |
| WebSearch.Query | services/web_search_service.py:32-65 | Total. The result is a failure exactly when no completion was requested or the completion raised. |
| HybridRag.Query | services/hybrid_rag_service.py:38-61 | Total. Engine failure gives ("Error with Hybrid RAG: " + message, "❌ Error"), and it is a failure exactly then. Otherwise the engine's answer is returned unchanged, and the source is `Describe` of the metadata, which names the engine's source combination. |
| HybridRag.DescriptionNamesKind | services/hybrid_rag_service.py:44-55 | The description's leading glyph recovers which of the four combinations of "local" and "web" the metadata reported. |
| HybridRag.BothSources | services/hybrid_rag_service.py:48-49 | Both used: "🔄 Hybrid: Personal docs (" heading, the local length in decimal, and a mention of the web. |
| HybridRag.LocalOnlySource | services/hybrid_rag_service.py:50-51 | Only local: "🏠 Personal documents only (" heading, the local length, and no mention of the web anywhere. |
| HybridRag.WebOnlySource | services/hybrid_rag_service.py:52-53 | Only web: exactly "🌐 Web search only". |
| HybridRag.NoKnownSource | services/hybrid_rag_service.py:44-55 | Neither source, a missing `sources_used` included: exactly "❓ Unknown sources". |
| HybridRag.MissingLocalLengthIsZero | services/hybrid_rag_service.py:45 | A missing `local_context_length` renders like an explicit 0. |
| HybridRag.WebLengthIgnored | services/hybrid_rag_service.py:46 | `web_context_length` never affects the description. |
| PersonalRag.Query | services/personal_rag_service.py:36-58 | Total. Engine failure gives ("Error with Personal RAG: " + message, "❌ Error"), and it is a failure exactly then. Otherwise the answer is the engine's, or "No answer generated" when missing. The source is `Describe` of the reported citations and files, a missing key counting as empty, and starts with "📚 Personal Documents". |
| PersonalRag.Distinct | services/personal_rag_service.py:48 | `set(files)`: no name twice, and exactly the names of the files list. |
| PersonalRag.DescribeStartsWithHeading | services/personal_rag_service.py:47-52 | Every success description starts with "📚 Personal Documents" and never with the failure glyph. |
| PersonalRag.DescribeWithFiles | services/personal_rag_service.py:47-48 | Citations and files: heading, the citations joined by ", " in engine order, " from ", then some duplicate-free listing of exactly the file names. |
| PersonalRag.DescribeWithoutFiles | services/personal_rag_service.py:49-50 | Citations without files: heading and the joined citations, no " from " part. |
| PersonalRag.DescribeWithoutSources | services/personal_rag_service.py:51-52 | No citations: exactly "📚 Personal Documents", whatever the files. |
| PersonalRag.DescribeMentionsEverySource | services/personal_rag_service.py:47-50 | Every citation label occurs in the description. |
| PersonalRag.DescribeMentionsEveryFile | services/personal_rag_service.py:47-48 | With citations, every file name occurs in the description. |
| PersonalRagTab.SafePersonalQuery | components/personal_rag_tab.py:7-15 | No coordinator: ("AI Assistant not initialized", "❌ System Error") whatever the question. Otherwise a blank question gives ("Please enter a question", "❌ Empty Query"). Otherwise `query_personal_rag` of the unstripped question. A failure exactly in the two rejections or when the delegated result is one. |
| PersonalRagTab.BlankQueryNeverDelegated | components/personal_rag_tab.py:12-13 | A question that strips to "" gives the empty-query pair whatever adapters the coordinator holds. |
| WebSearchTab.SafeWebQuery | components/web_search_tab.py:7-15 | The same guard chain over `query_web_search`, with the missing-coordinator check first. |
| WebSearchTab.BlankQueryNeverDelegated | components/web_search_tab.py:12-13 | A blank question never reaches the coordinator. |
| HybridRagTab.SafeHybridQuery | components/hybrid_rag_tab.py:7-15 | The same guard chain over `query_hybrid_rag`, with the missing-coordinator check first. |
| HybridRagTab.BlankQueryNeverDelegated | components/hybrid_rag_tab.py:12-13 | A blank question never reaches the coordinator. |
| ComparisonTab.SafeCompareQuery | components/comparison_tab.py:7-17 | No coordinator: "AI Assistant not initialized" / "❌ Error" in all three pairs. Otherwise a blank question gives "Please enter a question" / "❌ Empty" in all three. Otherwise `compare_all_systems` unchanged. Both rejections mark every pair as a failure. |
| ComparisonTab.BlankQueryNeverCompared | components/comparison_tab.py:13-15 | A blank question never reaches `compare_all_systems`. |
| Text.StripEmptyIffBlank | components/personal_rag_tab.py:12 | `not query.strip()` holds exactly for the strings made only of whitespace. |
| Text.JoinSplit | services/web_search_service.py:27 | `sep.join` keeps its parts in order: cutting the list cuts the text at one separator. |
| Text.ParseIntToString | services/hybrid_rag_service.py:49-51 | The decimal rendering of the local context length loses nothing: reading it back gives the number. |

## Left out

- Logging, `load_dotenv` and `os.getenv`: the key is a parameter of `Create`, `None` standing for an unset variable.
- The `sys.path` manipulation and dynamic imports in the adapter constructors, and the split between `ImportError` and other exceptions. Both re-raise, so construction is modelled as success or failure (`Coordinator.Backends`).
- Construction order: the model attempts personal, web, then hybrid as the source does. Nothing in the model can observe that order, since logging and constructor side effects are left out.
- The engines' own work (retrieval, embeddings, search, completion). The engines are oracle functions, so the model treats each engine as deterministic for a given request.
- The DuckDuckGo client is opened per search in the source. Here it is a provider held in the web adapter value. A provider that fails part-way through its hits is modelled as one failed outcome; the source also discards the partial hits then.
- PersonalRag.Distinct: Python's set iteration order is arbitrary. The model lists first occurrences, and the contracts state only de-duplication and membership.
- Text.IsWhitespace: covers the ASCII whitespace characters only, not every Unicode character that `str.strip` removes.
- Values of the wrong Python type are not modelled: a `None` answer, a non-list `sources_used`, a non-integer `local_context_length`, or a `None` completion content.
- The adapters' own `is_available` methods (`hasattr` checks): the coordinator never calls them. It tests its optional fields instead.
- Widget construction and layout, the `.click` wiring, app.py and the package re-exports in services/web_ui_init_files.py.
- The six-tuple returned by `compare_all_systems` and `safe_compare_query` is the datatype `Coordinator.Comparison`, three `(answer, source)` pairs in the tuple's order.
