/** The web-search adapter (`WebSearchService`): a search step that renders the provider's hits
    as text, then, unless that text reports a failure, one completion request that turns the
    hits into an answer. */
module WebSearch {
  import opened Results
  import opened Text

  /** One hit of the search provider: the `title`, `href` and `body` keys of its dictionary. */
  datatype Hit = Hit(title: string, href: string, body: string)

  /** The arguments of `ddgs.text(...)`. */
  datatype SearchRequest = SearchRequest(query: string, region: string, safesearch: string, maxResults: nat)

  /** The search provider (DuckDuckGo) as an oracle: the hits in ranking order, or the exception. */
  type SearchProvider = SearchRequest -> Outcome<seq<Hit>>

  /** The arguments of `client.chat.completions.create(...)`, with the single user message as `prompt`. */
  datatype ChatRequest = ChatRequest(model: string, prompt: string, maxTokens: nat, temperature: real)

  /** The completion provider (the OpenAI client) as an oracle: the first choice's content, or the exception. */
  type ChatClient = ChatRequest -> Outcome<string>

  /** A constructed adapter: the completion client it owns (`self.client`) and the search
      provider it opens on every search. */
  datatype WebSearchService = WebSearchService(client: ChatClient, search: SearchProvider)

  const MaxResults: nat := 3
  const Separator := "\n---\n"
  const NoResults := "No results found."
  const SearchErrorPrefix := "Search error: "
  const SearchFailedMarker := "❌ Web search failed"
  const WebSearchMarker := "🌐 Web Search (DuckDuckGo)"
  const ErrorPrefix := "Error processing web search: "
  const ErrorMarker := "❌ Error"
  const ChatModel := "gpt-4o-mini"
  const ChatMaxTokens: nat := 500
  const ChatTemperature: real := 0.1

  /** The search the adapter asks for: worldwide, moderate filtering, at most three hits. */
  function SearchRequestFor(query: string): (r: SearchRequest)
    ensures r.query == query && r.maxResults == MaxResults
  {
    SearchRequest(query, "wt-wt", "Moderate", MaxResults)
  }

  /** One hit as the markdown block the prompt embeds. */
  function FormatHit(hit: Hit): string
  {
    "**" + hit.title + "**\n" + hit.href + "\n" + hit.body + "\n"
  }

  /** Every hit formatted, in provider order. */
  function FormatAll(hits: seq<Hit>): (blocks: seq<string>)
    ensures |blocks| == |hits|
    ensures forall k :: 0 <= k < |hits| ==> blocks[k] == FormatHit(hits[k])
  {
    if hits == [] then [] else [FormatHit(hits[0])] + FormatAll(hits[1..])
  }

  /** The text `search_web` produces from the provider's outcome. */
  function SearchText(outcome: Outcome<seq<Hit>>): string
  {
    match outcome
    case Err(msg) => SearchErrorPrefix + msg
    case Ok(hits) => if |hits| > 0 then Join(Separator, FormatAll(hits)) else NoResults
  }

  /** `WebSearchService.search_web`: the provider's hits are collected one by one and then joined. */
  method SearchWeb(service: WebSearchService, query: string) returns (text: string)
    ensures text == SearchText(service.search(SearchRequestFor(query)))
  {
    match service.search(SearchRequestFor(query)) {
      case Err(msg) =>
        text := SearchErrorPrefix + msg;
      case Ok(hits) =>
        var results: seq<string> := [];
        var i := 0;
        while i < |hits|
          invariant 0 <= i <= |hits|
          invariant |results| == i
          invariant forall k :: 0 <= k < i ==> results[k] == FormatHit(hits[k])
        {
          results := results + [FormatHit(hits[i])];
          i := i + 1;
        }
        assert results == FormatAll(hits);
        text := if |results| > 0 then Join(Separator, results) else NoResults;
    }
  }

  /** The test `query` applies to the search text before spending a completion on it. */
  predicate ShortCircuits(searchText: string)
  {
    Contains(searchText, "Search error") || Contains(searchText, "No results found")
  }

  /** The fixed prompt template around the search text and the question. */
  function Prompt(searchText: string, query: string): string
  {
    "You are a research assistant. Based on the web search results below, provide a comprehensive "
    + "answer to the user's question. Always cite your sources with URLs when available.\n\n"
    + "Web Search Results:\n" + searchText + "\n\nQuestion: " + query + "\n\nAnswer:"
  }

  /** The completion requests `query` issues for a given search text, in order. */
  function LlmCalls(query: string, searchText: string): seq<ChatRequest>
  {
    if ShortCircuits(searchText) then []
    else [ChatRequest(ChatModel, Prompt(searchText, query), ChatMaxTokens, ChatTemperature)]
  }

  /** `WebSearchService.query`: total; the completion client is consulted only on the requests
      `LlmCalls` lists, and the result is a failure exactly when the search text reports one
      or the completion raised. */
  function Query(service: WebSearchService, query: string): (r: QueryResult)
    ensures
      var calls := LlmCalls(query, SearchText(service.search(SearchRequestFor(query))));
      Failed(r) <==> (calls == [] || service.client(calls[0]).Err?)
  {
    var text := SearchText(service.search(SearchRequestFor(query)));
    var calls := LlmCalls(query, text);
    if calls == [] then QueryResult(text, SearchFailedMarker)
    else
      match service.client(calls[0])
      case Ok(answer) => QueryResult(answer, WebSearchMarker)
      case Err(msg) => QueryResult(ErrorPrefix + msg, ErrorMarker)
  }

  // ---------------------------------------------------------------------------
  // The search step
  // ---------------------------------------------------------------------------

  /** A provider failure becomes "Search error: " and the provider's message. */
  lemma SearchFailureText(msg: string)
    ensures SearchText(Err(msg)) == "Search error: " + msg
    ensures ShortCircuits(SearchText(Err(msg)))
  {
    ContainsInfix("", "Search error", ": " + msg);
    assert "" + "Search error" + (": " + msg) == SearchText(Err(msg));
  }

  /** No hits give exactly "No results found.". */
  lemma NoHitsText()
    ensures SearchText(Ok([])) == "No results found."
    ensures ShortCircuits(SearchText(Ok([])))
  {
    ContainsInfix("", "No results found", ".");
    assert "" + "No results found" + "." == NoResults;
  }

  /** With hits, every formatted hit appears in the text, in provider order: splitting the
      hits after the first `k` splits the text at one separator. */
  lemma HitsText(hits: seq<Hit>, k: nat)
    requires k < |hits|
    ensures Contains(SearchText(Ok(hits)), FormatHit(hits[k]))
    ensures 0 < k ==>
      SearchText(Ok(hits)) == SearchText(Ok(hits[..k])) + Separator + SearchText(Ok(hits[k..]))
  {
    var blocks := FormatAll(hits);
    JoinContainsPart(Separator, blocks, k);
    if 0 < k {
      JoinSplit(Separator, blocks, k);
      assert blocks[..k] == FormatAll(hits[..k]);
      assert blocks[k..] == FormatAll(hits[k..]);
    }
  }

  // ---------------------------------------------------------------------------
  // The decision to call the completion provider
  // ---------------------------------------------------------------------------

  /** No completion is requested on empty evidence: a provider failure or zero hits
      short-circuit with the search text as the answer. */
  lemma EmptyEvidenceSkipsLlm(service: WebSearchService, query: string)
    requires var outcome := service.search(SearchRequestFor(query)); outcome.Err? || outcome == Ok([])
    ensures LlmCalls(query, SearchText(service.search(SearchRequestFor(query)))) == []
    ensures Query(service, query) == QueryResult(SearchText(service.search(SearchRequestFor(query))), SearchFailedMarker)
  {
    match service.search(SearchRequestFor(query))
    case Err(msg) => SearchFailureText(msg);
    case Ok(_) => NoHitsText();
  }

  /** Whatever the search text, once it contains a marker phrase no completion is requested and
      that text comes back under the search-failed marker. */
  lemma ShortCircuitResult(service: WebSearchService, query: string)
    requires ShortCircuits(SearchText(service.search(SearchRequestFor(query))))
    ensures LlmCalls(query, SearchText(service.search(SearchRequestFor(query)))) == []
    ensures Query(service, query) == QueryResult(SearchText(service.search(SearchRequestFor(query))), SearchFailedMarker)
  {
  }

  /** The marker test is a substring test, so a genuine hit whose text mentions one of the
      marker phrases also short-circuits, and its text is returned as a failure. */
  lemma MarkerInHitShortCircuits(service: WebSearchService, query: string, k: nat)
    requires var outcome := service.search(SearchRequestFor(query));
      outcome.Ok? && k < |outcome.value| && ShortCircuits(FormatHit(outcome.value[k]))
    ensures LlmCalls(query, SearchText(service.search(SearchRequestFor(query)))) == []
    ensures Query(service, query) == QueryResult(SearchText(service.search(SearchRequestFor(query))), SearchFailedMarker)
  {
    var hits := service.search(SearchRequestFor(query)).value;
    var text := SearchText(Ok(hits));
    var block := FormatHit(hits[k]);
    HitsText(hits, k);
    if Contains(block, "Search error") {
      ContainsTransitive(text, block, "Search error");
    } else {
      ContainsTransitive(text, block, "No results found");
    }
  }

  /** A concrete instance: a hit titled "No results found" suppresses the completion. */
  lemma TitleNoResultsFoundShortCircuits(href: string, body: string)
    ensures ShortCircuits(FormatHit(Hit("No results found", href, body)))
  {
    var rest := "**\n" + href + "\n" + body + "\n";
    ContainsInfix("**", "No results found", rest);
    assert "**" + "No results found" + rest == FormatHit(Hit("No results found", href, body));
  }

  /** Otherwise exactly one completion is requested, with the fixed model and sampling
      parameters and a prompt that embeds the search text and the original question. */
  lemma OneLlmCallOtherwise(query: string, searchText: string)
    requires !ShortCircuits(searchText)
    ensures |LlmCalls(query, searchText)| == 1
    ensures var call := LlmCalls(query, searchText)[0];
      && call.model == "gpt-4o-mini"
      && call.maxTokens == 500
      && call.temperature == 0.1
      && Contains(call.prompt, searchText)
      && Contains(call.prompt, query)
  {
    var intro := "You are a research assistant. Based on the web search results below, provide a comprehensive "
      + "answer to the user's question. Always cite your sources with URLs when available.\n\n"
      + "Web Search Results:\n";
    var prompt := Prompt(searchText, query);
    assert prompt == intro + searchText + ("\n\nQuestion: " + query + "\n\nAnswer:");
    ContainsInfix(intro, searchText, "\n\nQuestion: " + query + "\n\nAnswer:");
    assert prompt == (intro + searchText + "\n\nQuestion: ") + query + "\n\nAnswer:";
    ContainsInfix(intro + searchText + "\n\nQuestion: ", query, "\n\nAnswer:");
  }

  /** What the completion gives is what `query` returns: its text under the web-search marker,
      or its failure under the error marker. */
  lemma LlmOutcomeMapping(service: WebSearchService, query: string)
    requires !ShortCircuits(SearchText(service.search(SearchRequestFor(query))))
    ensures var call := LlmCalls(query, SearchText(service.search(SearchRequestFor(query))))[0];
      && (service.client(call).Ok? ==>
            Query(service, query) == QueryResult(service.client(call).value, "🌐 Web Search (DuckDuckGo)"))
      && (service.client(call).Err? ==>
            Query(service, query) == QueryResult("Error processing web search: " + service.client(call).msg, "❌ Error"))
  {
  }

  /** The completion client is never touched beyond the requests `LlmCalls` lists: two clients
      that agree on those requests give the same result. */
  lemma QueryUsesClientOnlyOnCalls(client1: ChatClient, client2: ChatClient, search: SearchProvider, query: string)
    requires forall call :: call in LlmCalls(query, SearchText(search(SearchRequestFor(query)))) ==> client1(call) == client2(call)
    ensures Query(WebSearchService(client1, search), query) == Query(WebSearchService(client2, search), query)
  {
    var calls := LlmCalls(query, SearchText(search(SearchRequestFor(query))));
    if calls != [] {
      assert calls[0] in calls;
    }
  }
}
