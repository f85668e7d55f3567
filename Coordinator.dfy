/** The service coordinator (`AIAssistantService`): it builds the three adapters once, each of
    which may fail to build on its own, and answers single, fan-out and status queries over
    whichever adapters exist. */
module Coordinator {
  import opened Results
  import PersonalRag
  import WebSearch
  import HybridRag

  /** The three backends, in the fixed order of the comparison view and the status panel. */
  datatype Backend = Personal | Web | Hybrid

  const Order: seq<Backend> := [Personal, Web, Hybrid]

  /** What constructing each adapter yields in this process: the engine each one wraps, or the
      exception its constructor raised. The completion client is built from the API key. */
  datatype Backends = Backends(
    personal: Outcome<PersonalRag.Engine>,
    openAi: string -> Outcome<WebSearch.ChatClient>,
    search: WebSearch.SearchProvider,
    hybrid: Outcome<HybridRag.Engine>)

  const MissingKeyMessage := "OPENAI_API_KEY not found in environment variables"
  const UnavailableMarker := "❌ Service unavailable"

  /** The answer a query on an absent adapter returns. */
  function UnavailableAnswer(b: Backend): string
  {
    match b
    case Personal => "Personal RAG Service not available"
    case Web => "Web Search Service not available"
    case Hybrid => "Hybrid RAG Service not available"
  }

  /** The status line of a built adapter. */
  function ReadyLine(b: Backend): string
  {
    match b
    case Personal => "✅ Personal RAG System: Ready"
    case Web => "✅ Web Search Agent: Ready"
    case Hybrid => "✅ Hybrid RAG System: Ready"
  }

  /** The status line of an adapter whose construction failed. */
  function MissingLine(b: Backend): string
  {
    match b
    case Personal => "❌ Personal RAG System: Not available"
    case Web => "❌ Web Search Agent: Not available"
    case Hybrid => "❌ Hybrid RAG System: Not available"
  }

  const ReadyGlyph: char := '✅'

  /** A status line that reports its backend ready. */
  predicate IsReadyLine(line: string)
  {
    |line| > 0 && line[0] == ReadyGlyph
  }

  /** The two lines of a backend are told apart by their first character. */
  lemma StatusLinesDistinct(b: Backend)
    ensures IsReadyLine(ReadyLine(b)) && !IsReadyLine(MissingLine(b))
    ensures ReadyLine(b) != MissingLine(b)
  {
  }

  /** Python's `any(...)` over a list of truth values. */
  predicate Any(flags: seq<bool>)
  {
    exists k :: 0 <= k < |flags| && flags[k]
  }

  /** The three pairs `compare_all_systems` returns as one six-field tuple, in the order
      personal answer, personal sources, web answer, web sources, hybrid answer, hybrid sources. */
  datatype Comparison = Comparison(personal: QueryResult, web: QueryResult, hybrid: QueryResult)
  {
    function Get(b: Backend): QueryResult
    {
      match b
      case Personal => personal
      case Web => web
      case Hybrid => hybrid
    }
  }

  /** The adapter a successful construction yields, or `None` when its constructor raised. */
  function BuiltPersonal(backends: Backends): Option<PersonalRag.PersonalRagService>
  {
    match backends.personal
    case Ok(engine) => Some(PersonalRag.PersonalRagService(engine))
    case Err(_) => None
  }

  function BuiltWeb(backends: Backends, apiKey: string): Option<WebSearch.WebSearchService>
  {
    match backends.openAi(apiKey)
    case Ok(client) => Some(WebSearch.WebSearchService(client, backends.search))
    case Err(_) => None
  }

  function BuiltHybrid(backends: Backends): Option<HybridRag.HybridRagService>
  {
    match backends.hybrid
    case Ok(engine) => Some(HybridRag.HybridRagService(engine))
    case Err(_) => None
  }

  class AIAssistantService {
    var apiKey: string
    var personalRag: Option<PersonalRag.PersonalRagService>
    var webSearch: Option<WebSearch.WebSearchService>
    var hybridRag: Option<HybridRag.HybridRagService>

    /** The state `__init__` reaches once the key is accepted: no adapter yet. */
    constructor (apiKey: string)
      ensures this.apiKey == apiKey
      ensures personalRag.None? && webSearch.None? && hybridRag.None?
    {
      this.apiKey := apiKey;
      personalRag := None;
      webSearch := None;
      hybridRag := None;
    }

    /** `AIAssistantService()`: a missing or empty key is fatal and builds nothing; otherwise
        every adapter is attempted and the coordinator exists whichever of them failed. */
    static method Create(apiKey: Option<string>, backends: Backends) returns (r: Outcome<AIAssistantService>)
      ensures r.Err? <==> (apiKey.None? || apiKey.value == "")
      ensures r.Err? ==> r.msg == MissingKeyMessage
      ensures r.Ok? ==>
        && fresh(r.value)
        && r.value.apiKey == apiKey.value
        && r.value.personalRag == BuiltPersonal(backends)
        && r.value.webSearch == BuiltWeb(backends, apiKey.value)
        && r.value.hybridRag == BuiltHybrid(backends)
    {
      if apiKey.None? || apiKey.value == "" {
        return Err(MissingKeyMessage);
      }
      var service := new AIAssistantService(apiKey.value);
      service.InitializeServices(backends);
      return Ok(service);
    }

    /** `_initialize_services`: personal, then web, then hybrid. A constructor that raises leaves
        its field as it was and does not stop the attempts that follow. */
    method InitializeServices(backends: Backends)
      modifies this
      ensures apiKey == old(apiKey)
      ensures personalRag == if backends.personal.Ok? then BuiltPersonal(backends) else old(personalRag)
      ensures webSearch == if backends.openAi(apiKey).Ok? then BuiltWeb(backends, apiKey) else old(webSearch)
      ensures hybridRag == if backends.hybrid.Ok? then BuiltHybrid(backends) else old(hybridRag)
    {
      match backends.personal {
        case Ok(engine) => personalRag := Some(PersonalRag.PersonalRagService(engine));
        case Err(_) =>
      }
      match backends.openAi(apiKey) {
        case Ok(client) => webSearch := Some(WebSearch.WebSearchService(client, backends.search));
        case Err(_) =>
      }
      match backends.hybrid {
        case Ok(engine) => hybridRag := Some(HybridRag.HybridRagService(engine));
        case Err(_) =>
      }
    }

    /** Whether backend `b`'s adapter was built. */
    predicate Present(b: Backend)
      reads this
    {
      match b
      case Personal => personalRag.Some?
      case Web => webSearch.Some?
      case Hybrid => hybridRag.Some?
    }

    /** `query_personal_rag`: the fixed unavailable pair without an adapter, else the adapter's result. */
    function QueryPersonalRag(query: string): (r: QueryResult)
      reads this
      ensures personalRag.None? ==> r == QueryResult("Personal RAG Service not available", "❌ Service unavailable")
      ensures personalRag.Some? ==> r == PersonalRag.Query(personalRag.value, query)
      ensures Failed(r) <==> (personalRag.None? || personalRag.value.ragSystem(query).Err?)
    {
      if personalRag.None? then QueryResult(UnavailableAnswer(Personal), UnavailableMarker)
      else PersonalRag.Query(personalRag.value, query)
    }

    /** `query_web_search`. */
    function QueryWebSearch(query: string): (r: QueryResult)
      reads this
      ensures webSearch.None? ==> r == QueryResult("Web Search Service not available", "❌ Service unavailable")
      ensures webSearch.Some? ==> r == WebSearch.Query(webSearch.value, query)
      ensures webSearch.None? ==> Failed(r)
    {
      if webSearch.None? then QueryResult(UnavailableAnswer(Web), UnavailableMarker)
      else WebSearch.Query(webSearch.value, query)
    }

    /** `query_hybrid_rag`. */
    function QueryHybridRag(query: string): (r: QueryResult)
      reads this
      ensures hybridRag.None? ==> r == QueryResult("Hybrid RAG Service not available", "❌ Service unavailable")
      ensures hybridRag.Some? ==> r == HybridRag.Query(hybridRag.value, query)
      ensures Failed(r) <==> (hybridRag.None? || hybridRag.value.hybridSystem(query).Err?)
    {
      if hybridRag.None? then QueryResult(UnavailableAnswer(Hybrid), UnavailableMarker)
      else HybridRag.Query(hybridRag.value, query)
    }

    /** `compare_all_systems`: the three single queries, in the order personal, web, hybrid. */
    function CompareAllSystems(query: string): (r: Comparison)
      reads this
      ensures r.personal == QueryPersonalRag(query)
      ensures r.web == QueryWebSearch(query)
      ensures r.hybrid == QueryHybridRag(query)
    {
      var personal := QueryPersonalRag(query);
      var web := QueryWebSearch(query);
      var hybrid := QueryHybridRag(query);
      Comparison(personal, web, hybrid)
    }

    /** The line the status panel shows for backend `b`. */
    function StatusLine(b: Backend): string
      reads this
    {
      if Present(b) then ReadyLine(b) else MissingLine(b)
    }

    /** `get_system_status`: one line per backend in the fixed order, marked ready exactly when
        its adapter was built, so some line is marked ready exactly when the coordinator is available. */
    method GetSystemStatus() returns (status: seq<string>)
      ensures |status| == |Order|
      ensures forall k :: 0 <= k < |Order| ==> status[k] == StatusLine(Order[k])
      ensures forall k :: 0 <= k < |Order| ==> (IsReadyLine(status[k]) <==> Present(Order[k]))
      ensures IsAvailable() <==> exists k :: 0 <= k < |Order| && IsReadyLine(status[k])
    {
      status := [];
      if personalRag.Some? {
        status := status + ["✅ Personal RAG System: Ready"];
      } else {
        status := status + ["❌ Personal RAG System: Not available"];
      }
      if webSearch.Some? {
        status := status + ["✅ Web Search Agent: Ready"];
      } else {
        status := status + ["❌ Web Search Agent: Not available"];
      }
      if hybridRag.Some? {
        status := status + ["✅ Hybrid RAG System: Ready"];
      } else {
        status := status + ["❌ Hybrid RAG System: Not available"];
      }
      StatusLinesDistinct(Personal);
      StatusLinesDistinct(Web);
      StatusLinesDistinct(Hybrid);
    }

    /** `is_available`: at least one adapter was built. */
    function IsAvailable(): (available: bool)
      reads this
      ensures available <==> exists k :: 0 <= k < |Order| && Present(Order[k])
    {
      var flags := [personalRag.Some?, webSearch.Some?, hybridRag.Some?];
      assert forall k :: 0 <= k < |Order| ==> flags[k] == Present(Order[k]);
      Any(flags)
    }
  }

  /** The comparison is failure-isolated: each of its pairs depends on that backend's adapter
      alone, so an absent or failing backend does not change the other two. */
  lemma ComparisonIsolated(a: AIAssistantService, b: AIAssistantService, query: string, which: Backend)
    requires which == Personal ==> a.personalRag == b.personalRag
    requires which == Web ==> a.webSearch == b.webSearch
    requires which == Hybrid ==> a.hybridRag == b.hybridRag
    ensures a.CompareAllSystems(query).Get(which) == b.CompareAllSystems(query).Get(which)
  {
  }
}
