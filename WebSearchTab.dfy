/** The guard of the web-search tab (`safe_web_query`): it rejects a
    missing coordinator, then a blank question, and otherwise passes the question on unchanged. */
module WebSearchTab {
  import opened Results
  import opened Text
  import Coordinator

  const NotInitialized := QueryResult("AI Assistant not initialized", "❌ System Error")
  const EmptyQuery := QueryResult("Please enter a question", "❌ Empty Query")

  function SafeWebQuery(service: Coordinator.AIAssistantService?, query: string): (r: QueryResult)
    reads service
    ensures service == null ==> r == QueryResult("AI Assistant not initialized", "❌ System Error")
    ensures service != null && IsBlank(query) ==> r == QueryResult("Please enter a question", "❌ Empty Query")
    ensures service != null && !IsBlank(query) ==> r == service.QueryWebSearch(query)
    ensures Failed(r) <==> (service == null || IsBlank(query) || Failed(service.QueryWebSearch(query)))
  {
    StripEmptyIffBlank(query);
    if service == null then NotInitialized
    else if Strip(query) == "" then EmptyQuery
    else service.QueryWebSearch(query)
  }

  /** A blank question never reaches the coordinator: the result is the same whatever
      adapters the coordinator holds. */
  lemma BlankQueryNeverDelegated(a: Coordinator.AIAssistantService, b: Coordinator.AIAssistantService, query: string)
    requires Strip(query) == ""
    ensures SafeWebQuery(a, query) == SafeWebQuery(b, query) == EmptyQuery
  {
  }
}
