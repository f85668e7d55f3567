/** The guard of the hybrid tab (`safe_hybrid_query`): it rejects a
    missing coordinator, then a blank question, and otherwise passes the question on unchanged. */
module HybridRagTab {
  import opened Results
  import opened Text
  import Coordinator

  const NotInitialized := QueryResult("AI Assistant not initialized", "❌ System Error")
  const EmptyQuery := QueryResult("Please enter a question", "❌ Empty Query")

  function SafeHybridQuery(service: Coordinator.AIAssistantService?, query: string): (r: QueryResult)
    reads service
    ensures service == null ==> r == QueryResult("AI Assistant not initialized", "❌ System Error")
    ensures service != null && IsBlank(query) ==> r == QueryResult("Please enter a question", "❌ Empty Query")
    ensures service != null && !IsBlank(query) ==> r == service.QueryHybridRag(query)
    ensures Failed(r) <==> (service == null || IsBlank(query) || Failed(service.QueryHybridRag(query)))
  {
    StripEmptyIffBlank(query);
    if service == null then NotInitialized
    else if Strip(query) == "" then EmptyQuery
    else service.QueryHybridRag(query)
  }

  /** A blank question never reaches the coordinator: the result is the same whatever
      adapters the coordinator holds. */
  lemma BlankQueryNeverDelegated(a: Coordinator.AIAssistantService, b: Coordinator.AIAssistantService, query: string)
    requires Strip(query) == ""
    ensures SafeHybridQuery(a, query) == SafeHybridQuery(b, query) == EmptyQuery
  {
  }
}
