/** The guard of the personal-documents tab (`safe_personal_query`): it rejects a
    missing coordinator, then a blank question, and otherwise passes the question on unchanged. */
module PersonalRagTab {
  import opened Results
  import opened Text
  import Coordinator

  const NotInitialized := QueryResult("AI Assistant not initialized", "❌ System Error")
  const EmptyQuery := QueryResult("Please enter a question", "❌ Empty Query")

  function SafePersonalQuery(service: Coordinator.AIAssistantService?, query: string): (r: QueryResult)
    reads service
    ensures service == null ==> r == QueryResult("AI Assistant not initialized", "❌ System Error")
    ensures service != null && IsBlank(query) ==> r == QueryResult("Please enter a question", "❌ Empty Query")
    ensures service != null && !IsBlank(query) ==> r == service.QueryPersonalRag(query)
    ensures Failed(r) <==> (service == null || IsBlank(query) || Failed(service.QueryPersonalRag(query)))
  {
    StripEmptyIffBlank(query);
    if service == null then NotInitialized
    else if Strip(query) == "" then EmptyQuery
    else service.QueryPersonalRag(query)
  }

  /** A blank question never reaches the coordinator: the result is the same whatever
      adapters the coordinator holds. */
  lemma BlankQueryNeverDelegated(a: Coordinator.AIAssistantService, b: Coordinator.AIAssistantService, query: string)
    requires Strip(query) == ""
    ensures SafePersonalQuery(a, query) == SafePersonalQuery(b, query) == EmptyQuery
  {
  }
}
