/** The guard of the comparison tab (`safe_compare_query`): the same two rejections as the single
    tabs, each filling all three answer/source pairs, and otherwise the fan-out comparison. */
module ComparisonTab {
  import opened Results
  import opened Text
  import Coordinator

  const NotInitialized := QueryResult("AI Assistant not initialized", "❌ Error")
  const EmptyQuery := QueryResult("Please enter a question", "❌ Empty")

  function SafeCompareQuery(service: Coordinator.AIAssistantService?, query: string): (r: Coordinator.Comparison)
    reads service
    ensures service == null ==>
      forall b :: r.Get(b) == QueryResult("AI Assistant not initialized", "❌ Error")
    ensures service != null && IsBlank(query) ==>
      forall b :: r.Get(b) == QueryResult("Please enter a question", "❌ Empty")
    ensures service != null && !IsBlank(query) ==> r == service.CompareAllSystems(query)
    ensures (service == null || IsBlank(query)) ==> forall b :: Failed(r.Get(b))
  {
    StripEmptyIffBlank(query);
    if service == null then Coordinator.Comparison(NotInitialized, NotInitialized, NotInitialized)
    else if Strip(query) == "" then Coordinator.Comparison(EmptyQuery, EmptyQuery, EmptyQuery)
    else service.CompareAllSystems(query)
  }

  /** A blank question never reaches `compare_all_systems`: the result is the same whatever
      adapters the coordinator holds. */
  lemma BlankQueryNeverCompared(a: Coordinator.AIAssistantService, b: Coordinator.AIAssistantService, query: string)
    requires Strip(query) == ""
    ensures SafeCompareQuery(a, query) == SafeCompareQuery(b, query)
  {
  }
}
