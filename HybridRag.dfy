/** The hybrid adapter (`HybridRAGService`): one call into the hybrid engine, whose metadata
    says which of the local documents and the web were used; the four combinations become four
    source descriptions. */
module HybridRag {
  import opened Results
  import opened Text

  /** The `metadata` dictionary of `hybrid_query`; every key may be missing. */
  datatype Metadata = Metadata(
    sourcesUsed: Option<seq<string>>,
    localContextLength: Option<int>,
    webContextLength: Option<int>)

  /** What `hybrid_query` returns when it does not raise. */
  datatype EngineAnswer = EngineAnswer(answer: string, metadata: Metadata)

  /** The hybrid engine (`HybridRAGSystem`) as an oracle. */
  type Engine = string -> Outcome<EngineAnswer>

  /** A constructed adapter: it owns the engine handle (`self.hybrid_system`). */
  datatype HybridRagService = HybridRagService(hybridSystem: Engine)

  const ErrorPrefix := "Error with Hybrid RAG: "
  const ErrorMarker := "❌ Error"
  const WebOnlyText := "🌐 Web search only"
  const UnknownText := "❓ Unknown sources"

  /** The four combinations the adapter tells apart. */
  datatype SourceKind = Both | LocalOnly | WebOnly | Unknown

  /** Which sources the engine reports, a missing `sources_used` counting as `[]`. */
  function Classify(metadata: Metadata): SourceKind
  {
    var used := metadata.sourcesUsed.GetOr([]);
    if "local" in used && "web" in used then Both
    else if "local" in used then LocalOnly
    else if "web" in used then WebOnly
    else Unknown
  }

  /** The source description; a missing `local_context_length` is rendered as 0. */
  function Describe(metadata: Metadata): (desc: string)
  {
    var localLength := IntToString(metadata.localContextLength.GetOr(0));
    match Classify(metadata)
    case Both => "🔄 Hybrid: Personal docs (" + localLength + " chars) + Web search"
    case LocalOnly => "🏠 Personal documents only (" + localLength + " chars)"
    case WebOnly => WebOnlyText
    case Unknown => UnknownText
  }

  /** The reference reading of a description: its leading glyph names the combination. */
  function KindOf(desc: string): Option<SourceKind>
  {
    if |desc| == 0 then None
    else if desc[0] == '🔄' then Some(Both)
    else if desc[0] == '🏠' then Some(LocalOnly)
    else if desc[0] == '🌐' then Some(WebOnly)
    else if desc[0] == '❓' then Some(Unknown)
    else None
  }

  /** Some form of the word "web" appears. */
  predicate MentionsWeb(s: string)
  {
    Contains(s, "web") || Contains(s, "Web")
  }

  /** `HybridRAGService.query`: total; it fails exactly when the engine raised, and otherwise
      returns the engine's answer unchanged. */
  function Query(service: HybridRagService, query: string): (r: QueryResult)
    ensures Failed(r) <==> service.hybridSystem(query).Err?
    ensures service.hybridSystem(query).Err? ==>
      r == QueryResult(ErrorPrefix + service.hybridSystem(query).msg, ErrorMarker)
    ensures service.hybridSystem(query).Ok? ==>
      && r.answer == service.hybridSystem(query).value.answer
      && r.source == Describe(service.hybridSystem(query).value.metadata)
      && KindOf(r.source) == Some(Classify(service.hybridSystem(query).value.metadata))
  {
    match service.hybridSystem(query)
    case Err(msg) => QueryResult(ErrorPrefix + msg, ErrorMarker)
    case Ok(EngineAnswer(answer, metadata)) =>
      DescriptionNamesKind(metadata);
      QueryResult(answer, Describe(metadata))
  }

  /** No information is lost in the classification: the description determines the combination. */
  lemma DescriptionNamesKind(metadata: Metadata)
    ensures KindOf(Describe(metadata)) == Some(Classify(metadata))
  {
  }

  /** Local and web both used: the description names both and carries the local length. */
  lemma BothSources(metadata: Metadata)
    requires Classify(metadata) == Both
    ensures StartsWith(Describe(metadata), "🔄 Hybrid: Personal docs (")
    ensures Contains(Describe(metadata), IntToString(metadata.localContextLength.GetOr(0)))
    ensures MentionsWeb(Describe(metadata))
  {
    var head := "🔄 Hybrid: Personal docs (";
    var localLength := IntToString(metadata.localContextLength.GetOr(0));
    var desc := Describe(metadata);
    assert desc == head + localLength + " chars) + Web search";
    assert desc[..|head|] == head;
    ContainsInfix(head, localLength, " chars) + Web search");
    ContainsInfix(head + localLength + " chars) + ", "Web", " search");
    assert head + localLength + " chars) + " + "Web" + " search" == desc;
  }

  /** Only local documents used: the length is carried and the web is not mentioned. */
  lemma LocalOnlySource(metadata: Metadata)
    requires Classify(metadata) == LocalOnly
    ensures StartsWith(Describe(metadata), "🏠 Personal documents only (")
    ensures Contains(Describe(metadata), IntToString(metadata.localContextLength.GetOr(0)))
    ensures !MentionsWeb(Describe(metadata))
  {
    var head := "🏠 Personal documents only (";
    var localLength := IntToString(metadata.localContextLength.GetOr(0));
    var desc := Describe(metadata);
    assert desc == head + localLength + " chars)";
    assert desc[..|head|] == head;
    ContainsInfix(head, localLength, " chars)");
    forall i | 0 <= i < |desc|
      ensures desc[i] != 'w' && desc[i] != 'W'
    {
      if i < |head| {
        assert desc[i] == head[i];
      } else if i < |head| + |localLength| {
        assert desc[i] == localLength[i - |head|];
      } else {
        assert desc[i] == " chars)"[i - |head| - |localLength|];
      }
    }
    AbsentCharNotContained(desc, "web");
    AbsentCharNotContained(desc, "Web");
  }

  /** Only the web used: exactly the fixed text. */
  lemma WebOnlySource(metadata: Metadata)
    requires Classify(metadata) == WebOnly
    ensures Describe(metadata) == "🌐 Web search only"
    ensures MentionsWeb(Describe(metadata))
  {
    ContainsInfix("🌐 ", "Web", " search only");
    assert "🌐 " + "Web" + " search only" == WebOnlyText;
  }

  /** Neither source reported, a missing `sources_used` included: the fixed unknown text. */
  lemma NoKnownSource(metadata: Metadata)
    requires metadata.sourcesUsed.None? || ("local" !in metadata.sourcesUsed.value && "web" !in metadata.sourcesUsed.value)
    ensures Describe(metadata) == "❓ Unknown sources"
  {
  }

  /** A missing `local_context_length` renders exactly like an explicit 0. */
  lemma MissingLocalLengthIsZero(used: Option<seq<string>>, web: Option<int>)
    ensures Describe(Metadata(used, None, web)) == Describe(Metadata(used, Some(0), web))
  {
  }

  /** `web_context_length` is read but never affects the description. */
  lemma WebLengthIgnored(used: Option<seq<string>>, local: Option<int>, web1: Option<int>, web2: Option<int>)
    ensures Describe(Metadata(used, local, web1)) == Describe(Metadata(used, local, web2))
  {
  }
}
