/** The personal-documents adapter (`PersonalRAGService`): one call into the retrieval engine,
    whose answer dictionary is turned into an answer and a one-line citation summary. */
module PersonalRag {
  import opened Results
  import opened Text

  /** The dictionary `query_personal_info` returns; every key may be missing. */
  datatype EngineResult = EngineResult(
    answer: Option<string>,
    sources: Option<seq<string>>,
    files: Option<seq<string>>)

  /** The retrieval engine (`PersonalRAGSystem`) as an oracle: a result, or the exception it raised. */
  type Engine = string -> Outcome<EngineResult>

  /** A constructed adapter: it owns the engine handle (`self.rag_system`). */
  datatype PersonalRagService = PersonalRagService(ragSystem: Engine)

  const NoAnswer := "No answer generated"
  const Heading := "📚 Personal Documents"
  const ErrorPrefix := "Error with Personal RAG: "
  const ErrorMarker := "❌ Error"

  predicate NoDuplicates(xs: seq<string>)
  {
    forall i, j :: 0 <= i < j < |xs| ==> xs[i] != xs[j]
  }

  /** The file names of `set(files)`, each once. The order Python's set iteration would give is
      arbitrary; this model keeps first occurrences, and what is proved does not depend on it. */
  function Distinct(xs: seq<string>): (d: seq<string>)
    ensures NoDuplicates(d)
    ensures forall x :: x in d <==> x in xs
  {
    if xs == [] then []
    else
      var init, last := xs[..|xs| - 1], xs[|xs| - 1];
      assert xs == init + [last];
      var rest := Distinct(init);
      if last in rest then rest else rest + [last]
  }

  /** The source description built from the citation labels and file names the engine reported. */
  function Describe(sources: seq<string>, files: seq<string>): (desc: string)
  {
    if |sources| > 0 && |files| > 0 then
      Heading + ": " + Join(", ", sources) + " from " + Join(", ", Distinct(files))
    else if |sources| > 0 then
      Heading + ": " + Join(", ", sources)
    else
      Heading
  }

  /** `PersonalRAGService.query`: total; it fails exactly when the engine raised. */
  function Query(service: PersonalRagService, query: string): (r: QueryResult)
    ensures Failed(r) <==> service.ragSystem(query).Err?
    ensures service.ragSystem(query).Err? ==>
      r == QueryResult(ErrorPrefix + service.ragSystem(query).msg, ErrorMarker)
    ensures service.ragSystem(query).Ok? ==>
      var result := service.ragSystem(query).value;
      && (result.answer.Some? ==> r.answer == result.answer.value)
      && (result.answer.None? ==> r.answer == NoAnswer)
      && r.source == Describe(result.sources.GetOr([]), result.files.GetOr([]))
      && StartsWith(r.source, Heading)
  {
    match service.ragSystem(query)
    case Err(msg) => QueryResult(ErrorPrefix + msg, ErrorMarker)
    case Ok(result) =>
      var desc := Describe(result.sources.GetOr([]), result.files.GetOr([]));
      DescribeStartsWithHeading(result.sources.GetOr([]), result.files.GetOr([]));
      QueryResult(result.answer.GetOr(NoAnswer), desc)
  }

  /** Every success description is tagged as personal documents, never as a failure. */
  lemma DescribeStartsWithHeading(sources: seq<string>, files: seq<string>)
    ensures StartsWith(Describe(sources, files), Heading)
    ensures Describe(sources, files)[0] != FailureGlyph
  {
  }

  /** With citations and files: the citations in engine order, then " from ", then every
      distinct file name exactly once. */
  lemma DescribeWithFiles(sources: seq<string>, files: seq<string>)
    requires |sources| > 0 && |files| > 0
    ensures exists names ::
      && NoDuplicates(names)
      && (forall x :: x in names <==> x in files)
      && Describe(sources, files) == Heading + ": " + Join(", ", sources) + " from " + Join(", ", names)
  {
    var names := Distinct(files);
    assert NoDuplicates(names) && (forall x :: x in names <==> x in files);
  }

  /** With citations and no files there is no file part. */
  lemma DescribeWithoutFiles(sources: seq<string>)
    requires |sources| > 0
    ensures Describe(sources, []) == Heading + ": " + Join(", ", sources)
  {
  }

  /** Without citations the description is the bare heading, whatever the files. */
  lemma DescribeWithoutSources(files: seq<string>)
    ensures Describe([], files) == Heading
  {
  }

  /** Each citation label appears in the description. */
  lemma DescribeMentionsEverySource(sources: seq<string>, files: seq<string>, k: nat)
    requires k < |sources|
    ensures Contains(Describe(sources, files), sources[k])
  {
    JoinContainsPart(", ", sources, k);
    var tail := if |files| > 0 then " from " + Join(", ", Distinct(files)) else "";
    ContainsWithin(Heading + ": ", Join(", ", sources), tail, sources[k]);
    assert Heading + ": " + Join(", ", sources) + tail == Describe(sources, files);
  }

  /** Each file name appears in the description when there are citations to attach it to. */
  lemma DescribeMentionsEveryFile(sources: seq<string>, files: seq<string>, k: nat)
    requires |sources| > 0 && k < |files|
    ensures Contains(Describe(sources, files), files[k])
  {
    var names := Distinct(files);
    assert files[k] in names;
    var j :| 0 <= j < |names| && names[j] == files[k];
    JoinContainsPart(", ", names, j);
    ContainsWithin(Heading + ": " + Join(", ", sources) + " from ", Join(", ", names), "", files[k]);
    assert Heading + ": " + Join(", ", sources) + " from " + Join(", ", names) + "" == Describe(sources, files);
  }
}
