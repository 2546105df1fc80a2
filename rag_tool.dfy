/** The tool layer handed to a language model: a process-wide retriever built on first use,
    and four tools that call the retriever and turn its answers (or the exception it raised)
    into a report. Every exception raised after the retriever exists becomes a failed report
    carrying the error text and a tool-specific message; building the retriever itself is not
    guarded. */
module RagTools {
  import opened Common
  import opened Embeddings
  import opened KnowledgeBases
  import opened LegacyRetrieval

  /** What the tools get from outside: the files the default knowledge base is loaded from,
      the embedding configuration, and the TF-IDF, embedding-service and cosine oracles. */
  datatype Environment = Environment(
    files: KnowledgeFiles, config: EmbeddingConfig, tfidf: Tfidf,
    service: (ApiEmbedder, seq<string>) -> ServiceReply, cosine: Cosine)

  const SearchFailed: string := "知识检索失败: "
  const ExplainFailed: string := "特征解释失败: "
  const SolutionsFailed: string := "解决方案查询失败: "
  const AnalysisFailed: string := "综合分析失败: "

  /** The key under which the explanations carry the related feature names. */
  const RelatedKey: string := "related_features"
  const UnknownName: string := "未知"
  const NotRecorded: string := "该特征的物理含义暂未录入知识库"

  /** A tool's answer: `{"success": True, ...}` or `{"success": False, "error", "message"}`. */
  datatype Report<+T> = Success(value: T) | Failed(error: string, message: string)

  /** `str(e)`: the detail the exception carries. */
  function ErrorText(e: Error): string {
    match e
    case ValueError(s) => s
    case RuntimeError(s) => s
    case FileNotFoundError(s) => s
    case AttributeError(s) => s
    case TypeError(s) => s
    case AssertionError(s) => s
    case IndexError(s) => s
  }

  function FailedWith<T>(prefix: string, e: Error): Report<T> {
    Failed(ErrorText(e), prefix + ErrorText(e))
  }

  // ---------------------------------------------------------------------------
  // The process-wide retriever

  /** The module global `_global_retriever`. */
  class Registry {
    var global: Option<KnowledgeRetriever>

    constructor()
      ensures global == None
    {
      global := None;
    }

    /** `get_retriever()`: the existing retriever, or a default one (knowledge base from the
        default files, TF-IDF embedder) that is then kept. Building the default one cannot
        fail. */
    method GetRetriever(env: Environment) returns (r: KnowledgeRetriever)
      modifies this
      ensures old(global).Some? ==> r == old(global).value && global == old(global)
      ensures old(global).None? ==>
        global == Some(r) && fresh(r) && fresh(r.kb)
        && r.kb.solutions == env.files.solutions.GetOr([])
        && r.kb.domainKnowledge == env.files.concepts.GetOr([])
        && r.documents == r.kb.Documents() == FilesDocuments(env.files)
        && DefaultIndexed(r, env.tfidf)
    {
      if global.Some? {
        return global.value;
      }
      CreationCases("simple", NoEmbedderArgs, env.config);
      var built := NewKnowledgeRetriever(None, env.files, "simple", NoEmbedderArgs, env.config, env.tfidf, env.service);
      r := built.value;
      global := Some(r);
    }
  }

  /** The solution records a tool run may score: those of the existing retriever, or those
      the default knowledge base is loaded with. */
  function ToolSolutions(registry: Registry, env: Environment): set<SolutionRecord>
    reads registry, if registry.global.Some? then {registry.global.value} else {}
  {
    if registry.global.Some? then SolutionSources(registry.global.value.documents)
    else set s | s in env.files.solutions.GetOr([])
  }

  // ---------------------------------------------------------------------------
  // Report shapes

  datatype KnowledgeItem = KnowledgeItem(content: string, score: real, kind: string, metadata: DocMetadata)
  datatype KnowledgeReport = KnowledgeReport(query: string, resultsCount: nat, results: seq<KnowledgeItem>)

  /** A feature's entry in `explain_features`: the known fields with their defaults, or a
      placeholder for a name the knowledge base does not describe. */
  datatype FeatureEntry =
    | Known(name: string, description: string, unit: string, normalRange: string,
            relatedTo: string, anomalyCauses: seq<string>, impact: string)
    | Unrecorded(name: string, description: string)

  datatype SolutionBrief = SolutionBrief(problem: Option<string>, solutions: seq<string>, priority: Option<string>)
  datatype FeatureReport = FeatureReport(
    featureCount: nat, features: map<string, FeatureEntry>, relatedSolutions: Option<seq<SolutionBrief>>)

  datatype SolutionDetail = SolutionDetail(
    problem: Option<string>, symptoms: seq<string>, rootCauses: seq<string>, solutions: seq<string>,
    priority: Option<string>, typicalResolutionTime: Option<string>, relevanceScore: real)
  datatype SolutionsReport = SolutionsReport(query: string, solutionsCount: nat, solutions: seq<SolutionDetail>)

  datatype Analysis = Analysis(
    hasRecommendations: bool, summary: string, featureExplanations: map<string, FeatureInfo>,
    solutions: seq<SolutionRecord>, relevantConcepts: seq<ConceptRecord>)

  function Item(h: Hit): KnowledgeItem {
    KnowledgeItem(h.document, h.score, h.metadata.Type(), h.metadata)
  }

  /** The report of `search_knowledge`: one item per hit, in rank order, or the failure. */
  function KnowledgeReportOf(query: string, hits: Result<seq<Hit>>): (r: Report<KnowledgeReport>)
    ensures r.Success? <==> hits.Ok?
    ensures r.Failed? ==> r.error == ErrorText(hits.error) && r.message == SearchFailed + r.error
    ensures r.Success? ==>
      r.value.query == query && r.value.resultsCount == |r.value.results| == |hits.value|
      && forall i :: 0 <= i < |hits.value| ==>
        var h, t := hits.value[i], r.value.results[i];
        t.content == h.document && t.score == h.score && t.metadata == h.metadata && t.kind == h.metadata.Type()
  {
    if hits.Err? then FailedWith(SearchFailed, hits.error)
    else
      var items := seq(|hits.value|, i requires 0 <= i < |hits.value| => Item(hits.value[i]));
      Success(KnowledgeReport(query, |items|, items))
  }

  function Entry(n: string, info: FeatureInfo): FeatureEntry {
    Known(info.name.GetOr(UnknownName), info.description.GetOr(""), info.unit.GetOr(""),
          info.normalRange.GetOr(""), info.relatedTo.GetOr(""), info.anomalyCauses.GetOr([]),
          info.impact.GetOr(""))
  }

  /** The `features` part of `explain_features`. When the related search ran, the
      explanations hold a list under `related_features`, and a feature of that name finds the
      list instead of its information: reading a field of the list raises. */
  function FeatureEntries(names: seq<string>, ex: Explanations): (r: Result<map<string, FeatureEntry>>)
    ensures r.Err? <==> ex.related.Some? && RelatedKey in names
    ensures r.Err? ==> r.error == AttributeError("get")
    ensures r.Ok? ==> forall n :: n in r.value <==> n in names
    ensures r.Ok? ==> forall n :: n in r.value ==>
      (r.value[n].Known? <==> n in ex.features)
      && (n in ex.features ==> r.value[n] == Entry(n, ex.features[n]))
      && (n !in ex.features ==> r.value[n] == Unrecorded(n, NotRecorded))
  {
    if ex.related.Some? && RelatedKey in names then Err(AttributeError("get"))
    else Ok(map n | n in names :: if n in ex.features then Entry(n, ex.features[n]) else Unrecorded(n, NotRecorded))
  }

  /** A solution as `explain_features` lists it: at most its first three steps. */
  function Brief(s: SolutionRecord): SolutionBrief {
    SolutionBrief(s.problem, Take(s.solutions.GetOr([]), 3), s.priority)
  }

  predicate SolutionHits(hits: seq<Hit>) {
    forall i :: 0 <= i < |hits| ==> hits[i].metadata.SolutionDoc?
  }

  /** The briefs of the solution hits, or the search's failure. */
  function BriefsOf(hits: Result<seq<Hit>>): (r: Result<seq<SolutionBrief>>)
    requires hits.Ok? ==> SolutionHits(hits.value)
    ensures r.Ok? <==> hits.Ok?
    ensures r.Err? ==> r.error == hits.error
    ensures r.Ok? ==> |r.value| == |hits.value| && forall i :: 0 <= i < |hits.value| ==>
      r.value[i].problem == hits.value[i].metadata.solution.problem
      && r.value[i].priority == hits.value[i].metadata.solution.priority
      && var steps := hits.value[i].metadata.solution.solutions.GetOr([]);
         |r.value[i].solutions| == Min(3, |steps|) && r.value[i].solutions == steps[..|r.value[i].solutions|]
  {
    if hits.Err? then Err(hits.error)
    else Ok(seq(|hits.value|, i requires 0 <= i < |hits.value| => Brief(hits.value[i].metadata.solution)))
  }

  /** `f"{', '.join(feature_names)} 异常"`. */
  function ExplainedProblem(names: seq<string>): string {
    Join(", ", names) + " 异常"
  }

  /** The report of `explain_features`: it succeeds exactly when the explanations were found,
      no requested name collides with the related-features key, and the solution search (when
      asked for) succeeded; it then counts every requested name, lists each once, and carries
      solution briefs exactly when they were asked for. */
  function ExplainReport(names: seq<string>, ex: Result<Explanations>, includeSolutions: bool,
                         briefs: Result<seq<SolutionBrief>>): (r: Report<FeatureReport>)
    ensures r.Success? <==>
      ex.Ok? && !(ex.value.related.Some? && RelatedKey in names) && (includeSolutions ==> briefs.Ok?)
    ensures r.Failed? ==> r.message == ExplainFailed + r.error
    ensures r.Success? ==>
      r.value.featureCount == |names| && r.value.features == FeatureEntries(names, ex.value).value
      && (forall n :: n in r.value.features <==> n in names)
      && (r.value.relatedSolutions.Some? <==> includeSolutions)
      && (includeSolutions ==> r.value.relatedSolutions.value == briefs.value)
  {
    if ex.Err? then FailedWith(ExplainFailed, ex.error)
    else
      var entries := FeatureEntries(names, ex.value);
      if entries.Err? then FailedWith(ExplainFailed, entries.error)
      else if !includeSolutions then Success(FeatureReport(|names|, entries.value, None))
      else if briefs.Err? then FailedWith(ExplainFailed, briefs.error)
      else Success(FeatureReport(|names|, entries.value, Some(briefs.value)))
  }

  /** A solution as `get_solutions` lists it, with its current relevance score (0 if none). */
  function SolutionDetailOf(s: SolutionRecord): SolutionDetail
    reads s
  {
    SolutionDetail(s.problem, s.symptoms.GetOr([]), s.rootCauses.GetOr([]), s.solutions.GetOr([]),
                   s.priority, s.typicalResolutionTime, s.relevanceScore.GetOr(0.0))
  }

  /** The solution records among the hits. */
  function HitRecords(hits: Result<seq<Hit>>): set<SolutionRecord> {
    if hits.Err? then {} else set h | h in hits.value && h.metadata.SolutionDoc? :: h.metadata.solution
  }

  /** The report of `get_solutions`: one detail per solution hit, in rank order, each showing
      the record as it now is, or the failure. */
  function SolutionsReportOf(problem: string, hits: Result<seq<Hit>>): (r: Report<SolutionsReport>)
    requires hits.Ok? ==> SolutionHits(hits.value)
    reads HitRecords(hits)
    ensures r.Success? <==> hits.Ok?
    ensures r.Failed? ==> r == FailedWith(SolutionsFailed, hits.error)
    ensures r.Success? ==>
      r.value.query == problem && r.value.solutionsCount == |r.value.solutions| == |hits.value|
      && forall i :: 0 <= i < |hits.value| ==> r.value.solutions[i] == SolutionDetailOf(hits.value[i].metadata.solution)
  {
    if hits.Err? then FailedWith(SolutionsFailed, hits.error)
    else
      var details := seq(|hits.value|, i reads HitRecords(hits) requires 0 <= i < |hits.value| =>
                           SolutionDetailOf(hits.value[i].metadata.solution));
      Success(SolutionsReport(problem, |details|, details))
  }

  function Details(records: seq<SolutionRecord>): (r: seq<SolutionDetail>)
    reads set s | s in records
    ensures |r| == |records| && forall i :: 0 <= i < |records| ==> r[i] == SolutionDetailOf(records[i])
  {
    seq(|records|, i reads set s | s in records requires 0 <= i < |records| => SolutionDetailOf(records[i]))
  }

  /** The report of `get_comprehensive_analysis`: whether any solution was found, the summary
      and explanations as given, the first three solutions and the first two concepts. */
  function AnalysisOf(rec: Recommendations): (r: Analysis)
    ensures r.hasRecommendations <==> rec.solutions != []
    ensures r.summary == rec.summary && r.featureExplanations == rec.featureExplanations
    ensures |r.solutions| == Min(3, |rec.solutions|) && r.solutions == rec.solutions[..|r.solutions|]
    ensures |r.relevantConcepts| == Min(2, |rec.relevantConcepts|)
      && r.relevantConcepts == rec.relevantConcepts[..|r.relevantConcepts|]
  {
    Analysis(|rec.solutions| > 0, rec.summary, rec.featureExplanations,
             Take(rec.solutions, 3), Take(rec.relevantConcepts, 2))
  }

  /** The solution search `find_solutions(problem, feature_names, top_k)` runs. */
  function SolutionSearch(t: KnowledgeRetriever, env: Environment, problem: string,
                          featureNames: Option<seq<string>>, topK: int): (r: Result<seq<Hit>>)
    reads t, Footprint(t.embedder)
    ensures r.Ok? ==> SolutionHits(r.value)
  {
    t.SearchResults(env.tfidf, env.service, env.cosine,
                    Join(" ", [problem] + t.FeatureTerms(featureNames.GetOr([]))), topK, Some("solution"))
  }

  // ---------------------------------------------------------------------------
  // The tool object

  class RAGTool {
    const retriever: KnowledgeRetriever
    const kb: KnowledgeBase := retriever.kb

    constructor(retriever: KnowledgeRetriever)
      ensures this.retriever == retriever
    {
      this.retriever := retriever;
    }

    /** `search_knowledge(query, top_k, doc_type)`. */
    method SearchKnowledge(env: Environment, query: string, topK: int, docType: Option<string>)
      returns (r: Report<KnowledgeReport>)
      ensures r == KnowledgeReportOf(query, retriever.SearchResults(env.tfidf, env.service, env.cosine, query, topK, docType))
    {
      var hits := retriever.Search(env.tfidf, env.service, env.cosine, query, topK, docType);
      r := KnowledgeReportOf(query, hits);
    }

    /** The solution part of `explain_features`: the two best solutions for the features,
        as briefs, their scores written into the records. */
    method RelatedSolutions(env: Environment, names: seq<string>) returns (r: Result<seq<SolutionBrief>>)
      modifies SolutionSources(retriever.documents)
      ensures unchanged(retriever)
      ensures unchanged(Footprint(retriever.embedder))
      ensures var hits := old(SolutionSearch(retriever, env, ExplainedProblem(names), Some(names), 2));
        r == BriefsOf(hits)
        && (hits.Err? ==> unchanged(SolutionSources(retriever.documents)))
        && (hits.Ok? ==> forall s :: s in SolutionSources(retriever.documents) ==>
              s.relevanceScore == ScoreAfter(hits.value, s, old(s.relevanceScore)))
    {
      ghost var hits := SolutionSearch(retriever, env, ExplainedProblem(names), Some(names), 2);
      var solutions := retriever.FindSolutions(env.tfidf, env.service, env.cosine, ExplainedProblem(names), Some(names), 2);
      if solutions.Err? {
        return Err(solutions.error);
      }
      var records := solutions.value;
      r := Ok(seq(|records|, i requires 0 <= i < |records| => Brief(records[i])));
      assert r.value == BriefsOf(hits).value;
    }

    /** `explain_features(feature_names, include_solutions)`: the explanations with related
        features, their entries, then (when asked) the two best solutions for the features. */
    method ExplainFeatures(env: Environment, names: seq<string>, includeSolutions: bool)
      returns (r: Report<FeatureReport>)
      modifies SolutionSources(retriever.documents)
      ensures unchanged(retriever)
      ensures unchanged(Footprint(retriever.embedder))
      ensures ExplainOutcome(retriever, env, names, includeSolutions) == old(ExplainOutcome(retriever, env, names, includeSolutions))
      ensures ExplainScored(retriever, env, names, includeSolutions) == old(ExplainScored(retriever, env, names, includeSolutions))
      ensures r == old(ExplainOutcome(retriever, env, names, includeSolutions))
      ensures var found := old(ExplainScored(retriever, env, names, includeSolutions));
        forall s :: s in SolutionSources(retriever.documents) ==>
          s.relevanceScore == ScoreAfter(found, s, old(s.relevanceScore))
    {
      ghost var hits := SolutionSearch(retriever, env, ExplainedProblem(names), Some(names), 2);
      var ex := retriever.ExplanationsFor(env.tfidf, env.service, env.cosine, names, true);
      if ex.Err? {
        return FailedWith(ExplainFailed, ex.error);
      }
      var entries := FeatureEntries(names, ex.value);
      if entries.Err? {
        return FailedWith(ExplainFailed, entries.error);
      }
      if !includeSolutions {
        return Success(FeatureReport(|names|, entries.value, None));
      }
      var briefs := RelatedSolutions(env, names);
      r := ExplainReport(names, ex, true, briefs);
    }

    /** `get_solutions(problem_description, feature_names, top_k)`: the solutions found, each
        with the relevance score the search wrote into it — that of its last hit, which
        `ScoreAfterWritten` shows is one of its own hits. */
    method GetSolutions(env: Environment, problem: string, featureNames: Option<seq<string>>, topK: int)
      returns (r: Report<SolutionsReport>)
      modifies SolutionSources(retriever.documents)
      ensures unchanged(retriever)
      ensures unchanged(Footprint(retriever.embedder))
      ensures SolutionSearch(retriever, env, problem, featureNames, topK) == old(SolutionSearch(retriever, env, problem, featureNames, topK))
      ensures var hits := old(SolutionSearch(retriever, env, problem, featureNames, topK));
        forall s :: s in SolutionSources(retriever.documents) ==>
          s.relevanceScore == ScoreAfter(Found(hits), s, old(s.relevanceScore))
      ensures r == SolutionsReportOf(problem, old(SolutionSearch(retriever, env, problem, featureNames, topK)))
    {
      ghost var hits := SolutionSearch(retriever, env, problem, featureNames, topK);
      var solutions := retriever.FindSolutions(env.tfidf, env.service, env.cosine, problem, featureNames, topK);
      if solutions.Err? {
        return FailedWith(SolutionsFailed, solutions.error);
      }
      var records := solutions.value;
      var details := Details(records);
      r := Success(SolutionsReport(problem, |details|, details));
      assert details == SolutionsReportOf(problem, hits).value.solutions;
    }

    /** `get_comprehensive_analysis(anomaly_info)`, the set iteration order passed in. */
    method GetComprehensiveAnalysis(env: Environment, anomaly: AnomalyInfo, setOrder: seq<string>)
      returns (r: Report<Analysis>)
      requires Distinct(setOrder) && forall x :: x in setOrder <==> x in AnomalyFeatures(anomaly)
      modifies SolutionSources(retriever.documents), ConceptSources(retriever.documents)
      ensures var run := old(retriever.RecommendationsFor(env.tfidf, env.service, env.cosine, ChosenFeatures(anomaly, setOrder),
                                                           anomaly.t2xAnomaly, anomaly.spexAnomaly));
        r == (if run.result.Err? then FailedWith(AnalysisFailed, run.result.error) else Success(AnalysisOf(run.result.value)))
        && (forall s :: s in SolutionSources(retriever.documents) ==>
              s.relevanceScore == ScoreAfter(run.solutionHits, s, old(s.relevanceScore)))
        && forall c :: c in ConceptSources(retriever.documents) ==>
             c.relevanceScore == ScoreAfter(run.conceptHits, c, old(c.relevanceScore))
      ensures var names := ChosenFeatures(anomaly, setOrder);
        (names == [] ==> r == Success(AnalysisOf(NoRecommendations)))
        && (r.Failed? ==> r.message == AnalysisFailed + r.error)
        && (r.Success? && names != [] ==>
              r.value.featureExplanations == kb.KnownFeatures(names)
              && r.value.summary == Summary(names, kb.KnownFeatures(names))
              && |r.value.solutions| <= 3
              && |r.value.relevantConcepts| <= (if anomaly.t2xAnomaly then 1 else 0) + (if anomaly.spexAnomaly then 1 else 0))
    {
      var rec := retriever.GetRecommendations(env.tfidf, env.service, env.cosine, anomaly, setOrder);
      if rec.Err? {
        return FailedWith(AnalysisFailed, rec.error);
      }
      r := Success(AnalysisOf(rec.value));
    }
  }

  /** `RAGTool()`: a tool over the process-wide retriever. */
  method NewRAGTool(registry: Registry, env: Environment) returns (r: RAGTool)
    modifies registry
    ensures fresh(r) && registry.global == Some(r.retriever)
    ensures old(registry.global).Some? ==> r.retriever == old(registry.global).value
    ensures old(registry.global).None? ==>
      fresh(r.retriever) && fresh(r.kb)
      && r.kb.solutions == env.files.solutions.GetOr([])
      && r.retriever.documents == r.kb.Documents() == FilesDocuments(env.files)
      && DefaultIndexed(r.retriever, env.tfidf)
    ensures SolutionSources(r.retriever.documents) == old(ToolSolutions(registry, env))
    ensures unchanged(old(ToolSolutions(registry, env)))
  {
    var retriever := registry.GetRetriever(env);
    r := new RAGTool(retriever);
    DocumentSources(r.kb);
  }

  // ---------------------------------------------------------------------------
  // The functions offered to the language model; each builds a tool first

  /** `search_knowledge(query, top_k, doc_type)`. */
  method SearchKnowledgeTool(registry: Registry, env: Environment, query: string, topK: int, docType: Option<string>)
    returns (r: Report<KnowledgeReport>)
    modifies registry
    ensures old(registry.global).Some? ==> registry.global == old(registry.global)
    ensures old(registry.global).None? ==>
      registry.global.Some? && fresh(registry.global.value) && DefaultIndexed(registry.global.value, env.tfidf)
    ensures registry.global.Some?
      && r == KnowledgeReportOf(query, registry.global.value.SearchResults(env.tfidf, env.service, env.cosine, query, topK, docType))
  {
    var tool := NewRAGTool(registry, env);
    r := tool.SearchKnowledge(env, query, topK, docType);
  }

  /** What `explain_features` reports over the retriever `t`. */
  function ExplainOutcome(t: KnowledgeRetriever, env: Environment, names: seq<string>, includeSolutions: bool): Report<FeatureReport>
    reads t, Footprint(t.embedder)
  {
    ExplainReport(names, t.ExplanationsFor(env.tfidf, env.service, env.cosine, names, true), includeSolutions,
                  BriefsOf(SolutionSearch(t, env, ExplainedProblem(names), Some(names), 2)))
  }

  /** The hits whose scores `explain_features` writes: those of the solution search when it
      was made and succeeded, and none otherwise. */
  function ExplainScored(t: KnowledgeRetriever, env: Environment, names: seq<string>, includeSolutions: bool): seq<Hit>
    reads t, Footprint(t.embedder)
  {
    var ex := t.ExplanationsFor(env.tfidf, env.service, env.cosine, names, true);
    var hits := SolutionSearch(t, env, ExplainedProblem(names), Some(names), 2);
    if includeSolutions && ex.Ok? && FeatureEntries(names, ex.value).Ok? && hits.Ok? then hits.value else []
  }

  /** `explain_features(feature_names, include_solutions)`. */
  method ExplainFeaturesTool(registry: Registry, env: Environment, names: seq<string>, includeSolutions: bool)
    returns (r: Report<FeatureReport>)
    modifies registry, ToolSolutions(registry, env)
    ensures old(registry.global).Some? ==> registry.global == old(registry.global)
    ensures registry.global.Some? && SolutionSources(registry.global.value.documents) == old(ToolSolutions(registry, env))
    ensures var found := ExplainScored(registry.global.value, env, names, includeSolutions);
      forall s :: s in old(ToolSolutions(registry, env)) ==>
        s.relevanceScore == ScoreAfter(found, s, old(s.relevanceScore))
    ensures r == ExplainOutcome(registry.global.value, env, names, includeSolutions)
    ensures old(registry.global).None? ==>
      fresh(registry.global.value) && DefaultIndexed(registry.global.value, env.tfidf)
  {
    var tool := NewRAGTool(registry, env);
    r := tool.ExplainFeatures(env, names, includeSolutions);
  }

  /** `get_troubleshooting_solutions(problem_description, feature_names)`: `get_solutions`
      with three solutions. */
  method TroubleshootingTool(registry: Registry, env: Environment, problem: string, featureNames: Option<seq<string>>)
    returns (r: Report<SolutionsReport>)
    modifies registry, ToolSolutions(registry, env)
    ensures old(registry.global).Some? ==> registry.global == old(registry.global)
    ensures registry.global.Some? && SolutionSources(registry.global.value.documents) == old(ToolSolutions(registry, env))
    ensures var found := Found(SolutionSearch(registry.global.value, env, problem, featureNames, 3));
      forall s :: s in old(ToolSolutions(registry, env)) ==>
        s.relevanceScore == ScoreAfter(found, s, old(s.relevanceScore))
    ensures r == SolutionsReportOf(problem, SolutionSearch(registry.global.value, env, problem, featureNames, 3))
    ensures r.Success? ==> |r.value.solutions| <= 3
    ensures old(registry.global).None? ==>
      fresh(registry.global.value) && DefaultIndexed(registry.global.value, env.tfidf)
  {
    var tool := NewRAGTool(registry, env);
    ghost var t := tool.retriever;
    t.RankedAtMostThree(env.tfidf, env.service, env.cosine, Join(" ", [problem] + t.FeatureTerms(featureNames.GetOr([]))));
    r := tool.GetSolutions(env, problem, featureNames, 3);
  }

  // ---------------------------------------------------------------------------
  // Properties

  /** With a default (TF-IDF) retriever over a non-empty knowledge base, `search_knowledge`
      always succeeds, reports `min(top_k, #candidates)` items in non-increasing score, and
      only items of the requested kind. */
  lemma TfidfKnowledgeReport(t: KnowledgeRetriever, env: Environment, query: string, topK: int, docType: Option<string>)
    requires DefaultIndexed(t, env.tfidf) && t.documents != []
    requires topK >= 1
    ensures var r := KnowledgeReportOf(query, t.SearchResults(env.tfidf, env.service, env.cosine, query, topK, docType));
      r.Success? && r.value.resultsCount == Min(topK, |Candidates(t.documents, docType)|)
      && (forall i, j :: 0 <= i < j < |r.value.results| ==> r.value.results[j].score <= r.value.results[i].score)
      && (Filtering(docType) ==> forall i :: 0 <= i < |r.value.results| ==> r.value.results[i].kind == docType.value)
  {
    TfidfSearchNeverFails(t, env.tfidf, env.service, env.cosine, query, topK, docType);
  }

  /** In a successful `explain_features` report, a feature is described exactly when the
      knowledge base has information on it, and the only name that can make the report fail
      on its own is the related-features key. */
  lemma ExplainedEntries(t: KnowledgeRetriever, env: Environment, names: seq<string>, includeSolutions: bool,
                         briefs: Result<seq<SolutionBrief>>)
    ensures var ex := t.ExplanationsFor(env.tfidf, env.service, env.cosine, names, true);
      var r := ExplainReport(names, ex, includeSolutions, briefs);
      (r.Success? ==> forall n :: n in r.value.features ==>
         (r.value.features[n].Known? <==> !t.kb.FeatureInfoOf(n).IsEmpty()))
      && (ex.Ok? && RelatedKey !in names && (includeSolutions ==> briefs.Ok?) ==> r.Success?)
  {
    t.ExplanationsSpec(env.tfidf, env.service, env.cosine, names, true);
  }
}
