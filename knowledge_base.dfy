/** The curated knowledge base: feature definitions, troubleshooting solutions and domain
    concepts, with keyword, priority and term lookups, and its flattening into tagged
    documents for retrieval. The three JSON files it loads are given as already-parsed
    contents. */
module KnowledgeBases {
  import opened Common

  /** A feature's entry in the feature definitions; `None` is a missing key, and `otherKeys`
      says whether the dict holds any key besides these seven (such as "category"). */
  datatype FeatureInfo = FeatureInfo(
    name: Option<string>, description: Option<string>, unit: Option<string>,
    normalRange: Option<string>, relatedTo: Option<string>,
    anomalyCauses: Option<seq<string>>, impact: Option<string>, otherKeys: bool)
  {
    /** Only the empty dict `{}` is falsy. */
    predicate IsEmpty() {
      name.None? && description.None? && unit.None? && normalRange.None? && relatedTo.None?
      && anomalyCauses.None? && impact.None? && !otherKeys
    }
  }

  /** What `features.get(name, {})` gives for an unknown name. */
  const NoInfo: FeatureInfo := FeatureInfo(None, None, None, None, None, None, None, false)

  /** The feature dict: its keys in insertion order, and the entry of each key. */
  datatype FeatureTable = FeatureTable(order: seq<string>, info: map<string, FeatureInfo>) {
    ghost predicate Valid() {
      Distinct(order) && forall n :: n in info <==> n in order
    }
  }

  type Features = t: FeatureTable | t.Valid() witness FeatureTable([], map[])

  /** A troubleshooting solution. The record is shared: the retriever writes a relevance
      score into it. */
  class SolutionRecord {
    const problem: Option<string>
    const symptoms: Option<seq<string>>
    const rootCauses: Option<seq<string>>
    const solutions: Option<seq<string>>
    const priority: Option<string>
    const typicalResolutionTime: Option<string>
    var relevanceScore: Option<real>

    constructor(problem: Option<string>, symptoms: Option<seq<string>>, rootCauses: Option<seq<string>>,
                solutions: Option<seq<string>>, priority: Option<string>, typicalResolutionTime: Option<string>)
      ensures this.problem == problem && this.symptoms == symptoms && this.rootCauses == rootCauses
      ensures this.solutions == solutions && this.priority == priority
      ensures this.typicalResolutionTime == typicalResolutionTime && relevanceScore == None
    {
      this.problem := problem;
      this.symptoms := symptoms;
      this.rootCauses := rootCauses;
      this.solutions := solutions;
      this.priority := priority;
      this.typicalResolutionTime := typicalResolutionTime;
      relevanceScore := None;
    }
  }

  /** A domain concept; shared like a solution. */
  class ConceptRecord {
    const term: Option<string>
    const definition: Option<string>
    const interpretation: Option<string>
    const category: Option<string>
    var relevanceScore: Option<real>

    constructor(term: Option<string>, definition: Option<string>, interpretation: Option<string>,
                category: Option<string>)
      ensures this.term == term && this.definition == definition
      ensures this.interpretation == interpretation && this.category == category
      ensures relevanceScore == None
    {
      this.term := term;
      this.definition := definition;
      this.interpretation := interpretation;
      this.category := category;
      relevanceScore := None;
    }
  }

  /** The parsed contents of the three knowledge files; `None` is a missing file or key. */
  datatype KnowledgeFiles = KnowledgeFiles(
    features: Option<Features>, solutions: Option<seq<SolutionRecord>>,
    concepts: Option<seq<ConceptRecord>>, bestPractices: Option<seq<string>>,
    troubleshootingTips: Option<seq<string>>)

  /** A retrievable document and its metadata, tagged by kind; `source` is the record it
      was made from. */
  datatype DocMetadata =
    | FeatureDoc(name: string, source: FeatureInfo)
    | SolutionDoc(problem: string, priority: string, solution: SolutionRecord)
    | ConceptDoc(term: string, category: string, concept: ConceptRecord)
  {
    /** The `type` entry. */
    function Type(): string {
      match this
      case FeatureDoc(_, _) => "feature"
      case SolutionDoc(_, _, _) => "solution"
      case ConceptDoc(_, _, _) => "concept"
    }
  }

  datatype Document = Document(text: string, metadata: DocMetadata)

  function FeatureText(name: string, info: FeatureInfo): string {
    name + " " + info.name.GetOr("") + ". "
    + info.description.GetOr("") + " "
    + "相关系统: " + info.relatedTo.GetOr("") + ". "
    + "可能异常原因: " + Join(", ", info.anomalyCauses.GetOr([])) + ". "
    + "影响: " + info.impact.GetOr("")
  }

  function SolutionText(s: SolutionRecord): string {
    "问题: " + s.problem.GetOr("") + ". "
    + "症状: " + Join(", ", s.symptoms.GetOr([])) + ". "
    + "根本原因: " + Join(", ", s.rootCauses.GetOr([])) + ". "
    + "解决方案: " + Join(", ", s.solutions.GetOr([]))
  }

  function ConceptText(c: ConceptRecord): string {
    c.term.GetOr("") + ": " + c.definition.GetOr("") + ". " + c.interpretation.GetOr("")
  }

  function FeatureDocument(features: Features, i: nat): Document
    requires i < |features.order|
  {
    var name := features.order[i];
    Document(FeatureText(name, features.info[name]), FeatureDoc(name, features.info[name]))
  }

  function SolutionDocument(s: SolutionRecord): Document {
    Document(SolutionText(s), SolutionDoc(s.problem.GetOr(""), s.priority.GetOr("medium"), s))
  }

  function ConceptDocument(c: ConceptRecord): Document {
    Document(ConceptText(c), ConceptDoc(c.term.GetOr(""), c.category.GetOr(""), c))
  }

  /** The documents of a knowledge base: the features in key order, then the solutions, then
      the concepts. */
  function DocumentsOf(features: Features, solutions: seq<SolutionRecord>, concepts: seq<ConceptRecord>)
    : seq<Document>
  {
    seq(|features.order|, i requires 0 <= i < |features.order| => FeatureDocument(features, i))
    + seq(|solutions|, i requires 0 <= i < |solutions| => SolutionDocument(solutions[i]))
    + seq(|concepts|, i requires 0 <= i < |concepts| => ConceptDocument(concepts[i]))
  }

  /** The documents of a knowledge base loaded from `files`. */
  function FilesDocuments(files: KnowledgeFiles): seq<Document> {
    DocumentsOf(files.features.GetOr(FeatureTable([], map[])), files.solutions.GetOr([]), files.concepts.GetOr([]))
  }

  /** The text `search_solutions` looks for keywords in. */
  function SearchText(s: SolutionRecord): string {
    Lower(s.problem.GetOr("") + " " + Join(" ", s.symptoms.GetOr([])) + " " + Join(" ", s.rootCauses.GetOr([])))
  }

  /** Some lower-cased keyword occurs in the solution's lower-cased search text. */
  predicate MatchesAny(s: SolutionRecord, keywords: seq<string>) {
    exists k :: 0 <= k < |keywords| && Contains(SearchText(s), Lower(keywords[k]))
  }

  /** `get_statistics()`. */
  datatype KnowledgeStats = KnowledgeStats(
    featuresCount: nat, solutionsCount: nat, conceptsCount: nat, bestPracticesCount: nat, tipsCount: nat)

  class KnowledgeBase {
    const features: Features
    const solutions: seq<SolutionRecord>
    const domainKnowledge: seq<ConceptRecord>
    const bestPractices: seq<string>
    const troubleshootingTips: seq<string>

    /** `KnowledgeBase(data_dir)`: each missing file or key leaves its collection empty. */
    constructor(files: KnowledgeFiles)
      ensures features == files.features.GetOr(FeatureTable([], map[]))
      ensures solutions == files.solutions.GetOr([])
      ensures domainKnowledge == files.concepts.GetOr([])
      ensures bestPractices == files.bestPractices.GetOr([])
      ensures troubleshootingTips == files.troubleshootingTips.GetOr([])
    {
      features := files.features.GetOr(FeatureTable([], map[]));
      solutions := files.solutions.GetOr([]);
      domainKnowledge := files.concepts.GetOr([]);
      bestPractices := files.bestPractices.GetOr([]);
      troubleshootingTips := files.troubleshootingTips.GetOr([]);
    }

    /** `get_feature_info(feature_name)`. */
    function FeatureInfoOf(name: string): FeatureInfo {
      if name in features.info then features.info[name] else NoInfo
    }

    /** The names among `names` with non-empty information, each mapped to it. */
    function KnownFeatures(names: seq<string>): (r: map<string, FeatureInfo>)
      ensures forall n :: n in r <==> n in names && n in features.info && !features.info[n].IsEmpty()
      ensures forall n :: n in r ==> r[n] == features.info[n]
    {
      map n | n in names && !FeatureInfoOf(n).IsEmpty() :: FeatureInfoOf(n)
    }

    /** `get_multiple_features_info(feature_names)`. */
    method MultipleFeaturesInfo(names: seq<string>) returns (r: map<string, FeatureInfo>)
      ensures r == KnownFeatures(names)
    {
      r := map[];
      for i := 0 to |names|
        invariant forall n :: n in r <==> n in names[..i] && !FeatureInfoOf(n).IsEmpty()
        invariant forall n :: n in r ==> r[n] == FeatureInfoOf(n)
      {
        assert names[..i + 1] == names[..i] + [names[i]];
        var info := FeatureInfoOf(names[i]);
        if !info.IsEmpty() {
          r := r[names[i] := info];
        }
      }
      assert names[..|names|] == names;
    }

    /** `search_solutions(keywords)`. */
    method SearchSolutions(keywords: seq<string>) returns (r: seq<SolutionRecord>)
      ensures r == Filter(solutions, (s: SolutionRecord) => MatchesAny(s, keywords))
    {
      r := [];
      for i := 0 to |solutions|
        invariant r == Filter(solutions[..i], (s: SolutionRecord) => MatchesAny(s, keywords))
      {
        assert solutions[..i + 1][..i] == solutions[..i];
        if MatchesAny(solutions[i], keywords) {
          r := r + [solutions[i]];
        }
      }
      assert solutions[..|solutions|] == solutions;
    }

    /** `get_solution_by_priority(priority)`: the solutions of that priority, in their order and
        with their repeats, which `PriorityFilterSpec` pins down piece by piece. */
    function SolutionsByPriority(priority: string): (r: seq<SolutionRecord>)
      ensures forall i :: 0 <= i < |r| ==> r[i] in solutions && r[i].priority == Some(priority)
      ensures forall i :: 0 <= i < |solutions| && solutions[i].priority == Some(priority) ==> solutions[i] in r
      ensures forall i :: 0 <= i <= |solutions| ==>
        r == Filter(solutions[..i], (s: SolutionRecord) => s.priority == Some(priority))
             + Filter(solutions[i..], (s: SolutionRecord) => s.priority == Some(priority))
    {
      var p := (s: SolutionRecord) => s.priority == Some(priority);
      FilterSplits(solutions, p);
      Filter(solutions, p)
    }

    /** `search_concept(term)`. */
    function SearchConcept(term: string): (r: Option<ConceptRecord>)
      ensures r.None? <==> forall i :: 0 <= i < |domainKnowledge| ==> !TermMatches(domainKnowledge[i], term)
      ensures r.Some? ==> exists i :: 0 <= i < |domainKnowledge| && domainKnowledge[i] == r.value
                                      && TermMatches(r.value, term)
                                      && forall j :: 0 <= j < i ==> !TermMatches(domainKnowledge[j], term)
    {
      FirstMatch(domainKnowledge, term)
    }

    /** The documents `get_all_documents` builds. */
    function Documents(): seq<Document> {
      DocumentsOf(features, solutions, domainKnowledge)
    }

    /** `get_all_documents()`. */
    method AllDocuments() returns (docs: seq<Document>)
      ensures docs == Documents()
    {
      var f, sols, concepts := features, solutions, domainKnowledge;
      ghost var fd := seq(|f.order|, i requires 0 <= i < |f.order| => FeatureDocument(f, i));
      ghost var sd := seq(|sols|, i requires 0 <= i < |sols| => SolutionDocument(sols[i]));
      ghost var cd := seq(|concepts|, i requires 0 <= i < |concepts| => ConceptDocument(concepts[i]));
      assert Documents() == fd + sd + cd;
      docs := [];
      for i := 0 to |f.order|
        invariant docs == fd[..i]
      {
        assert fd[..i + 1] == fd[..i] + [FeatureDocument(f, i)];
        docs := docs + [FeatureDocument(f, i)];
      }
      assert fd[..|f.order|] == fd;
      for i := 0 to |sols|
        invariant docs == fd + sd[..i]
      {
        assert sd[..i + 1] == sd[..i] + [SolutionDocument(sols[i])];
        docs := docs + [SolutionDocument(sols[i])];
      }
      assert sd[..|sols|] == sd;
      for i := 0 to |concepts|
        invariant docs == fd + sd + cd[..i]
      {
        assert cd[..i + 1] == cd[..i] + [ConceptDocument(concepts[i])];
        docs := docs + [ConceptDocument(concepts[i])];
      }
      assert cd[..|concepts|] == cd;
    }

    /** `get_statistics()`. */
    function Statistics(): (r: KnowledgeStats)
      ensures r.featuresCount == |features.info| && r.solutionsCount == |solutions|
      ensures r.conceptsCount == |domainKnowledge|
      ensures r.bestPracticesCount == |bestPractices| && r.tipsCount == |troubleshootingTips|
      ensures r.featuresCount + r.solutionsCount + r.conceptsCount == |Documents()|
    {
      DistinctCardinality(features.order);
      assert features.info.Keys == set n | n in features.order;
      KnowledgeStats(|features.order|, |solutions|, |domainKnowledge|, |bestPractices|, |troubleshootingTips|)
    }
  }

  /** `concept.get('term', '').lower() == term.lower()`. */
  predicate TermMatches(c: ConceptRecord, term: string) {
    Lower(c.term.GetOr("")) == Lower(term)
  }

  /** The first concept whose term matches. */
  function FirstMatch(concepts: seq<ConceptRecord>, term: string): (r: Option<ConceptRecord>)
    ensures r.None? <==> forall i :: 0 <= i < |concepts| ==> !TermMatches(concepts[i], term)
    ensures r.Some? ==> exists i :: 0 <= i < |concepts| && concepts[i] == r.value && TermMatches(r.value, term)
                                    && forall j :: 0 <= j < i ==> !TermMatches(concepts[j], term)
  {
    if concepts == [] then None
    else if TermMatches(concepts[0], term) then Some(concepts[0])
    else
      var r := FirstMatch(concepts[1..], term);
      assert forall i :: 1 <= i < |concepts| ==> concepts[i] == concepts[1..][i - 1];
      if r.Some? then
        assert exists i :: 1 <= i < |concepts| && concepts[i] == r.value && TermMatches(r.value, term)
                           && forall j :: 0 <= j < i ==> !TermMatches(concepts[j], term) by {
          var i :| 0 <= i < |concepts[1..]| && concepts[1..][i] == r.value && TermMatches(r.value, term)
                   && forall j :: 0 <= j < i ==> !TermMatches(concepts[1..][j], term);
          assert concepts[i + 1] == r.value;
        }
        r
      else r
  }

  /** An empty keyword list matches nothing; a solution matches exactly when some keyword
      occurs in its search text; matching keeps the solutions' order. */
  lemma SearchSolutionsSpec(solutions: seq<SolutionRecord>, more: seq<SolutionRecord>, keywords: seq<string>)
    ensures keywords == [] ==> Filter(solutions, (s: SolutionRecord) => MatchesAny(s, keywords)) == []
    ensures forall i :: 0 <= i < |solutions| ==>
      (solutions[i] in Filter(solutions, (s: SolutionRecord) => MatchesAny(s, keywords)) <==> MatchesAny(solutions[i], keywords))
    ensures Filter(solutions + more, (s: SolutionRecord) => MatchesAny(s, keywords)) ==
      Filter(solutions, (s: SolutionRecord) => MatchesAny(s, keywords)) + Filter(more, (s: SolutionRecord) => MatchesAny(s, keywords))
  {
    var p := (s: SolutionRecord) => MatchesAny(s, keywords);
    FilterConcat(solutions, more, p);
    if keywords == [] {
      FilterNone(solutions, p);
    }
    var r := Filter(solutions, p);
    forall i | 0 <= i < |solutions| && solutions[i] in r ensures MatchesAny(solutions[i], keywords) {
      var j :| 0 <= j < |r| && r[j] == solutions[i];
    }
  }

  /** The priority filter keeps the solutions' order and repeats: it splits over
      concatenation, and a single solution is kept exactly when its priority is the one asked
      for. Together these fix the result for every list. */
  lemma {:induction false} PriorityFilterSpec(solutions: seq<SolutionRecord>, more: seq<SolutionRecord>,
                                              one: SolutionRecord, priority: string)
    ensures Filter(solutions + more, (s: SolutionRecord) => s.priority == Some(priority)) ==
      Filter(solutions, (s: SolutionRecord) => s.priority == Some(priority))
      + Filter(more, (s: SolutionRecord) => s.priority == Some(priority))
    ensures Filter([one], (s: SolutionRecord) => s.priority == Some(priority)) ==
      if one.priority == Some(priority) then [one] else []
  {
    var p := (s: SolutionRecord) => s.priority == Some(priority);
    FilterConcat(solutions, more, p);
    assert [one][..0] == [];
  }

  /** An entry whose only keys are ones the model does not name, such as `{"category": …}`, is
      a non-empty dict, so the feature counts as known. */
  lemma OtherKeysAreKnown(kb: KnowledgeBase, n: string)
    requires n in kb.features.info && kb.features.info[n] == FeatureInfo(None, None, None, None, None, None, None, true)
    ensures n in kb.KnownFeatures([n])
  {
  }

  /** A keyword hits regardless of case: upper-case ASCII letters in keyword and text fold
      to the same lower-case letter. */
  lemma KeywordCaseBlind(s: SolutionRecord, keyword: string)
    ensures MatchesAny(s, [keyword]) == MatchesAny(s, [Lower(keyword)])
  {
    LowerIdempotent(keyword);
    assert MatchesAny(s, [keyword]) == Contains(SearchText(s), Lower(keyword)) by {
      assert [keyword][0] == keyword;
    }
    assert MatchesAny(s, [Lower(keyword)]) == Contains(SearchText(s), Lower(Lower(keyword))) by {
      assert [Lower(keyword)][0] == Lower(keyword);
    }
  }

  lemma {:induction false} LowerIdempotent(s: string)
    ensures Lower(Lower(s)) == Lower(s)
  {
    forall i | 0 <= i < |s| ensures Lower(Lower(s))[i] == Lower(s)[i] {
      assert Lower(s)[i] == LowerChar(s[i]);
    }
  }

  /** The document list has one entry per feature, solution and concept, in that order;
      each is tagged with its kind and points back at its record, and a solution without a
      priority is tagged "medium". */
  lemma DocumentsLayout(kb: KnowledgeBase, i: nat)
    requires i < |kb.Documents()|
    ensures |kb.Documents()| == |kb.features.order| + |kb.solutions| + |kb.domainKnowledge|
    ensures var d := kb.Documents()[i];
      var nf, ns := |kb.features.order|, |kb.solutions|;
      (i < nf ==> d.metadata == FeatureDoc(kb.features.order[i], kb.features.info[kb.features.order[i]]))
      && (nf <= i < nf + ns ==>
            d.metadata.SolutionDoc? && d.metadata.solution == kb.solutions[i - nf]
            && d.metadata.priority == kb.solutions[i - nf].priority.GetOr("medium"))
      && (nf + ns <= i ==> d.metadata.ConceptDoc? && d.metadata.concept == kb.domainKnowledge[i - nf - ns])
      && d.metadata.Type() == (if i < nf then "feature" else if i < nf + ns then "solution" else "concept")
  {
  }
}
