/** The online retriever: loads the index, texts and metadata written by the offline processor,
    fits a trainable embedder on the loaded texts, and answers queries with the stored texts,
    their similarities and, where it can find one, the metadata record of each text. */
module OnlineRetrieval {
  import opened Common
  import opened Storage
  import opened Embeddings
  import opened FaissStore
  import OfflineProcessing

  const DefaultIndexPath: string := "knowledge/vector_store/faiss_index.bin"
  const DefaultDocsPath: string := "knowledge/vector_store/documents.pkl"
  const DefaultMetadataPath: string := "knowledge/vector_store/metadata.pkl"
  const DefaultEmbedderType: string := "simple"
  const DefaultTopK: int := 5
  /** What `random.sample` says of a negative sample size. */
  const NegativeSample: string := "Sample larger than population or is negative"

  /** The metadata file, where it exists, holds a pickled list of records. */
  predicate MetadataReadable(fs: FileStore, metadataPath: string) {
    metadataPath in fs ==> fs[metadataPath].PickleFile? && fs[metadataPath].pickle.Records?
  }

  /** What the fitting step of `_load_index` raises, given the texts just loaded: reading
      `fitted` fails on every embedder with `fit` except the TF-IDF one, and fitting an
      unfitted TF-IDF embedder fails on an empty text list. */
  function Training(e: Embedder, docs: seq<string>): (r: Option<Error>)
    reads Footprint(e)
    ensures e.Api? ==> r == None
    ensures e.Hybrid? ==> r == Some(AttributeError("fitted"))
    ensures e.Simple? ==> (r.Some? <==> !e.simple.fitted && docs == [])
    ensures e.Simple? && r.Some? ==> r.value == ValueError(EmptyCorpus)
  {
    if !HasFit(e) then None
    else
      match FittedAttribute(e)
      case Err(x) => Some(x)
      case Ok(fitted) => if fitted || docs != [] then None else Some(ValueError(EmptyCorpus))
  }

  /** A search result: the text, its similarity and the metadata record attached to it. */
  datatype Retrieved = Retrieved(document: string, score: real, metadata: Option<ChunkMetadata>)

  /** `docs.index(x)`: the first position holding `x`. */
  function IndexOf(docs: seq<string>, x: string): (r: nat)
    requires x in docs
    ensures r < |docs| && docs[r] == x
    ensures forall j :: 0 <= j < r ==> docs[j] != x
  {
    if docs[0] == x then 0 else 1 + IndexOf(docs[1..], x)
  }

  /** The result built for one hit: metadata is attached only when it is asked for, the
      metadata list is non-empty, and it reaches the first position of the hit's text. */
  function Annotate(hit: Scored, docs: seq<string>, metadata: seq<ChunkMetadata>, withMetadata: bool): Retrieved
    requires hit.document in docs
  {
    var attach := withMetadata && metadata != [] && IndexOf(docs, hit.document) < |metadata|;
    Retrieved(hit.document, hit.similarity,
              if attach then Some(metadata[IndexOf(docs, hit.document)]) else None)
  }

  /** The results built from the store's hits, in order. */
  function Attach(raw: seq<Scored>, docs: seq<string>, metadata: seq<ChunkMetadata>, withMetadata: bool)
    : (r: seq<Retrieved>)
    requires forall i :: 0 <= i < |raw| ==> raw[i].document in docs
    ensures |r| == |raw|
    ensures forall i :: 0 <= i < |raw| ==> r[i] == Annotate(raw[i], docs, metadata, withMetadata)
  {
    seq(|raw|, i requires 0 <= i < |raw| => Annotate(raw[i], docs, metadata, withMetadata))
  }

  /** The loop of `search` that builds the results from the store's hits. */
  method AttachAll(hits: seq<Scored>, docs: seq<string>, metadata: seq<ChunkMetadata>, withMetadata: bool)
    returns (results: seq<Retrieved>)
    requires forall i :: 0 <= i < |hits| ==> hits[i].document in docs
    ensures results == Attach(hits, docs, metadata, withMetadata)
  {
    results := [];
    for i := 0 to |hits|
      invariant |results| == i
      invariant forall k :: 0 <= k < i ==> results[k] == Annotate(hits[k], docs, metadata, withMetadata)
    {
      var doc := hits[i].document;
      var meta: Option<ChunkMetadata> := None;
      if withMetadata && |metadata| > 0 {
        var idx := IndexOf(docs, doc);
        if idx < |metadata| {
          meta := Some(metadata[idx]);
        }
      }
      results := results + [Retrieved(doc, hits[i].similarity, meta)];
    }
  }

  /** `search(query, top_k, return_metadata)` against a store state and a metadata list. */
  function Answer(s: StoreState, metadata: seq<ChunkMetadata>, e: Embedder, tfidf: Tfidf,
                  service: (ApiEmbedder, seq<string>) -> ServiceReply,
                  query: string, topK: int, withMetadata: bool): Result<seq<Retrieved>>
    reads Footprint(e)
  {
    if IsBlank(query) then Ok([])
    else
      var embedded :- Embed(e, tfidf, service, One(query));
      var raw :- SearchIn(s, embedded, topK);
      Ok(Attach(raw, s.documents, metadata, withMetadata))
  }

  /** A blank query is answered with nothing and consults neither embedder nor store; any
      other query fails exactly when embedding it or searching with it fails, and otherwise
      yields one result per hit, with the hit's text and similarity, in the store's order. */
  lemma AnswerShape(s: StoreState, metadata: seq<ChunkMetadata>, e: Embedder, tfidf: Tfidf,
                    service: (ApiEmbedder, seq<string>) -> ServiceReply,
                    query: string, topK: int, withMetadata: bool)
    ensures IsBlank(query) ==> Answer(s, metadata, e, tfidf, service, query, topK, withMetadata) == Ok([])
    ensures !IsBlank(query) && Embed(e, tfidf, service, One(query)).Err? ==>
      Answer(s, metadata, e, tfidf, service, query, topK, withMetadata) ==
      Err(Embed(e, tfidf, service, One(query)).error)
    ensures !IsBlank(query) && Embed(e, tfidf, service, One(query)).Ok? ==>
      var raw := SearchIn(s, Embed(e, tfidf, service, One(query)).value, topK);
      var r := Answer(s, metadata, e, tfidf, service, query, topK, withMetadata);
      (raw.Err? ==> r == Err(raw.error))
      && (raw.Ok? ==>
            r.Ok? && |r.value| == |raw.value|
            && forall i :: 0 <= i < |raw.value| ==>
                 r.value[i].document == raw.value[i].document && r.value[i].score == raw.value[i].similarity
                 && r.value[i].document in s.documents)
  {
  }

  /** Metadata, when attached, is the record at the first position of the text among the
      stored texts; it is attached exactly when asked for and that position is inside a
      non-empty metadata list. */
  lemma MetadataIsFirstOccurrence(raw: seq<Scored>, docs: seq<string>, metadata: seq<ChunkMetadata>,
                                  withMetadata: bool, i: nat)
    requires forall k :: 0 <= k < |raw| ==> raw[k].document in docs
    requires i < |raw|
    ensures var r := Attach(raw, docs, metadata, withMetadata)[i];
      (r.metadata.Some? <==>
         withMetadata && exists j :: 0 <= j < |metadata| && j < |docs| && docs[j] == raw[i].document)
      && (r.metadata.Some? ==>
            exists j :: 0 <= j < |metadata| && j < |docs| && docs[j] == raw[i].document
                        && r.metadata.value == metadata[j]
                        && forall l :: 0 <= l < j ==> docs[l] != raw[i].document)
  {
    var p := IndexOf(docs, raw[i].document);
    if withMetadata && exists j :: 0 <= j < |metadata| && j < |docs| && docs[j] == raw[i].document {
      var j :| 0 <= j < |metadata| && j < |docs| && docs[j] == raw[i].document;
      assert p <= j;
    }
  }

  /** With distinct texts and one metadata record per text, every result carries the record
      of its own text's position. */
  lemma DistinctTextsGetOwnMetadata(raw: seq<Scored>, docs: seq<string>, metadata: seq<ChunkMetadata>, i: nat, j: nat)
    requires forall k :: 0 <= k < |raw| ==> raw[k].document in docs
    requires Distinct(docs) && |metadata| == |docs|
    requires i < |raw| && j < |docs| && docs[j] == raw[i].document
    ensures Attach(raw, docs, metadata, true)[i].metadata == Some(metadata[j])
  {
    var p := IndexOf(docs, raw[i].document);
    assert p == j;
  }

  /** On an aligned store, a well-formed query embedding yields exactly `min(top_k, n)`
      results, nearest first: scores lie in (0, 1] and never increase. */
  lemma AnswerRanked(s: StoreState, metadata: seq<ChunkMetadata>, e: Embedder, tfidf: Tfidf,
                     service: (ApiEmbedder, seq<string>) -> ServiceReply,
                     query: string, topK: int, withMetadata: bool)
    requires !IsBlank(query) && s.Aligned() && s.documents != [] && topK >= 1
    requires Embed(e, tfidf, service, One(query)).Ok?
    requires var m := Embed(e, tfidf, service, One(query)).value;
      m.width == s.index.value.d && m.rows != []
    ensures var r := Answer(s, metadata, e, tfidf, service, query, topK, withMetadata);
      r.Ok? && |r.value| == Min(topK, |s.documents|)
      && forall i, j :: 0 <= i < j < |r.value| ==> 0.0 < r.value[j].score <= r.value[i].score <= 1.0
  {
    var m := Embed(e, tfidf, service, One(query)).value;
    SearchRanked(s, m, topK);
  }

  /** A result whose metadata names the source file. */
  predicate NamesSource(x: Retrieved, source: string) {
    x.metadata.Some? && x.metadata.value.sourceFile == source
  }

  /** The results `search_by_source` keeps: those whose metadata names the source file,
      in the order of the search, so that results ranked by score stay ranked. */
  function FromSource(results: seq<Retrieved>, source: string): (r: seq<Retrieved>)
    ensures |r| <= |results|
    ensures forall x :: x in r <==> x in results && NamesSource(x, source)
    ensures Ranked(results) ==> Ranked(r)
  {
    var p := x => NamesSource(x, source);
    FilterKeepsRank(results, p);
    Filter(results, p)
  }

  /** Results in non-increasing order of score. */
  predicate Ranked(results: seq<Retrieved>) {
    forall i, j :: 0 <= i < j < |results| ==> results[j].score <= results[i].score
  }

  /** Results ranked by score stay so when some are left out. */
  lemma {:induction false} FilterKeepsRank(results: seq<Retrieved>, p: Retrieved -> bool)
    ensures Ranked(results) ==> Ranked(Filter(results, p))
  {
    if results != [] && Ranked(results) {
      var init, last := results[..|results| - 1], results[|results| - 1];
      assert results == init + [last];
      assert Ranked(init) by {
        forall i, j | 0 <= i < j < |init| ensures init[j].score <= init[i].score {
          assert init[i] == results[i] && init[j] == results[j];
        }
      }
      FilterKeepsRank(init, p);
      var kept := Filter(init, p);
      assert Filter(results, p) == kept + (if p(last) then [last] else []);
      if p(last) {
        var f := kept + [last];
        forall i | 0 <= i < |kept| ensures last.score <= kept[i].score {
          var k :| 0 <= k < |init| && init[k] == kept[i];
          assert results[k] == kept[i];
        }
        forall i, j | 0 <= i < j < |f| ensures f[j].score <= f[i].score {
          if j < |kept| {
            assert f[i] == kept[i] && f[j] == kept[j];
          } else {
            assert f[i] == kept[i] && f[j] == last;
          }
        }
      }
    }
  }

  /** `search_by_source(query, source_file, top_k)`: a search for five times as many results,
      with metadata, filtered by source and cut to `top_k`. */
  function SourceAnswer(s: StoreState, metadata: seq<ChunkMetadata>, e: Embedder, tfidf: Tfidf,
                        service: (ApiEmbedder, seq<string>) -> ServiceReply,
                        query: string, source: string, topK: int): Result<seq<Retrieved>>
    reads Footprint(e)
  {
    var all :- Answer(s, metadata, e, tfidf, service, query, topK * 5, true);
    Ok(Take(FromSource(all, source), topK))
  }

  /** A source search keeps the first `top_k` results of the wider search that carry metadata
      naming the source, in the wider search's order; every result it leaves out of those is
      past the first `top_k`, and results ranked by score stay ranked. */
  lemma SourceAnswerSpec(s: StoreState, metadata: seq<ChunkMetadata>, e: Embedder, tfidf: Tfidf,
                         service: (ApiEmbedder, seq<string>) -> ServiceReply,
                         query: string, source: string, topK: int)
    ensures var all := Answer(s, metadata, e, tfidf, service, query, topK * 5, true);
      var r := SourceAnswer(s, metadata, e, tfidf, service, query, source, topK);
      (all.Err? ==> r == Err(all.error))
      && (all.Ok? ==>
            var f := FromSource(all.value, source);
            r.Ok?
            && r.value == f[..|r.value|]
            && (topK >= 0 ==> |r.value| == Min(topK, |f|))
            && (forall x :: x in r.value ==> x in all.value && NamesSource(x, source))
            && (|f| <= topK ==> forall x :: x in all.value && NamesSource(x, source) ==> x in r.value))
  {
    var all := Answer(s, metadata, e, tfidf, service, query, topK * 5, true);
    if all.Ok? {
      var f := FromSource(all.value, source);
      var r := Take(f, topK);
      forall x | x in r ensures x in f {
        var k :| 0 <= k < |r| && r[k] == x;
        assert f[k] == x;
      }
      if |f| <= topK {
        assert r == f;
      }
    }
  }

  /** A source search over a wider search ranked by score is ranked the same way. */
  lemma SourceAnswerRanked(s: StoreState, metadata: seq<ChunkMetadata>, e: Embedder, tfidf: Tfidf,
                           service: (ApiEmbedder, seq<string>) -> ServiceReply,
                           query: string, source: string, topK: int)
    requires var all := Answer(s, metadata, e, tfidf, service, query, topK * 5, true);
      all.Ok? && Ranked(all.value)
    ensures var r := SourceAnswer(s, metadata, e, tfidf, service, query, source, topK);
      r.Ok? && Ranked(r.value)
  {
    var all := Answer(s, metadata, e, tfidf, service, query, topK * 5, true).value;
    var f := FromSource(all, source);
    var r := Take(f, topK);
    forall i, j | 0 <= i < j < |r| ensures r[j].score <= r[i].score {
      assert r[i] == f[i] && r[j] == f[j];
    }
  }

  /** `random.sample(docs, n)` when there are at least `n` texts, with the positions drawn
      passed in; all texts when there are fewer than `n`. */
  function Sample(docs: seq<string>, n: int, picks: seq<nat>): (r: Result<seq<string>>)
    requires 0 <= n <= |docs| ==>
      |picks| == n && Distinct(picks) && forall i :: 0 <= i < |picks| ==> picks[i] < |docs|
    ensures |docs| < n ==> r == Ok(docs)
    ensures r.Err? <==> n < 0
    ensures r.Err? ==> r.error == ValueError(NegativeSample)
  {
    if |docs| < n then Ok(docs)
    else if n < 0 then Err(ValueError(NegativeSample))
    else Ok(seq(n, i requires 0 <= i < n => docs[picks[i]]))
  }

  /** A sample has `min(n, len(docs))` texts, all stored ones, each drawn at most once: with
      distinct stored texts the sample repeats none. */
  lemma SampleSpec(docs: seq<string>, n: int, picks: seq<nat>)
    requires 0 <= n
    requires n <= |docs| ==>
      |picks| == n && Distinct(picks) && forall i :: 0 <= i < |picks| ==> picks[i] < |docs|
    ensures var r := Sample(docs, n, picks).value;
      |r| == Min(n, |docs|) && (forall x :: x in r ==> x in docs)
      && (Distinct(docs) ==> Distinct(r))
  {
    var r := Sample(docs, n, picks).value;
    if n <= |docs| {
      forall i, j | 0 <= i < j < |r| && Distinct(docs) ensures r[i] != r[j] {
        assert picks[i] != picks[j];
      }
    }
  }

  /** The source files named in a metadata list. */
  function SourceFiles(metadata: seq<ChunkMetadata>): (r: set<string>)
    ensures forall f :: f in r <==> exists i :: 0 <= i < |metadata| && metadata[i].sourceFile == f
  {
    if metadata == [] then {}
    else
      var init := metadata[..|metadata| - 1];
      var r := SourceFiles(init) + {metadata[|metadata| - 1].sourceFile};
      assert forall i :: 0 <= i < |init| ==> init[i] == metadata[i];
      r
  }

  /** There are never more source files than records, and at least one when there is a
      record. */
  lemma {:induction false} SourceFileCount(metadata: seq<ChunkMetadata>)
    ensures |SourceFiles(metadata)| <= |metadata|
    ensures metadata != [] ==> |SourceFiles(metadata)| >= 1
  {
    if metadata != [] {
      var init := metadata[..|metadata| - 1];
      SourceFileCount(init);
      assert SourceFiles(metadata) == SourceFiles(init) + {metadata[|metadata| - 1].sourceFile};
      assert metadata[|metadata| - 1].sourceFile in SourceFiles(metadata);
    }
  }

  /** The source-file part of `get_stats()`; the order of `list(set)` is left open. */
  datatype SourceSummary = SourceSummary(sourceFiles: set<string>, sourceFileCount: nat)

  /** `get_stats()`: the store's statistics, and the source files when there is metadata. */
  datatype RetrieverStats = RetrieverStats(store: Stats, sources: Option<SourceSummary>)

  class OnlineRetriever {
    const indexPath: string
    const docsPath: string
    const metadataPath: string
    const embedder: Embedder
    const vectorStore: FaissVectorStore
    var metadata: seq<ChunkMetadata>

    /** The fields `__init__` sets before loading. */
    constructor(indexPath: string, docsPath: string, metadataPath: string, embedder: Embedder)
      ensures this.indexPath == indexPath && this.docsPath == docsPath && this.metadataPath == metadataPath
      ensures this.embedder == embedder && fresh(vectorStore) && vectorStore.State() == Initial(None)
      ensures metadata == []
    {
      this.indexPath := indexPath;
      this.docsPath := docsPath;
      this.metadataPath := metadataPath;
      this.embedder := embedder;
      vectorStore := new FaissVectorStore(None);
      metadata := [];
    }

    /** `_load_index()`: both files must exist; the store is loaded, the metadata list is
        replaced when its file exists, and a trainable embedder is fitted on the loaded texts
        unless it is already fitted. */
    method LoadIndex(fs: FileStore) returns (err: Option<Error>)
      requires LoadableAt(fs, indexPath, docsPath) && MetadataReadable(fs, metadataPath)
      modifies this, vectorStore, Trainees(embedder)
      ensures indexPath !in fs ==> err == Some(FileNotFoundError(MissingIndex(indexPath)))
      ensures indexPath in fs && docsPath !in fs ==> err == Some(FileNotFoundError(MissingDocuments(docsPath)))
      ensures indexPath !in fs || docsPath !in fs ==>
        vectorStore.State() == old(vectorStore.State()) && metadata == old(metadata)
        && unchanged(Trainees(embedder))
      ensures indexPath in fs && docsPath in fs ==>
        var docs := fs[docsPath].pickle.texts;
        vectorStore.State() == LoadFrom(old(vectorStore.State()), fs, indexPath, docsPath).state
        && metadata == (if metadataPath in fs then fs[metadataPath].pickle.records else old(metadata))
        && err == old(Training(embedder, docs))
        && (err.Some? || !HasFit(embedder) || old(Trainee(embedder).fitted) ==> unchanged(Trainees(embedder)))
        && (err.None? && HasFit(embedder) && !old(Trainee(embedder).fitted) ==>
              Trainee(embedder).fitted && Trainee(embedder).corpus == docs)
    {
      if indexPath !in fs {
        return Some(FileNotFoundError(MissingIndex(indexPath)));
      }
      if docsPath !in fs {
        return Some(FileNotFoundError(MissingDocuments(docsPath)));
      }
      err := vectorStore.Load(fs, indexPath, docsPath);
      if metadataPath in fs {
        metadata := fs[metadataPath].pickle.records;
      }
      err := None;
      if HasFit(embedder) {
        var fitted := FittedAttribute(embedder);
        if fitted.Err? {
          return Some(fitted.error);
        }
        if !fitted.value {
          err := FitEmbedder(embedder, vectorStore.documents);
        }
      }
    }

    /** `search(query, top_k, return_metadata)`: the store's search and the loop attaching
        metadata are `FaissVectorStore.Search` and `AttachAll`, each proved equal to the
        function evaluated here. */
    method Search(tfidf: Tfidf, service: (ApiEmbedder, seq<string>) -> ServiceReply,
                  query: string, topK: int, withMetadata: bool) returns (r: Result<seq<Retrieved>>)
      ensures r == Answer(vectorStore.State(), metadata, embedder, tfidf, service, query, topK, withMetadata)
    {
      StripEmptyIffBlank(query);
      if query == "" || Strip(query) == "" {
        return Ok([]);
      }
      var embedded := Embed(embedder, tfidf, service, One(query));
      if embedded.Err? {
        return Err(embedded.error);
      }
      var raw := SearchIn(vectorStore.State(), embedded.value, topK);
      if raw.Err? {
        return Err(raw.error);
      }
      r := Ok(Attach(raw.value, vectorStore.documents, metadata, withMetadata));
    }

    /** `search_by_source(query, source_file, top_k)`. */
    method SearchBySource(tfidf: Tfidf, service: (ApiEmbedder, seq<string>) -> ServiceReply,
                          query: string, source: string, topK: int) returns (r: Result<seq<Retrieved>>)
      ensures r == SourceAnswer(vectorStore.State(), metadata, embedder, tfidf, service, query, source, topK)
    {
      var all := Search(tfidf, service, query, topK * 5, true);
      if all.Err? {
        return Err(all.error);
      }
      r := Ok(Take(FromSource(all.value, source), topK));
    }

    /** `get_random_samples(n)`, with the positions `random.sample` draws passed in. */
    function RandomSamples(n: int, picks: seq<nat>): (r: Result<seq<string>>)
      reads this, vectorStore
      requires 0 <= n <= |vectorStore.documents| ==>
        |picks| == n && Distinct(picks) && forall i :: 0 <= i < |picks| ==> picks[i] < |vectorStore.documents|
      ensures r.Ok? ==> forall x :: x in r.value ==> x in vectorStore.documents
      ensures n >= 0 ==> r.Ok? && |r.value| == Min(n, |vectorStore.documents|)
    {
      var r := Sample(vectorStore.documents, n, picks);
      if n >= 0 then SampleSpec(vectorStore.documents, n, picks); r else r
    }

    /** `get_stats()`. */
    function GetStats(): (r: RetrieverStats)
      reads this, vectorStore
      ensures r.store == StatsOf(vectorStore.State())
      ensures r.sources.None? <==> metadata == []
      ensures r.sources.Some? ==>
        r.sources.value.sourceFileCount == |r.sources.value.sourceFiles|
        && 1 <= r.sources.value.sourceFileCount <= |metadata|
        && forall f :: f in r.sources.value.sourceFiles <==> exists i :: 0 <= i < |metadata| && metadata[i].sourceFile == f
    {
      SourceFileCount(metadata);
      var files := SourceFiles(metadata);
      RetrieverStats(StatsOf(vectorStore.State()),
                     if metadata == [] then None else Some(SourceSummary(files, |files|)))
    }
  }

  /** `OnlineRetriever(index_path, docs_path, metadata_path, embedder_type, **embedder_kwargs)`
      and `create_retriever`: the embedder is created, then the index loaded; the first error
      aborts construction. */
  method NewOnlineRetriever(indexPath: string, docsPath: string, metadataPath: string,
                            embedderType: string, args: EmbedderArgs, config: EmbeddingConfig, fs: FileStore)
    returns (r: Result<OnlineRetriever>)
    requires LoadableAt(fs, indexPath, docsPath) && MetadataReadable(fs, metadataPath)
    ensures CreationOutcome(Some(embedderType), args, config).Err? ==>
      r == Err(CreationOutcome(Some(embedderType), args, config).error)
    ensures CreationOutcome(Some(embedderType), args, config).Ok? && indexPath !in fs ==>
      r == Err(FileNotFoundError(MissingIndex(indexPath)))
    ensures CreationOutcome(Some(embedderType), args, config).Ok? && indexPath in fs && docsPath !in fs ==>
      r == Err(FileNotFoundError(MissingDocuments(docsPath)))
    ensures r.Ok? ==>
      var t := r.value;
      fresh(t) && fresh(t.vectorStore) && indexPath in fs && docsPath in fs
      && t.indexPath == indexPath && t.docsPath == docsPath && t.metadataPath == metadataPath
      && t.vectorStore.State() == LoadFrom(Initial(None), fs, indexPath, docsPath).state
      && t.metadata == (if metadataPath in fs then fs[metadataPath].pickle.records else [])
      && (HasFit(t.embedder) ==> Trainee(t.embedder).fitted && Trainee(t.embedder).corpus == fs[docsPath].pickle.texts)
    ensures CreationOutcome(Some(embedderType), args, config).Ok? && indexPath in fs && docsPath in fs ==>
      match CreationOutcome(Some(embedderType), args, config).value
      case SimpleKind(_) => r.Ok? <==> fs[docsPath].pickle.texts != []
      case ApiKind(_) => r.Ok?
      case HybridKind => r == Err(AttributeError("fitted"))
  {
    var e := CreateEmbedder(Some(embedderType), args, config);
    if e.Err? {
      return Err(e.error);
    }
    var t := new OnlineRetriever(indexPath, docsPath, metadataPath, e.value);
    var err := t.LoadIndex(fs);
    if err.Some? {
      return Err(err.value);
    }
    r := Ok(t);
  }

  /** The retriever's default paths are the files the offline processor writes into its
      default output directory. */
  lemma DefaultPathsMatchOffline()
    ensures DefaultIndexPath == OfflineProcessing.IndexPath(OfflineProcessing.DefaultOutputDir)
    ensures DefaultDocsPath == OfflineProcessing.DocumentsPath(OfflineProcessing.DefaultOutputDir)
    ensures DefaultMetadataPath == OfflineProcessing.MetadataPath(OfflineProcessing.DefaultOutputDir)
  {
    OfflineProcessing.DefaultOutputPaths();
  }
}
