/** Text embedders: a trainable TF-IDF embedder, a remote embedding service, and a hybrid that
    prefers the service and falls back to TF-IDF. The TF-IDF weighting and the service are
    oracles; their inputs and the way their outputs are shaped are modelled. */
module Embeddings {
  import opened Common
  import opened Storage

  /** The TF-IDF vectorizer once fitted on a corpus: the number of features it keeps and the
      weight of feature `j` in a text. */
  datatype Tfidf = Tfidf(features: seq<string> -> nat, weight: (seq<string>, string, nat) -> real)

  /** The `texts` argument of `embed`: one string or a list of strings. */
  datatype TextInput = One(text: string) | Many(texts: seq<string>)

  /** `if isinstance(texts, str): texts = [texts]`. */
  function Batch(input: TextInput): (r: seq<string>)
    ensures input.One? ==> r == [input.text]
    ensures input.Many? ==> r == input.texts
  {
    match input
    case One(t) => [t]
    case Many(ts) => ts
  }

  /** `vectorizer.transform(texts).toarray()`: one row per text, one column per feature. */
  function TfidfMatrix(tfidf: Tfidf, corpus: seq<string>, texts: seq<string>): (m: Matrix)
    ensures |m.rows| == |texts| && m.width == tfidf.features(corpus) && m.Rectangular()
    ensures forall i, j :: 0 <= i < |texts| && 0 <= j < m.width ==>
      m.rows[i][j] == tfidf.weight(corpus, texts[i], j)
  {
    var n := tfidf.features(corpus);
    Matrix(seq(|texts|, i requires 0 <= i < |texts| => seq(n, j requires 0 <= j < n => tfidf.weight(corpus, texts[i], j))), n)
  }

  const DefaultMaxFeatures: int := 1000
  const EmptyCorpus: string := "语料库不能为空"
  const NotFitted: string := "向量化器未训练，请先调用 fit() 方法"

  /** The TF-IDF embedder: unfitted until `fit` succeeds on a non-empty corpus. */
  class SimpleEmbedder {
    const maxFeatures: int
    var fitted: bool
    /** The corpus the vectorizer was last fitted on. */
    var corpus: seq<string>

    constructor(maxFeatures: int)
      ensures this.maxFeatures == maxFeatures && !fitted && corpus == []
    {
      this.maxFeatures := maxFeatures;
      fitted := false;
      corpus := [];
    }

    /** `fit(corpus)`: refuses an empty corpus and changes nothing then. */
    method Fit(corpus: seq<string>) returns (err: Option<Error>)
      modifies this
      ensures corpus == [] ==> err == Some(ValueError(EmptyCorpus)) && unchanged(this)
      ensures corpus != [] ==> err == None && fitted && this.corpus == corpus
    {
      if corpus == [] {
        return Some(ValueError(EmptyCorpus));
      }
      this.corpus := corpus;
      fitted := true;
      err := None;
    }

    /** `embed(texts)`. */
    function Embedding(tfidf: Tfidf, input: TextInput): (r: Result<Matrix>)
      reads this
      ensures !fitted <==> r == Err(RuntimeError(NotFitted))
      ensures r.Ok? ==> |r.value.rows| == |Batch(input)| && r.value.Rectangular()
                        && r.value.width == tfidf.features(corpus)
    {
      if !fitted then Err(RuntimeError(NotFitted)) else Ok(TfidfMatrix(tfidf, corpus, Batch(input)))
    }
  }

  /** A single string is embedded exactly as a one-element batch. */
  lemma SingleTextIsBatch(e: SimpleEmbedder, tfidf: Tfidf, text: string)
    ensures e.Embedding(tfidf, One(text)) == e.Embedding(tfidf, Many([text]))
    ensures e.fitted ==> |e.Embedding(tfidf, One(text)).value.rows| == 1
  {
  }

  /** TF-IDF rows depend only on the fitted corpus and the text: embedding a batch is embedding
      each text on its own. */
  lemma TfidfRowwise(tfidf: Tfidf, corpus: seq<string>, texts: seq<string>, i: nat)
    requires i < |texts|
    ensures TfidfMatrix(tfidf, corpus, texts).rows[i] == TfidfMatrix(tfidf, corpus, [texts[i]]).rows[0]
  {
  }

  // ---------------------------------------------------------------------------
  // The remote embedding service

  /** The embedding section of the configuration: the key, endpoint and model used when the
      caller gives none. */
  datatype EmbeddingConfig = EmbeddingConfig(apiKey: string, baseUrl: string, model: string)

  /** A configured API embedder. */
  datatype ApiEmbedder = ApiEmbedder(apiKey: string, baseUrl: string, model: string)

  const NoApiKey: string := "未配置 API Key！\n请在 .env 文件中设置: MODELSCOPE_API_KEY=your-token-here"
  const ApiFailed: string := "API调用失败: "
  /** What `np.array` says of a response whose vectors differ in length. */
  const RaggedReply: string := "setting an array element with a sequence"

  /** `value or default`: a missing or empty argument falls back to the configuration. */
  function OrDefault(arg: Option<string>, default: string): (r: string)
    ensures arg.Some? && arg.value != [] ==> r == arg.value
    ensures arg.None? || arg.value == [] ==> r == default
  {
    if arg.Some? && arg.value != [] then arg.value else default
  }

  /** `APIEmbedder(api_key, base_url, model)`. */
  function NewApiEmbedder(apiKey: Option<string>, baseUrl: Option<string>, model: Option<string>,
                          config: EmbeddingConfig): (r: Result<ApiEmbedder>)
    ensures r.Ok? <==> OrDefault(apiKey, config.apiKey) != []
    ensures r.Err? ==> r.error == ValueError(NoApiKey)
    ensures r.Ok? ==> r.value.apiKey == OrDefault(apiKey, config.apiKey)
                      && r.value.baseUrl == OrDefault(baseUrl, config.baseUrl)
                      && r.value.model == OrDefault(model, config.model)
  {
    var key := OrDefault(apiKey, config.apiKey);
    if key == [] then Err(ValueError(NoApiKey))
    else Ok(ApiEmbedder(key, OrDefault(baseUrl, config.baseUrl), OrDefault(model, config.model)))
  }

  /** What the service answers to one request: the vectors in its `data`, in order, or the
      message of whatever it raised. */
  datatype ServiceReply = Reply(data: seq<Vector>) | Failure(message: string)

  predicate SameLengths(data: seq<Vector>) {
    forall i :: 0 <= i < |data| ==> |data[i]| == |data[0]|
  }

  /** `APIEmbedder.embed(texts)`: the returned vectors as rows, in response order; every failure
      is re-raised as a `RuntimeError`. */
  function ApiEmbedding(service: (ApiEmbedder, seq<string>) -> ServiceReply, e: ApiEmbedder,
                        input: TextInput): (r: Result<Matrix>)
    ensures service(e, Batch(input)).Failure? ==>
      r == Err(RuntimeError(ApiFailed + service(e, Batch(input)).message))
    ensures r.Ok? ==> service(e, Batch(input)).Reply? && r.value.rows == service(e, Batch(input)).data
                      && r.value.Rectangular()
    ensures r.Err? ==> r.error.RuntimeError?
  {
    match service(e, Batch(input))
    case Failure(msg) => Err(RuntimeError(ApiFailed + msg))
    case Reply(data) =>
      if data == [] then Ok(Matrix([], 0))
      else if SameLengths(data) then Ok(Matrix(data, |data[0]|))
      else Err(RuntimeError(ApiFailed + RaggedReply))
  }

  // ---------------------------------------------------------------------------
  // The hybrid embedder

  class HybridEmbedder {
    /** `None` when the API embedder could not be constructed. */
    const api: Option<ApiEmbedder>
    const simple: SimpleEmbedder

    constructor(apiKey: Option<string>, baseUrl: Option<string>, model: Option<string>,
                config: EmbeddingConfig)
      ensures api == match NewApiEmbedder(apiKey, baseUrl, model, config)
                     case Ok(e) => Some(e)
                     case Err(_) => None
      ensures fresh(simple) && !simple.fitted && simple.corpus == []
      ensures simple.maxFeatures == DefaultMaxFeatures
    {
      simple := new SimpleEmbedder(DefaultMaxFeatures);
      var built := NewApiEmbedder(apiKey, baseUrl, model, config);
      api := if built.Ok? then Some(built.value) else None;
    }

    /** `fit(corpus)`: only the TF-IDF embedder learns anything. */
    method Fit(corpus: seq<string>) returns (err: Option<Error>)
      modifies simple
      ensures corpus == [] ==> err == Some(ValueError(EmptyCorpus)) && unchanged(simple)
      ensures corpus != [] ==> err == None && simple.fitted && simple.corpus == corpus
    {
      err := simple.Fit(corpus);
    }

    /** `embed(texts)`: the service's answer if there is an API embedder and it succeeds,
        the TF-IDF embedding otherwise. */
    function Embedding(tfidf: Tfidf, service: (ApiEmbedder, seq<string>) -> ServiceReply,
                       input: TextInput): (r: Result<Matrix>)
      reads this, simple
      ensures r.Ok? ==> r.value.Rectangular()
    {
      if api.Some? && ApiEmbedding(service, api.value, input).Ok? then ApiEmbedding(service, api.value, input)
      else simple.Embedding(tfidf, input)
    }
  }

  /** The hybrid never fails once its TF-IDF embedder is fitted: a missing API embedder or
      a failing call falls back to TF-IDF, and a working call is used as is. */
  lemma HybridFallback(h: HybridEmbedder, tfidf: Tfidf,
                       service: (ApiEmbedder, seq<string>) -> ServiceReply, input: TextInput)
    ensures h.api.None? ==> h.Embedding(tfidf, service, input) == h.simple.Embedding(tfidf, input)
    ensures h.api.Some? && service(h.api.value, Batch(input)).Failure? ==>
      h.Embedding(tfidf, service, input) == h.simple.Embedding(tfidf, input)
    ensures h.api.Some? && ApiEmbedding(service, h.api.value, input).Ok? ==>
      h.Embedding(tfidf, service, input) == ApiEmbedding(service, h.api.value, input)
    ensures h.simple.fitted ==> h.Embedding(tfidf, service, input).Ok?
    ensures h.Embedding(tfidf, service, input).Err? ==>
      h.Embedding(tfidf, service, input) == Err(RuntimeError(NotFitted))
  {
  }

  // ---------------------------------------------------------------------------
  // The factory

  /** An embedder of any of the three kinds. */
  datatype Embedder =
    | Simple(simple: SimpleEmbedder)
    | Api(api: ApiEmbedder)
    | Hybrid(hybrid: HybridEmbedder)

  /** The keyword arguments `create_embedder` passes on: `max_features` is the TF-IDF
      embedder's, the others the API and hybrid embedders'. */
  datatype EmbedderArgs = EmbedderArgs(
    maxFeatures: Option<int>, apiKey: Option<string>, baseUrl: Option<string>, model: Option<string>)

  const NoEmbedderArgs: EmbedderArgs := EmbedderArgs(None, None, None, None)

  function UnknownMethod(name: string): string {
    "未知的方法类型: " + name
  }

  /** The keyword a constructor does not accept, if any. */
  function UnexpectedKeyword(name: string, args: EmbedderArgs): Option<string> {
    if name == "simple" then
      if args.apiKey.Some? then Some("api_key")
      else if args.baseUrl.Some? then Some("base_url")
      else if args.model.Some? then Some("model")
      else None
    else if args.maxFeatures.Some? then Some("max_features")
    else None
  }

  /** The component kinds `create_embedder` can produce. */
  datatype EmbedderKind = SimpleKind(maxFeatures: int) | ApiKind(embedder: ApiEmbedder) | HybridKind

  /** The outcome `create_embedder(method, **kwargs)` has: the kind built, or the error. */
  function CreationOutcome(name: Option<string>, args: EmbedderArgs, config: EmbeddingConfig)
    : (r: Result<EmbedderKind>)
    ensures name.GetOr("simple") !in {"simple", "api", "hybrid"} <==>
      r == Err(ValueError(UnknownMethod(name.GetOr("simple"))))
    ensures r.Ok? && r.value.SimpleKind? ==> name.GetOr("simple") == "simple"
    ensures r.Ok? && r.value.ApiKind? ==> name.GetOr("simple") == "api"
    ensures r.Ok? && r.value.HybridKind? ==> name.GetOr("simple") == "hybrid"
  {
    var m := name.GetOr("simple");
    if m !in {"simple", "api", "hybrid"} then
      assert UnknownMethod(m)[..|UnknownMethod("")|] == UnknownMethod("");
      Err(ValueError(UnknownMethod(m)))
    else if UnexpectedKeyword(m, args).Some? then Err(TypeError(UnexpectedKeyword(m, args).value))
    else if m == "simple" then Ok(SimpleKind(args.maxFeatures.GetOr(DefaultMaxFeatures)))
    else if m == "api" then
      var e :- NewApiEmbedder(args.apiKey, args.baseUrl, args.model, config);
      Ok(ApiKind(e))
    else Ok(HybridKind)
  }

  /** The API embedder a hybrid embedder holds: none when it could not be built. */
  function ApiPart(args: EmbedderArgs, config: EmbeddingConfig): Option<ApiEmbedder> {
    match NewApiEmbedder(args.apiKey, args.baseUrl, args.model, config)
    case Ok(e) => Some(e)
    case Err(_) => None
  }

  /** An embedder of the kind `create_embedder` names, whatever it has been fitted on. */
  predicate BuiltAs(e: Embedder, k: EmbedderKind, args: EmbedderArgs, config: EmbeddingConfig) {
    match k
    case SimpleKind(n) => e.Simple? && e.simple.maxFeatures == n
    case ApiKind(a) => e == Api(a)
    case HybridKind => e.Hybrid? && e.hybrid.api == ApiPart(args, config)
  }

  /** What an embedder of kind `k`, its TF-IDF part (if any) fitted on `corpus`, answers to
      `embed(input)`: only the API embedder can fail. */
  function FittedEmbedding(k: EmbedderKind, args: EmbedderArgs, config: EmbeddingConfig, tfidf: Tfidf,
                           service: (ApiEmbedder, seq<string>) -> ServiceReply, corpus: seq<string>,
                           input: TextInput): (r: Result<Matrix>)
    ensures !k.ApiKind? ==> r.Ok?
    ensures k.SimpleKind? ==> r == Ok(TfidfMatrix(tfidf, corpus, Batch(input)))
    ensures r.Err? ==> k.ApiKind? && r == ApiEmbedding(service, k.embedder, input)
    ensures k.HybridKind? && ApiPart(args, config).None? ==> r == Ok(TfidfMatrix(tfidf, corpus, Batch(input)))
  {
    match k
    case SimpleKind(_) => Ok(TfidfMatrix(tfidf, corpus, Batch(input)))
    case ApiKind(a) => ApiEmbedding(service, a, input)
    case HybridKind =>
      var api := ApiPart(args, config);
      if api.Some? && ApiEmbedding(service, api.value, input).Ok? then ApiEmbedding(service, api.value, input)
      else Ok(TfidfMatrix(tfidf, corpus, Batch(input)))
  }

  /** An embedder built as `k` and fitted on `corpus` answers as `FittedEmbedding` says. */
  lemma EmbedAsBuilt(e: Embedder, k: EmbedderKind, args: EmbedderArgs, config: EmbeddingConfig, tfidf: Tfidf,
                     service: (ApiEmbedder, seq<string>) -> ServiceReply, corpus: seq<string>, input: TextInput)
    requires BuiltAs(e, k, args, config)
    requires HasFit(e) ==> Trainee(e).fitted && Trainee(e).corpus == corpus
    ensures Embed(e, tfidf, service, input) == FittedEmbedding(k, args, config, tfidf, service, corpus, input)
  {
  }

  /** `create_embedder(method, **kwargs)`; `None` stands for the omitted method. */
  method CreateEmbedder(name: Option<string>, args: EmbedderArgs, config: EmbeddingConfig)
    returns (r: Result<Embedder>)
    ensures r.Err? <==> CreationOutcome(name, args, config).Err?
    ensures r.Err? ==> r.error == CreationOutcome(name, args, config).error
    ensures r.Ok? ==> match CreationOutcome(name, args, config).value
      case SimpleKind(n) =>
        r.value.Simple? && fresh(r.value.simple) && !r.value.simple.fitted && r.value.simple.maxFeatures == n
      case ApiKind(e) => r.value == Api(e)
      case HybridKind =>
        r.value.Hybrid? && fresh(r.value.hybrid) && fresh(r.value.hybrid.simple)
        && !r.value.hybrid.simple.fitted
        && r.value.hybrid.api == ApiPart(args, config)
    ensures r.Ok? ==> BuiltAs(r.value, CreationOutcome(name, args, config).value, args, config)
  {
    var outcome := CreationOutcome(name, args, config);
    if outcome.Err? {
      return Err(outcome.error);
    }
    match outcome.value
    case SimpleKind(n) =>
      var s := new SimpleEmbedder(n);
      r := Ok(Simple(s));
    case ApiKind(e) =>
      r := Ok(Api(e));
    case HybridKind =>
      var h := new HybridEmbedder(args.apiKey, args.baseUrl, args.model, config);
      r := Ok(Hybrid(h));
  }

  /** The objects an embedder's state lives in. */
  function Footprint(e: Embedder): set<object> {
    match e
    case Simple(s) => {s}
    case Api(_) => {}
    case Hybrid(h) => {h, h.simple}
  }

  /** `embedder.embed(texts)` for an embedder of any kind. */
  function Embed(e: Embedder, tfidf: Tfidf, service: (ApiEmbedder, seq<string>) -> ServiceReply,
                 input: TextInput): (r: Result<Matrix>)
    reads Footprint(e)
    ensures r.Ok? ==> r.value.Rectangular()
  {
    match e
    case Simple(s) => s.Embedding(tfidf, input)
    case Api(a) => ApiEmbedding(service, a, input)
    case Hybrid(h) => h.Embedding(tfidf, service, input)
  }

  /** `hasattr(embedder, 'fit')`. */
  predicate HasFit(e: Embedder) {
    e.Simple? || e.Hybrid?
  }

  /** `embedder.fitted`: only the TF-IDF embedder defines the attribute. */
  function FittedAttribute(e: Embedder): (r: Result<bool>)
    reads Footprint(e)
    ensures r.Err? <==> !e.Simple?
    ensures r.Err? ==> r.error == AttributeError("fitted")
  {
    if e.Simple? then Ok(e.simple.fitted) else Err(AttributeError("fitted"))
  }

  /** The TF-IDF embedder inside an embedder that can be fitted. */
  function Trainee(e: Embedder): SimpleEmbedder
    requires HasFit(e)
  {
    if e.Simple? then e.simple else e.hybrid.simple
  }

  /** The objects `fit` may change. */
  function Trainees(e: Embedder): set<object> {
    if HasFit(e) then {Trainee(e)} else {}
  }

  /** `embedder.fit(corpus)` on an embedder that has `fit`. */
  method FitEmbedder(e: Embedder, corpus: seq<string>) returns (err: Option<Error>)
    requires HasFit(e)
    modifies Trainee(e)
    ensures corpus == [] ==> err == Some(ValueError(EmptyCorpus)) && unchanged(Trainee(e))
    ensures corpus != [] ==> err == None && Trainee(e).fitted && Trainee(e).corpus == corpus
  {
    match e
    case Simple(s) => err := s.Fit(corpus);
    case Hybrid(h) => err := h.Fit(corpus);
  }

  /** The factory accepts exactly the three method names, never fails for "hybrid" without
      stray arguments, and builds an API embedder exactly when a key is configured. */
  lemma CreationCases(name: string, args: EmbedderArgs, config: EmbeddingConfig)
    ensures name == "hybrid" && args.maxFeatures.None? ==>
      CreationOutcome(Some(name), args, config) == Ok(HybridKind)
    ensures name == "simple" && args.apiKey.None? && args.baseUrl.None? && args.model.None? ==>
      CreationOutcome(Some(name), args, config) == Ok(SimpleKind(args.maxFeatures.GetOr(1000)))
    ensures name == "api" && args.maxFeatures.None? ==>
      (CreationOutcome(Some(name), args, config).Ok? <==> OrDefault(args.apiKey, config.apiKey) != [])
    ensures CreationOutcome(None, args, config) == CreationOutcome(Some("simple"), args, config)
  {
  }
}
