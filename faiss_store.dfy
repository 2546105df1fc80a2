/** The vector store: a flat L2 index whose rows are kept aligned, position by position, with a
    list of document texts; exact nearest-neighbour search; saving to and loading from a pair
    of files. Each operation of the store class is specified by a function on the store's
    state, and the properties are proved about those functions. */
module FaissStore {
  import opened Common
  import opened Storage
  import Ranking

  const Mismatch: string := "向量数量和文档数量不匹配"
  const NoIndexToSave: string := "没有索引可以保存"
  /** The checks FAISS makes on the arguments of `add` and `search`. */
  const DimensionCheck: string := "d == self.d"
  const PositiveK: string := "k > 0"
  /** `distances[0]` on the result of a search with no query rows. */
  const NoQueryRow: string := "index 0 is out of bounds for axis 0 with size 0"

  function MissingIndex(path: string): string { "索引文件不存在: " + path }
  function MissingDocuments(path: string): string { "文档文件不存在: " + path }

  /** The largest finite `float32`: the distance FAISS reports for a missing neighbour. */
  const FltMax: real := 340282346638528859811704183484516925440.0

  /** The fields of a store. */
  datatype StoreState = StoreState(dimension: Option<nat>, index: Option<ValidIndex>, documents: seq<string>) {
    /** There are no documents without an index. */
    predicate Consistent() {
      index.None? ==> documents == []
    }

    /** Row `i` of the index belongs to `documents[i]`, and there are as many rows as documents. */
    predicate Aligned() {
      index.Some? && |index.value.rows| == |documents|
    }
  }

  /** The state after `FaissVectorStore(dimension)`. */
  function Initial(dimension: Option<nat>): (s: StoreState)
    ensures s.documents == [] && s.dimension == dimension && s.Consistent()
    ensures s.index.Some? <==> dimension.Some?
    ensures s.index.Some? ==> s.index.value == FlatIndex(dimension.value, [])
  {
    StoreState(dimension, if dimension.Some? then Some(FlatIndex(dimension.value, [])) else None, [])
  }

  /** What an operation raised, if anything, and the state it left behind. */
  datatype Update = Update(error: Option<Error>, state: StoreState)

  // ---------------------------------------------------------------------------
  // add_documents

  /** The index `add_documents` adds to: the existing one, or a new one as wide as the
      embeddings. */
  function Target(s: StoreState, embeddings: Matrix): FlatIndex {
    if s.index.Some? then s.index.value else FlatIndex(embeddings.width, [])
  }

  /** `add_documents(embeddings, documents)`. The new index, if one is created, stays even when
      the call then fails; `dimension` is never set here. */
  function Add(s: StoreState, embeddings: Matrix, docs: seq<string>): Update
    requires embeddings.Rectangular()
  {
    var target := Target(s, embeddings);
    var created := s.(index := Some(target));
    if |embeddings.rows| != |docs| then Update(Some(ValueError(Mismatch)), created)
    else if embeddings.width != target.d then Update(Some(AssertionError(DimensionCheck)), created)
    else Update(None, created.(index := Some(FlatIndex(target.d, target.rows + embeddings.rows)),
                               documents := s.documents + docs))
  }

  /** A failed add leaves the documents and the dimension alone; a successful one appends the
      vectors and the texts in the same order, so an aligned store stays aligned and row
      `|old| + j` is the vector of the `j`-th new document. */
  lemma AddSpec(s: StoreState, embeddings: Matrix, docs: seq<string>)
    requires embeddings.Rectangular()
    ensures var u := Add(s, embeddings, docs);
      u.state.dimension == s.dimension && u.state.index.Some?
      && u.state.index.value.d == (if s.index.Some? then s.index.value.d else embeddings.width)
      && (u.error.None? <==> |embeddings.rows| == |docs| && embeddings.width == u.state.index.value.d)
      && (|embeddings.rows| != |docs| ==> u.error == Some(ValueError(Mismatch)))
      && (u.error.Some? ==> u.state.documents == s.documents
                            && u.state.index.value.rows == (if s.index.Some? then s.index.value.rows else []))
      && (u.error.None? ==> u.state.documents == s.documents + docs
                            && u.state.index.value.rows == Target(s, embeddings).rows + embeddings.rows)
  {
  }

  /** A successful add keeps a consistent store aligned if it was aligned or empty, and pairs
      each new text with its own vector. */
  lemma AddKeepsAlignment(s: StoreState, embeddings: Matrix, docs: seq<string>, j: nat)
    requires embeddings.Rectangular() && s.Consistent() && (s.index.None? || s.Aligned())
    requires Add(s, embeddings, docs).error.None? && j < |docs|
    ensures var t := Add(s, embeddings, docs).state;
      t.Aligned() && t.Consistent()
      && t.index.value.rows[|s.documents| + j] == embeddings.rows[j]
      && t.documents[|s.documents| + j] == docs[j]
  {
  }

  /** The lazily created index leaves `dimension` unset: a store made without a dimension still
      reports none after its first successful add. */
  lemma LazyIndexLeavesDimensionUnset(embeddings: Matrix, docs: seq<string>)
    requires embeddings.Rectangular() && |embeddings.rows| == |docs|
    ensures var t := Add(Initial(None), embeddings, docs);
      t.error.None? && t.state.dimension.None? && t.state.index.Some?
      && t.state.index.value.d == embeddings.width
  {
  }

  // ---------------------------------------------------------------------------
  // search

  /** The squared Euclidean distance `IndexFlatL2` ranks by. */
  function SqL2(a: Vector, b: Vector): (r: real)
    requires |a| == |b|
    ensures r >= 0.0
  {
    if a == [] then 0.0 else (a[0] - b[0]) * (a[0] - b[0]) + SqL2(a[1..], b[1..])
  }

  function Distances(index: ValidIndex, q: Vector): (r: seq<real>)
    requires |q| == index.d
    ensures |r| == |index.rows|
    ensures forall i :: 0 <= i < |r| ==> r[i] == SqL2(index.rows[i], q)
  {
    seq(|index.rows|, i requires 0 <= i < |index.rows| => SqL2(index.rows[i], q))
  }

  /** One neighbour as FAISS reports it: a row label and its distance. */
  datatype Hit = Hit(id: int, distance: real)

  const Missing: Hit := Hit(-1, FltMax)

  /** `index.search(q, k)` for one query: the `k` nearest rows by ascending distance, padded
      with `(-1, FLT_MAX)` when the index holds fewer than `k` rows. */
  function Knn(index: ValidIndex, q: Vector, k: nat): (r: seq<Hit>)
    requires |q| == index.d
    ensures |r| == k
    ensures forall i :: 0 <= i < k ==> (r[i] == Missing <==> i >= |index.rows|)
    ensures forall i :: 0 <= i < k && i < |index.rows| ==>
      0 <= r[i].id < |index.rows| && r[i].distance == SqL2(index.rows[r[i].id], q)
  {
    var dists := Distances(index, q);
    var order := Ranking.Argsort(dists);
    seq(k, i requires 0 <= i < k => if i < |order| then Hit(order[i], dists[order[i]]) else Missing)
  }

  function Labels(hits: seq<Hit>): (r: seq<int>)
    ensures |r| == |hits| && forall i :: 0 <= i < |hits| ==> r[i] == hits[i].id
  {
    seq(|hits|, i requires 0 <= i < |hits| => hits[i].id)
  }

  /** The reported neighbours are distinct rows in ascending distance, and every row that is
      not reported is at least as far from the query as every row that is. */
  lemma KnnNearest(index: ValidIndex, q: Vector, k: nat)
    requires |q| == index.d
    ensures var r := Knn(index, q, k);
      forall i, j :: 0 <= i < j < k && j < |index.rows| ==>
        r[i].distance <= r[j].distance && r[i].id != r[j].id
    ensures var r := Knn(index, q, k);
      forall i, row :: 0 <= i < k && i < |index.rows| && 0 <= row < |index.rows| && row !in Labels(r) ==>
        r[i].distance <= SqL2(index.rows[row], q)
  {
    var dists := Distances(index, q);
    var order := Ranking.Argsort(dists);
    Ranking.ArgsortSpec(dists);
    var r := Knn(index, q, k);
    forall i, j | 0 <= i < j < k && j < |index.rows|
      ensures r[i].distance <= r[j].distance && r[i].id != r[j].id
    {
      assert r[i] == Hit(order[i], dists[order[i]]);
      assert r[j] == Hit(order[j], dists[order[j]]);
    }
    forall i, row | 0 <= i < k && i < |index.rows| && 0 <= row < |index.rows| && row !in Labels(r)
      ensures r[i].distance <= SqL2(index.rows[row], q)
    {
      assert r[i] == Hit(order[i], dists[order[i]]);
      assert row in order;
      var p :| 0 <= p < |order| && order[p] == row;
      assert forall t :: 0 <= t < k && t < |order| ==> order[t] != row by {
        forall t | 0 <= t < k && t < |order| ensures order[t] != row {
          assert Labels(r)[t] == order[t];
        }
      }
      assert dists[order[i]] <= dists[order[p]];
    }
  }

  /** One search result: the document text and its similarity. */
  datatype Scored = Scored(document: string, similarity: real)

  /** `1.0 / (1.0 + dist)`: larger for nearer vectors. */
  function Similarity(distance: real): real
    requires distance >= 0.0
  {
    1.0 / (1.0 + distance)
  }

  /** Similarities lie in (0, 1] and never increase with the distance. */
  lemma SimilarityBounds(d1: real, d2: real)
    requires 0.0 <= d1 <= d2
    ensures 0.0 < Similarity(d2) <= Similarity(d1) <= 1.0
  {
    assert (1.0 + d1) * Similarity(d1) == 1.0;
    assert (1.0 + d2) * Similarity(d2) == 1.0;
    assert Similarity(d2) <= Similarity(d1) by {
      assert Similarity(d1) - Similarity(d2) == (d2 - d1) / ((1.0 + d1) * (1.0 + d2));
    }
  }

  /** `documents[idx]` with Python's reading of a negative index. */
  function DocumentAt(docs: seq<string>, idx: int): string
    requires -|docs| <= idx < |docs|
  {
    if idx < 0 then docs[|docs| + idx] else docs[idx]
  }

  /** What the loop over `zip(distances[0], indices[0])` collects: each hit whose label is below
      the number of documents, in order. */
  function Collect(hits: seq<Hit>, docs: seq<string>): (r: seq<Scored>)
    requires docs != []
    requires forall i :: 0 <= i < |hits| ==> hits[i].id >= -1 && hits[i].distance >= 0.0
    ensures |r| <= |hits|
    ensures forall i :: 0 <= i < |r| ==> r[i].document in docs
  {
    if hits == [] then []
    else
      var h := hits[|hits| - 1];
      Collect(hits[..|hits| - 1], docs)
        + (if h.id < |docs| then [Scored(DocumentAt(docs, h.id), Similarity(h.distance))] else [])
  }

  /** `search(query_embedding, top_k)` on a two-dimensional query; only its first row is used. */
  function SearchIn(s: StoreState, query: Matrix, topK: int): (r: Result<seq<Scored>>)
    requires query.Rectangular()
    ensures r.Ok? ==> forall i :: 0 <= i < |r.value| ==> r.value[i].document in s.documents
  {
    if s.index.None? || s.documents == [] then Ok([])
    else if query.width != s.index.value.d then Err(AssertionError(DimensionCheck))
    else
      var k := Min(topK, |s.documents|);
      if k <= 0 then Err(AssertionError(PositiveK))
      else if query.rows == [] then Err(IndexError(NoQueryRow))
      else Ok(Collect(Knn(s.index.value, query.rows[0], k), s.documents))
  }

  /** A search returns nothing from an empty store, fails only on a malformed query or a
      non-positive `top_k`, and otherwise never returns more than `min(top_k, len(documents))`
      results. */
  lemma SearchOutcomes(s: StoreState, query: Matrix, topK: int)
    requires query.Rectangular()
    ensures s.index.None? || s.documents == [] ==> SearchIn(s, query, topK) == Ok([])
    ensures SearchIn(s, query, topK).Err? <==>
      s.index.Some? && s.documents != []
      && (query.width != s.index.value.d || topK <= 0 || query.rows == [])
    ensures SearchIn(s, query, topK).Ok? && s.index.Some? && s.documents != [] ==>
      |SearchIn(s, query, topK).value| <= Min(topK, |s.documents|)
  {
    if s.index.Some? && s.documents != [] && query.width == s.index.value.d && topK >= 1 && query.rows != [] {
      var k := Min(topK, |s.documents|);
      assert |Knn(s.index.value, query.rows[0], k)| == k;
    }
  }

  /** Without padding and without labels past the documents, every hit is collected. */
  lemma CollectAll(hits: seq<Hit>, docs: seq<string>)
    requires docs != []
    requires forall i :: 0 <= i < |hits| ==> 0 <= hits[i].id < |docs| && hits[i].distance >= 0.0
    ensures |Collect(hits, docs)| == |hits|
    ensures forall i :: 0 <= i < |hits| ==>
      Collect(hits, docs)[i] == Scored(docs[hits[i].id], Similarity(hits[i].distance))
  {
    if hits != [] {
      var init, h := hits[..|hits| - 1], hits[|hits| - 1];
      CollectAll(init, docs);
      assert Collect(hits, docs) == Collect(init, docs) + [Scored(docs[h.id], Similarity(h.distance))];
    }
  }

  /** On an aligned store a well-formed search returns exactly `min(top_k, len(documents))`
      results: the texts of the nearest rows, nearest first, with similarities in (0, 1]
      that never increase. */
  lemma SearchRanked(s: StoreState, query: Matrix, topK: int)
    requires query.Rectangular() && s.Aligned() && s.documents != []
    requires query.width == s.index.value.d && topK >= 1 && query.rows != []
    ensures var hits := Knn(s.index.value, query.rows[0], Min(topK, |s.documents|));
      SearchIn(s, query, topK) == Ok(Collect(hits, s.documents))
      && |Collect(hits, s.documents)| == Min(topK, |s.documents|)
      && forall i :: 0 <= i < |hits| ==>
           0 <= hits[i].id < |s.documents|
           && Collect(hits, s.documents)[i] ==
              Scored(s.documents[hits[i].id], Similarity(SqL2(s.index.value.rows[hits[i].id], query.rows[0])))
    ensures var r := SearchIn(s, query, topK).value;
      forall i, j :: 0 <= i < j < |r| ==> 0.0 < r[j].similarity <= r[i].similarity <= 1.0
  {
    var k := Min(topK, |s.documents|);
    var hits := Knn(s.index.value, query.rows[0], k);
    CollectAll(hits, s.documents);
    KnnNearest(s.index.value, query.rows[0], k);
    var r := Collect(hits, s.documents);
    forall i, j | 0 <= i < j < |r| ensures 0.0 < r[j].similarity <= r[i].similarity <= 1.0 {
      SimilarityBounds(hits[i].distance, hits[j].distance);
    }
  }

  // ---------------------------------------------------------------------------
  // save, load, get_stats

  /** `save(index_path, documents_path)`: the index file, then the pickled texts. */
  function Saved(s: StoreState, fs: FileStore, indexPath: string, docsPath: string): Result<FileStore> {
    if s.index.None? then Err(ValueError(NoIndexToSave))
    else Ok(fs[indexPath := IndexFile(s.index.value)][docsPath := PickleFile(Texts(s.documents))])
  }

  /** The files `load` reads have the kinds it expects, where they exist. */
  predicate LoadableAt(fs: FileStore, indexPath: string, docsPath: string) {
    (indexPath in fs ==> fs[indexPath].IndexFile?)
    && (docsPath in fs ==> fs[docsPath].PickleFile? && fs[docsPath].pickle.Texts?)
  }

  /** `load(index_path, documents_path)`. The index and dimension are replaced before the
      documents file is looked for. */
  function LoadFrom(s: StoreState, fs: FileStore, indexPath: string, docsPath: string): Update
    requires LoadableAt(fs, indexPath, docsPath)
  {
    if indexPath !in fs then Update(Some(FileNotFoundError(MissingIndex(indexPath))), s)
    else
      var index := fs[indexPath].index;
      var loaded := StoreState(Some(index.d), Some(index), s.documents);
      if docsPath !in fs then Update(Some(FileNotFoundError(MissingDocuments(docsPath))), loaded)
      else Update(None, loaded.(documents := fs[docsPath].pickle.texts))
  }

  /** A missing index file changes nothing; a missing documents file keeps the old documents
      next to the newly loaded index. */
  lemma LoadFailures(s: StoreState, fs: FileStore, indexPath: string, docsPath: string)
    requires LoadableAt(fs, indexPath, docsPath)
    ensures indexPath !in fs ==>
      LoadFrom(s, fs, indexPath, docsPath) == Update(Some(FileNotFoundError(MissingIndex(indexPath))), s)
    ensures indexPath in fs && docsPath !in fs ==>
      var u := LoadFrom(s, fs, indexPath, docsPath);
      u.error == Some(FileNotFoundError(MissingDocuments(docsPath)))
      && u.state.documents == s.documents && u.state.index == Some(fs[indexPath].index)
    ensures LoadFrom(s, fs, indexPath, docsPath).error.None? <==> indexPath in fs && docsPath in fs
  {
  }

  /** Saving to two distinct paths and loading them back, into any store, restores the index
      and the document list, with the dimension taken from the index. */
  lemma SaveLoadRoundTrip(s: StoreState, fs: FileStore, indexPath: string, docsPath: string, other: StoreState)
    requires indexPath != docsPath && s.index.Some?
    ensures Saved(s, fs, indexPath, docsPath).Ok?
    ensures var saved := Saved(s, fs, indexPath, docsPath).value;
      LoadableAt(saved, indexPath, docsPath)
      && LoadFrom(other, saved, indexPath, docsPath) ==
         Update(None, StoreState(Some(s.index.value.d), s.index, s.documents))
  {
  }

  /** `get_stats()`. */
  datatype Stats = Stats(totalDocuments: nat, dimension: Option<nat>, indexSize: nat)

  function StatsOf(s: StoreState): (r: Stats)
    ensures r.totalDocuments == |s.documents| && r.dimension == s.dimension
    ensures s.index.None? ==> r.indexSize == 0
    ensures s.index.Some? ==> r.indexSize == |s.index.value.rows|
    ensures s.Aligned() ==> r.indexSize == r.totalDocuments
  {
    Stats(|s.documents|, s.dimension, if s.index.Some? then |s.index.value.rows| else 0)
  }

  // ---------------------------------------------------------------------------
  // The store object

  class FaissVectorStore {
    var dimension: Option<nat>
    var index: Option<ValidIndex>
    var documents: seq<string>

    function State(): StoreState
      reads this
    {
      StoreState(dimension, index, documents)
    }

    constructor(dimension: Option<nat>)
      ensures State() == Initial(dimension)
    {
      this.dimension := dimension;
      index := if dimension.Some? then Some(FlatIndex(dimension.value, [])) else None;
      documents := [];
    }

    method AddDocuments(embeddings: Matrix, docs: seq<string>) returns (err: Option<Error>)
      requires embeddings.Rectangular()
      modifies this
      ensures Update(err, State()) == Add(old(State()), embeddings, docs)
    {
      if index.None? {
        index := Some(FlatIndex(embeddings.width, []));
      }
      if |embeddings.rows| != |docs| {
        return Some(ValueError(Mismatch));
      }
      var target := index.value;
      if embeddings.width != target.d {
        return Some(AssertionError(DimensionCheck));
      }
      index := Some(FlatIndex(target.d, target.rows + embeddings.rows));
      documents := documents + docs;
      err := None;
    }

    method Search(query: Matrix, topK: int) returns (r: Result<seq<Scored>>)
      requires query.Rectangular()
      ensures r == SearchIn(State(), query, topK)
    {
      if index.None? || |documents| == 0 {
        return Ok([]);
      }
      if query.width != index.value.d {
        return Err(AssertionError(DimensionCheck));
      }
      var k := Min(topK, |documents|);
      if k <= 0 {
        return Err(AssertionError(PositiveK));
      }
      if |query.rows| == 0 {
        return Err(IndexError(NoQueryRow));
      }
      var hits := Knn(index.value, query.rows[0], k);
      var results: seq<Scored> := [];
      for i := 0 to |hits|
        invariant results == Collect(hits[..i], documents)
      {
        var h := hits[i];
        assert hits[..i + 1][..i] == hits[..i];
        if h.id < |documents| {
          results := results + [Scored(DocumentAt(documents, h.id), Similarity(h.distance))];
        }
      }
      assert hits[..|hits|] == hits;
      r := Ok(results);
    }

    method Load(fs: FileStore, indexPath: string, docsPath: string) returns (err: Option<Error>)
      requires LoadableAt(fs, indexPath, docsPath)
      modifies this
      ensures Update(err, State()) == LoadFrom(old(State()), fs, indexPath, docsPath)
    {
      if indexPath !in fs {
        return Some(FileNotFoundError(MissingIndex(indexPath)));
      }
      index := Some(fs[indexPath].index);
      dimension := Some(index.value.d);
      if docsPath !in fs {
        return Some(FileNotFoundError(MissingDocuments(docsPath)));
      }
      documents := fs[docsPath].pickle.texts;
      err := None;
    }
  }
}
