/** The in-memory knowledge retriever: embeds every knowledge-base document once, ranks
    documents against a query by cosine similarity (an oracle), optionally restricted to one
    kind of document, and builds explanations, solution lists, concept lists and
    recommendations on top of that search. Solution and concept results are the knowledge
    base's own records, into which the retriever writes a relevance score. */
module LegacyRetrieval {
  import opened Common
  import opened Storage
  import opened Embeddings
  import opened KnowledgeBases
  import Ranking

  /** The cosine similarity of a document vector and the query vector. */
  type Cosine = (Vector, Vector) -> real

  type Table = m: Matrix | m.Rectangular() witness Matrix([], 0)

  /** What numpy raises, in substance, for embeddings whose shapes do not combine. */
  const BadShape: string := "shapes not aligned"
  const OutOfBounds: string := "index out of range"

  datatype Hit = Hit(document: string, score: real, metadata: DocMetadata)

  /** `doc_type` given and non-empty. */
  predicate Filtering(docType: Option<string>) {
    docType.Some? && docType.value != ""
  }

  function DocTexts(docs: seq<Document>): (r: seq<string>)
    ensures |r| == |docs| && forall i :: 0 <= i < |docs| ==> r[i] == docs[i].text
  {
    seq(|docs|, i requires 0 <= i < |docs| => docs[i].text)
  }

  /** `np.dot(doc_norms, query_norm.T).flatten()`: one similarity per pair of a document row
      and a query row, document-major. */
  function Similarities(emb: Matrix, q: Matrix, cosine: Cosine): (r: seq<real>)
    ensures |r| == |emb.rows| * |q.rows|
    ensures |q.rows| == 1 ==> forall i :: 0 <= i < |r| ==> r[i] == cosine(emb.rows[i], q.rows[0])
  {
    var n, m := |emb.rows|, |q.rows|;
    seq(n * m, k requires 0 <= k < n * m => (RowOf(k, n, m); cosine(emb.rows[k / m], q.rows[k % m])))
  }

  lemma RowOf(k: int, n: nat, m: nat)
    requires 0 <= k < n * m
    ensures m > 0 && 0 <= k / m < n && 0 <= k % m < m
  {
  }

  /** The positions below `n` whose document `keep` accepts, ascending. */
  function Positions(docs: seq<Document>, keep: Document -> bool, n: nat): (r: seq<nat>)
    requires n <= |docs|
    ensures forall k :: 0 <= k < |r| ==> r[k] < n && keep(docs[r[k]])
    ensures forall k, l :: 0 <= k < l < |r| ==> r[k] < r[l]
    ensures forall j :: 0 <= j < n && keep(docs[j]) ==> j in r
  {
    if n == 0 then []
    else
      var rest := Positions(docs, keep, n - 1);
      if keep(docs[n - 1]) then
        var r := rest + [n - 1];
        assert forall k :: 0 <= k < |rest| ==> r[k] == rest[k];
        r
      else rest
  }

  /** The positions below `n` whose document has kind `t`, ascending. */
  function TypedPositions(docs: seq<Document>, t: string, n: nat): (r: seq<nat>)
    requires n <= |docs|
    ensures forall k :: 0 <= k < |r| ==> r[k] < n && docs[r[k]].metadata.Type() == t
    ensures forall k, l :: 0 <= k < l < |r| ==> r[k] < r[l]
    ensures forall j :: 0 <= j < n && docs[j].metadata.Type() == t ==> j in r
    ensures (forall j :: 0 <= j < n ==> docs[j].metadata.Type() != t) ==> r == []
  {
    var r := Positions(docs, (d: Document) => d.metadata.Type() == t, n);
    assert r != [] ==> r[0] < n && docs[r[0]].metadata.Type() == t;
    r
  }

  /** `indices`: every position, or those of the requested kind. */
  function Candidates(docs: seq<Document>, docType: Option<string>): (r: seq<nat>)
    ensures Ranking.InRange(r, |docs|)
    ensures Filtering(docType) ==> forall k :: 0 <= k < |r| ==> docs[r[k]].metadata.Type() == docType.value
    ensures Filtering(docType) ==>
      forall j :: 0 <= j < |docs| && docs[j].metadata.Type() == docType.value ==> j in r
    ensures !Filtering(docType) ==> |r| == |docs| && forall k :: 0 <= k < |r| ==> r[k] == k
    ensures Filtering(docType) && (forall j :: 0 <= j < |docs| ==> docs[j].metadata.Type() != docType.value) ==> r == []
  {
    if Filtering(docType) then TypedPositions(docs, docType.value, |docs|)
    else seq(|docs|, i requires 0 <= i < |docs| => i)
  }

  /** `s[idx]` for a list of positions. */
  function Pick<T>(s: seq<T>, idx: seq<nat>): (r: seq<T>)
    requires Ranking.InRange(idx, |s|)
    ensures |r| == |idx| && forall k :: 0 <= k < |idx| ==> r[k] == s[idx[k]]
  {
    seq(|idx|, k requires 0 <= k < |idx| => s[idx[k]])
  }

  /** `np.argsort(keys)[-top_k:][::-1]`. */
  function Top(keys: seq<real>, topK: int): (r: seq<nat>)
    ensures Ranking.InRange(r, |keys|)
  {
    var order := Ranking.Argsort(keys);
    var kept := Drop(order, -topK);
    assert forall k :: 0 <= k < |kept| ==> kept[k] == order[|order| - |kept| + k];
    Reverse(kept)
  }

  /** The top positions, best first, are the last `|r|` positions of the ascending order,
      reversed; there are `min(top_k, n)` of them for `top_k >= 1` and `n` for `top_k == 0`. */
  lemma TopLayout(keys: seq<real>, topK: int)
    ensures var order, r := Ranking.Argsort(keys), Top(keys, topK);
      |r| <= |keys|
      && (topK >= 1 ==> |r| == Min(topK, |keys|))
      && (topK == 0 ==> |r| == |keys|)
      && forall i :: 0 <= i < |r| ==> r[i] == order[|keys| - 1 - i]
  {
    var order := Ranking.Argsort(keys);
    assert Top(keys, topK) == Reverse(Drop(order, -topK));
    LastReversed(order, topK);
  }

  /** `order[-top_k:][::-1]` for any list: the last entries, last first. */
  lemma LastReversed(order: seq<nat>, topK: int)
    ensures var n, r := |order|, Reverse(Drop(order, -topK));
      |r| <= n
      && (topK >= 1 ==> |r| == Min(topK, n))
      && (topK == 0 ==> |r| == n)
      && forall i :: 0 <= i < |r| ==> r[i] == order[n - 1 - i]
  {
    var n := |order|;
    var b := SliceBound(n, -topK);
    var kept := Drop(order, -topK);
    assert kept == order[b..] && |kept| == n - b;
    var r := Reverse(kept);
    forall i | 0 <= i < |r| ensures r[i] == order[n - 1 - i] {
      assert r[i] == kept[|kept| - 1 - i] == order[b + |kept| - 1 - i];
    }
  }

  /** The top positions are distinct, ordered by non-increasing key, and every position left
      out has a key no larger than any position taken. */
  lemma TopSpec(keys: seq<real>, topK: int)
    ensures var r := Top(keys, topK);
      Distinct(r)
      && (forall i, j :: 0 <= i < j < |r| ==> keys[r[j]] <= keys[r[i]])
      && (forall p, i :: 0 <= p < |keys| && p !in r && 0 <= i < |r| ==> keys[p] <= keys[r[i]])
  {
    TopLayout(keys, topK);
    Ranking.ArgsortSpec(keys);
    TopOrdered(keys, Ranking.Argsort(keys), Top(keys, topK));
    TopBest(keys, Ranking.Argsort(keys), Top(keys, topK));
  }

  lemma TopOrdered(keys: seq<real>, order: seq<nat>, r: seq<nat>)
    requires Ranking.IsPermutationOfRange(order, |keys|) && Ranking.SortedBy(keys, order)
    requires |r| <= |keys| && forall i :: 0 <= i < |r| ==> r[i] == order[|keys| - 1 - i]
    ensures Distinct(r) && Ranking.InRange(r, |keys|)
    ensures forall i, j :: 0 <= i < j < |r| ==> keys[r[j]] <= keys[r[i]]
  {
    var n := |keys|;
    forall i, j | 0 <= i < j < |r| ensures r[i] != r[j] && keys[r[j]] <= keys[r[i]] {
      assert r[i] == order[n - 1 - i] && r[j] == order[n - 1 - j];
    }
  }

  lemma TopBest(keys: seq<real>, order: seq<nat>, r: seq<nat>)
    requires Ranking.IsPermutationOfRange(order, |keys|) && Ranking.SortedBy(keys, order)
    requires |r| <= |keys| && forall i :: 0 <= i < |r| ==> r[i] == order[|keys| - 1 - i]
    ensures Ranking.InRange(r, |keys|)
    ensures forall p, i :: 0 <= p < |keys| && p !in r && 0 <= i < |r| ==> keys[p] <= keys[r[i]]
  {
    var n := |keys|;
    var m := n - |r|;
    assert forall q :: m <= q < n ==> order[q] in r by {
      forall q | m <= q < n ensures order[q] in r {
        assert r[n - 1 - q] == order[q];
      }
    }
    forall p, i | 0 <= p < n && p !in r && 0 <= i < |r| ensures keys[p] <= keys[r[i]] {
      assert p in order;
      var q :| 0 <= q < n && order[q] == p;
      assert r[i] == order[n - 1 - i];
    }
  }

  /** The filtered similarities and documents: all of them, or the ones at the positions of
      the requested kind (`similarities[indices]` fails when a position has no similarity). */
  function Narrowed(sims: seq<real>, docs: seq<Document>, docType: Option<string>)
    : (r: Result<(seq<real>, seq<Document>)>)
    ensures r.Ok? ==> forall k :: 0 <= k < |r.value.1| ==>
      r.value.1[k] in docs && (Filtering(docType) ==> r.value.1[k].metadata.Type() == docType.value)
    ensures |sims| == |docs| ==>
      var cands := Candidates(docs, docType);
      r.Ok? && |r.value.0| == |cands| && |r.value.1| == |cands|
      && forall k :: 0 <= k < |cands| ==> r.value.0[k] == sims[cands[k]] && r.value.1[k] == docs[cands[k]]
  {
    var cands := Candidates(docs, docType);
    if !Filtering(docType) then Ok((sims, docs))
    else if !Ranking.InRange(cands, |sims|) then Err(IndexError(OutOfBounds))
    else Ok((Pick(sims, cands), Pick(docs, cands)))
  }

  function HitAt(fsims: seq<real>, fdocs: seq<Document>, p: nat): Hit
    requires p < |fsims| && p < |fdocs|
  {
    Hit(fdocs[p].text, fsims[p], fdocs[p].metadata)
  }

  /** The hits at the top positions, best first; `filtered_docs[idx]` fails when there are
      more similarities than documents. */
  function Selected(fsims: seq<real>, fdocs: seq<Document>, topK: int): (r: Result<seq<Hit>>)
    ensures r.Ok? ==> forall i :: 0 <= i < |r.value| ==>
      Document(r.value[i].document, r.value[i].metadata) in fdocs
  {
    if fsims == [] then Ok([]) else HitsAt(fsims, fdocs, Top(fsims, topK))
  }

  /** The hit for each of the given positions, in order; fails when a position has no
      document. */
  function HitsAt(fsims: seq<real>, fdocs: seq<Document>, top: seq<nat>): (r: Result<seq<Hit>>)
    requires Ranking.InRange(top, |fsims|)
    ensures r.Ok? <==> Ranking.InRange(top, |fdocs|)
    ensures r.Ok? ==> |r.value| == |top| && forall k :: 0 <= k < |top| ==> r.value[k] == HitAt(fsims, fdocs, top[k])
  {
    if !Ranking.InRange(top, |fdocs|) then Err(IndexError(OutOfBounds))
    else Ok(seq(|top|, k requires 0 <= k < |top| => HitAt(fsims, fdocs, top[k])))
  }

  /** With one document per similarity, selection never fails: it keeps `min(top_k, n)` hits
      for `top_k >= 1` and all `n` for `top_k == 0`, best first, each a document with its own
      similarity, and no document left out scores above one taken. */
  lemma SelectedTop(fsims: seq<real>, fdocs: seq<Document>, topK: int)
    requires |fsims| == |fdocs|
    ensures var r := Selected(fsims, fdocs, topK);
      r.Ok?
      && (topK >= 1 ==> |r.value| == Min(topK, |fsims|))
      && (topK == 0 ==> |r.value| == |fsims|)
      && (forall i, j :: 0 <= i < j < |r.value| ==> r.value[j].score <= r.value[i].score)
      && (forall i :: 0 <= i < |r.value| ==> exists k :: 0 <= k < |fsims| && r.value[i] == HitAt(fsims, fdocs, k))
      && (forall k, i :: 0 <= k < |fsims| && 0 <= i < |r.value| && HitAt(fsims, fdocs, k) !in r.value ==>
            fsims[k] <= r.value[i].score)
  {
    if fsims != [] {
      var top := Top(fsims, topK);
      TopLayout(fsims, topK);
      TopSpec(fsims, topK);
      var r := Selected(fsims, fdocs, topK).value;
      assert forall i :: 0 <= i < |r| ==> r[i] == HitAt(fsims, fdocs, top[i]);
      forall k, i | 0 <= k < |fsims| && 0 <= i < |r| && HitAt(fsims, fdocs, k) !in r
        ensures fsims[k] <= r[i].score
      {
        forall l | 0 <= l < |top| ensures top[l] != k {
          assert r[l] in r;
        }
      }
    }
  }

  /** The part of `search` after the filtering: rank, then build the hits. */
  method Select(fsims: seq<real>, fdocs: seq<Document>, topK: int) returns (r: Result<seq<Hit>>)
    ensures r == Selected(fsims, fdocs, topK)
  {
    if |fsims| == 0 {
      return Ok([]);
    }
    var top := Top(fsims, topK);
    r := CollectHits(fsims, fdocs, top);
  }

  /** The loop building the hits from the top positions. */
  method CollectHits(fsims: seq<real>, fdocs: seq<Document>, top: seq<nat>) returns (r: Result<seq<Hit>>)
    requires Ranking.InRange(top, |fsims|)
    ensures r == HitsAt(fsims, fdocs, top)
  {
    var hits: seq<Hit> := [];
    for i := 0 to |top|
      invariant |hits| == i && forall k :: 0 <= k < i ==> top[k] < |fdocs|
      invariant forall k :: 0 <= k < i ==> hits[k] == HitAt(fsims, fdocs, top[k])
    {
      if top[i] >= |fdocs| {
        return Err(IndexError(OutOfBounds));
      }
      var doc := fdocs[top[i]];
      hits := hits + [Hit(doc.text, fsims[top[i]], doc.metadata)];
    }
    assert hits == seq(|top|, k requires 0 <= k < |top| => HitAt(fsims, fdocs, top[k]));
    r := Ok(hits);
  }

  /** A successful selection never keeps more than `top_k >= 1` hits. */
  lemma SelectedAtMost(fsims: seq<real>, fdocs: seq<Document>, topK: int)
    requires topK >= 1
    ensures var r := Selected(fsims, fdocs, topK);
      r.Ok? ==> |r.value| <= topK
  {
    TopLayout(fsims, topK);
  }

  /** The hits for one query embedding: the similarities, the optional kind filter, then the
      top positions. */
  function Ranked(docs: seq<Document>, emb: Table, q: Table, cosine: Cosine, topK: int,
                  docType: Option<string>): (r: Result<seq<Hit>>)
    ensures r.Ok? ==> forall i :: 0 <= i < |r.value| ==>
      Document(r.value[i].document, r.value[i].metadata) in docs
      && (Filtering(docType) ==> r.value[i].metadata.Type() == docType.value)
  {
    if q.width != emb.width then Err(ValueError(BadShape))
    else
      var narrowed :- Narrowed(Similarities(emb, q, cosine), docs, docType);
      var r := Selected(narrowed.0, narrowed.1, topK);
      if r.Ok? then
        assert forall i :: 0 <= i < |r.value| ==> Document(r.value[i].document, r.value[i].metadata) in narrowed.1;
        r
      else r
  }

  /** The part of `search` after the query is embedded. */
  method Rank(docs: seq<Document>, emb: Table, q: Table, cosine: Cosine, topK: int,
              docType: Option<string>) returns (r: Result<seq<Hit>>)
    ensures r == Ranked(docs, emb, q, cosine, topK, docType)
  {
    if q.width != emb.width {
      return Err(ValueError(BadShape));
    }
    var narrowed := Narrowed(Similarities(emb, q, cosine), docs, docType);
    if narrowed.Err? {
      return Err(narrowed.error);
    }
    r := Select(narrowed.value.0, narrowed.value.1, topK);
  }

  /** With an embedding row per document and a one-row query of the same width, ranking never
      fails: it returns `min(top_k, #candidates)` hits for `top_k >= 1` and every candidate for
      `top_k == 0`, best first, each a candidate document scored by the cosine of its own row,
      and no candidate left out scores above one taken. */
  lemma RankedTop(docs: seq<Document>, emb: Table, q: Table, cosine: Cosine, topK: int,
                  docType: Option<string>)
    requires |emb.rows| == |docs| && |q.rows| == 1 && q.width == emb.width
    ensures var r, cands := Ranked(docs, emb, q, cosine, topK, docType), Candidates(docs, docType);
      r.Ok?
      && (topK >= 1 ==> |r.value| == Min(topK, |cands|))
      && (topK == 0 ==> |r.value| == |cands|)
      && (forall i, j :: 0 <= i < j < |r.value| ==> r.value[j].score <= r.value[i].score)
      && (forall i :: 0 <= i < |r.value| ==>
            exists k :: 0 <= k < |cands| && r.value[i] == Scored(docs, emb, q, cosine, cands[k]))
      && (forall k, i ::
            0 <= k < |cands| && 0 <= i < |r.value| && Scored(docs, emb, q, cosine, cands[k]) !in r.value ==>
            Scored(docs, emb, q, cosine, cands[k]).score <= r.value[i].score)
  {
    NarrowedHits(docs, emb, q, cosine, topK, docType);
    var narrowed := Narrowed(Similarities(emb, q, cosine), docs, docType).value;
    SelectedTop(narrowed.0, narrowed.1, topK);
    ScoredHits(Selected(narrowed.0, narrowed.1, topK).value, narrowed.0, narrowed.1, docs, emb, q, cosine,
               Candidates(docs, docType));
  }

  /** With an embedding row per document and a one-row query, the filtering never fails and
      its `k`-th entry is the `k`-th candidate scored by its own row. */
  lemma NarrowedHits(docs: seq<Document>, emb: Table, q: Table, cosine: Cosine, topK: int,
                     docType: Option<string>)
    requires |emb.rows| == |docs| && |q.rows| == 1 && q.width == emb.width
    ensures var cands, n := Candidates(docs, docType), Narrowed(Similarities(emb, q, cosine), docs, docType);
      n.Ok? && |n.value.0| == |cands| == |n.value.1|
      && Ranked(docs, emb, q, cosine, topK, docType) == Selected(n.value.0, n.value.1, topK)
      && (forall k :: 0 <= k < |cands| ==> cands[k] < |docs|)
      && forall k :: 0 <= k < |cands| ==> HitAt(n.value.0, n.value.1, k) == Scored(docs, emb, q, cosine, cands[k])
  {
    var sims := Similarities(emb, q, cosine);
    assert |sims| == |docs|;
    var cands := Candidates(docs, docType);
    var narrowed := Narrowed(sims, docs, docType).value;
    forall k | 0 <= k < |cands| ensures HitAt(narrowed.0, narrowed.1, k) == Scored(docs, emb, q, cosine, cands[k]) {
      assert narrowed.0[k] == sims[cands[k]];
    }
  }

  /** Hits over the filtered lists, restated over the candidates they come from. */
  lemma ScoredHits(r: seq<Hit>, fsims: seq<real>, fdocs: seq<Document>, docs: seq<Document>, emb: Table,
                   q: Table, cosine: Cosine, cands: seq<nat>)
    requires |q.rows| == 1 && |fsims| == |cands| == |fdocs|
    requires forall k :: 0 <= k < |cands| ==> cands[k] < |docs| && cands[k] < |emb.rows|
    requires forall k :: 0 <= k < |cands| ==> HitAt(fsims, fdocs, k) == Scored(docs, emb, q, cosine, cands[k])
    requires forall i :: 0 <= i < |r| ==> exists k :: 0 <= k < |fsims| && r[i] == HitAt(fsims, fdocs, k)
    requires forall k, i :: 0 <= k < |fsims| && 0 <= i < |r| && HitAt(fsims, fdocs, k) !in r ==> fsims[k] <= r[i].score
    ensures forall i :: 0 <= i < |r| ==>
      exists k :: 0 <= k < |cands| && r[i] == Scored(docs, emb, q, cosine, cands[k])
    ensures forall k, i ::
      0 <= k < |cands| && 0 <= i < |r| && Scored(docs, emb, q, cosine, cands[k]) !in r ==>
      Scored(docs, emb, q, cosine, cands[k]).score <= r[i].score
  {
    forall i | 0 <= i < |r| ensures exists k :: 0 <= k < |cands| && r[i] == Scored(docs, emb, q, cosine, cands[k]) {
      var k :| 0 <= k < |fsims| && r[i] == HitAt(fsims, fdocs, k);
      assert 0 <= k < |cands| && r[i] == Scored(docs, emb, q, cosine, cands[k]);
    }
    assert forall i :: 0 <= i < |r| ==>
      exists k :: 0 <= k < |cands| && r[i] == Scored(docs, emb, q, cosine, cands[k]);
    forall k, i | 0 <= k < |cands| && 0 <= i < |r| && Scored(docs, emb, q, cosine, cands[k]) !in r
      ensures Scored(docs, emb, q, cosine, cands[k]).score <= r[i].score
    {
      assert HitAt(fsims, fdocs, k) == Scored(docs, emb, q, cosine, cands[k]);
    }
  }

  /** Document `p` with the cosine of its embedding row and the query's one row. */
  function Scored(docs: seq<Document>, emb: Table, q: Table, cosine: Cosine, p: nat): Hit
    requires p < |docs| && p < |emb.rows| && |q.rows| == 1
  {
    Hit(docs[p].text, cosine(emb.rows[p], q.rows[0]), docs[p].metadata)
  }

  /** A successful ranking never returns more than `top_k >= 1` hits. */
  lemma RankedAtMost(docs: seq<Document>, emb: Table, q: Table, cosine: Cosine, topK: int,
                     docType: Option<string>)
    requires topK >= 1
    ensures var r := Ranked(docs, emb, q, cosine, topK, docType);
      r.Ok? ==> |r.value| <= topK
  {
    if q.width == emb.width {
      var narrowed := Narrowed(Similarities(emb, q, cosine), docs, docType);
      if narrowed.Ok? {
        SelectedAtMost(narrowed.value.0, narrowed.value.1, topK);
      }
    }
  }

  /** The record a solution or concept document was made from. */
  function Source(m: DocMetadata): Option<object> {
    match m
    case SolutionDoc(_, _, s) => Some(s)
    case ConceptDoc(_, _, c) => Some(c)
    case FeatureDoc(_, _) => None
  }

  /** The relevance score a record holds after the scores of `hits` were written in order:
      the last hit made from it wins. */
  function ScoreAfter(hits: seq<Hit>, o: object, before: Option<real>): Option<real> {
    if hits == [] then before
    else if Source(hits[|hits| - 1].metadata) == Some(o) then Some(hits[|hits| - 1].score)
    else ScoreAfter(hits[..|hits| - 1], o, before)
  }

  /** When no record occurs twice among the hits, each record holds its own hit's score, and
      a record among no hit keeps its score. */
  lemma {:induction false} ScoreAfterDistinct(hits: seq<Hit>, o: object, before: Option<real>)
    requires forall i, j :: 0 <= i < j < |hits| && Source(hits[i].metadata).Some? ==>
      Source(hits[i].metadata) != Source(hits[j].metadata)
    ensures (forall i :: 0 <= i < |hits| ==> Source(hits[i].metadata) != Some(o)) ==>
      ScoreAfter(hits, o, before) == before
    ensures forall i :: 0 <= i < |hits| && Source(hits[i].metadata) == Some(o) ==>
      ScoreAfter(hits, o, before) == Some(hits[i].score)
  {
    if hits != [] {
      var init := hits[..|hits| - 1];
      ScoreAfterDistinct(init, o, before);
      assert forall i :: 0 <= i < |init| ==> init[i] == hits[i];
    }
  }

  /** A record some hit was made from holds the score of the last such hit. */
  lemma {:induction false} ScoreAfterWritten(hits: seq<Hit>, o: object, before: Option<real>, i: int)
    requires 0 <= i < |hits| && Source(hits[i].metadata) == Some(o)
    ensures exists j :: i <= j < |hits| && Source(hits[j].metadata) == Some(o)
                        && ScoreAfter(hits, o, before) == Some(hits[j].score)
  {
    var last := |hits| - 1;
    if Source(hits[last].metadata) == Some(o) {
      assert ScoreAfter(hits, o, before) == Some(hits[last].score);
    } else {
      var init := hits[..last];
      assert forall k :: 0 <= k < last ==> init[k] == hits[k];
      ScoreAfterWritten(init, o, before, i);
    }
  }

  /** Writing the scores of two hit lists one after the other is writing those of their
      concatenation. */
  lemma {:induction false} ScoreAfterConcat(a: seq<Hit>, b: seq<Hit>, o: object, before: Option<real>)
    ensures ScoreAfter(a + b, o, before) == ScoreAfter(b, o, ScoreAfter(a, o, before))
    decreases |b|
  {
    if b == [] {
      assert a + b == a;
    } else {
      assert (a + b)[..|a + b| - 1] == a + b[..|b| - 1];
      ScoreAfterConcat(a, b[..|b| - 1], o, before);
    }
  }

  lemma ScoresAfterConcat(a: seq<Hit>, b: seq<Hit>)
    ensures forall o, before :: ScoreAfter(a + b, o, before) == ScoreAfter(b, o, ScoreAfter(a, o, before))
  {
    forall o, before {
      ScoreAfterConcat(a, b, o, before);
    }
  }

  /** The solution records among the documents. */
  function SolutionSources(docs: seq<Document>): set<SolutionRecord> {
    set d | d in docs && d.metadata.SolutionDoc? :: d.metadata.solution
  }

  /** The concept records among the documents. */
  function ConceptSources(docs: seq<Document>): set<ConceptRecord> {
    set d | d in docs && d.metadata.ConceptDoc? :: d.metadata.concept
  }

  /** The records behind a knowledge base's documents are its own solutions and concepts. */
  lemma DocumentSources(kb: KnowledgeBase)
    ensures SolutionSources(kb.Documents()) == set s | s in kb.solutions
    ensures ConceptSources(kb.Documents()) == set c | c in kb.domainKnowledge
  {
    var docs, nf, ns := kb.Documents(), |kb.features.order|, |kb.solutions|;
    forall k | 0 <= k < ns
      ensures docs[nf + k].metadata == SolutionDocument(kb.solutions[k]).metadata
    {
    }
    forall k | 0 <= k < |kb.domainKnowledge|
      ensures docs[nf + ns + k].metadata == ConceptDocument(kb.domainKnowledge[k]).metadata
    {
    }
    assert forall s :: s in kb.solutions ==> exists k :: 0 <= k < ns && kb.solutions[k] == s;
    assert forall c :: c in kb.domainKnowledge ==> exists k :: 0 <= k < |kb.domainKnowledge| && kb.domainKnowledge[k] == c;
    forall j | 0 <= j < |docs|
      ensures docs[j].metadata.SolutionDoc? ==> docs[j].metadata.solution in kb.solutions
      ensures docs[j].metadata.ConceptDoc? ==> docs[j].metadata.concept in kb.domainKnowledge
    {
      if j < nf {
        assert docs[j] == FeatureDocument(kb.features, j);
      } else if j < nf + ns {
        assert docs[j] == SolutionDocument(kb.solutions[j - nf]);
      } else {
        assert docs[j] == ConceptDocument(kb.domainKnowledge[j - nf - ns]);
      }
    }
  }

  /** The loop of `find_solutions`: each hit's score is written into the solution record
      its document was made from. */
  method ScoreSolutions(docs: seq<Document>, hits: seq<Hit>) returns (records: seq<SolutionRecord>)
    requires forall i :: 0 <= i < |hits| ==>
      Document(hits[i].document, hits[i].metadata) in docs && hits[i].metadata.Type() == "solution"
    modifies SolutionSources(docs)
    ensures forall i :: 0 <= i < |hits| ==> hits[i].metadata.SolutionDoc?
    ensures records == SolutionsOf(hits)
    ensures forall s :: s in SolutionSources(docs) ==> s.relevanceScore == ScoreAfter(hits, s, old(s.relevanceScore))
  {
    records := [];
    for i := 0 to |hits|
      invariant |records| == i
      invariant forall k :: 0 <= k < i ==> hits[k].metadata.SolutionDoc? && records[k] == hits[k].metadata.solution
      invariant forall s :: s in SolutionSources(docs) ==>
        s.relevanceScore == ScoreAfter(hits[..i], s, old(s.relevanceScore))
    {
      var m := hits[i].metadata;
      var s := m.solution;
      assert s in SolutionSources(docs) by {
        assert Document(hits[i].document, m) in docs;
      }
      s.relevanceScore := Some(hits[i].score);
      records := records + [s];
      assert hits[..i + 1][..i] == hits[..i];
    }
    assert hits[..|hits|] == hits;
  }

  /** The loop of `search_concepts`: as for solutions, into concept records. */
  method ScoreConcepts(docs: seq<Document>, hits: seq<Hit>) returns (records: seq<ConceptRecord>)
    requires forall i :: 0 <= i < |hits| ==>
      Document(hits[i].document, hits[i].metadata) in docs && hits[i].metadata.Type() == "concept"
    modifies ConceptSources(docs)
    ensures |records| == |hits|
    ensures forall i :: 0 <= i < |hits| ==> hits[i].metadata.ConceptDoc? && records[i] == hits[i].metadata.concept
    ensures forall c :: c in ConceptSources(docs) ==> c.relevanceScore == ScoreAfter(hits, c, old(c.relevanceScore))
  {
    records := [];
    for i := 0 to |hits|
      invariant |records| == i
      invariant forall k :: 0 <= k < i ==> hits[k].metadata.ConceptDoc? && records[k] == hits[k].metadata.concept
      invariant forall c :: c in ConceptSources(docs) ==>
        c.relevanceScore == ScoreAfter(hits[..i], c, old(c.relevanceScore))
    {
      var m := hits[i].metadata;
      var c := m.concept;
      assert c in ConceptSources(docs) by {
        assert Document(hits[i].document, m) in docs;
      }
      c.relevanceScore := Some(hits[i].score);
      records := records + [c];
      assert hits[..i + 1][..i] == hits[..i];
    }
    assert hits[..|hits|] == hits;
  }

  /** What `get_feature_explanations` returns: the known features and, when a related search
      ran, the names it suggested. */
  datatype Explanations = Explanations(features: map<string, FeatureInfo>, related: Option<seq<string>>)

  /** The names of the feature documents among the hits that were not asked about. */
  function RelatedNames(hits: seq<Hit>, names: seq<string>): (r: seq<string>)
    ensures |r| <= |hits|
    ensures forall k :: 0 <= k < |r| ==>
      r[k] !in names && exists i :: 0 <= i < |hits| && hits[i].metadata.FeatureDoc? && hits[i].metadata.name == r[k]
  {
    var kept := Filter(hits, (h: Hit) => h.metadata.FeatureDoc? && h.metadata.name !in names);
    seq(|kept|, k requires 0 <= k < |kept| => kept[k].metadata.name)
  }

  /** The anomaly summary a PLS analysis hands to `get_recommendations`. */
  datatype AnomalyInfo = AnomalyInfo(
    t2xTopFeatures: Option<seq<string>>, spexTopFeatures: Option<seq<string>>,
    t2xAnomaly: bool, spexAnomaly: bool)

  /** The feature names mentioned by the anomaly summary, T2 first, repetitions kept. */
  function AnomalyFeatures(a: AnomalyInfo): seq<string> {
    a.t2xTopFeatures.GetOr([]) + a.spexTopFeatures.GetOr([])
  }

  /** `list(set(feature_names))[:5]`, the set's iteration order given as `setOrder`: at most
      five distinct names, all from the anomaly summary, and none only when it names none. */
  function ChosenFeatures(a: AnomalyInfo, setOrder: seq<string>): (r: seq<string>)
    requires Distinct(setOrder) && forall x :: x in setOrder <==> x in AnomalyFeatures(a)
    ensures |r| <= 5 && Distinct(r)
    ensures forall k :: 0 <= k < |r| ==> r[k] in AnomalyFeatures(a)
    ensures r == [] <==> AnomalyFeatures(a) == []
  {
    var r := Take(setOrder, 5);
    assert forall k :: 0 <= k < |r| ==> r[k] == setOrder[k];
    assert |setOrder| > 0 ==> setOrder[0] in AnomalyFeatures(a);
    if AnomalyFeatures(a) != [] then
      assert AnomalyFeatures(a)[0] in setOrder;
      r
    else r
  }

  datatype Recommendations = Recommendations(
    featureExplanations: map<string, FeatureInfo>, solutions: seq<SolutionRecord>,
    relevantConcepts: seq<ConceptRecord>, summary: string)

  const NoRecommendations: Recommendations := Recommendations(map[], [], [], "")

  /** What `get_recommendations` does: its result, and the solution and the concept hits whose
      scores it writes, in the order it writes them. */
  datatype RecommendationRun = RecommendationRun(result: Result<Recommendations>, solutionHits: seq<Hit>,
                                                 conceptHits: seq<Hit>)

  /** A run of `get_recommendations` from its searches' outcomes: the first failure ends it;
      otherwise the explanations, the solutions and concepts found, and the summary. */
  function RunOf(names: seq<string>, info: map<string, FeatureInfo>, sols: Result<seq<Hit>>,
                 concepts: (Result<seq<Hit>>, seq<Hit>)): (r: RecommendationRun)
    requires sols.Ok? ==> forall i :: 0 <= i < |sols.value| ==> sols.value[i].metadata.SolutionDoc?
    requires concepts.0.Ok? ==> forall i :: 0 <= i < |concepts.1| ==> concepts.1[i].metadata.ConceptDoc?
    ensures r.result.Err? <==> sols.Err? || concepts.0.Err?
    ensures r.solutionHits == (if sols.Err? then [] else sols.value)
    ensures r.conceptHits == (if sols.Err? then [] else concepts.1)
  {
    if sols.Err? then RecommendationRun(Err(sols.error), [], [])
    else if concepts.0.Err? then RecommendationRun(Err(concepts.0.error), sols.value, concepts.1)
    else
      RecommendationRun(Ok(Recommendations(info, SolutionsOf(sols.value), ConceptsOf(concepts.1), Summary(names, info))),
                        sols.value, concepts.1)
  }

  /** The hits of a search that succeeded, and none for one that failed. */
  function Found(hits: Result<seq<Hit>>): seq<Hit> {
    if hits.Ok? then hits.value else []
  }

  function SolutionsOf(hits: seq<Hit>): seq<SolutionRecord>
    requires forall i :: 0 <= i < |hits| ==> hits[i].metadata.SolutionDoc?
  {
    seq(|hits|, i requires 0 <= i < |hits| => hits[i].metadata.solution)
  }

  function ConceptsOf(hits: seq<Hit>): seq<ConceptRecord>
    requires forall i :: 0 <= i < |hits| ==> hits[i].metadata.ConceptDoc?
  {
    seq(|hits|, i requires 0 <= i < |hits| => hits[i].metadata.concept)
  }

  lemma ConceptsOfConcat(a: seq<Hit>, b: seq<Hit>)
    requires forall i :: 0 <= i < |a| ==> a[i].metadata.ConceptDoc?
    requires forall i :: 0 <= i < |b| ==> b[i].metadata.ConceptDoc?
    ensures ConceptsOf(a + b) == ConceptsOf(a) + ConceptsOf(b)
  {
    assert forall i :: 0 <= i < |a + b| ==> ConceptsOf(a + b)[i] == (ConceptsOf(a) + ConceptsOf(b))[i];
  }
  const T2Query: string := "T2统计量 异常"
  const SpeQuery: string := "SPE统计量 异常"

  function ProblemDescription(names: seq<string>): string {
    "异常检测 " + Join(", ", names) + " 异常"
  }

  /** `f"{feat_name}({info.get('name', '')}): {info.get('impact', '')}"`. */
  function Detail(n: string, info: FeatureInfo): string {
    n + "(" + info.name.GetOr("") + "): " + info.impact.GetOr("")
  }

  /** The chosen names that have an explanation, in order. */
  function Explained(names: seq<string>, info: map<string, FeatureInfo>): seq<string> {
    Filter(names, (n: string) => n in info)
  }

  /** One summary line per chosen name that has an explanation, in order. */
  function FeatureSummaries(names: seq<string>, info: map<string, FeatureInfo>): (r: seq<string>)
    ensures |r| <= |names|
  {
    if names == [] then []
    else
      var n := names[|names| - 1];
      FeatureSummaries(names[..|names| - 1], info) + (if n in info then [Detail(n, info[n])] else [])
  }

  /** The summary lines are the details of the explained names, one each, in order. */
  lemma {:induction false} FeatureSummariesSpec(names: seq<string>, info: map<string, FeatureInfo>)
    ensures var e, r := Explained(names, info), FeatureSummaries(names, info);
      |r| == |e| && forall k :: 0 <= k < |e| ==> e[k] in info && r[k] == Detail(e[k], info[e[k]])
  {
    if names != [] {
      FeatureSummariesSpec(names[..|names| - 1], info);
    }
  }

  /** The feature details the summary shows: those of the first two explained names. */
  function SummaryDetails(names: seq<string>, info: map<string, FeatureInfo>): (r: seq<string>)
    ensures |r| == Min(2, |Explained(names, info)|)
    ensures forall k :: 0 <= k < |r| ==>
      var n := Explained(names, info)[k]; n in names && n in info && r[k] == Detail(n, info[n])
  {
    FeatureSummariesSpec(names, info);
    Take(FeatureSummaries(names, info), 2)
  }

  /** The summary: the chosen names, then the details of at most two of them. */
  function Summary(names: seq<string>, info: map<string, FeatureInfo>): string {
    "检测到异常，主要涉及特征: " + Join(", ", names) + "。" + Join(" ", SummaryDetails(names, info))
  }

  /** The summary loop of `get_recommendations`. */
  method Summarize(names: seq<string>, info: map<string, FeatureInfo>) returns (summary: string)
    ensures summary == Summary(names, info)
  {
    var summaries: seq<string> := [];
    for i := 0 to |names|
      invariant summaries == FeatureSummaries(names[..i], info)
    {
      assert names[..i + 1][..i] == names[..i];
      var n := names[i];
      if n in info {
        summaries := summaries + [n + "(" + info[n].name.GetOr("") + "): " + info[n].impact.GetOr("")];
        assert names[..i + 1][i] == n;
      }
    }
    assert names[..|names|] == names;
    summary := "检测到异常，主要涉及特征: " + Join(", ", names) + "。" + Join(" ", Take(summaries, 2));
  }

  class KnowledgeRetriever {
    const kb: KnowledgeBase
    const embedder: Embedder
    var documents: seq<Document>
    var docEmbeddings: Option<Table>

    /** The fields `__init__` sets before building the index. */
    constructor(kb: KnowledgeBase, embedder: Embedder)
      ensures this.kb == kb && this.embedder == embedder && documents == [] && docEmbeddings == None
    {
      this.kb := kb;
      this.embedder := embedder;
      documents := [];
      docEmbeddings := None;
    }

    /** `_build_index()`: the knowledge base's documents, then (when there are any) fitting a
        trainable embedder on their texts and embedding them. */
    method BuildIndex(tfidf: Tfidf, service: (ApiEmbedder, seq<string>) -> ServiceReply) returns (err: Option<Error>)
      modifies this, Trainees(embedder)
      ensures documents == kb.Documents()
      ensures documents == [] ==> err == None && docEmbeddings == old(docEmbeddings) && unchanged(Trainees(embedder))
      ensures documents != [] && HasFit(embedder) ==>
        Trainee(embedder).fitted && Trainee(embedder).corpus == DocTexts(documents)
      ensures documents != [] ==>
        var e := Embed(embedder, tfidf, service, Many(DocTexts(documents)));
        (e.Err? ==> err == Some(e.error) && docEmbeddings == old(docEmbeddings))
        && (e.Ok? ==> err == None && docEmbeddings == Some(e.value))
    {
      var docs := kb.AllDocuments();
      documents := docs;
      if |documents| == 0 {
        return None;
      }
      var texts := DocTexts(documents);
      if HasFit(embedder) {
        var fitErr := FitEmbedder(embedder, texts);
      }
      var e := Embed(embedder, tfidf, service, Many(texts));
      if e.Err? {
        return Some(e.error);
      }
      docEmbeddings := Some(e.value);
      err := None;
    }

    /** `search(query, top_k, doc_type)`. */
    function SearchResults(tfidf: Tfidf, service: (ApiEmbedder, seq<string>) -> ServiceReply, cosine: Cosine,
                           query: string, topK: int, docType: Option<string>): (r: Result<seq<Hit>>)
      reads this, Footprint(embedder)
      ensures r.Ok? ==> forall i :: 0 <= i < |r.value| ==>
        Document(r.value[i].document, r.value[i].metadata) in documents
        && (Filtering(docType) ==> r.value[i].metadata.Type() == docType.value)
    {
      if docEmbeddings.None? || documents == [] then Ok([])
      else
        var q :- Embed(embedder, tfidf, service, One(query));
        Ranked(documents, docEmbeddings.value, q, cosine, topK, docType)
    }

    /** `search(query, top_k, doc_type)`: the ranking loop is `Rank`, proved equal to the
        function evaluated here. */
    method Search(tfidf: Tfidf, service: (ApiEmbedder, seq<string>) -> ServiceReply, cosine: Cosine,
                  query: string, topK: int, docType: Option<string>) returns (r: Result<seq<Hit>>)
      ensures r == SearchResults(tfidf, service, cosine, query, topK, docType)
    {
      if docEmbeddings.None? || |documents| == 0 {
        return Ok([]);
      }
      var emb := docEmbeddings.value;
      var q := Embed(embedder, tfidf, service, One(query));
      if q.Err? {
        return Err(q.error);
      }
      r := Ranked(documents, emb, q.value, cosine, topK, docType);
    }

    /** `[info.get("name", f) for f in names if info]`: the words of the related-feature
        query. */
    function RelatedQuery(names: seq<string>): (r: seq<string>)
      ensures |r| <= |names|
      ensures r == [] <==> forall i :: 0 <= i < |names| ==> kb.FeatureInfoOf(names[i]).IsEmpty()
    {
      if names == [] then []
      else
        var f := names[|names| - 1];
        var info := kb.FeatureInfoOf(f);
        assert forall i :: 0 <= i < |names| - 1 ==> names[..|names| - 1][i] == names[i];
        RelatedQuery(names[..|names| - 1]) + (if info.IsEmpty() then [] else [info.name.GetOr(f)])
    }

    /** What `get_feature_explanations(feature_names, include_related)` returns. */
    function ExplanationsFor(tfidf: Tfidf, service: (ApiEmbedder, seq<string>) -> ServiceReply, cosine: Cosine,
                             names: seq<string>, includeRelated: bool): Result<Explanations>
      reads this, Footprint(embedder)
    {
      var known := kb.KnownFeatures(names);
      var query := Join(" ", RelatedQuery(names));
      if includeRelated && names != [] && query != "" then
        var related :- SearchResults(tfidf, service, cosine, query, 3, Some("feature"));
        Ok(Explanations(known, Some(RelatedNames(related, names))))
      else Ok(Explanations(known, None))
    }

    method GetFeatureExplanations(tfidf: Tfidf, service: (ApiEmbedder, seq<string>) -> ServiceReply, cosine: Cosine,
                                  names: seq<string>, includeRelated: bool) returns (r: Result<Explanations>)
      ensures r == ExplanationsFor(tfidf, service, cosine, names, includeRelated)
    {
      var known := kb.MultipleFeaturesInfo(names);
      if includeRelated && |names| > 0 {
        var query := Join(" ", RelatedQuery(names));
        if query != "" {
          var related := Search(tfidf, service, cosine, query, 3, Some("feature"));
          if related.Err? {
            return Err(related.error);
          }
          return Ok(Explanations(known, Some(RelatedNames(related.value, names))));
        }
      }
      r := Ok(Explanations(known, None));
    }

    /** The query words `find_solutions` adds for each known feature: its name and the system
        it relates to. */
    function FeatureTerms(names: seq<string>): (r: seq<string>)
      ensures |r| <= 2 * |names|
    {
      if names == [] then []
      else
        var info := kb.FeatureInfoOf(names[|names| - 1]);
        FeatureTerms(names[..|names| - 1])
        + (if info.IsEmpty() then [] else [info.name.GetOr(""), info.relatedTo.GetOr("")])
    }

    /** `find_solutions(problem_description, feature_names, top_k)`: a search restricted to
        solution documents whose hits' records get the hit's score written into them. */
    method FindSolutions(tfidf: Tfidf, service: (ApiEmbedder, seq<string>) -> ServiceReply, cosine: Cosine,
                         problem: string, featureNames: Option<seq<string>>, topK: int)
      returns (r: Result<seq<SolutionRecord>>)
      modifies SolutionSources(documents)
      ensures unchanged(this) && unchanged(Footprint(embedder))
      ensures forall t2, spe :: FlaggedConceptHits(tfidf, service, cosine, t2, spe)
                                == old(FlaggedConceptHits(tfidf, service, cosine, t2, spe))
      ensures var hits := old(SearchResults(tfidf, service, cosine,
                                            Join(" ", [problem] + FeatureTerms(featureNames.GetOr([]))), topK, Some("solution")));
        (hits.Err? ==> r == Err(hits.error) && unchanged(SolutionSources(documents)))
        && (hits.Ok? ==>
              (forall i :: 0 <= i < |hits.value| ==> hits.value[i].metadata.SolutionDoc?)
              && r == Ok(SolutionsOf(hits.value))
              && forall s :: s in SolutionSources(documents) ==>
                   s.relevanceScore == ScoreAfter(hits.value, s, old(s.relevanceScore)))
    {
      var names := featureNames.GetOr([]);
      var parts := [problem];
      for i := 0 to |names|
        invariant parts == [problem] + FeatureTerms(names[..i])
      {
        assert names[..i + 1][..i] == names[..i];
        var info := kb.FeatureInfoOf(names[i]);
        if !info.IsEmpty() {
          parts := parts + [info.name.GetOr(""), info.relatedTo.GetOr("")];
        }
      }
      assert names[..|names|] == names;
      var query := Join(" ", parts);
      var hits := SearchResults(tfidf, service, cosine, query, topK, Some("solution"));
      if hits.Err? {
        return Err(hits.error);
      }
      var records := ScoreSolutionHits(tfidf, service, cosine, hits.value);
      r := Ok(records);
    }

    /** The records of a solution search's hits, with each hit's score written into its record;
        nothing the searches read changes. */
    method ScoreSolutionHits(tfidf: Tfidf, service: (ApiEmbedder, seq<string>) -> ServiceReply, cosine: Cosine,
                             hits: seq<Hit>) returns (records: seq<SolutionRecord>)
      requires forall i :: 0 <= i < |hits| ==>
        Document(hits[i].document, hits[i].metadata) in documents && hits[i].metadata.Type() == "solution"
      modifies SolutionSources(documents)
      ensures unchanged(this) && unchanged(Footprint(embedder))
      ensures forall t2, spe :: FlaggedConceptHits(tfidf, service, cosine, t2, spe)
                                == old(FlaggedConceptHits(tfidf, service, cosine, t2, spe))
      ensures forall i :: 0 <= i < |hits| ==> hits[i].metadata.SolutionDoc?
      ensures records == SolutionsOf(hits)
      ensures forall s :: s in SolutionSources(documents) ==> s.relevanceScore == ScoreAfter(hits, s, old(s.relevanceScore))
    {
      records := ScoreSolutions(documents, hits);
      match embedder {
        case Simple(e) => assert unchanged(e); assert Footprint(embedder) == {e};
        case Api(_) =>
        case Hybrid(h) => assert unchanged(h, h.simple); assert Footprint(embedder) == {h, h.simple};
      }
    }

    /** `search_concepts(query, top_k)`: as `find_solutions`, for concept documents. */
    method SearchConcepts(tfidf: Tfidf, service: (ApiEmbedder, seq<string>) -> ServiceReply, cosine: Cosine,
                          query: string, topK: int) returns (r: Result<seq<ConceptRecord>>)
      modifies ConceptSources(documents)
      ensures unchanged(this) && unchanged(Footprint(embedder))
      ensures var hits := old(SearchResults(tfidf, service, cosine, query, topK, Some("concept")));
        (hits.Err? ==> r == Err(hits.error) && unchanged(ConceptSources(documents)))
        && (hits.Ok? ==>
              r.Ok? && |r.value| == |hits.value|
              && (forall i :: 0 <= i < |hits.value| ==>
                    hits.value[i].metadata.ConceptDoc? && r.value[i] == hits.value[i].metadata.concept)
              && forall c :: c in ConceptSources(documents) ==>
                   c.relevanceScore == ScoreAfter(hits.value, c, old(c.relevanceScore)))
    {
      var hits := SearchResults(tfidf, service, cosine, query, topK, Some("concept"));
      if hits.Err? {
        return Err(hits.error);
      }
      var records := ScoreConcepts(documents, hits.value);
      match embedder {
        case Simple(e) => assert unchanged(e); assert Footprint(embedder) == {e};
        case Api(_) =>
        case Hybrid(h) => assert unchanged(h, h.simple); assert Footprint(embedder) == {h, h.simple};
      }
      r := Ok(records);
    }

    /** A concept search of `get_recommendations`: one hit for `query` when its statistic is
        flagged, and none otherwise. */
    function FlaggedHits(tfidf: Tfidf, service: (ApiEmbedder, seq<string>) -> ServiceReply, cosine: Cosine,
                         query: string, flagged: bool): (r: Result<seq<Hit>>)
      reads this, Footprint(embedder)
      ensures r.Ok? ==> |r.value| <= (if flagged then 1 else 0) && forall i :: 0 <= i < |r.value| ==> r.value[i].metadata.ConceptDoc?
    {
      ConceptsAtMostOne(tfidf, service, cosine, query);
      if flagged then SearchResults(tfidf, service, cosine, query, 1, Some("concept")) else Ok([])
    }

    /** The concept searches of `get_recommendations`, T2 then SPE, the first failure ending
        them; with the hits whose scores they write, in order. */
    function FlaggedConceptHits(tfidf: Tfidf, service: (ApiEmbedder, seq<string>) -> ServiceReply, cosine: Cosine,
                                t2: bool, spe: bool): (r: (Result<seq<Hit>>, seq<Hit>))
      reads this, Footprint(embedder)
      ensures r.0.Ok? ==> r.1 == r.0.value && forall i :: 0 <= i < |r.1| ==> r.1[i].metadata.ConceptDoc?
      ensures r.0.Ok? ==> |r.0.value| <= (if t2 then 1 else 0) + (if spe then 1 else 0)
    {
      var t2Hits := FlaggedHits(tfidf, service, cosine, T2Query, t2);
      var speHits := FlaggedHits(tfidf, service, cosine, SpeQuery, spe);
      if t2Hits.Err? then (Err(t2Hits.error), [])
      else if speHits.Err? then (Err(speHits.error), t2Hits.value)
      else (Ok(t2Hits.value + speHits.value), t2Hits.value + speHits.value)
    }

    /** `get_recommendations` for the chosen names: nothing for none; otherwise the solution
        search, then the T2 concept search when asked for, then the SPE one, the first failure
        ending the run. Each search sees the index as it was, since a search reads no score. */
    function RecommendationsFor(tfidf: Tfidf, service: (ApiEmbedder, seq<string>) -> ServiceReply, cosine: Cosine,
                                names: seq<string>, t2: bool, spe: bool): RecommendationRun
      reads this, Footprint(embedder)
    {
      if names == [] then RecommendationRun(Ok(NoRecommendations), [], [])
      else
        RunOf(names, kb.KnownFeatures(names),
              SearchResults(tfidf, service, cosine, Join(" ", [ProblemDescription(names)] + FeatureTerms(names)),
                            3, Some("solution")),
              FlaggedConceptHits(tfidf, service, cosine, t2, spe))
    }

    /** The recommendations for no name are empty; otherwise they carry the known features'
        explanations and their summary, at most three solutions and at most one concept per
        statistic that was flagged. */
    lemma RecommendationsShape(tfidf: Tfidf, service: (ApiEmbedder, seq<string>) -> ServiceReply, cosine: Cosine,
                               names: seq<string>, t2: bool, spe: bool)
      ensures var run := RecommendationsFor(tfidf, service, cosine, names, t2, spe);
        (names == [] ==> run == RecommendationRun(Ok(NoRecommendations), [], []))
        && (names != [] && run.result.Ok? ==>
              var rec := run.result.value;
              rec.featureExplanations == kb.KnownFeatures(names)
              && rec.summary == Summary(names, kb.KnownFeatures(names))
              && |rec.solutions| <= 3
              && |rec.relevantConcepts| <= (if t2 then 1 else 0) + (if spe then 1 else 0))
    {
      if names != [] {
        RankedAtMostThree(tfidf, service, cosine, Join(" ", [ProblemDescription(names)] + FeatureTerms(names)));
      }
    }

    /** `get_recommendations(anomaly_info)`, with the iteration order of the name set passed
        in. */
    method GetRecommendations(tfidf: Tfidf, service: (ApiEmbedder, seq<string>) -> ServiceReply, cosine: Cosine,
                              anomaly: AnomalyInfo, setOrder: seq<string>) returns (r: Result<Recommendations>)
      requires Distinct(setOrder) && forall x :: x in setOrder <==> x in AnomalyFeatures(anomaly)
      modifies SolutionSources(documents), ConceptSources(documents)
      ensures var run := old(RecommendationsFor(tfidf, service, cosine, ChosenFeatures(anomaly, setOrder),
                                                 anomaly.t2xAnomaly, anomaly.spexAnomaly));
        r == run.result
        && (forall s :: s in SolutionSources(documents) ==>
              s.relevanceScore == ScoreAfter(run.solutionHits, s, old(s.relevanceScore)))
        && forall c :: c in ConceptSources(documents) ==>
             c.relevanceScore == ScoreAfter(run.conceptHits, c, old(c.relevanceScore))
      ensures var names := ChosenFeatures(anomaly, setOrder);
        (names == [] ==> r == Ok(NoRecommendations))
        && (r.Ok? && names != [] ==>
              r.value.featureExplanations == kb.KnownFeatures(names)
              && |r.value.solutions| <= 3
              && |r.value.relevantConcepts| <= (if anomaly.t2xAnomaly then 1 else 0) + (if anomaly.spexAnomaly then 1 else 0)
              && r.value.summary == Summary(names, kb.KnownFeatures(names)))
    {
      var names := ChosenFeatures(anomaly, setOrder);
      RecommendationsShape(tfidf, service, cosine, names, anomaly.t2xAnomaly, anomaly.spexAnomaly);
      if |names| == 0 {
        return Ok(NoRecommendations);
      }
      r := RecommendNamed(tfidf, service, cosine, names, anomaly.t2xAnomaly, anomaly.spexAnomaly);
    }

    /** `get_recommendations` past its check for no feature. */
    method RecommendNamed(tfidf: Tfidf, service: (ApiEmbedder, seq<string>) -> ServiceReply, cosine: Cosine,
                          names: seq<string>, t2: bool, spe: bool) returns (r: Result<Recommendations>)
      requires names != []
      modifies SolutionSources(documents), ConceptSources(documents)
      ensures var run := old(RecommendationsFor(tfidf, service, cosine, names, t2, spe));
        r == run.result
        && (forall s :: s in SolutionSources(documents) ==>
              s.relevanceScore == ScoreAfter(run.solutionHits, s, old(s.relevanceScore)))
        && forall c :: c in ConceptSources(documents) ==>
             c.relevanceScore == ScoreAfter(run.conceptHits, c, old(c.relevanceScore))
    {
      ghost var query := Join(" ", [ProblemDescription(names)] + FeatureTerms(names));
      ghost var sols := SearchResults(tfidf, service, cosine, query, 3, Some("solution"));
      var solutions := FindSolutions(tfidf, service, cosine, ProblemDescription(names), Some(names), 3);
      r := RecommendWith(tfidf, service, cosine, names, t2, spe, solutions, sols);
    }

    /** The rest of `get_recommendations` once the solution search has run: the feature
        explanations (which search nothing and read no score, so coming after the solution
        search changes nothing), the concept searches and the summary. */
    method RecommendWith(tfidf: Tfidf, service: (ApiEmbedder, seq<string>) -> ServiceReply, cosine: Cosine,
                         names: seq<string>, t2: bool, spe: bool,
                         solutions: Result<seq<SolutionRecord>>, ghost sols: Result<seq<Hit>>)
      returns (r: Result<Recommendations>)
      requires sols.Ok? ==> forall i :: 0 <= i < |sols.value| ==> sols.value[i].metadata.SolutionDoc?
      requires solutions == if sols.Err? then Err(sols.error) else Ok(SolutionsOf(sols.value))
      modifies ConceptSources(documents)
      ensures var run := RunOf(names, kb.KnownFeatures(names), sols, old(FlaggedConceptHits(tfidf, service, cosine, t2, spe)));
        r == run.result
        && forall c :: c in ConceptSources(documents) ==> c.relevanceScore == ScoreAfter(run.conceptHits, c, old(c.relevanceScore))
    {
      // what `get_feature_explanations(names, include_related=False)` returns
      var explained := ExplanationsFor(tfidf, service, cosine, names, false);
      var info := explained.value.features;
      if solutions.Err? {
        return Err(solutions.error);
      }
      var concepts := FlaggedConcepts(tfidf, service, cosine, t2, spe);
      if concepts.Err? {
        return Err(concepts.error);
      }
      var summary := Summarize(names, info);
      r := Ok(Recommendations(info, solutions.value, concepts.value, summary));
    }

    /** The concept part of `get_recommendations`. */
    method FlaggedConcepts(tfidf: Tfidf, service: (ApiEmbedder, seq<string>) -> ServiceReply, cosine: Cosine,
                           t2: bool, spe: bool) returns (r: Result<seq<ConceptRecord>>)
      modifies ConceptSources(documents)
      ensures var run := old(FlaggedConceptHits(tfidf, service, cosine, t2, spe));
        (run.0.Err? ==> r == Err(run.0.error))
        && (run.0.Ok? ==> r == Ok(ConceptsOf(run.0.value)))
        && forall c :: c in ConceptSources(documents) ==> c.relevanceScore == ScoreAfter(run.1, c, old(c.relevanceScore))
    {
      ghost var t2Hits := FlaggedHits(tfidf, service, cosine, T2Query, t2);
      ghost var speHits := FlaggedHits(tfidf, service, cosine, SpeQuery, spe);
      r := FlaggedSearch(tfidf, service, cosine, T2Query, t2);
      if r.Ok? {
        var second := FlaggedSearch(tfidf, service, cosine, SpeQuery, spe);
        if second.Err? {
          r := Err(second.error);
        } else {
          r := Ok(r.value + second.value);
          ConceptsOfConcat(t2Hits.value, speHits.value);
          ScoresAfterConcat(t2Hits.value, speHits.value);
        }
      }
    }

    /** One concept search of `get_recommendations`, made only when its statistic is flagged. */
    method FlaggedSearch(tfidf: Tfidf, service: (ApiEmbedder, seq<string>) -> ServiceReply, cosine: Cosine,
                         query: string, flagged: bool) returns (r: Result<seq<ConceptRecord>>)
      modifies ConceptSources(documents)
      ensures unchanged(this) && unchanged(Footprint(embedder))
      ensures forall q, f :: FlaggedHits(tfidf, service, cosine, q, f) == old(FlaggedHits(tfidf, service, cosine, q, f))
      ensures var hits := old(FlaggedHits(tfidf, service, cosine, query, flagged));
        (hits.Err? ==> r == Err(hits.error))
        && (hits.Ok? ==> r == Ok(ConceptsOf(hits.value)))
        && forall c :: c in ConceptSources(documents) ==> c.relevanceScore == ScoreAfter(Found(hits), c, old(c.relevanceScore))
    {
      if !flagged {
        assert ConceptsOf([]) == [];
        return Ok([]);
      }
      ghost var hits := SearchResults(tfidf, service, cosine, query, 1, Some("concept"));
      r := SearchConcepts(tfidf, service, cosine, query, 1);
      if r.Ok? {
        assert r.value == ConceptsOf(hits.value);
      }
    }

    /** No embeddings or no documents give no hits, and so does a kind no document has once
        the query is embedded to the documents' width. */
    lemma SearchEmpty(tfidf: Tfidf, service: (ApiEmbedder, seq<string>) -> ServiceReply, cosine: Cosine,
                      query: string, topK: int, docType: Option<string>)
      ensures docEmbeddings.None? || documents == [] ==>
        SearchResults(tfidf, service, cosine, query, topK, docType) == Ok([])
      ensures (docEmbeddings.Some? && Filtering(docType)
               && (forall i :: 0 <= i < |documents| ==> documents[i].metadata.Type() != docType.value)
               && Embed(embedder, tfidf, service, One(query)).Ok?
               && Embed(embedder, tfidf, service, One(query)).value.width == docEmbeddings.value.width) ==>
        SearchResults(tfidf, service, cosine, query, topK, docType) == Ok([])
    {
    }

    /** The explanations hold exactly the known requested features; related names are looked
        for only when asked, and only when some requested name is known, and never repeat a
        requested name. */
    lemma ExplanationsSpec(tfidf: Tfidf, service: (ApiEmbedder, seq<string>) -> ServiceReply, cosine: Cosine,
                           names: seq<string>, includeRelated: bool)
      ensures var r := ExplanationsFor(tfidf, service, cosine, names, includeRelated);
        (!includeRelated || names == [] ==> r == Ok(Explanations(kb.KnownFeatures(names), None)))
        && (r.Ok? ==> r.value.features == kb.KnownFeatures(names))
        && (r.Ok? && r.value.related.Some? ==>
              includeRelated
              && (exists i :: 0 <= i < |names| && names[i] in r.value.features)
              && forall k :: 0 <= k < |r.value.related.value| ==> r.value.related.value[k] !in names)
    {
      var q := RelatedQuery(names);
      if Join(" ", q) != "" {
        assert q != [];
        var i :| 0 <= i < |names| && !kb.FeatureInfoOf(names[i]).IsEmpty();
        assert names[i] in kb.KnownFeatures(names);
      }
    }

    /** A solution search for three never yields more than three hits. */
    lemma RankedAtMostThree(tfidf: Tfidf, service: (ApiEmbedder, seq<string>) -> ServiceReply, cosine: Cosine,
                            query: string)
      ensures var r := SearchResults(tfidf, service, cosine, query, 3, Some("solution"));
        r.Ok? ==> |r.value| <= 3
    {
      if docEmbeddings.Some? && documents != [] {
        var q := Embed(embedder, tfidf, service, One(query));
        if q.Ok? {
          RankedAtMost(documents, docEmbeddings.value, q.value, cosine, 3, Some("solution"));
        }
      }
    }

    /** A concept search for one never yields more than one hit. */
    lemma ConceptsAtMostOne(tfidf: Tfidf, service: (ApiEmbedder, seq<string>) -> ServiceReply, cosine: Cosine,
                            query: string)
      ensures var r := SearchResults(tfidf, service, cosine, query, 1, Some("concept"));
        r.Ok? ==> |r.value| <= 1
    {
      if docEmbeddings.Some? && documents != [] {
        var q := Embed(embedder, tfidf, service, One(query));
        if q.Ok? {
          RankedAtMost(documents, docEmbeddings.value, q.value, cosine, 1, Some("concept"));
        }
      }
    }
  }

  /** `KnowledgeRetriever(knowledge_base, embedder_type, **embedder_kwargs)`: the given
      knowledge base or one loaded from the default files, the embedder, then the index. */
  method NewKnowledgeRetriever(kb: Option<KnowledgeBase>, defaultFiles: KnowledgeFiles, embedderType: string,
                               args: EmbedderArgs, config: EmbeddingConfig,
                               tfidf: Tfidf, service: (ApiEmbedder, seq<string>) -> ServiceReply)
    returns (r: Result<KnowledgeRetriever>)
    ensures var kind := CreationOutcome(Some(embedderType), args, config);
      var docs := if kb.Some? then kb.value.Documents() else FilesDocuments(defaultFiles);
      (kind.Err? ==> r == Err(kind.error))
      && (kind.Ok? && docs == [] ==> r.Ok? && r.value.docEmbeddings == None)
      && (kind.Ok? && docs != [] ==>
            var emb := FittedEmbedding(kind.value, args, config, tfidf, service, DocTexts(docs), Many(DocTexts(docs)));
            (emb.Err? ==> r == Err(emb.error))
            && (emb.Ok? ==> r.Ok? && r.value.docEmbeddings == Some(emb.value)))
      && (r.Ok? ==>
            kind.Ok? && fresh(r.value) && (kb.Some? ==> r.value.kb == kb.value)
            && (kb.None? ==> fresh(r.value.kb) && r.value.kb.solutions == defaultFiles.solutions.GetOr([])
                             && r.value.kb.domainKnowledge == defaultFiles.concepts.GetOr([]))
            && r.value.documents == r.value.kb.Documents() == docs
            && BuiltAs(r.value.embedder, kind.value, args, config)
            && (HasFit(r.value.embedder) ==>
                  Trainee(r.value.embedder).fitted == (docs != [])
                  && (docs != [] ==> Trainee(r.value.embedder).corpus == DocTexts(docs))))
  {
    var base: KnowledgeBase;
    if kb.Some? {
      base := kb.value;
    } else {
      base := new KnowledgeBase(defaultFiles);
    }
    var e := CreateEmbedder(Some(embedderType), args, config);
    if e.Err? {
      return Err(e.error);
    }
    var t := new KnowledgeRetriever(base, e.value);
    var err := t.BuildIndex(tfidf, service);
    if t.documents != [] {
      EmbedAsBuilt(t.embedder, CreationOutcome(Some(embedderType), args, config).value, args, config, tfidf, service,
                   DocTexts(t.documents), Many(DocTexts(t.documents)));
    }
    if err.Some? {
      return Err(err.value);
    }
    r := Ok(t);
  }

  /** A retriever as `KnowledgeRetriever()` builds it: a TF-IDF embedder of the default size,
      fitted on the documents' texts exactly when there are documents, and an index holding
      their embeddings exactly then. */
  predicate DefaultIndexed(t: KnowledgeRetriever, tfidf: Tfidf)
    reads t, Footprint(t.embedder)
  {
    t.embedder.Simple? && t.embedder.simple.maxFeatures == DefaultMaxFeatures
    && (t.documents == [] ==> t.docEmbeddings == None && !t.embedder.simple.fitted)
    && (t.documents != [] ==>
          t.embedder.simple.fitted && t.embedder.simple.corpus == DocTexts(t.documents)
          && t.docEmbeddings == Some(TfidfMatrix(tfidf, DocTexts(t.documents), DocTexts(t.documents))))
  }

  /** A retriever built with a TF-IDF embedder over a non-empty knowledge base answers every
      query with the best `min(top_k, #candidates)` documents for `top_k >= 1`. */
  lemma TfidfSearchNeverFails(t: KnowledgeRetriever, tfidf: Tfidf, service: (ApiEmbedder, seq<string>) -> ServiceReply,
                              cosine: Cosine, query: string, topK: int, docType: Option<string>)
    requires t.embedder.Simple? && t.embedder.simple.fitted && t.documents != []
    requires t.docEmbeddings == Some(TfidfMatrix(tfidf, t.embedder.simple.corpus, DocTexts(t.documents)))
    requires topK >= 1
    ensures var r := t.SearchResults(tfidf, service, cosine, query, topK, docType);
      r.Ok? && |r.value| == Min(topK, |Candidates(t.documents, docType)|)
      && forall i, j :: 0 <= i < j < |r.value| ==> r.value[j].score <= r.value[i].score
  {
    var q := t.embedder.simple.Embedding(tfidf, One(query)).value;
    RankedTop(t.documents, t.docEmbeddings.value, q, cosine, topK, docType);
  }
}
