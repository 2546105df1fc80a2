/** The fixed-size chunker: consecutive windows of `chunkSize` characters, each starting
    `chunkSize - chunkOverlap` after the previous one, trimmed, with empty pieces dropped,
    and an anti-stall guard that jumps straight to the window's end. */
module FixedSizeChunking {
  import opened Common

  const DefaultChunkSize: int := 500
  const DefaultChunkOverlap: int := 50

  const SizeNotPositive: string := "chunk_size必须为正数"
  const OverlapNegative: string := "chunk_overlap不能为负数"
  const OverlapTooLarge: string := "chunk_overlap必须小于chunk_size"

  datatype FixedSizeChunker = FixedSizeChunker(chunkSize: int, chunkOverlap: int) {
    predicate Valid() { chunkSize > 0 && 0 <= chunkOverlap < chunkSize }
  }

  /** A chunker that passed the constructor's validation. */
  type ValidChunker = c: FixedSizeChunker | c.Valid() witness FixedSizeChunker(1, 0)

  /** The constructor: its three checks, in the order the source makes them. */
  function New(chunkSize: int, chunkOverlap: int): (r: Result<ValidChunker>)
    ensures r.Ok? <==> chunkSize > 0 && chunkOverlap >= 0 && chunkOverlap < chunkSize
    ensures r.Ok? ==> r.value.chunkSize == chunkSize && r.value.chunkOverlap == chunkOverlap
    ensures chunkSize <= 0 ==> r == Err(ValueError(SizeNotPositive))
    ensures chunkSize > 0 && chunkOverlap < 0 ==> r == Err(ValueError(OverlapNegative))
    ensures chunkSize > 0 && chunkOverlap >= chunkSize ==> r == Err(ValueError(OverlapTooLarge))
  {
    if chunkSize <= 0 then Err(ValueError(SizeNotPositive))
    else if chunkOverlap < 0 then Err(ValueError(OverlapNegative))
    else if chunkOverlap >= chunkSize then Err(ValueError(OverlapTooLarge))
    else
      var c: ValidChunker := FixedSizeChunker(chunkSize, chunkOverlap);
      Ok(c)
  }

  /** The half-open character range `[start, end)` one loop iteration slices. */
  datatype Window = Window(start: nat, end: nat)

  function WindowEnd(c: ValidChunker, start: nat, n: nat): nat {
    Min(start + c.chunkSize, n)
  }

  /** The start of the next window: advance by the step, unless the guard fires, in which
      case jump to the end of the current window. */
  function NextStart(c: ValidChunker, start: nat, end: nat): (r: nat)
    requires start <= end
    ensures r > start
  {
    var s := start + c.chunkSize - c.chunkOverlap;
    if s <= end - c.chunkSize + c.chunkOverlap then end else s
  }

  /** The windows the loop visits, from `start` on, over a text of length `n`. */
  function Windows(c: ValidChunker, n: nat, start: nat): seq<Window>
    decreases n - start
  {
    if start >= n then []
    else
      var end := WindowEnd(c, start, n);
      [Window(start, end)] + Windows(c, n, NextStart(c, start, end))
  }

  /** Every window lies inside the text, is non-empty and at most `chunkSize` long. */
  lemma {:induction false} WindowsBounds(c: ValidChunker, n: nat, start: nat)
    ensures forall k :: 0 <= k < |Windows(c, n, start)| ==>
      var w := Windows(c, n, start)[k];
      start <= w.start < w.end <= n && w.end - w.start <= c.chunkSize
    decreases n - start
  {
    if start < n {
      WindowsBounds(c, n, NextStart(c, start, WindowEnd(c, start, n)));
    }
  }

  /** The trimmed, non-empty pieces the loop appends, from `start` on. */
  function ChunksFrom(c: ValidChunker, text: string, start: nat): seq<string>
    decreases |text| - start
  {
    if start >= |text| then []
    else
      var end := WindowEnd(c, start, |text|);
      var piece := Strip(text[start..end]);
      (if piece == [] then [] else [piece]) + ChunksFrom(c, text, NextStart(c, start, end))
  }

  /** What `chunk(text)` returns. */
  function FixedChunks(c: ValidChunker, text: string): seq<string> {
    if IsBlank(text) then [] else ChunksFrom(c, text, 0)
  }

  /** One step of `ChunksFrom`: the current window's piece, if any, then the rest. */
  lemma ChunksFromStep(c: ValidChunker, text: string, start: nat, end: nat, next: nat)
    requires start < |text| && end == WindowEnd(c, start, |text|) && next == NextStart(c, start, end)
    ensures var piece := Strip(text[start..end]);
      ChunksFrom(c, text, start) == (if piece == [] then [] else [piece]) + ChunksFrom(c, text, next)
  {
  }

  /** The source's `chunk` loop. */
  method Chunk(c: ValidChunker, text: string) returns (chunks: seq<string>)
    ensures chunks == FixedChunks(c, text)
  {
    StripEmptyIffBlank(text);
    if text == [] || Strip(text) == [] {
      return [];
    }
    chunks := [];
    var start: nat := 0;
    var n := |text|;
    ghost var all := ChunksFrom(c, text, 0);
    while start < n
      invariant chunks + ChunksFrom(c, text, start) == all
      decreases n - start
    {
      var end := Min(start + c.chunkSize, n);
      var piece := Strip(text[start..end]);
      var next := start + c.chunkSize - c.chunkOverlap;
      if next <= end - c.chunkSize + c.chunkOverlap {
        next := end;
      }
      ChunksFromStep(c, text, start, end, next);
      ghost var head := if piece == [] then [] else [piece];
      AppendAssoc(chunks, head, ChunksFrom(c, text, next));
      if piece != [] {
        chunks := chunks + [piece];
      } else {
        assert chunks + head == chunks;
      }
      start := next;
    }
  }

  // ---------------------------------------------------------------------------
  // Properties

  /** Every emitted chunk is non-empty, already stripped, and at most `chunkSize` long. */
  lemma ChunkShape(c: ValidChunker, text: string)
    ensures forall k :: 0 <= k < |FixedChunks(c, text)| ==>
      var ch := FixedChunks(c, text)[k];
      ch != [] && Strip(ch) == ch && |ch| <= c.chunkSize
  {
    ChunksFromShape(c, text, 0);
  }

  lemma PieceShape(s: string)
    ensures Strip(Strip(s)) == Strip(s) && |Strip(s)| <= |s|
  {
    StripIdempotent(s);
    StripLength(s);
  }

  lemma {:induction false} ChunksFromShape(c: ValidChunker, text: string, start: nat)
    ensures forall k :: 0 <= k < |ChunksFrom(c, text, start)| ==>
      var ch := ChunksFrom(c, text, start)[k];
      ch != [] && Strip(ch) == ch && |ch| <= c.chunkSize
    decreases |text| - start
  {
    if start < |text| {
      var end := WindowEnd(c, start, |text|);
      var next := NextStart(c, start, end);
      var piece := Strip(text[start..end]);
      PieceShape(text[start..end]);
      ChunksFromShape(c, text, next);
      var head := if piece == [] then [] else [piece];
      var rest := ChunksFrom(c, text, next);
      assert ChunksFrom(c, text, start) == head + rest;
      forall k | 0 <= k < |head + rest|
        ensures (head + rest)[k] != [] && Strip((head + rest)[k]) == (head + rest)[k]
             && |(head + rest)[k]| <= c.chunkSize
      {
        if k >= |head| { assert (head + rest)[k] == rest[k - |head|]; }
      }
    }
  }

  /** A window that lies inside a text of length `n`. */
  predicate Inside(w: Window, n: nat) {
    w.start <= w.end <= n
  }

  /** The trimmed slice of the text under each window, in order. */
  function Pieces(text: string, ws: seq<Window>): (r: seq<string>)
    requires forall k :: 0 <= k < |ws| ==> Inside(ws[k], |text|)
    ensures |r| == |ws|
  {
    if ws == [] then []
    else
      assert Inside(ws[0], |text|);
      [Strip(text[ws[0].start..ws[0].end])] + Pieces(text, ws[1..])
  }

  predicate NonEmpty(s: string) {
    s != []
  }

  /** The chunks are, in order, exactly the pieces of the visited windows that are not empty
      once trimmed. */
  lemma {:induction false} ChunksAreWindowPieces(c: ValidChunker, text: string, start: nat)
    ensures forall k :: 0 <= k < |Windows(c, |text|, start)| ==> Inside(Windows(c, |text|, start)[k], |text|)
    ensures ChunksFrom(c, text, start) == Filter(Pieces(text, Windows(c, |text|, start)), NonEmpty)
    decreases |text| - start
  {
    WindowsBounds(c, |text|, start);
    if start < |text| {
      var end := WindowEnd(c, start, |text|);
      var next := NextStart(c, start, end);
      ChunksAreWindowPieces(c, text, next);
      var ws := Windows(c, |text|, start);
      var piece := Strip(text[start..end]);
      assert ws[0] == Window(start, end);
      assert ws[1..] == Windows(c, |text|, next);
      assert Pieces(text, ws) == [piece] + Pieces(text, ws[1..]);
      FilterConcat([piece], Pieces(text, ws[1..]), NonEmpty);
      assert [piece][..0] == [];
      assert Filter([piece], NonEmpty) == if piece == [] then [] else [piece];
    }
  }

  /** The loop runs at most once per character: `start` strictly increases. */
  lemma {:induction false} WindowCount(c: ValidChunker, n: nat, start: nat)
    ensures |Windows(c, n, start)| <= if start < n then n - start else 0
    ensures forall k :: 0 <= k < |Windows(c, n, start)| - 1 ==>
      Windows(c, n, start)[k].start < Windows(c, n, start)[k + 1].start
    decreases n - start
  {
    if start < n {
      var end := WindowEnd(c, start, n);
      var next := NextStart(c, start, end);
      WindowCount(c, n, next);
      WindowsBounds(c, n, next);
    }
  }

  /** After a full window the guard resets `start` to `end`, dropping the overlap, exactly when
      `chunkSize <= 2 * chunkOverlap`; otherwise the step is `chunkSize - chunkOverlap`. */
  lemma FullWindowStep(c: ValidChunker, start: nat)
    ensures NextStart(c, start, start + c.chunkSize) ==
      if c.chunkSize <= 2 * c.chunkOverlap then start + c.chunkSize
      else start + c.chunkSize - c.chunkOverlap
  {
  }

  /** Consecutive windows leave no gap: the next window starts no later than the current one
      ends, unless the current one already reaches the end of the text. */
  lemma NoGap(c: ValidChunker, n: nat, start: nat)
    requires start < n
    ensures var end := WindowEnd(c, start, n);
      NextStart(c, start, end) <= end || end == n
  {
  }

  /** The windows cover every character of the text. */
  lemma {:induction false} WindowsCover(c: ValidChunker, n: nat, start: nat, i: nat)
    requires start <= i < n
    ensures exists k :: (0 <= k < |Windows(c, n, start)| &&
                         Windows(c, n, start)[k].start <= i < Windows(c, n, start)[k].end)
    decreases n - start
  {
    var end := WindowEnd(c, start, n);
    var next := NextStart(c, start, end);
    var ws := Windows(c, n, start);
    assert ws[0] == Window(start, end);
    if i >= end {
      NoGap(c, n, start);
      WindowsCover(c, n, next, i);
      var k :| 0 <= k < |Windows(c, n, next)| &&
        Windows(c, n, next)[k].start <= i < Windows(c, n, next)[k].end;
      assert ws[k + 1] == Windows(c, n, next)[k];
    }
  }
}
