/** The semantic chunker: blank-line paragraphs packed into buffers of at most
    `maxChunkSize` characters, oversized buffers re-split on sentence punctuation, and a short
    final buffer merged into the previous chunk. */
module SemanticChunking {
  import opened Common

  const DefaultMaxChunkSize: int := 800
  const DefaultMinChunkSize: int := 100

  /** The constructor stores both sizes and checks neither. */
  datatype SemanticChunker = SemanticChunker(maxChunkSize: int, minChunkSize: int)

  // ===========================================================================
  // Paragraphs: re.split(r'\n\s*\n', text)

  /** The end of the whitespace run that starts at `p`. */
  function SpaceRunEnd(s: string, p: nat): (e: nat)
    requires p <= |s|
    ensures p <= e <= |s| && (e == |s| || !IsSpace(s[e]))
    ensures forall k :: p <= k < e ==> IsSpace(s[k])
    decreases |s| - p
  {
    if p == |s| || !IsSpace(s[p]) then p else SpaceRunEnd(s, p + 1)
  }

  /** The last line break in `s[lo..hi]`. */
  function LastNewline(s: string, lo: nat, hi: nat): (r: Option<nat>)
    requires lo <= hi <= |s|
    ensures r.Some? ==> lo <= r.value < hi && s[r.value] == '\n'
    ensures r.None? ==> (forall k :: lo <= k < hi ==> s[k] != '\n')
    decreases hi
  {
    if hi == lo then None
    else if s[hi - 1] == '\n' then Some(hi - 1)
    else LastNewline(s, lo, hi - 1)
  }

  /** Where a match of `\n\s*\n` starting at `i` ends. The greedy `\s*` runs to the end of the
      whitespace and then backs off to the last line break inside it. */
  function SeparatorEnd(s: string, i: nat): (r: Option<nat>)
    requires i < |s|
    ensures r.Some? ==> i + 2 <= r.value <= |s| && s[i] == '\n' && s[r.value - 1] == '\n'
    ensures r.Some? ==> forall k :: i <= k < r.value ==> IsSpace(s[k])
  {
    if s[i] != '\n' then None
    else
      var e := SpaceRunEnd(s, i + 1);
      match LastNewline(s, i + 1, e)
      case None => None
      case Some(k) => Some(k + 1)
  }

  /** The pieces of a regular-expression split and the separators matched between them. */
  datatype Split = Split(pieces: seq<string>, separators: seq<string>)

  /** Scanning from `pos`, with the current piece begun at `start`. */
  function SplitFrom(s: string, start: nat, pos: nat): (r: Split)
    requires start <= pos <= |s|
    ensures |r.pieces| == |r.separators| + 1
    decreases |s| - pos
  {
    if pos == |s| then Split([s[start..]], [])
    else
      match SeparatorEnd(s, pos)
      case Some(e) =>
        var rest := SplitFrom(s, e, e);
        Split([s[start..pos]] + rest.pieces, [s[pos..e]] + rest.separators)
      case None => SplitFrom(s, start, pos + 1)
  }

  /** `re.split(r'\n\s*\n', text)`. */
  function RawParagraphs(text: string): (r: seq<string>)
    ensures |r| >= 1
  {
    SplitFrom(text, 0, 0).pieces
  }

  /** The pieces with their separators put back between them. */
  function Interleave(pieces: seq<string>, seps: seq<string>): string
    requires |pieces| == |seps| + 1
  {
    if seps == [] then pieces[0] else pieces[0] + seps[0] + Interleave(pieces[1..], seps[1..])
  }

  /** A blank line: a line break, whitespace, and a line break. */
  predicate IsBlankLineSeparator(sep: string) {
    |sep| >= 2 && sep[0] == '\n' && sep[|sep| - 1] == '\n' && AllSpace(sep)
  }

  /** Splitting loses nothing: the pieces and the separators between them rebuild the text, and
      every separator is a blank line. */
  lemma {:induction false} SplitRoundTrip(s: string, start: nat, pos: nat)
    requires start <= pos <= |s|
    ensures var r := SplitFrom(s, start, pos);
      Interleave(r.pieces, r.separators) == s[start..]
      && forall k :: 0 <= k < |r.separators| ==> IsBlankLineSeparator(r.separators[k])
    decreases |s| - pos
  {
    if pos < |s| {
      match SeparatorEnd(s, pos)
      case Some(e) =>
        SplitRoundTrip(s, e, e);
        var rest := SplitFrom(s, e, e);
        var r := SplitFrom(s, start, pos);
        SplitAtSeparator(s, start, pos, e);
        InterleaveCons(s[start..pos], s[pos..e], rest.pieces, rest.separators);
        SliceJoin(s, start, pos, e);
        SeparatorIsBlankLine(s, pos, e);
      case None =>
        SplitRoundTrip(s, start, pos + 1);
    }
  }

  /** A separator at `pos` closes the current piece there. */
  lemma SplitAtSeparator(s: string, start: nat, pos: nat, e: nat)
    requires start <= pos < |s| && SeparatorEnd(s, pos) == Some(e)
    ensures SplitFrom(s, start, pos)
         == Split([s[start..pos]] + SplitFrom(s, e, e).pieces, [s[pos..e]] + SplitFrom(s, e, e).separators)
  {
  }

  lemma SeparatorIsBlankLine(s: string, pos: nat, e: nat)
    requires pos < |s| && SeparatorEnd(s, pos) == Some(e)
    ensures IsBlankLineSeparator(s[pos..e])
  {
    var t := s[pos..e];
    assert forall k :: 0 <= k < |t| ==> t[k] == s[pos + k];
    assert t[0] == '\n' && t[|t| - 1] == '\n';
  }

  /** One more piece and separator in front. */
  lemma InterleaveCons(piece: string, sep: string, pieces: seq<string>, seps: seq<string>)
    requires |pieces| == |seps| + 1
    ensures Interleave([piece] + pieces, [sep] + seps) == piece + sep + Interleave(pieces, seps)
    ensures forall k :: 1 <= k < |seps| + 1 ==> ([sep] + seps)[k] == seps[k - 1]
  {
    assert ([piece] + pieces)[1..] == pieces && ([sep] + seps)[1..] == seps;
  }

  lemma SliceJoin(s: string, a: nat, b: nat, c: nat)
    requires a <= b <= c <= |s|
    ensures s[a..b] + s[b..c] + s[c..] == s[a..]
  {
    assert s[a..] == s[a..b] + s[b..];
    assert s[b..] == s[b..c] + s[c..];
  }

  lemma {:induction false} InterleaveBlank(pieces: seq<string>, seps: seq<string>)
    requires |pieces| == |seps| + 1
    requires forall k :: 0 <= k < |pieces| ==> IsBlank(pieces[k])
    requires forall k :: 0 <= k < |seps| ==> AllSpace(seps[k])
    ensures IsBlank(Interleave(pieces, seps))
  {
    if seps != [] {
      InterleaveBlank(pieces[1..], seps[1..]);
      var t := Interleave(pieces[1..], seps[1..]);
      assert Interleave(pieces, seps) == pieces[0] + seps[0] + t;
      assert AllSpace(seps[0]);
    }
  }

  /** Text that is not blank has a paragraph that is not blank. */
  lemma NonBlankHasParagraph(text: string)
    requires !IsBlank(text)
    ensures exists k :: 0 <= k < |RawParagraphs(text)| && Strip(RawParagraphs(text)[k]) != []
  {
    var r := SplitFrom(text, 0, 0);
    assert RawParagraphs(text) == r.pieces;
    SplitRoundTrip(text, 0, 0);
    assert text[0..] == text;
    if forall k :: 0 <= k < |r.pieces| ==> IsBlank(r.pieces[k]) {
      InterleaveBlank(r.pieces, r.separators);
      assert false;
    }
    var k :| 0 <= k < |r.pieces| && !IsBlank(r.pieces[k]);
    StripEmptyIffBlank(r.pieces[k]);
  }

  // ===========================================================================
  // Sentences: re.split(r'([。！？\.!?]+[\s\n]*)', text), then glued back in pairs

  /** Terminal punctuation of either writing tradition. */
  predicate IsTerminal(c: char) {
    c == '。' || c == '！' || c == '？' || c == '.' || c == '!' || c == '?'
  }

  function NextTerminal(s: string, p: nat): (e: nat)
    requires p <= |s|
    ensures p <= e <= |s| && (e < |s| ==> IsTerminal(s[e]))
    ensures forall k :: p <= k < e ==> !IsTerminal(s[k])
    decreases |s| - p
  {
    if p == |s| || IsTerminal(s[p]) then p else NextTerminal(s, p + 1)
  }

  function TerminalRunEnd(s: string, p: nat): (e: nat)
    requires p <= |s|
    ensures p <= e <= |s| && forall k :: p <= k < e ==> IsTerminal(s[k])
    decreases |s| - p
  {
    if p == |s| || !IsTerminal(s[p]) then p else TerminalRunEnd(s, p + 1)
  }

  /** Where the delimiter that starts at the next terminal mark ends: the run of terminal
      marks, then the run of whitespace after it. */
  function DelimiterEnd(s: string, start: nat): (r: nat)
    requires start <= |s| && NextTerminal(s, start) < |s|
    ensures NextTerminal(s, start) < r <= |s|
  {
    SpaceRunEnd(s, TerminalRunEnd(s, NextTerminal(s, start) + 1))
  }

  /** The list `re.split` returns with a capturing group: text, delimiter, text, ..., text. */
  function SentenceParts(s: string, start: nat): (r: seq<string>)
    requires start <= |s|
    ensures |r| % 2 == 1
    decreases |s| - start
  {
    var p := NextTerminal(s, start);
    if p == |s| then [s[start..]]
    else [s[start..p], s[p..DelimiterEnd(s, start)]] + SentenceParts(s, DelimiterEnd(s, start))
  }

  /** The pairing loop of `_split_sentences`: each text glued to the delimiter after it. */
  function Pair(parts: seq<string>): seq<string> {
    if |parts| < 2 then parts else [parts[0] + parts[1]] + Pair(parts[2..])
  }

  function NonBlankOnly(ss: seq<string>): (r: seq<string>)
    ensures forall k :: 0 <= k < |r| ==> !IsBlank(r[k])
  {
    if ss == [] then []
    else (if IsBlank(ss[0]) then [] else [ss[0]]) + NonBlankOnly(ss[1..])
  }

  /** What `_split_sentences(text)` returns. */
  function Sentences(text: string): seq<string> {
    NonBlankOnly(Pair(SentenceParts(text, 0)))
  }

  /** The pairing loop of `_split_sentences` over the split list. */
  method PairUp(parts: seq<string>) returns (combined: seq<string>)
    ensures combined == Pair(parts)
  {
    combined := [];
    var i := 0;
    while i < |parts| - 1
      invariant 0 <= i <= |parts| && i % 2 == 0
      invariant combined + Pair(parts[i..]) == Pair(parts)
    {
      // `i + 1 < len(sentences)` always holds here, so the source's else branch never runs.
      assert Pair(parts[i..]) == [parts[i] + parts[i + 1]] + Pair(parts[i + 2..]);
      combined := combined + [parts[i] + parts[i + 1]];
      i := i + 2;
    }
    if |parts| % 2 == 1 {
      assert parts[i..] == [parts[|parts| - 1]];
      combined := combined + [parts[|parts| - 1]];
    } else {
      assert parts[i..] == [];
    }
  }

  /** The source's `_split_sentences`: split, pair each text with the delimiter after it, and
      keep the pieces that are not blank. */
  method SplitSentences(text: string) returns (result: seq<string>)
    ensures result == Sentences(text)
  {
    var parts := SentenceParts(text, 0);
    var combined := PairUp(parts);
    result := NonBlankOnly(combined);
  }

  /** The sentences glued to their delimiters, scanning from `start`. */
  function Glued(s: string, start: nat): (r: seq<string>)
    requires start <= |s|
    ensures |r| >= 1
    decreases |s| - start
  {
    if NextTerminal(s, start) == |s| then [s[start..]]
    else [s[start..DelimiterEnd(s, start)]] + Glued(s, DelimiterEnd(s, start))
  }

  lemma {:induction false} PairIsGlued(s: string, start: nat)
    requires start <= |s|
    ensures Pair(SentenceParts(s, start)) == Glued(s, start)
    decreases |s| - start
  {
    var p := NextTerminal(s, start);
    if p < |s| {
      var r := DelimiterEnd(s, start);
      PairIsGlued(s, r);
      var parts := SentenceParts(s, start);
      assert parts[2..] == SentenceParts(s, r);
      assert s[start..p] + s[p..r] == s[start..r];
    }
  }

  /** The cut points of a sentence: text without terminal punctuation up to `i`, a run of
      terminal punctuation up to `j`, then only whitespace. With no punctuation, `i == j` is the
      end of the sentence. */
  predicate ShapedAt(s: string, i: nat, j: nat) {
    i <= j <= |s|
    && (forall k :: 0 <= k < i ==> !IsTerminal(s[k]))
    && (forall k :: i <= k < j ==> IsTerminal(s[k]))
    && (forall k :: j <= k < |s| ==> IsSpace(s[k]))
    && (i < j || i == |s|)
  }

  /** Terminal punctuation stays attached to the text before it and closes the sentence. */
  ghost predicate SentenceShaped(s: string) {
    exists i: nat, j: nat :: ShapedAt(s, i, j)
  }

  /** The piece up to a delimiter's end is a sentence that ends in punctuation. */
  lemma DelimitedShaped(s: string, start: nat)
    requires start <= |s| && NextTerminal(s, start) < |s|
    ensures SentenceShaped(s[start..DelimiterEnd(s, start)])
    ensures !IsBlank(s[start..DelimiterEnd(s, start)])
  {
    var p := NextTerminal(s, start);
    var q := TerminalRunEnd(s, p + 1);
    var r := DelimiterEnd(s, start);
    var piece := s[start..r];
    assert forall k :: 0 <= k < |piece| ==> piece[k] == s[start + k];
    assert ShapedAt(piece, p - start, q - start);
    assert !IsSpace(piece[p - start]);
  }

  /** Text without a terminal mark is a sentence on its own. */
  lemma UndelimitedShaped(s: string, start: nat)
    requires start <= |s| && NextTerminal(s, start) == |s|
    ensures SentenceShaped(s[start..])
  {
    var piece := s[start..];
    assert forall k :: 0 <= k < |piece| ==> piece[k] == s[start + k];
    assert ShapedAt(piece, |piece|, |piece|);
  }

  /** Every glued piece is a sentence, and only the last one can be blank. */
  lemma {:induction false} GluedAt(s: string, start: nat, k: nat)
    requires start <= |s| && k < |Glued(s, start)|
    ensures SentenceShaped(Glued(s, start)[k])
    ensures k < |Glued(s, start)| - 1 ==> !IsBlank(Glued(s, start)[k])
    decreases k
  {
    var g := Glued(s, start);
    if NextTerminal(s, start) == |s| {
      assert g == [s[start..]];
      UndelimitedShaped(s, start);
    } else {
      var r := DelimiterEnd(s, start);
      var rest := Glued(s, r);
      assert g == [s[start..r]] + rest;
      if k == 0 {
        DelimitedShaped(s, start);
      } else {
        assert g[k] == rest[k - 1] && |rest| == |g| - 1;
        GluedAt(s, r, k - 1);
      }
    }
  }

  lemma {:induction false} GluedFlatten(s: string, start: nat)
    requires start <= |s|
    ensures Flatten(Glued(s, start)) == s[start..]
    decreases |s| - start
  {
    if NextTerminal(s, start) < |s| {
      var r := DelimiterEnd(s, start);
      GluedFlatten(s, r);
      var g, rest := Glued(s, start), Glued(s, r);
      assert g == [s[start..r]] + rest;
      assert g[1..] == rest;
      assert Flatten(g) == s[start..r] + Flatten(rest);
      assert s[start..] == s[start..r] + s[r..];
    }
  }

  /** Filtering blanks drops at most the last piece when only the last can be blank. */
  lemma {:induction false} NonBlankOnlyDropsLast(ss: seq<string>)
    requires |ss| >= 1
    requires forall k :: 0 <= k < |ss| - 1 ==> !IsBlank(ss[k])
    ensures NonBlankOnly(ss) == if IsBlank(ss[|ss| - 1]) then ss[..|ss| - 1] else ss
  {
    if |ss| > 1 {
      NonBlankOnlyDropsLast(ss[1..]);
      assert ss[1..][..|ss| - 2] == ss[1..|ss| - 1];
      assert ss[..|ss| - 1] == [ss[0]] + ss[1..|ss| - 1];
    }
  }

  /** The sentences are the glued pieces, less a blank last one. */
  lemma SentencesAreGlued(text: string)
    ensures Sentences(text) == NonBlankOnly(Glued(text, 0))
    ensures var g := Glued(text, 0); IsBlank(g[|g| - 1]) ==> Sentences(text) == g[..|g| - 1]
    ensures var g := Glued(text, 0); !IsBlank(g[|g| - 1]) ==> Sentences(text) == g
    ensures Flatten(Glued(text, 0)) == text
  {
    PairIsGlued(text, 0);
    var g := Glued(text, 0);
    forall k | 0 <= k < |g| - 1 ensures !IsBlank(g[k]) {
      GluedAt(text, 0, k);
    }
    GluedFlatten(text, 0);
    NonBlankOnlyDropsLast(g);
    assert text[0..] == text;
  }

  /** `f` is a prefix of `text` and only whitespace follows it. */
  predicate PrefixUpToBlank(f: string, text: string) {
    |f| <= |text| && f == text[..|f|] && IsBlank(text[|f|..])
  }

  /** A list glued back together is the text, less a final blank piece if that was dropped. */
  lemma CoverFromParts(text: string, g: seq<string>, ss: seq<string>)
    requires |g| >= 1 && Flatten(g) == text
    requires ss == if IsBlank(g[|g| - 1]) then g[..|g| - 1] else g
    ensures PrefixUpToBlank(Flatten(ss), text)
  {
    if !IsBlank(g[|g| - 1]) {
      KeepAll(text);
    } else {
      var last := g[|g| - 1];
      assert g == ss + [last];
      DropBlankLast(text, ss, last);
    }
  }

  lemma KeepAll(text: string)
    ensures PrefixUpToBlank(text, text)
  {
    assert text[|text|..] == [];
  }

  lemma DropBlankLast(text: string, ss: seq<string>, last: string)
    requires Flatten(ss + [last]) == text && IsBlank(last)
    ensures PrefixUpToBlank(Flatten(ss), text)
  {
    FlattenSnoc(ss, last);
    ConcatSlices(Flatten(ss), last, text);
  }

  lemma ConcatSlices(a: string, b: string, c: string)
    requires c == a + b
    ensures a == c[..|a|] && b == c[|a|..]
  {
  }

  /** Glued together, the sentences give back the text up to trailing whitespace. */
  lemma SentencesCover(text: string)
    ensures var f := Flatten(Sentences(text));
      |f| <= |text| && f == text[..|f|] && IsBlank(text[|f|..])
  {
    SentencesAreGlued(text);
    CoverFromParts(text, Glued(text, 0), Sentences(text));
  }

  /** What `_split_sentences` promises: no piece is blank, every piece keeps its terminal
      punctuation attached, and glued together the pieces give back the input, up to trailing
      whitespace. */
  lemma SentencesSpec(text: string)
    ensures var ss := Sentences(text);
      (forall k :: 0 <= k < |ss| ==> !IsBlank(ss[k]) && SentenceShaped(ss[k]))
      && |Flatten(ss)| <= |text| && Flatten(ss) == text[..|Flatten(ss)|]
      && IsBlank(text[|Flatten(ss)|..])
  {
    SentencesAreGlued(text);
    SentencesCover(text);
    var g := Glued(text, 0);
    var ss := Sentences(text);
    forall k | 0 <= k < |ss| ensures SentenceShaped(ss[k]) {
      assert ss[k] == g[k];
      GluedAt(text, 0, k);
    }
  }

  lemma SentencesNonEmpty(text: string)
    requires !IsBlank(text)
    ensures Sentences(text) != []
  {
    SentencesCover(text);
    assert text[0..] == text;
  }

  // ===========================================================================
  // Packing

  /** The loop state: the chunks emitted so far and the buffer being filled. */
  datatype Packing = Packing(chunks: seq<string>, current: string)

  /** Joining a paragraph to the buffer. */
  function Glue(buffer: string, para: string): string {
    if buffer != [] then buffer + "\n\n" + para else para
  }

  /** One sentence of the inner loop. */
  function SentenceStep(maxSize: int, t: Packing, sent: string): Packing {
    if |t.current| + |sent| <= maxSize then Packing(t.chunks, t.current + sent)
    else Packing(t.chunks + (if t.current != [] then [Strip(t.current)] else []), sent)
  }

  /** The inner loop over sentences, from an empty buffer. */
  function PackSentences(maxSize: int, sents: seq<string>): Packing {
    if sents == [] then Packing([], "")
    else SentenceStep(maxSize, PackSentences(maxSize, sents[..|sents| - 1]), sents[|sents| - 1])
  }

  /** A buffer longer than the maximum is cut on sentence boundaries. */
  function Resplit(c: SemanticChunker, st: Packing): Packing {
    if |st.current| > c.maxChunkSize then
      var t := PackSentences(c.maxChunkSize, Sentences(st.current));
      Packing(st.chunks + t.chunks, t.current)
    else st
  }

  /** One stripped, non-empty paragraph of the outer loop. */
  function Step(c: SemanticChunker, st: Packing, para: string): Packing {
    if |st.current| + |para| + 2 <= c.maxChunkSize then Packing(st.chunks, Glue(st.current, para))
    else if |st.current| >= c.minChunkSize then Resplit(c, Packing(st.chunks + [st.current], para))
    else Resplit(c, Packing(st.chunks, Glue(st.current, para)))
  }

  /** One raw paragraph: stripped, and skipped when empty. */
  function RawStep(c: SemanticChunker, st: Packing, raw: string): Packing {
    if Strip(raw) == [] then st else Step(c, st, Strip(raw))
  }

  function Pack(c: SemanticChunker, raws: seq<string>): Packing {
    if raws == [] then Packing([], "")
    else RawStep(c, Pack(c, raws[..|raws| - 1]), raws[|raws| - 1])
  }

  /** The final buffer is kept if long enough, else merged into the previous chunk, else kept
      alone. */
  function Finish(c: SemanticChunker, st: Packing): seq<string> {
    if st.current != [] && |st.current| >= c.minChunkSize then st.chunks + [st.current]
    else if st.current != [] && st.chunks != [] then
      st.chunks[..|st.chunks| - 1] + [st.chunks[|st.chunks| - 1] + "\n\n" + st.current]
    else if st.current != [] then st.chunks + [st.current]
    else st.chunks
  }

  /** What `chunk(text)` returns. */
  function SemanticChunks(c: SemanticChunker, text: string): seq<string> {
    if IsBlank(text) then [] else Finish(c, Pack(c, RawParagraphs(text)))
  }

  /** The inner loop of `chunk`: cut `current` on sentence boundaries, appending to `chunks`. */
  method CutSentences(maxSize: int, chunks0: seq<string>, current: string)
    returns (chunks: seq<string>, temp: string)
    ensures Packing(chunks, temp) ==
      var t := PackSentences(maxSize, Sentences(current)); Packing(chunks0 + t.chunks, t.current)
  {
    var sentences := SplitSentences(current);
    chunks, temp := chunks0, "";
    for j := 0 to |sentences|
      invariant var t := PackSentences(maxSize, sentences[..j]);
        chunks == chunks0 + t.chunks && temp == t.current
    {
      assert sentences[..j + 1][..j] == sentences[..j];
      var sent := sentences[j];
      if |temp| + |sent| <= maxSize {
        temp := temp + sent;
      } else {
        if temp != [] {
          chunks := chunks + [Strip(temp)];
        }
        temp := sent;
      }
    }
    assert sentences[..|sentences|] == sentences;
  }

  /** The source's `chunk`. */
  method Chunk(c: SemanticChunker, text: string) returns (chunks: seq<string>)
    ensures chunks == SemanticChunks(c, text)
  {
    StripEmptyIffBlank(text);
    if text == [] || Strip(text) == [] {
      return [];
    }
    var paragraphs := RawParagraphs(text);
    chunks := [];
    var current: string := "";
    for i := 0 to |paragraphs|
      invariant Packing(chunks, current) == Pack(c, paragraphs[..i])
    {
      assert paragraphs[..i + 1][..i] == paragraphs[..i];
      var para := Strip(paragraphs[i]);
      if para != [] {
        if |current| + |para| + 2 <= c.maxChunkSize {
          if current != [] {
            current := current + "\n\n" + para;
          } else {
            current := para;
          }
        } else {
          if |current| >= c.minChunkSize {
            chunks := chunks + [current];
            current := para;
          } else if current != [] {
            current := current + "\n\n" + para;
          } else {
            current := para;
          }
          if |current| > c.maxChunkSize {
            chunks, current := CutSentences(c.maxChunkSize, chunks, current);
          }
        }
      }
    }
    assert paragraphs[..|paragraphs|] == paragraphs;
    if current != [] && |current| >= c.minChunkSize {
      chunks := chunks + [current];
    } else if current != [] && chunks != [] {
      chunks := chunks[..|chunks| - 1] + [chunks[|chunks| - 1] + "\n\n" + current];
    } else if current != [] {
      chunks := chunks + [current];
    }
  }

  // ===========================================================================
  // Properties of the packing

  /** The chunk list only grows: a step keeps every chunk already emitted, in place. */
  lemma StepAppends(c: SemanticChunker, st: Packing, para: string)
    ensures |Step(c, st, para).chunks| >= |st.chunks|
    ensures Step(c, st, para).chunks[..|st.chunks|] == st.chunks
  {
    var flushed := if |st.current| >= c.minChunkSize then st.chunks + [st.current] else st.chunks;
    assert flushed[..|st.chunks|] == st.chunks;
    if |st.current| + |para| + 2 > c.maxChunkSize {
      var next := Packing(flushed, if |st.current| >= c.minChunkSize then para else Glue(st.current, para));
      if |next.current| > c.maxChunkSize {
        var t := PackSentences(c.maxChunkSize, Sentences(next.current));
        assert (flushed + t.chunks)[..|st.chunks|] == st.chunks;
      }
    }
  }

  /** A paragraph that fits is joined to the buffer with a blank line and nothing is emitted;
      one that does not fit makes a buffer of at least `minChunkSize` a chunk of its own. */
  lemma JoinOnlyWhenFits(c: SemanticChunker, st: Packing, para: string)
    ensures |st.current| + |para| + 2 <= c.maxChunkSize ==>
      Step(c, st, para) == Packing(st.chunks, if st.current != [] then st.current + "\n\n" + para else para)
    ensures |st.current| + |para| + 2 > c.maxChunkSize && |st.current| >= c.minChunkSize ==>
      |Step(c, st, para).chunks| > |st.chunks| && Step(c, st, para).chunks[|st.chunks|] == st.current
  {
    if |st.current| + |para| + 2 > c.maxChunkSize && |st.current| >= c.minChunkSize {
      var flushed := st.chunks + [st.current];
      if |para| > c.maxChunkSize {
        var t := PackSentences(c.maxChunkSize, Sentences(para));
        assert (flushed + t.chunks)[|st.chunks|] == st.current;
      }
    }
  }

  /** Every chunk in `ss` is at least `n` characters long. */
  predicate AllAtLeast(n: int, ss: seq<string>) {
    forall k :: 0 <= k < |ss| ==> |ss[k]| >= n
  }

  /** When every paragraph is short enough that no buffer ever outgrows the maximum, the
      sentence cut never runs and the loop emits only whole buffers, each of them at least
      `minChunkSize` long. */
  lemma {:induction false} PackFlushesLong(c: SemanticChunker, raws: seq<string>)
    requires c.minChunkSize >= 0
    requires forall k :: 0 <= k < |raws| ==> |Strip(raws[k])| + c.minChunkSize + 2 <= c.maxChunkSize
    ensures AllAtLeast(c.minChunkSize, Pack(c, raws).chunks)
  {
    if raws != [] {
      var init, last := raws[..|raws| - 1], raws[|raws| - 1];
      forall k | 0 <= k < |init| ensures |Strip(init[k])| + c.minChunkSize + 2 <= c.maxChunkSize {
        assert init[k] == raws[k];
      }
      PackFlushesLong(c, init);
      var st := Pack(c, init);
      var para := Strip(last);
      assert |para| + c.minChunkSize + 2 <= c.maxChunkSize;
      if para != [] && |st.current| + |para| + 2 > c.maxChunkSize {
        // a buffer below the minimum would have fitted with the paragraph
        assert |st.current| >= c.minChunkSize;
        assert Step(c, st, para) == Packing(st.chunks + [st.current], para);
      }
    }
  }

  /** With such paragraphs every chunk returned is at least `minChunkSize` long, unless the
      text gives a single chunk: a short final buffer is merged into the previous chunk. */
  lemma ShortParagraphsGiveLongChunks(c: SemanticChunker, text: string)
    requires c.minChunkSize >= 0
    requires var raws := RawParagraphs(text);
      forall k :: 0 <= k < |raws| ==> |Strip(raws[k])| + c.minChunkSize + 2 <= c.maxChunkSize
    ensures var r := SemanticChunks(c, text); |r| <= 1 || AllAtLeast(c.minChunkSize, r)
  {
    if !IsBlank(text) {
      var st := Pack(c, RawParagraphs(text));
      PackFlushesLong(c, RawParagraphs(text));
      var r := Finish(c, st);
      if st.current != [] && |st.current| < c.minChunkSize && st.chunks != [] {
        var n := |st.chunks| - 1;
        assert r == st.chunks[..n] + [st.chunks[n] + "\n\n" + st.current];
        forall k | 0 <= k < |r| ensures |r[k]| >= c.minChunkSize {
          if k < n { assert r[k] == st.chunks[k]; }
        }
      }
    }
  }

  /** A buffer that is not empty stays so: every step leaves a non-empty buffer. */
  lemma StepKeepsBuffer(c: SemanticChunker, st: Packing, para: string)
    requires para != [] && !IsBlank(para)
    ensures Step(c, st, para).current != []
  {
    var next := if |st.current| >= c.minChunkSize then para else Glue(st.current, para);
    assert !IsBlank(next) by {
      if next != para {
        var p0 :| 0 <= p0 < |para| && !IsSpace(para[p0]);
        assert next[|st.current| + 2 + p0] == para[p0];
      }
    }
    if |st.current| + |para| + 2 > c.maxChunkSize && |next| > c.maxChunkSize {
      SentencesNonEmpty(next);
      PackSentencesKeepsBuffer(c.maxChunkSize, Sentences(next));
    }
  }

  lemma {:induction false} PackSentencesKeepsBuffer(maxSize: int, sents: seq<string>)
    requires sents != [] && forall k :: 0 <= k < |sents| ==> !IsBlank(sents[k])
    ensures PackSentences(maxSize, sents).current != []
  {
    var last := sents[|sents| - 1];
    assert !IsBlank(last);
    if |sents| > 1 {
      PackSentencesKeepsBuffer(maxSize, sents[..|sents| - 1]);
    }
  }

  lemma {:induction false} PackKeepsBuffer(c: SemanticChunker, raws: seq<string>)
    requires exists k :: 0 <= k < |raws| && Strip(raws[k]) != []
    ensures Pack(c, raws).current != []
  {
    var last := raws[|raws| - 1];
    if Strip(last) != [] {
      StripSpec(last);
      StepKeepsBuffer(c, Pack(c, raws[..|raws| - 1]), Strip(last));
    } else {
      var k :| 0 <= k < |raws| && Strip(raws[k]) != [];
      assert k < |raws| - 1;
      assert raws[..|raws| - 1][k] == raws[k];
      PackKeepsBuffer(c, raws[..|raws| - 1]);
    }
  }

  /** Blank text gives no chunks; any other text gives at least one. */
  lemma NonEmptyIffNotBlank(c: SemanticChunker, text: string)
    ensures SemanticChunks(c, text) == [] <==> IsBlank(text)
  {
    if !IsBlank(text) {
      NonBlankHasParagraph(text);
      PackKeepsBuffer(c, RawParagraphs(text));
    }
  }

  /** A final buffer is never dropped: it ends the last chunk, alone or after the previous
      chunk and a blank line when it is shorter than `minChunkSize`. */
  lemma FinalBufferKept(c: SemanticChunker, st: Packing)
    requires st.current != []
    ensures var r := Finish(c, st);
      r != [] && |r[|r| - 1]| >= |st.current|
      && r[|r| - 1][|r[|r| - 1]| - |st.current|..] == st.current
      && (|st.current| < c.minChunkSize && st.chunks != [] ==>
            r == st.chunks[..|st.chunks| - 1] + [st.chunks[|st.chunks| - 1] + "\n\n" + st.current])
      && (|st.current| >= c.minChunkSize || st.chunks == [] ==> r == st.chunks + [st.current])
  {
  }

  /** A chunk respects the maximum, unless it is a single sentence that is longer on its own. */
  ghost predicate Bounded(maxSize: int, s: string) {
    |s| <= maxSize || SentenceShaped(s)
  }

  ghost predicate AllBounded(maxSize: int, ss: seq<string>) {
    forall k :: 0 <= k < |ss| ==> Bounded(maxSize, ss[k])
  }

  ghost predicate PackingBounded(maxSize: int, st: Packing) {
    AllBounded(maxSize, st.chunks) && Bounded(maxSize, st.current)
  }

  /** Stripping keeps a sentence a sentence. */
  lemma StripShaped(s: string)
    requires SentenceShaped(s)
    ensures SentenceShaped(Strip(s))
  {
    var i: nat, j: nat :| ShapedAt(s, i, j);
    StripSpec(s);
    var r := Strip(s);
    var x := |s| - |TrimStart(s)|;
    assert r == s[x..x + |r|];
    if i < j {
      assert !IsSpace(s[i]);
      assert x <= i;
      assert !IsSpace(s[j - 1]);
      assert j <= x + |r|;
      assert ShapedAt(r, i - x, j - x);
    } else {
      assert ShapedAt(r, |r|, |r|);
    }
  }

  lemma StripBounded(maxSize: int, s: string)
    requires Bounded(maxSize, s)
    ensures Bounded(maxSize, Strip(s))
  {
    StripLength(s);
    if |s| > maxSize {
      StripShaped(s);
    }
  }

  lemma {:induction false} PackSentencesBounded(maxSize: int, sents: seq<string>)
    requires forall k :: 0 <= k < |sents| ==> SentenceShaped(sents[k])
    ensures PackingBounded(maxSize, PackSentences(maxSize, sents))
  {
    if sents == [] {
      assert ShapedAt("", 0, 0);
    } else {
      var prior := PackSentences(maxSize, sents[..|sents| - 1]);
      PackSentencesBounded(maxSize, sents[..|sents| - 1]);
      var sent := sents[|sents| - 1];
      assert SentenceShaped(sent);
      if |prior.current| + |sent| > maxSize && prior.current != [] {
        StripBounded(maxSize, prior.current);
      }
      var t := SentenceStep(maxSize, prior, sent);
      assert AllBounded(maxSize, t.chunks) by {
        forall k | 0 <= k < |t.chunks| ensures Bounded(maxSize, t.chunks[k]) {
          if k < |prior.chunks| { assert t.chunks[k] == prior.chunks[k]; }
        }
      }
    }
  }

  lemma ResplitBounded(c: SemanticChunker, st: Packing)
    requires AllBounded(c.maxChunkSize, st.chunks)
    ensures PackingBounded(c.maxChunkSize, Resplit(c, st))
  {
    if |st.current| > c.maxChunkSize {
      var ss := Sentences(st.current);
      SentencesSpec(st.current);
      PackSentencesBounded(c.maxChunkSize, ss);
      var t := PackSentences(c.maxChunkSize, ss);
      assert AllBounded(c.maxChunkSize, st.chunks + t.chunks) by {
        forall k | 0 <= k < |st.chunks + t.chunks|
          ensures Bounded(c.maxChunkSize, (st.chunks + t.chunks)[k])
        {
          if k >= |st.chunks| { assert (st.chunks + t.chunks)[k] == t.chunks[k - |st.chunks|]; }
        }
      }
    }
  }

  lemma StepBounded(c: SemanticChunker, st: Packing, para: string)
    requires PackingBounded(c.maxChunkSize, st)
    ensures PackingBounded(c.maxChunkSize, Step(c, st, para))
  {
    if |st.current| + |para| + 2 > c.maxChunkSize {
      if |st.current| >= c.minChunkSize {
        assert AllBounded(c.maxChunkSize, st.chunks + [st.current]) by {
          forall k | 0 <= k < |st.chunks| + 1
            ensures Bounded(c.maxChunkSize, (st.chunks + [st.current])[k])
          {
            if k < |st.chunks| { assert (st.chunks + [st.current])[k] == st.chunks[k]; }
          }
        }
        ResplitBounded(c, Packing(st.chunks + [st.current], para));
      } else {
        ResplitBounded(c, Packing(st.chunks, Glue(st.current, para)));
      }
    }
  }

  lemma {:induction false} PackBounded(c: SemanticChunker, raws: seq<string>)
    ensures PackingBounded(c.maxChunkSize, Pack(c, raws))
  {
    if raws == [] {
      assert ShapedAt("", 0, 0);
    } else {
      PackBounded(c, raws[..|raws| - 1]);
      var last := raws[|raws| - 1];
      var prior := Pack(c, raws[..|raws| - 1]);
      assert Pack(c, raws) == RawStep(c, prior, last);
      if Strip(last) != [] {
        StepBounded(c, prior, Strip(last));
      }
    }
  }

  /** Every chunk respects `maxChunkSize` unless it is a single over-long sentence, except that
      the final merge of a short tail may lengthen the last chunk. */
  lemma ChunksBounded(c: SemanticChunker, text: string)
    ensures var r := SemanticChunks(c, text);
      forall k :: 0 <= k < |r| - 1 ==> Bounded(c.maxChunkSize, r[k])
    ensures var r := SemanticChunks(c, text); var st := Pack(c, RawParagraphs(text));
      r != [] && !Bounded(c.maxChunkSize, r[|r| - 1]) ==>
        st.chunks != [] && 0 < |st.current| < c.minChunkSize
        && r[|r| - 1] == st.chunks[|st.chunks| - 1] + "\n\n" + st.current
  {
    if !IsBlank(text) {
      var st := Pack(c, RawParagraphs(text));
      PackBounded(c, RawParagraphs(text));
      var r := Finish(c, st);
      forall k | 0 <= k < |r| - 1 ensures Bounded(c.maxChunkSize, r[k]) {
        assert r[k] == st.chunks[k];
      }
    }
  }
}
