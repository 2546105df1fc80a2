/** Shared vocabulary of the retrieval pipeline model: failure-carrying results and the
    handful of Python string and list primitives the pipeline relies on (`str.strip`,
    `str.lower`, `str.join`, substring `in`, slicing with negative bounds). */
module Common {

  datatype Option<+T> = None | Some(value: T) {
    function GetOr(default: T): T {
      match this
      case Some(v) => v
      case None => default
    }
  }

  /** The exception classes raised by the pipeline, each with the detail it carries. */
  datatype Error =
    | ValueError(reason: string)
    | RuntimeError(reason: string)
    | FileNotFoundError(message: string)
    | AttributeError(attribute: string)
    | TypeError(keyword: string)
    | AssertionError(check: string)
    | IndexError(what: string)

  datatype Result<+T> = Ok(value: T) | Err(error: Error) {
    predicate IsFailure() { Err? }
    function PropagateFailure<U>(): Result<U> requires Err? { Err(error) }
    function Extract(): T requires Ok? { value }
  }

  // ---------------------------------------------------------------------------
  // Whitespace, as Python's str.isspace() and the regular-expression class \s see it

  /** The characters Python treats as whitespace in `str.strip()`, `str.isspace()` and `\s`. */
  predicate IsSpace(c: char) {
    var n := c as int;
    (9 <= n <= 13) || (28 <= n <= 32) || n == 0x85 || n == 0xA0 || n == 0x1680
    || (0x2000 <= n <= 0x200A) || n == 0x2028 || n == 0x2029 || n == 0x202F
    || n == 0x205F || n == 0x3000
  }

  /** `not s.strip()`: the string is empty or whitespace only. */
  predicate IsBlank(s: string) {
    forall i :: 0 <= i < |s| ==> IsSpace(s[i])
  }

  predicate AllSpace(s: string) { IsBlank(s) }

  function TrimStart(s: string): string {
    if s == [] || !IsSpace(s[0]) then s else TrimStart(s[1..])
  }

  function TrimEnd(s: string): string {
    if s == [] || !IsSpace(s[|s| - 1]) then s else TrimEnd(s[..|s| - 1])
  }

  /** `TrimStart` removes exactly the leading whitespace. */
  lemma {:induction false} TrimStartSpec(s: string)
    ensures var r := TrimStart(s);
      |r| <= |s| && r == s[|s| - |r|..]
      && (forall i :: 0 <= i < |s| - |r| ==> IsSpace(s[i]))
      && (r == [] || !IsSpace(r[0]))
  {
    if s != [] && IsSpace(s[0]) {
      var t := s[1..];
      TrimStartSpec(t);
      var r := TrimStart(t);
      assert TrimStart(s) == r;
      assert r == s[|s| - |r|..] by { assert t[|t| - |r|..] == s[|s| - |r|..]; }
      forall i | 0 <= i < |s| - |r| ensures IsSpace(s[i]) {
        if i > 0 { assert s[i] == t[i - 1]; }
      }
    }
  }

  /** `TrimEnd` removes exactly the trailing whitespace. */
  lemma {:induction false} TrimEndSpec(s: string)
    ensures var r := TrimEnd(s);
      |r| <= |s| && r == s[..|r|]
      && (forall i :: |r| <= i < |s| ==> IsSpace(s[i]))
      && (r == [] || !IsSpace(r[|r| - 1]))
  {
    if s != [] && IsSpace(s[|s| - 1]) {
      var t := s[..|s| - 1];
      TrimEndSpec(t);
      var r := TrimEnd(t);
      assert TrimEnd(s) == r;
      assert r == s[..|r|] by { assert t[..|r|] == s[..|r|]; }
      forall i | |r| <= i < |s| ensures IsSpace(s[i]) {
        if i < |s| - 1 { assert s[i] == t[i]; }
      }
    }
  }

  /** Python's `str.strip()` with no argument. */
  function Strip(s: string): (r: string)
  {
    TrimEnd(TrimStart(s))
  }

  /** A stripped string is a contiguous slice of its input, with only whitespace cut away
      on either side, that neither starts nor ends with whitespace; it is empty exactly
      when the input is blank. */
  lemma StripSpec(s: string)
    ensures |TrimStart(s)| <= |s| && |Strip(s)| <= |TrimStart(s)|
    ensures var r, i := Strip(s), |s| - |TrimStart(s)|;
      i + |r| <= |s| && r == s[i..i + |r|]
      && (forall k :: 0 <= k < i ==> IsSpace(s[k]))
      && (forall k :: i + |r| <= k < |s| ==> IsSpace(s[k]))
    ensures Strip(s) == [] || (!IsSpace(Strip(s)[0]) && !IsSpace(Strip(s)[|Strip(s)| - 1]))
    ensures Strip(s) == [] <==> IsBlank(s)
  {
    var t := TrimStart(s);
    var r := TrimEnd(t);
    TrimStartSpec(s);
    TrimEndSpec(t);
    var i := |s| - |t|;
    assert Strip(s) == r;
    assert r == s[i..i + |r|] by { assert t[..|r|] == s[i..i + |r|]; }
    forall k | i + |r| <= k < |s| ensures IsSpace(s[k]) {
      assert s[k] == t[k - i];
    }
    if r != [] {
      assert r[0] == t[0] == s[i];
      assert !IsBlank(s);
    } else {
      assert IsBlank(s);
    }
  }

  lemma StripEmptyIffBlank(s: string)
    ensures Strip(s) == [] <==> IsBlank(s)
  {
    StripSpec(s);
  }

  lemma StripLength(s: string)
    ensures |Strip(s)| <= |s|
  {
    StripSpec(s);
  }

  /** Stripping a stripped string changes nothing. */
  lemma StripIdempotent(s: string)
    ensures Strip(Strip(s)) == Strip(s)
  {
    StripSpec(s);
    var r := Strip(s);
    if r != [] {
      assert !IsSpace(r[0]);
      assert TrimStart(r) == r;
      assert TrimEnd(r) == r by { assert !IsSpace(r[|r| - 1]); }
    }
  }

  // ---------------------------------------------------------------------------
  // Case folding, joining, substring search

  function LowerChar(c: char): char {
    if 'A' <= c <= 'Z' then (c as int + 32) as char else c
  }

  /** `str.lower()` restricted to the ASCII letters. */
  function Lower(s: string): (r: string)
    ensures |r| == |s|
    ensures forall i :: 0 <= i < |s| ==> r[i] == LowerChar(s[i])
  {
    if s == [] then [] else [LowerChar(s[0])] + Lower(s[1..])
  }

  /** `sep.join(parts)`. */
  function Join(sep: string, parts: seq<string>): string {
    if parts == [] then ""
    else if |parts| == 1 then parts[0]
    else parts[0] + sep + Join(sep, parts[1..])
  }

  predicate PrefixAt(hay: string, needle: string, i: nat) {
    i + |needle| <= |hay| && hay[i..i + |needle|] == needle
  }

  /** `needle in hay` for strings. */
  function Contains(hay: string, needle: string): (b: bool)
    ensures b <==> exists i: nat :: PrefixAt(hay, needle, i)
  {
    ContainsFrom(hay, needle, 0)
  }

  function ContainsFrom(hay: string, needle: string, from: nat): (b: bool)
    ensures b <==> exists i: nat :: from <= i && PrefixAt(hay, needle, i)
    decreases |hay| - from
  {
    if from + |needle| > |hay| then
      assert forall i: nat :: from <= i ==> !PrefixAt(hay, needle, i);
      false
    else if hay[from..from + |needle|] == needle then
      assert PrefixAt(hay, needle, from);
      true
    else
      var b := ContainsFrom(hay, needle, from + 1);
      assert !PrefixAt(hay, needle, from);
      b
  }

  /** The last index of `c` in `s`, or -1: `str.rfind`. */
  function RFind(s: string, c: char): (r: int)
    ensures -1 <= r < |s|
    ensures r >= 0 ==> s[r] == c
    ensures forall k :: r < k < |s| ==> s[k] != c
  {
    if s == [] then -1
    else if s[|s| - 1] == c then |s| - 1
    else RFind(s[..|s| - 1], c)
  }

  // ---------------------------------------------------------------------------
  // Python slice bounds

  /** The index a Python slice bound `k` denotes in a sequence of length `n`. */
  function SliceBound(n: nat, k: int): (r: nat)
    ensures r <= n
    ensures 0 <= k <= n ==> r == k
  {
    if k < 0 then (if n + k < 0 then 0 else n + k) else if k > n then n else k
  }

  /** `s[:k]`. */
  function Take<T>(s: seq<T>, k: int): (r: seq<T>)
    ensures |r| <= |s| && r == s[..|r|]
    ensures k >= 0 ==> |r| == if k < |s| then k else |s|
  {
    s[..SliceBound(|s|, k)]
  }

  /** `s[k:]`. */
  function Drop<T>(s: seq<T>, k: int): (r: seq<T>)
    ensures |r| <= |s| && r == s[|s| - |r|..]
  {
    s[SliceBound(|s|, k)..]
  }

  function Reverse<T>(s: seq<T>): (r: seq<T>)
    ensures |r| == |s|
    ensures forall i :: 0 <= i < |s| ==> r[i] == s[|s| - 1 - i]
  {
    if s == [] then [] else Reverse(s[1..]) + [s[0]]
  }

  function Min(a: int, b: int): int { if a < b then a else b }

  /** Regrouping a concatenation; stated once so that loops extending a list need not
      re-derive it among their other facts. */
  lemma AppendAssoc<T>(a: seq<T>, b: seq<T>, c: seq<T>)
    ensures a + (b + c) == (a + b) + c
  {
  }

  /** The concatenation of a list of lists. */
  function Flatten<T>(ss: seq<seq<T>>): seq<T> {
    if ss == [] then [] else ss[0] + Flatten(ss[1..])
  }

  lemma FlattenSnoc<T>(ss: seq<seq<T>>, s: seq<T>)
    ensures Flatten(ss + [s]) == Flatten(ss) + s
  {
    if ss == [] {
      assert [s][1..] == [];
    } else {
      assert (ss + [s])[1..] == ss[1..] + [s];
      FlattenSnoc(ss[1..], s);
    }
  }

  predicate Distinct<T(==)>(s: seq<T>) {
    forall i, j :: 0 <= i < j < |s| ==> s[i] != s[j]
  }

  /** A list without repetitions has as many distinct elements as it has entries. */
  lemma {:induction false} DistinctCardinality<T>(s: seq<T>)
    requires Distinct(s)
    ensures |set x | x in s| == |s|
  {
    if s != [] {
      var init, last := s[..|s| - 1], s[|s| - 1];
      DistinctCardinality(init);
      assert (set x | x in s) == (set x | x in init) + {last} by {
        assert s == init + [last];
      }
      assert last !in (set x | x in init);
    }
  }

  /** `[x for x in s if p(x)]`. */
  function Filter<T>(s: seq<T>, p: T -> bool): (r: seq<T>)
    ensures |r| <= |s|
    ensures forall i :: 0 <= i < |r| ==> r[i] in s && p(r[i])
    ensures forall i :: 0 <= i < |s| && p(s[i]) ==> s[i] in r
  {
    if s == [] then []
    else
      var init, last := s[..|s| - 1], s[|s| - 1];
      assert s == init + [last];
      Filter(init, p) + (if p(last) then [last] else [])
  }

  /** Nothing passes a filter that rejects every element. */
  lemma {:induction false} FilterNone<T>(s: seq<T>, p: T -> bool)
    requires forall i :: 0 <= i < |s| ==> !p(s[i])
    ensures Filter(s, p) == []
  {
    if s != [] {
      FilterNone(s[..|s| - 1], p);
    }
  }

  /** Filtering keeps the relative order: it distributes over concatenation. */
  lemma {:induction false} FilterConcat<T>(a: seq<T>, b: seq<T>, p: T -> bool)
    ensures Filter(a + b, p) == Filter(a, p) + Filter(b, p)
  {
    if b != [] {
      var init, last := b[..|b| - 1], b[|b| - 1];
      FilterConcat(a, init, p);
      assert (a + b)[..|a + b| - 1] == a + init;
      assert (a + b)[|a + b| - 1] == last;
    } else {
      assert a + b == a;
    }
  }

  /** Filtering a list equals filtering both sides of a cut and joining the pieces. */
  lemma FilterSplitAt<T>(s: seq<T>, p: T -> bool, i: nat)
    requires i <= |s|
    ensures Filter(s, p) == Filter(s[..i], p) + Filter(s[i..], p)
  {
    var a, b := s[..i], s[i..];
    calc {
      Filter(s, p);
      { assert s == a + b; }
      Filter(a + b, p);
      { FilterConcat(a, b, p); }
      Filter(a, p) + Filter(b, p);
    }
  }

  /** The same at every cut. */
  lemma FilterSplits<T>(s: seq<T>, p: T -> bool)
    ensures forall i :: 0 <= i <= |s| ==> Filter(s, p) == Filter(s[..i], p) + Filter(s[i..], p)
  {
    forall i | 0 <= i <= |s| {
      FilterSplitAt(s, p, i);
    }
  }
}
