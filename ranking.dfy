/** Ranking of positions by a real-valued key. Both exact nearest-neighbour search in the
    vector index (ascending distance) and `numpy.argsort` in the legacy retriever
    (ascending similarity) order positions this way. Equal keys keep index order; the
    libraries themselves leave that order unspecified, so no lemma depends on it. */
module Ranking {
  import opened Common

  predicate InRange(s: seq<nat>, n: nat) {
    forall i :: 0 <= i < |s| ==> s[i] < n
  }

  /** Positions ordered by non-decreasing key. */
  predicate SortedBy(keys: seq<real>, s: seq<nat>)
    requires InRange(s, |keys|)
  {
    forall a, b :: 0 <= a < b < |s| ==> keys[s[a]] <= keys[s[b]]
  }

  /** `s` lists every position `0..n-1` exactly once. */
  predicate IsPermutationOfRange(s: seq<nat>, n: nat) {
    |s| == n && Distinct(s) && InRange(s, n) && forall i :: 0 <= i < n ==> i in s
  }

  function Insert(keys: seq<real>, x: nat, s: seq<nat>): (r: seq<nat>)
    requires x < |keys| && InRange(s, |keys|)
    ensures |r| == |s| + 1 && InRange(r, |keys|)
    ensures forall y :: y in r <==> y == x || y in s
  {
    if s == [] then [x]
    else if keys[x] < keys[s[0]] then [x] + s
    else [s[0]] + Insert(keys, x, s[1..])
  }

  lemma {:induction false} InsertSorted(keys: seq<real>, x: nat, s: seq<nat>)
    requires x < |keys| && InRange(s, |keys|) && SortedBy(keys, s)
    ensures SortedBy(keys, Insert(keys, x, s))
  {
    if s != [] && keys[x] >= keys[s[0]] {
      InsertSorted(keys, x, s[1..]);
      var r := Insert(keys, x, s);
      var t := Insert(keys, x, s[1..]);
      assert r == [s[0]] + t;
      forall b | 1 <= b < |r| ensures keys[r[0]] <= keys[r[b]] {
        assert r[b] in t;
        assert r[b] == x || r[b] in s[1..];
      }
    }
  }

  lemma {:induction false} InsertDistinct(keys: seq<real>, x: nat, s: seq<nat>)
    requires x < |keys| && InRange(s, |keys|) && Distinct(s) && x !in s
    ensures Distinct(Insert(keys, x, s))
  {
    if s != [] && keys[x] >= keys[s[0]] {
      InsertDistinct(keys, x, s[1..]);
      var t := Insert(keys, x, s[1..]);
      assert s[0] !in t by {
        assert s[0] != x;
        assert s[0] !in s[1..];
      }
    }
  }

  function ArgsortPrefix(keys: seq<real>, n: nat): (r: seq<nat>)
    requires n <= |keys|
    ensures |r| == n && InRange(r, |keys|)
  {
    if n == 0 then [] else Insert(keys, n - 1, ArgsortPrefix(keys, n - 1))
  }

  /** Positions of `keys` in ascending key order. */
  function Argsort(keys: seq<real>): (r: seq<nat>)
    ensures |r| == |keys| && InRange(r, |keys|)
  {
    ArgsortPrefix(keys, |keys|)
  }

  lemma {:induction false} ArgsortPrefixSpec(keys: seq<real>, n: nat)
    requires n <= |keys|
    ensures var r := ArgsortPrefix(keys, n);
      IsPermutationOfRange(r, n) && SortedBy(keys, r)
  {
    if n > 0 {
      var s := ArgsortPrefix(keys, n - 1);
      ArgsortPrefixSpec(keys, n - 1);
      assert n - 1 !in s;
      InsertSorted(keys, n - 1, s);
      InsertDistinct(keys, n - 1, s);
      var r := Insert(keys, n - 1, s);
      forall i | 0 <= i < |r| ensures r[i] < n {
        assert r[i] in r;
      }
    }
  }

  /** The ranking lists every position once, in non-decreasing key order. */
  lemma ArgsortSpec(keys: seq<real>)
    ensures IsPermutationOfRange(Argsort(keys), |keys|)
    ensures SortedBy(keys, Argsort(keys))
  {
    ArgsortPrefixSpec(keys, |keys|);
  }
}
