/** Descending sorts (`$sort: {f: -1}`, `ORDER BY f DESC`) and the facts the "top N" tools need. */
module Ranking {
  import opened Seqs

  /** A sort key: `Bottom` is what a missing field or SQL NULL sorts as, below every number. */
  datatype Rank = Bottom | At(v: real)

  predicate RankLe(a: Rank, b: Rank)
  {
    a.Bottom? || (b.At? && a.v <= b.v)
  }

  /** Every element ranks at least as high as every later one. */
  predicate NonIncreasing<T>(s: seq<T>, key: T -> Rank)
  {
    forall i, j :: 0 <= i < j < |s| ==> RankLe(key(s[j]), key(s[i]))
  }

  /** Puts `x` before the first element that does not rank above it. */
  function Insert<T>(x: T, s: seq<T>, key: T -> Rank): seq<T>
  {
    if s == [] || RankLe(key(s[0]), key(x)) then [x] + s else [s[0]] + Insert(x, s[1..], key)
  }

  /** A descending sort; among equal keys it keeps the input order (the stores promise no
      particular order among ties, so any tie order is one they may produce). */
  function SortDesc<T>(s: seq<T>, key: T -> Rank): seq<T>
  {
    if s == [] then [] else Insert(s[0], SortDesc(s[1..], key), key)
  }

  /** Sum of a weight over a sequence. */
  function SumBy<T>(s: seq<T>, w: T -> int): int
  {
    if s == [] then 0 else w(s[0]) + SumBy(s[1..], w)
  }

  lemma {:induction false} InsertFacts<T>(x: T, s: seq<T>, key: T -> Rank, w: T -> int)
    requires NonIncreasing(s, key)
    ensures NonIncreasing(Insert(x, s, key), key)
    ensures multiset(Insert(x, s, key)) == multiset(s) + multiset{x}
    ensures SumBy(Insert(x, s, key), w) == w(x) + SumBy(s, w)
    ensures |Insert(x, s, key)| == |s| + 1
  {
    if s == [] || RankLe(key(s[0]), key(x)) {
      var r := [x] + s;
      assert r[1..] == s;
      forall i, j | 0 <= i < j < |r| ensures RankLe(key(r[j]), key(r[i])) {
        if i > 0 {
          assert r[i] == s[i - 1] && r[j] == s[j - 1];
        } else {
          assert RankLe(key(s[j - 1]), key(s[0]));
        }
      }
    } else {
      assert s == [s[0]] + s[1..];
      InsertFacts(x, s[1..], key, w);
      var t := Insert(x, s[1..], key);
      var r := [s[0]] + t;
      assert r[1..] == t;
      assert RankLe(key(x), key(s[0]));
      forall k | 0 <= k < |t| ensures RankLe(key(t[k]), key(s[0])) {
        assert t[k] in multiset(s[1..]) + multiset{x};
        if t[k] != x {
          assert t[k] in s[1..];
          var m :| 0 <= m < |s[1..]| && s[1..][m] == t[k];
          assert s[m + 1] == t[k];
        }
      }
      forall i, j | 0 <= i < j < |r| ensures RankLe(key(r[j]), key(r[i])) {
        if i > 0 {
          assert r[i] == t[i - 1] && r[j] == t[j - 1];
        } else {
          assert r[j] == t[j - 1];
        }
      }
    }
  }

  /** The sort yields a non-increasing permutation of its input with the same weight sum. */
  lemma {:induction false} SortDescFacts<T>(s: seq<T>, key: T -> Rank, w: T -> int)
    ensures NonIncreasing(SortDesc(s, key), key)
    ensures multiset(SortDesc(s, key)) == multiset(s)
    ensures SumBy(SortDesc(s, key), w) == SumBy(s, w)
    ensures |SortDesc(s, key)| == |s|
  {
    if s != [] {
      SortDescFacts(s[1..], key, w);
      InsertFacts(s[0], SortDesc(s[1..], key), key, w);
      assert s == [s[0]] + s[1..];
    }
  }

  /** The first `n` elements of a descending sort are the top `n`: every element left out ranks
      no higher than any element kept. */
  lemma TopKept<T>(s: seq<T>, key: T -> Rank, n: nat)
    ensures multiset(Take(SortDesc(s, key), n)) <= multiset(s)
    ensures forall x, y :: x in multiset(s) - multiset(Take(SortDesc(s, key), n)) && y in Take(SortDesc(s, key), n)
              ==> RankLe(key(x), key(y))
  {
    var sorted := SortDesc(s, key);
    SortDescFacts(s, key, _ => 0);
    var kept := Take(sorted, n);
    var rest := sorted[|kept|..];
    assert sorted == kept + rest;
    assert multiset(s) == multiset(kept) + multiset(rest);
    forall x, y | x in multiset(s) - multiset(kept) && y in kept ensures RankLe(key(x), key(y)) {
      assert x in multiset(rest);
      var j :| 0 <= j < |rest| && rest[j] == x;
      var i :| 0 <= i < |kept| && kept[i] == y;
      assert sorted[|kept| + j] == x && sorted[i] == y;
    }
  }
}
