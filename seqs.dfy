/** Order-preserving filter, map and truncation over sequences, with the laws the queries rely on. */
module Seqs {
  import opened Json

  /** The elements of `s` that satisfy `p`, in their order in `s` (a `find` filter, a `WHERE` clause). */
  function Select<T>(s: seq<T>, p: T -> bool): (r: seq<T>)
    ensures |r| <= |s|
  {
    if s == [] then [] else (if p(s[0]) then [s[0]] else []) + Select(s[1..], p)
  }

  /** `f` applied to every element, in order. */
  function Map<T, U>(f: T -> U, s: seq<T>): (r: seq<U>)
    ensures |r| == |s|
    ensures forall i :: 0 <= i < |s| ==> r[i] == f(s[i])
  {
    if s == [] then [] else [f(s[0])] + Map(f, s[1..])
  }

  /** The first `n` elements (all of them when there are fewer): `LIMIT n` for `n >= 0`. */
  function Take<T>(s: seq<T>, n: nat): (r: seq<T>)
    ensures |r| <= n && |r| <= |s|
    ensures n >= |s| ==> r == s
    ensures forall i :: 0 <= i < |r| ==> r[i] == s[i]
  {
    if n >= |s| then s else s[..n]
  }

  /** The index of the first element satisfying `p` (a `find_one` over stored order). */
  function FirstIndex<T>(s: seq<T>, p: T -> bool): (r: Option<nat>)
    ensures r.Some? ==> r.value < |s| && p(s[r.value]) && forall j :: 0 <= j < r.value ==> !p(s[j])
    ensures r.None? ==> forall j :: 0 <= j < |s| ==> !p(s[j])
  {
    if s == [] then None
    else if p(s[0]) then Some(0)
    else match FirstIndex(s[1..], p)
      case None => None
      case Some(i) => Some(i + 1)
  }

  /** Filtering a concatenation filters each part: together with SelectSingleton this pins the
      result down completely, so it is exactly the satisfying elements in stored order. */
  lemma {:induction false} SelectAppend<T>(a: seq<T>, b: seq<T>, p: T -> bool)
    ensures Select(a + b, p) == Select(a, p) + Select(b, p)
  {
    if a == [] {
      assert a + b == b;
    } else {
      var head := if p(a[0]) then [a[0]] else [];
      assert (a + b)[0] == a[0];
      assert (a + b)[1..] == a[1..] + b;
      calc {
        Select(a + b, p);
        head + Select(a[1..] + b, p);
        { SelectAppend(a[1..], b, p); }
        head + (Select(a[1..], p) + Select(b, p));
        (head + Select(a[1..], p)) + Select(b, p);
      }
    }
  }

  lemma SelectSingleton<T>(x: T, p: T -> bool)
    ensures Select([x], p) == if p(x) then [x] else []
  {
    assert [x][1..] == [];
  }

  /** An element is selected exactly when it occurs in the input and satisfies the predicate. */
  lemma {:induction false} SelectMembership<T>(s: seq<T>, p: T -> bool, x: T)
    ensures x in Select(s, p) <==> x in s && p(x)
  {
    if s != [] {
      SelectMembership(s[1..], p, x);
      assert x in s <==> x == s[0] || x in s[1..];
    }
  }

  /** Predicates that agree on every element select the same elements. */
  lemma {:induction false} SelectAgree<T>(s: seq<T>, p: T -> bool, q: T -> bool)
    requires forall i :: 0 <= i < |s| ==> p(s[i]) == q(s[i])
    ensures Select(s, p) == Select(s, q)
  {
    if s != [] {
      assert p(s[0]) == q(s[0]);
      SelectAgree(s[1..], p, q);
    }
  }

  /** Selection keeps the multiplicity of every selected element. */
  lemma {:induction false} SelectMultiset<T>(s: seq<T>, p: T -> bool, x: T)
    requires p(x)
    ensures multiset(Select(s, p))[x] == multiset(s)[x]
  {
    if s != [] {
      SelectMultiset(s[1..], p, x);
      assert s == [s[0]] + s[1..];
    }
  }

  /** Selection takes nothing that is not in the input, and nothing more often. */
  lemma {:induction false} SelectSubMultiset<T>(s: seq<T>, p: T -> bool)
    ensures multiset(Select(s, p)) <= multiset(s)
  {
    if s != [] {
      SelectSubMultiset(s[1..], p);
      assert s == [s[0]] + s[1..];
    }
  }

  lemma {:induction false} MapAppend<T, U>(f: T -> U, a: seq<T>, b: seq<T>)
    ensures Map(f, a + b) == Map(f, a) + Map(f, b)
  {
    if a == [] {
      assert a + b == b;
    } else {
      assert (a + b)[1..] == a[1..] + b;
      MapAppend(f, a[1..], b);
    }
  }
}
