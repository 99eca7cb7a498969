/** Group-and-sum (`$group` with `$sum`, SQL `GROUP BY ... SUM(...)`), computed the way an
    aggregation does it: one pass over the input, adding each item to its key's running total. */
module Grouping {
  import opened Ranking

  /** One output group: the grouping key and its accumulated total. */
  datatype Tally<K> = Tally(key: K, total: int)

  /** Adds weight `w` to the group of key `k`, opening a new group at the end if there is none. */
  function Add<K(==)>(gs: seq<Tally<K>>, k: K, w: int): seq<Tally<K>>
  {
    if gs == [] then [Tally(k, w)]
    else if gs[0].key == k then [Tally(k, gs[0].total + w)] + gs[1..]
    else [gs[0]] + Add(gs[1..], k, w)
  }

  /** The groups of `(key, weight)` items, in order of first appearance of their keys. */
  function GroupSum<K(==)>(items: seq<(K, int)>): seq<Tally<K>>
  {
    if items == [] then []
    else Add(GroupSum(items[..|items| - 1]), items[|items| - 1].0, items[|items| - 1].1)
  }

  /** Reference definitions the groups are checked against. */
  function KeyTotal<K(==)>(items: seq<(K, int)>, k: K): int
  {
    if items == [] then 0 else (if items[0].0 == k then items[0].1 else 0) + KeyTotal(items[1..], k)
  }

  predicate HasKey<K(==)>(items: seq<(K, int)>, k: K)
  {
    exists i :: 0 <= i < |items| && items[i].0 == k
  }

  function Weight<K>(items: seq<(K, int)>): int
  {
    if items == [] then 0 else items[0].1 + Weight(items[1..])
  }

  function TotalOf<K>(t: Tally<K>): int { t.total }

  function KeyIndicator<K(==)>(k: K): Tally<K> -> int
  {
    (t: Tally<K>) => if t.key == k then 1 else 0
  }

  /** How many groups carry key `k`. */
  function Occurrences<K(==)>(gs: seq<Tally<K>>, k: K): int
  {
    SumBy(gs, KeyIndicator(k))
  }

  /** What a correct grouping of `items` looks like. */
  ghost predicate GroupsOf<K(!new)>(gs: seq<Tally<K>>, items: seq<(K, int)>)
  {
    && (forall k :: Occurrences(gs, k) == if HasKey(items, k) then 1 else 0)
    && (forall i :: 0 <= i < |gs| ==> gs[i].total == KeyTotal(items, gs[i].key))
    && SumBy(gs, TotalOf) == Weight(items)
  }

  lemma {:induction false} KeyTotalSnoc<K>(items: seq<(K, int)>, x: (K, int), k: K)
    ensures KeyTotal(items + [x], k) == KeyTotal(items, k) + (if x.0 == k then x.1 else 0)
  {
    if items == [] {
      assert items + [x] == [x];
    } else {
      assert (items + [x])[1..] == items[1..] + [x];
      KeyTotalSnoc(items[1..], x, k);
    }
  }

  lemma {:induction false} WeightSnoc<K>(items: seq<(K, int)>, x: (K, int))
    ensures Weight(items + [x]) == Weight(items) + x.1
  {
    if items == [] {
      assert items + [x] == [x];
    } else {
      assert (items + [x])[1..] == items[1..] + [x];
      WeightSnoc(items[1..], x);
    }
  }

  /** Adding to a group changes only that group's total, and opens the group iff it was absent. */
  lemma {:induction false} AddFacts<K>(gs: seq<Tally<K>>, k: K, w: int)
    requires Occurrences(gs, k) <= 1
    ensures forall j :: Occurrences(Add(gs, k, w), j) ==
              Occurrences(gs, j) + (if j == k && Occurrences(gs, k) == 0 then 1 else 0)
    ensures SumBy(Add(gs, k, w), TotalOf) == SumBy(gs, TotalOf) + w
    ensures forall t :: t in Add(gs, k, w) && t.key != k ==> t in gs
    ensures forall t :: t in Add(gs, k, w) && t.key == k ==> t.total == w + TotalFor(gs, k)
  {
    if gs == [] {
    } else if gs[0].key == k {
      assert [Tally(k, gs[0].total + w)] + gs[1..] == Add(gs, k, w);
      OccurrencesNonNegative(gs[1..], k);
      OccurrencesZero(gs[1..], k);
    } else {
      OccurrencesNonNegative(gs[1..], k);
      AddFacts(gs[1..], k, w);
      assert Add(gs, k, w) == [gs[0]] + Add(gs[1..], k, w);
      forall j ensures Occurrences(gs, j) == KeyIndicator(j)(gs[0]) + Occurrences(gs[1..], j) {
      }
    }
  }

  /** A group that is present is counted. */
  lemma {:induction false} MemberOccurs<K>(gs: seq<Tally<K>>, t: Tally<K>)
    requires t in gs
    ensures Occurrences(gs, t.key) >= 1
  {
    if gs[0] == t {
      OccurrencesNonNegative(gs[1..], t.key);
    } else {
      assert t in gs[1..];
      MemberOccurs(gs[1..], t);
    }
  }

  /** The total of the first group with key `k` (0 when there is none). */
  function TotalFor<K(==)>(gs: seq<Tally<K>>, k: K): int
  {
    if gs == [] then 0 else if gs[0].key == k then gs[0].total else TotalFor(gs[1..], k)
  }

  lemma {:induction false} OccurrencesNonNegative<K>(gs: seq<Tally<K>>, k: K)
    ensures Occurrences(gs, k) >= 0
  {
    if gs != [] {
      OccurrencesNonNegative(gs[1..], k);
    }
  }

  lemma {:induction false} OccurrencesZero<K>(gs: seq<Tally<K>>, k: K)
    requires Occurrences(gs, k) == 0
    ensures forall t :: t in gs ==> t.key != k
    ensures TotalFor(gs, k) == 0
  {
    if gs != [] {
      OccurrencesNonNegative(gs[1..], k);
      OccurrencesZero(gs[1..], k);
    }
  }

  /** The one-pass grouping is correct: one group per distinct key, each group's total is the sum
      of its items' weights, and the group totals add up to the total weight. */
  lemma {:induction false} GroupSumCorrect<K(!new)>(items: seq<(K, int)>)
    ensures GroupsOf(GroupSum(items), items)
  {
    if items != [] {
      var init, x := items[..|items| - 1], items[|items| - 1];
      assert items == init + [x];
      GroupSumCorrect(init);
      var gs := GroupSum(init);
      AddFacts(gs, x.0, x.1);
      WeightSnoc(init, x);
      forall k ensures Occurrences(GroupSum(items), k) == if HasKey(items, k) then 1 else 0 {
        assert HasKey(items, k) <==> HasKey(init, k) || x.0 == k by {
          if HasKey(items, k) && x.0 != k {
            var i :| 0 <= i < |items| && items[i].0 == k;
            assert i < |init| && init[i] == items[i];
          }
          if HasKey(init, k) {
            var i :| 0 <= i < |init| && init[i].0 == k;
            assert items[i] == init[i];
          }
        }
      }
      forall i | 0 <= i < |GroupSum(items)| ensures GroupSum(items)[i].total == KeyTotal(items, GroupSum(items)[i].key) {
        var t := GroupSum(items)[i];
        assert t in Add(gs, x.0, x.1);
        KeyTotalSnoc(init, x, t.key);
        if t.key == x.0 {
          if HasKey(init, x.0) {
            TotalForWitness(gs, x.0);
            var u :| u in gs && u.key == x.0 && TotalFor(gs, x.0) == u.total;
            var m :| 0 <= m < |gs| && gs[m] == u;
          } else {
            OccurrencesZero(gs, x.0);
            KeyTotalAbsent(init, x.0);
          }
        } else {
          var m :| 0 <= m < |gs| && gs[m] == t;
        }
      }
    }
  }

  lemma {:induction false} TotalForWitness<K>(gs: seq<Tally<K>>, k: K)
    requires Occurrences(gs, k) >= 1
    ensures exists u :: u in gs && u.key == k && TotalFor(gs, k) == u.total
  {
    if gs[0].key != k {
      TotalForWitness(gs[1..], k);
      var u :| u in gs[1..] && u.key == k && TotalFor(gs[1..], k) == u.total;
      assert u in gs;
    } else {
      assert gs[0] in gs;
    }
  }

  lemma {:induction false} KeyTotalAbsent<K>(items: seq<(K, int)>, k: K)
    ensures HasKey(items, k) || KeyTotal(items, k) == 0
  {
    if items != [] && items[0].0 != k {
      KeyTotalAbsent(items[1..], k);
      if HasKey(items[1..], k) {
        var i :| 0 <= i < |items[1..]| && items[1..][i].0 == k;
        assert items[i + 1].0 == k;
      }
    }
  }

  /** Sorting the groups keeps them a correct grouping. */
  lemma SortedGroupsStillGroups<K(!new)>(items: seq<(K, int)>, key: Tally<K> -> Rank)
    ensures GroupsOf(SortDesc(GroupSum(items), key), items)
    ensures NonIncreasing(SortDesc(GroupSum(items), key), key)
  {
    var gs := GroupSum(items);
    var sorted := SortDesc(gs, key);
    GroupSumCorrect(items);
    SortDescFacts(gs, key, TotalOf);
    forall k ensures Occurrences(sorted, k) == Occurrences(gs, k) {
      SortDescFacts(gs, key, KeyIndicator(k));
    }
    forall i | 0 <= i < |sorted| ensures sorted[i].total == KeyTotal(items, sorted[i].key) {
      assert sorted[i] in multiset(gs);
      var m :| 0 <= m < |gs| && gs[m] == sorted[i];
    }
  }
}
