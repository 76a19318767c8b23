/** Splitting a list into groups by a key, keeping the order of the input
    inside each group, and the fact that such a split loses and duplicates
    nothing. The dashboard groups runs by checker with it; the web front
    end groups issues by file. */
module Grouping {

  /** The elements of `xs` whose key is `k`, in their original order. */
  function Select<T, K(==)>(xs: seq<T>, key: T -> K, k: K): (r: seq<T>)
    ensures |r| <= |xs|
    ensures forall i :: 0 <= i < |r| ==> key(r[i]) == k
    ensures forall x :: x in r ==> x in xs
  {
    if xs == [] then []
    else Select(xs[..|xs| - 1], key, k) + (if key(xs[|xs| - 1]) == k then [xs[|xs| - 1]] else [])
  }

  /** The keys that occur in `xs`. */
  function Keys<T, K(==)>(xs: seq<T>, key: T -> K): set<K> {
    set i | 0 <= i < |xs| :: key(xs[i])
  }

  /** The sum of `w` over `xs`. */
  function Total<T>(xs: seq<T>, w: T -> int): int {
    if xs == [] then 0 else Total(xs[..|xs| - 1], w) + w(xs[|xs| - 1])
  }

  /** The sum, over the keys `ks`, of the totals of their groups. */
  function GroupTotals<T, K(==)>(xs: seq<T>, key: T -> K, w: T -> int, ks: seq<K>): int {
    if ks == [] then 0
    else GroupTotals(xs, key, w, ks[..|ks| - 1]) + Total(Select(xs, key, ks[|ks| - 1]), w)
  }

  /** No value occurs twice in `ks`. */
  predicate Distinct<K(==)>(ks: seq<K>) {
    forall i, j :: 0 <= i < j < |ks| ==> ks[i] != ks[j]
  }

  function SetOf<K>(ks: seq<K>): set<K> {
    set i | 0 <= i < |ks| :: ks[i]
  }

  /** Adding one element to the input adds it to its own group only. */
  lemma SelectSnoc<T, K>(xs: seq<T>, x: T, key: T -> K, k: K)
    ensures Select(xs + [x], key, k) == Select(xs, key, k) + (if key(x) == k then [x] else [])
  {
    assert (xs + [x])[..|xs|] == xs;
  }

  /** Grouping a concatenation groups each part. */
  lemma {:induction false} SelectConcat<T, K>(xs: seq<T>, ys: seq<T>, key: T -> K, k: K)
    ensures Select(xs + ys, key, k) == Select(xs, key, k) + Select(ys, key, k)
    decreases |ys|
  {
    if ys == [] {
      assert xs + ys == xs;
    } else {
      var ys', y := ys[..|ys| - 1], ys[|ys| - 1];
      assert xs + ys == (xs + ys') + [y];
      assert ys == ys' + [y];
      SelectConcat(xs, ys', key, k);
      SelectSnoc(xs + ys', y, key, k);
      SelectSnoc(ys', y, key, k);
    }
  }

  lemma KeysSnoc<T, K>(xs: seq<T>, x: T, key: T -> K)
    ensures Keys(xs + [x], key) == Keys(xs, key) + {key(x)}
  {
    var ys := xs + [x];
    assert forall i :: 0 <= i < |xs| ==> ys[i] == xs[i];
    assert ys[|xs|] == x;
  }

  /** A key has a non-empty group exactly when it occurs. */
  lemma {:induction false} SelectNonEmpty<T, K>(xs: seq<T>, key: T -> K, k: K)
    ensures Select(xs, key, k) != [] <==> k in Keys(xs, key)
  {
    if xs != [] {
      var xs', x := xs[..|xs| - 1], xs[|xs| - 1];
      assert xs == xs' + [x];
      SelectNonEmpty(xs', key, k);
      KeysSnoc(xs', x, key);
    }
  }

  lemma {:induction false} GroupTotalsSnoc<T, K>(xs: seq<T>, x: T, key: T -> K, w: T -> int, ks: seq<K>)
    requires Distinct(ks)
    ensures GroupTotals(xs + [x], key, w, ks)
            == GroupTotals(xs, key, w, ks) + (if key(x) in SetOf(ks) then w(x) else 0)
  {
    if ks != [] {
      var ks', k := ks[..|ks| - 1], ks[|ks| - 1];
      assert SetOf(ks) == SetOf(ks') + {k};
      assert k !in SetOf(ks');
      GroupTotalsSnoc(xs, x, key, w, ks');
      SelectSnoc(xs, x, key, k);
      var g := Select(xs, key, k);
      assert GroupTotals(xs + [x], key, w, ks)
          == GroupTotals(xs + [x], key, w, ks') + Total(Select(xs + [x], key, k), w);
      assert GroupTotals(xs, key, w, ks) == GroupTotals(xs, key, w, ks') + Total(g, w);
      if key(x) == k {
        assert (g + [x])[..|g|] == g;
        assert Total(g + [x], w) == Total(g, w) + w(x);
      } else {
        assert g + [] == g;
      }
    }
  }

  /** Grouping conserves totals: summed over a list of distinct keys that
      covers every key of `xs`, the group totals give the total of `xs`. No
      element is lost and none is counted twice. */
  lemma {:induction false} PartitionTotals<T, K>(xs: seq<T>, key: T -> K, w: T -> int, ks: seq<K>)
    requires Distinct(ks) && Keys(xs, key) <= SetOf(ks)
    ensures GroupTotals(xs, key, w, ks) == Total(xs, w)
  {
    if xs == [] {
      GroupTotalsEmpty(key, w, ks);
    } else {
      var xs', x := xs[..|xs| - 1], xs[|xs| - 1];
      assert xs == xs' + [x];
      KeysSnoc(xs', x, key);
      PartitionTotals(xs', key, w, ks);
      GroupTotalsSnoc(xs', x, key, w, ks);
    }
  }

  lemma {:induction false} GroupTotalsEmpty<T, K>(key: T -> K, w: T -> int, ks: seq<K>)
    ensures GroupTotals([], key, w, ks) == 0
  {
    if ks != [] {
      GroupTotalsEmpty(key, w, ks[..|ks| - 1]);
    }
  }

  /** Appending a value that does not occur yet keeps a list distinct. */
  lemma DistinctSnoc<K>(ks: seq<K>, k: K)
    requires Distinct(ks) && k !in SetOf(ks)
    ensures Distinct(ks + [k])
    ensures SetOf(ks + [k]) == SetOf(ks) + {k}
  {
    var ks2 := ks + [k];
    forall i, j | 0 <= i < j < |ks2| ensures ks2[i] != ks2[j] {
      assert ks2[i] == ks[i];
      if j == |ks| {
        assert ks[i] in SetOf(ks);
      } else {
        assert ks2[j] == ks[j];
      }
    }
    forall v | v in SetOf(ks2) ensures v in SetOf(ks) + {k} {
      var i :| 0 <= i < |ks2| && ks2[i] == v;
      if i < |ks| {
        assert ks[i] == v;
      }
    }
    forall v | v in SetOf(ks) ensures v in SetOf(ks2) {
      var i :| 0 <= i < |ks| && ks[i] == v;
      assert ks2[i] == v;
    }
    assert ks2[|ks|] == k;
  }

  /** A list has distinct elements exactly when its set of elements is as
      large as the list. */
  lemma {:induction false} DistinctCard<K>(ks: seq<K>)
    ensures |SetOf(ks)| <= |ks|
    ensures Distinct(ks) <==> |SetOf(ks)| == |ks|
  {
    if ks != [] {
      var ks', v := ks[..|ks| - 1], ks[|ks| - 1];
      DistinctCard(ks');
      assert SetOf(ks) == SetOf(ks') + {v};
      if v in SetOf(ks') {
        var j :| 0 <= j < |ks'| && ks'[j] == v;
        assert ks[j] == ks[|ks| - 1];
      } else if Distinct(ks') {
        forall i, j | 0 <= i < j < |ks| ensures ks[i] != ks[j] {
          assert ks[i] == ks'[i];
          if j < |ks'| {
            assert ks[j] == ks'[j];
          } else {
            assert ks'[i] in SetOf(ks');
          }
        }
      } else {
        var i, j :| 0 <= i < j < |ks'| && ks'[i] == ks'[j];
        assert ks[i] == ks[j];
      }
    }
  }
}
