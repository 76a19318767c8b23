/** Sorting a list by a total preorder. It stands for the library sorts the
    code calls (Go's `sort.Slice`, JavaScript's `Array.prototype.sort`):
    only what every correct sort promises is stated, that the result is
    ordered and is a rearrangement of the input. */
module Sorting {

  /** `le` relates every two values one way or the other, and transitively. */
  ghost predicate TotalPreorder<T(!new)>(le: (T, T) -> bool) {
    && (forall a, b :: le(a, b) || le(b, a))
    && (forall a, b, c :: le(a, b) && le(b, c) ==> le(a, c))
  }

  /** Every element is `le` every later element. */
  ghost predicate Sorted<T>(s: seq<T>, le: (T, T) -> bool) {
    forall i, j :: 0 <= i < j < |s| ==> le(s[i], s[j])
  }

  /** Puts `x` into the sorted list `s`, after every element it does not
      precede. */
  method Insert<T(!new)>(s: seq<T>, x: T, le: (T, T) -> bool) returns (r: seq<T>)
    requires TotalPreorder(le) && Sorted(s, le)
    ensures multiset(r) == multiset(s) + multiset{x}
    ensures Sorted(r, le)
  {
    var p := |s|;
    while p > 0 && !le(s[p - 1], x)
      invariant 0 <= p <= |s|
      invariant forall j :: p <= j < |s| ==> le(x, s[j])
    {
      p := p - 1;
    }
    if p > 0 {
      PrecedeInsertion(s, x, p, le);
    }
    InsertedSorted(s, x, p, le);
    r := s[..p] + [x] + s[p..];
    assert s == s[..p] + s[p..];
  }

  /** Everything up to an element that precedes `x` precedes `x`. */
  lemma PrecedeInsertion<T(!new)>(s: seq<T>, x: T, p: nat, le: (T, T) -> bool)
    requires TotalPreorder(le) && Sorted(s, le)
    requires 0 < p <= |s| && le(s[p - 1], x)
    ensures forall i :: 0 <= i < p ==> le(s[i], x)
  {
    forall i | 0 <= i < p - 1 ensures le(s[i], x) {
      assert le(s[i], s[p - 1]);
    }
  }

  /** `x` put between the elements that precede it and those it precedes
      keeps the list sorted. */
  lemma InsertedSorted<T>(s: seq<T>, x: T, p: nat, le: (T, T) -> bool)
    requires Sorted(s, le) && p <= |s|
    requires forall i :: 0 <= i < p ==> le(s[i], x)
    requires forall j :: p <= j < |s| ==> le(x, s[j])
    ensures Sorted(s[..p] + [x] + s[p..], le)
  {
    var r := s[..p] + [x] + s[p..];
    forall i, j | 0 <= i < j < |r| ensures le(r[i], r[j]) {
      if j < p {
        assert r[i] == s[i] && r[j] == s[j];
      } else if j == p {
        assert r[i] == s[i] && r[j] == x;
      } else if i == p {
        assert r[j] == s[j - 1];
      } else if i < p {
        assert r[i] == s[i] && r[j] == s[j - 1];
      } else {
        assert r[i] == s[i - 1] && r[j] == s[j - 1];
      }
    }
  }

  /** Insertion sort: an ordered rearrangement of `s`. */
  method Sort<T(!new)>(s: seq<T>, le: (T, T) -> bool) returns (r: seq<T>)
    requires TotalPreorder(le)
    ensures multiset(r) == multiset(s)
    ensures Sorted(r, le)
  {
    r := [];
    for i := 0 to |s|
      invariant multiset(r) == multiset(s[..i])
      invariant Sorted(r, le)
    {
      assert s[..i + 1] == s[..i] + [s[i]];
      r := Insert(r, s[i], le);
    }
    assert s[..|s|] == s;
  }
}
