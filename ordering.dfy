/**
 * LINQ's ordering operators as the formatter uses them: `OrderBy`, a stable sort on a key, and
 * `GroupBy` on a small integer key followed by `OrderBy(g => g.Key)` and `SelectMany`.
 */
module Ordering {
  import Seqs

  predicate SortedBy<T>(xs: seq<T>, key: T -> real)
  {
    forall i, j :: 0 <= i < j < |xs| ==> key(xs[i]) <= key(xs[j])
  }

  /** The elements whose key is `v`. */
  function HasKey<T>(key: T -> real, v: real): T -> bool
  {
    x => key(x) == v
  }

  /** Puts `x` in front of the first element whose key is not smaller, so ahead of its equals. */
  function InsertBy<T>(x: T, xs: seq<T>, key: T -> real): seq<T>
    decreases |xs|
  {
    if xs == [] || key(x) <= key(xs[0]) then [x] + xs
    else [xs[0]] + InsertBy(x, xs[1..], key)
  }

  /** `xs.OrderBy(key)`. */
  function SortBy<T>(xs: seq<T>, key: T -> real): seq<T>
    decreases |xs|
  {
    if xs == [] then [] else InsertBy(xs[0], SortBy(xs[1..], key), key)
  }

  lemma {:induction false} InsertByPermutation<T>(x: T, xs: seq<T>, key: T -> real)
    ensures multiset(InsertBy(x, xs, key)) == multiset{x} + multiset(xs)
    decreases |xs|
  {
    if xs != [] && key(x) > key(xs[0]) {
      InsertByPermutation(x, xs[1..], key);
      assert xs == [xs[0]] + xs[1..];
    }
  }

  /** An element no greater than any of an ordered sequence can go in front of it. */
  lemma ConsSorted<T>(h: T, rest: seq<T>, key: T -> real)
    requires SortedBy(rest, key)
    requires forall j :: 0 <= j < |rest| ==> key(h) <= key(rest[j])
    ensures SortedBy([h] + rest, key)
  {
    var r := [h] + rest;
    forall i, j | 0 <= i < j < |r|
      ensures key(r[i]) <= key(r[j])
    {
      assert r[j] == rest[j - 1];
      if i > 0 {
        assert r[i] == rest[i - 1];
      }
    }
  }

  /** A lower bound of `x` and of every element of `xs` bounds every element after the insertion. */
  lemma InsertByBounded<T>(x: T, xs: seq<T>, key: T -> real, lo: real)
    requires lo <= key(x)
    requires forall j :: 0 <= j < |xs| ==> lo <= key(xs[j])
    ensures forall j :: 0 <= j < |InsertBy(x, xs, key)| ==> lo <= key(InsertBy(x, xs, key)[j])
  {
    var r := InsertBy(x, xs, key);
    InsertByPermutation(x, xs, key);
    forall j | 0 <= j < |r|
      ensures lo <= key(r[j])
    {
      assert r[j] in multiset(r);
      if r[j] != x {
        assert r[j] in multiset(xs);
        var k :| 0 <= k < |xs| && xs[k] == r[j];
      }
    }
  }

  lemma {:induction false} InsertBySorted<T>(x: T, xs: seq<T>, key: T -> real)
    requires SortedBy(xs, key)
    ensures SortedBy(InsertBy(x, xs, key), key)
    decreases |xs|
  {
    if xs == [] || key(x) <= key(xs[0]) {
      ConsSorted(x, xs, key);
    } else {
      var tail := xs[1..];
      assert SortedBy(tail, key);
      InsertBySorted(x, tail, key);
      InsertByBounded(x, tail, key, key(xs[0]));
      ConsSorted(xs[0], InsertBy(x, tail, key), key);
    }
  }

  /** The result of `OrderBy` is ordered by the key and holds the same elements. */
  lemma {:induction false} SortBySorted<T>(xs: seq<T>, key: T -> real)
    ensures SortedBy(SortBy(xs, key), key)
    ensures multiset(SortBy(xs, key)) == multiset(xs)
    decreases |xs|
  {
    if xs != [] {
      SortBySorted(xs[1..], key);
      InsertBySorted(xs[0], SortBy(xs[1..], key), key);
      InsertByPermutation(xs[0], SortBy(xs[1..], key), key);
      assert xs == [xs[0]] + xs[1..];
    }
  }

  lemma {:induction false} InsertByStable<T>(x: T, xs: seq<T>, key: T -> real, v: real)
    ensures Seqs.Filter(InsertBy(x, xs, key), HasKey(key, v))
            == if key(x) == v then [x] + Seqs.Filter(xs, HasKey(key, v)) else Seqs.Filter(xs, HasKey(key, v))
    decreases |xs|
  {
    if xs == [] || key(x) <= key(xs[0]) {
      assert ([x] + xs)[1..] == xs;
    } else {
      InsertByStable(x, xs[1..], key, v);
      assert ([xs[0]] + InsertBy(x, xs[1..], key))[1..] == InsertBy(x, xs[1..], key);
    }
  }

  /** `OrderBy` is stable: the elements of one key keep their relative order. */
  lemma {:induction false} SortByStable<T>(xs: seq<T>, key: T -> real, v: real)
    ensures Seqs.Filter(SortBy(xs, key), HasKey(key, v)) == Seqs.Filter(xs, HasKey(key, v))
    decreases |xs|
  {
    if xs != [] {
      SortByStable(xs[1..], key, v);
      InsertByStable(xs[0], SortBy(xs[1..], key), key, v);
    }
  }

  /** What is left of an ordered sequence after dropping elements is still ordered. */
  lemma {:induction false} SubsequenceSorted<T>(a: seq<T>, b: seq<T>, key: T -> real)
    requires Seqs.IsSubsequence(a, b) && SortedBy(b, key)
    ensures SortedBy(a, key)
    decreases |b|
  {
    if a != [] {
      assert SortedBy(b[1..], key);
      if a[0] == b[0] {
        SubsequenceSorted(a[1..], b[1..], key);
        Seqs.SubsequenceMultiset(a[1..], b[1..]);
        forall j | 1 <= j < |a|
          ensures key(a[0]) <= key(a[j])
        {
          assert a[j] in multiset(a[1..]);
          assert a[j] in b[1..];
        }
      } else {
        SubsequenceSorted(a, b[1..], key);
      }
    }
  }

  // ---- GroupBy ------------------------------------------------------------------------

  function InGroup<T>(group: T -> nat, k: nat): T -> bool
  {
    x => group(x) == k
  }

  function AtLeast<T>(group: T -> nat, k: nat): T -> bool
  {
    x => group(x) >= k
  }

  /** Groups `k` to `n`, in that order, each holding its elements in their original order. */
  function GroupsFrom<T>(xs: seq<T>, group: T -> nat, k: nat, n: nat): seq<T>
    decreases if k <= n then n + 1 - k else 0
  {
    if k > n then [] else Seqs.Filter(xs, InGroup(group, k)) + GroupsFrom(xs, group, k + 1, n)
  }

  /**
   * `xs.GroupBy(group).OrderBy(g => g.Key).SelectMany(g => g)` when no key exceeds `n`: `GroupBy`
   * keeps the elements of a group in their original order and a key that never occurs yields no group.
   */
  function Grouped<T>(xs: seq<T>, group: T -> nat, n: nat): seq<T>
  {
    GroupsFrom(xs, group, 0, n)
  }

  /** The elements come in ascending order of their group. */
  predicate GroupSorted<T>(xs: seq<T>, group: T -> nat)
  {
    forall i, j :: 0 <= i < j < |xs| ==> group(xs[i]) <= group(xs[j])
  }

  /** `a + b` is in group order when each part is and no group of `a` is above `lo`, none of `b` below it. */
  lemma GroupSortedConcat<T>(a: seq<T>, b: seq<T>, group: T -> nat, lo: nat)
    requires GroupSorted(a, group) && GroupSorted(b, group)
    requires forall i :: 0 <= i < |a| ==> group(a[i]) <= lo
    requires forall j :: 0 <= j < |b| ==> lo <= group(b[j])
    ensures GroupSorted(a + b, group)
  {
    var r := a + b;
    forall i, j | 0 <= i < j < |r|
      ensures group(r[i]) <= group(r[j])
    {
      if j < |a| {
        assert r[i] == a[i] && r[j] == a[j];
      } else if i < |a| {
        assert r[i] == a[i] && r[j] == b[j - |a|];
      } else {
        assert r[i] == b[i - |a|] && r[j] == b[j - |a|];
      }
    }
  }

  lemma {:induction false} GroupsFromBounded<T>(xs: seq<T>, group: T -> nat, k: nat, n: nat)
    ensures forall j :: 0 <= j < |GroupsFrom(xs, group, k, n)| ==> k <= group(GroupsFrom(xs, group, k, n)[j])
    decreases if k <= n then n + 1 - k else 0
  {
    if k <= n {
      GroupsFromBounded(xs, group, k + 1, n);
      var head := Seqs.Filter(xs, InGroup(group, k));
      var rest := GroupsFrom(xs, group, k + 1, n);
      var r := head + rest;
      forall j | 0 <= j < |r|
        ensures k <= group(r[j])
      {
        if j < |head| {
          assert r[j] == head[j] && head[j] in head;
        } else {
          assert r[j] == rest[j - |head|];
        }
      }
    }
  }

  lemma OneGroupSorted<T>(xs: seq<T>, group: T -> nat, k: nat)
    ensures GroupSorted(Seqs.Filter(xs, InGroup(group, k)), group)
    ensures forall i :: 0 <= i < |Seqs.Filter(xs, InGroup(group, k))| ==> group(Seqs.Filter(xs, InGroup(group, k))[i]) == k
  {
    var head := Seqs.Filter(xs, InGroup(group, k));
    assert forall i :: 0 <= i < |head| ==> head[i] in head;
  }

  lemma {:induction false} GroupsFromOrdered<T>(xs: seq<T>, group: T -> nat, k: nat, n: nat)
    ensures GroupSorted(GroupsFrom(xs, group, k, n), group)
    decreases if k <= n then n + 1 - k else 0
  {
    if k <= n {
      GroupsFromOrdered(xs, group, k + 1, n);
      GroupsFromBounded(xs, group, k + 1, n);
      OneGroupSorted(xs, group, k);
      GroupSortedConcat(Seqs.Filter(xs, InGroup(group, k)), GroupsFrom(xs, group, k + 1, n), group, k);
    }
  }

  /** The groups come in ascending order of their key. */
  lemma GroupedOrdered<T>(xs: seq<T>, group: T -> nat, n: nat)
    ensures GroupSorted(Grouped(xs, group, n), group)
  {
    GroupsFromOrdered(xs, group, 0, n);
  }

  /** Picking group `g` out of group `k` gives group `k` itself when `g` is `k`, and nothing otherwise. */
  lemma GroupOfGroup<T>(xs: seq<T>, group: T -> nat, k: nat, g: nat)
    ensures Seqs.Filter(Seqs.Filter(xs, InGroup(group, k)), InGroup(group, g))
            == if g == k then Seqs.Filter(xs, InGroup(group, k)) else []
  {
    if g == k {
      Seqs.FilterFilter(xs, InGroup(group, k), InGroup(group, g), InGroup(group, g));
    } else {
      Seqs.FilterNone(Seqs.Filter(xs, InGroup(group, k)), InGroup(group, g));
    }
  }

  lemma {:induction false} GroupsFromKeepsGroups<T>(xs: seq<T>, group: T -> nat, k: nat, n: nat, g: nat)
    ensures Seqs.Filter(GroupsFrom(xs, group, k, n), InGroup(group, g))
            == if k <= g <= n then Seqs.Filter(xs, InGroup(group, g)) else []
    decreases if k <= n then n + 1 - k else 0
  {
    if k <= n {
      var head := Seqs.Filter(xs, InGroup(group, k));
      GroupsFromKeepsGroups(xs, group, k + 1, n, g);
      Seqs.FilterConcat(head, GroupsFrom(xs, group, k + 1, n), InGroup(group, g));
      GroupOfGroup(xs, group, k, g);
    }
  }

  /** Within a group, the elements keep their original order. */
  lemma GroupedKeepsGroups<T>(xs: seq<T>, group: T -> nat, n: nat, g: nat)
    requires g <= n
    ensures Seqs.Filter(Grouped(xs, group, n), InGroup(group, g)) == Seqs.Filter(xs, InGroup(group, g))
  {
    GroupsFromKeepsGroups(xs, group, 0, n, g);
  }

  lemma {:induction false} GroupsFromPermutation<T>(xs: seq<T>, group: T -> nat, k: nat, n: nat)
    requires forall x :: x in xs ==> group(x) <= n
    ensures multiset(GroupsFrom(xs, group, k, n)) == multiset(Seqs.Filter(xs, AtLeast(group, k)))
    decreases if k <= n then n + 1 - k else 0
  {
    if k > n {
      Seqs.FilterNone(xs, AtLeast(group, k));
    } else {
      GroupsFromPermutation(xs, group, k + 1, n);
      var above := Seqs.Filter(xs, AtLeast(group, k));
      Seqs.FilterMultiset(above, InGroup(group, k), AtLeast(group, k + 1));
      Seqs.FilterFilter(xs, AtLeast(group, k), InGroup(group, k), InGroup(group, k));
      Seqs.FilterFilter(xs, AtLeast(group, k), AtLeast(group, k + 1), AtLeast(group, k + 1));
    }
  }

  /** Grouping neither loses nor adds an element. */
  lemma GroupedPermutation<T>(xs: seq<T>, group: T -> nat, n: nat)
    requires forall x :: x in xs ==> group(x) <= n
    ensures multiset(Grouped(xs, group, n)) == multiset(xs)
  {
    GroupsFromPermutation(xs, group, 0, n);
    Seqs.FilterAll(xs, AtLeast(group, 0));
  }
}
