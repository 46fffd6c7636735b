/** Sequence helpers behind LINQ's `Where`, `Count` and `SelectMany`. */
module Seqs {

  /** `xs.Where(p)`: the elements satisfying `p`, in their original order. */
  function Filter<T>(xs: seq<T>, p: T -> bool): (r: seq<T>)
    ensures |r| <= |xs|
    ensures forall x :: x in r ==> x in xs && p(x)
    decreases |xs|
  {
    if xs == [] then []
    else if p(xs[0]) then [xs[0]] + Filter(xs[1..], p)
    else Filter(xs[1..], p)
  }

  lemma {:induction false} FilterConcat<T>(a: seq<T>, b: seq<T>, p: T -> bool)
    ensures Filter(a + b, p) == Filter(a, p) + Filter(b, p)
    decreases |a|
  {
    if a == [] {
      assert a + b == b;
    } else {
      assert (a + b)[1..] == a[1..] + b;
      FilterConcat(a[1..], b, p);
    }
  }

  lemma {:induction false} FilterAll<T>(xs: seq<T>, p: T -> bool)
    requires forall x :: x in xs ==> p(x)
    ensures Filter(xs, p) == xs
    decreases |xs|
  {
    if xs != [] {
      FilterAll(xs[1..], p);
    }
  }

  lemma {:induction false} FilterNone<T>(xs: seq<T>, p: T -> bool)
    requires forall x :: x in xs ==> !p(x)
    ensures Filter(xs, p) == []
    decreases |xs|
  {
    if xs != [] {
      FilterNone(xs[1..], p);
    }
  }

  /** Filtering with `p` then with `q` keeps what satisfies both. */
  lemma {:induction false} FilterFilter<T>(xs: seq<T>, p: T -> bool, q: T -> bool, pq: T -> bool)
    requires forall x :: pq(x) == (p(x) && q(x))
    ensures Filter(Filter(xs, p), q) == Filter(xs, pq)
    decreases |xs|
  {
    if xs != [] {
      FilterFilter(xs[1..], p, q, pq);
    }
  }

  /** Splitting by a predicate and its complement loses and adds nothing. */
  lemma {:induction false} FilterMultiset<T>(xs: seq<T>, p: T -> bool, q: T -> bool)
    requires forall x :: x in xs ==> q(x) == !p(x)
    ensures multiset(Filter(xs, p)) + multiset(Filter(xs, q)) == multiset(xs)
    decreases |xs|
  {
    if xs != [] {
      FilterMultiset(xs[1..], p, q);
      assert xs == [xs[0]] + xs[1..];
    }
  }

  /** Two sequences that agree on `p` position by position have equally many elements satisfying it. */
  lemma {:induction false} FilterSameCount<T, U>(a: seq<T>, p: T -> bool, b: seq<U>, q: U -> bool)
    requires |a| == |b|
    requires forall i :: 0 <= i < |a| ==> p(a[i]) == q(b[i])
    ensures |Filter(a, p)| == |Filter(b, q)|
    decreases |a|
  {
    if a != [] {
      assert p(a[0]) == q(b[0]);
      FilterSameCount(a[1..], p, b[1..], q);
    }
  }

  /** Filtering keeps every copy of an element satisfying `p` and none of the others. */
  lemma {:induction false} FilterCount<T>(xs: seq<T>, p: T -> bool, x: T)
    ensures multiset(Filter(xs, p))[x] == if p(x) then multiset(xs)[x] else 0
    decreases |xs|
  {
    if xs != [] {
      FilterCount(xs[1..], p, x);
      assert xs == [xs[0]] + xs[1..];
    }
  }

  /** `a` is `b` with some elements left out and the rest in the same order. */
  predicate IsSubsequence<T(==)>(a: seq<T>, b: seq<T>)
    decreases |b|
  {
    if a == [] then true
    else if b == [] then false
    else if a[0] == b[0] then IsSubsequence(a[1..], b[1..])
    else IsSubsequence(a, b[1..])
  }

  lemma {:induction false} FilterIsSubsequence<T>(xs: seq<T>, p: T -> bool)
    ensures IsSubsequence(Filter(xs, p), xs)
    decreases |xs|
  {
    if xs != [] {
      FilterIsSubsequence(xs[1..], p);
      if !p(xs[0]) {
        SubsequenceOfTail(Filter(xs[1..], p), xs);
      }
    }
  }

  lemma {:induction false} SubsequenceOfTail<T>(a: seq<T>, b: seq<T>)
    requires b != [] && IsSubsequence(a, b[1..])
    ensures IsSubsequence(a, b)
    decreases 2 * |b|
  {
    if a != [] && a[0] == b[0] {
      SubsequenceDropHead(a, b[1..]);
    }
  }

  lemma {:induction false} SubsequenceDropHead<T>(a: seq<T>, b: seq<T>)
    requires a != [] && IsSubsequence(a, b)
    ensures IsSubsequence(a[1..], b)
    decreases 2 * |b| + 1
  {
    if b != [] {
      if a[0] == b[0] {
        if a[1..] != [] {
          SubsequenceOfTail(a[1..], b);
        }
      } else {
        SubsequenceDropHead(a, b[1..]);
        if a[1..] != [] {
          SubsequenceOfTail(a[1..], b);
        }
      }
    }
  }

  lemma {:induction false} SubsequenceMultiset<T>(a: seq<T>, b: seq<T>)
    requires IsSubsequence(a, b)
    ensures multiset(a) <= multiset(b)
    decreases |b|
  {
    if a != [] {
      if a[0] == b[0] {
        SubsequenceMultiset(a[1..], b[1..]);
        assert a == [a[0]] + a[1..];
      } else {
        SubsequenceMultiset(a, b[1..]);
      }
      assert b == [b[0]] + b[1..];
    }
  }

  /** Filtering keeps a subsequence a subsequence. */
  lemma {:induction false} FilterOfSubsequence<T>(a: seq<T>, b: seq<T>, p: T -> bool)
    requires IsSubsequence(a, b)
    ensures IsSubsequence(Filter(a, p), Filter(b, p))
    decreases |b|
  {
    if a != [] {
      if a[0] == b[0] {
        FilterOfSubsequence(a[1..], b[1..], p);
      } else {
        FilterOfSubsequence(a, b[1..], p);
        if p(b[0]) {
          SubsequenceOfTail(Filter(a, p), Filter(b, p));
        }
      }
    }
  }

  lemma ConcatAssociative<T>(a: seq<T>, b: seq<T>, c: seq<T>)
    ensures a + b + c == a + (b + c)
  {
  }

  /** `xs.Skip(i).TakeWhile(p).Count()`: how many elements from index `i` on satisfy `p` before one does not. */
  function CountWhileFrom<T>(xs: seq<T>, i: nat, p: T -> bool): (n: nat)
    requires i <= |xs|
    ensures i + n <= |xs|
    decreases |xs| - i
  {
    if i == |xs| || !p(xs[i]) then 0 else 1 + CountWhileFrom(xs, i + 1, p)
  }

  /** Every element the count covers satisfies `p`. */
  lemma {:induction false} CountWhileFromHolds<T>(xs: seq<T>, i: nat, p: T -> bool, k: nat)
    requires i <= |xs|
    requires i <= k < i + CountWhileFrom(xs, i, p)
    ensures p(xs[k])
    decreases k - i
  {
    if i < k {
      CountWhileFromHolds(xs, i + 1, p, k);
    }
  }

  /** The count stops at the first element that fails `p`, or at the end. */
  lemma {:induction false} CountWhileFromStops<T>(xs: seq<T>, i: nat, p: T -> bool)
    requires i <= |xs|
    ensures i + CountWhileFrom(xs, i, p) < |xs| ==> !p(xs[i + CountWhileFrom(xs, i, p)])
    decreases |xs| - i
  {
    if i < |xs| && p(xs[i]) {
      CountWhileFromStops(xs, i + 1, p);
    }
  }

  /** A sub-multiset is no larger. */
  lemma MultisetSubsetSize<T>(a: multiset<T>, b: multiset<T>)
    requires a <= b
    ensures |a| <= |b|
  {
    assert b == a + (b - a);
  }

  /** `SelectMany(x => x)`: the parts one after another. */
  function Flatten<T>(parts: seq<seq<T>>): seq<T>
    decreases |parts|
  {
    if parts == [] then [] else Flatten(parts[..|parts| - 1]) + parts[|parts| - 1]
  }

  /** The number of elements satisfying `p`. */
  function CountWhere<T>(xs: seq<T>, p: T -> bool): nat
  {
    |Filter(xs, p)|
  }
}
