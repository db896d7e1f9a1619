/** Order-preserving selection from a sequence: the `Array.prototype.filter` of the source. */
module Seqs {

  /** The elements of `s` that satisfy `keep`, in their original order. */
  function Filter<T>(s: seq<T>, keep: T -> bool): (r: seq<T>)
    ensures |r| <= |s|
    ensures forall x :: x in r ==> x in s && keep(x)
    ensures forall x :: x in s && keep(x) ==> x in r
    decreases |s|
  {
    if s == [] then []
    else if keep(s[0]) then [s[0]] + Filter(s[1..], keep)
    else Filter(s[1..], keep)
  }

  /** `a` can be obtained from `b` by deleting elements, without reordering. */
  predicate IsSubsequence<T(==)>(a: seq<T>, b: seq<T>)
    decreases |b|
  {
    a == [] || (b != [] && if a[0] == b[0] then IsSubsequence(a[1..], b[1..]) else IsSubsequence(a, b[1..]))
  }

  lemma {:induction false} SubsequenceOfSelf<T>(s: seq<T>)
    ensures IsSubsequence(s, s)
    decreases |s|
  {
    if s != [] {
      SubsequenceOfSelf(s[1..]);
    }
  }

  /** Filtering keeps the order of the survivors: the result is a sub-list of the input. */
  lemma {:induction false} FilterIsSubsequence<T>(s: seq<T>, keep: T -> bool)
    ensures IsSubsequence(Filter(s, keep), s)
    decreases |s|
  {
    if s != [] {
      FilterIsSubsequence(s[1..], keep);
      var r := Filter(s[1..], keep);
      if keep(s[0]) {
        assert Filter(s, keep) == [s[0]] + r;
        assert ([s[0]] + r)[1..] == r;
      }
    }
  }

  /** Filtering an already filtered list with the same test changes nothing. */
  lemma {:induction false} FilterIdempotent<T>(s: seq<T>, keep: T -> bool)
    ensures Filter(Filter(s, keep), keep) == Filter(s, keep)
    decreases |s|
  {
    if s != [] {
      FilterIdempotent(s[1..], keep);
      if keep(s[0]) {
        var r := Filter(s[1..], keep);
        assert ([s[0]] + r)[1..] == r;
      }
    }
  }

  /** A test that holds for every element keeps the whole list. */
  lemma {:induction false} FilterKeepsAll<T>(s: seq<T>, keep: T -> bool)
    requires forall i :: 0 <= i < |s| ==> keep(s[i])
    ensures Filter(s, keep) == s
    decreases |s|
  {
    if s != [] {
      FilterKeepsAll(s[1..], keep);
    }
  }

  /** Filtering distributes over concatenation. */
  lemma {:induction false} FilterAppend<T>(a: seq<T>, b: seq<T>, keep: T -> bool)
    ensures Filter(a + b, keep) == Filter(a, keep) + Filter(b, keep)
    decreases |a|
  {
    if a != [] {
      assert (a + b)[1..] == a[1..] + b;
      FilterAppend(a[1..], b, keep);
    } else {
      assert a + b == b;
    }
  }

  /** Filtering by `keep` and then by `also` is filtering once by their conjunction `both`. */
  lemma {:induction false} FilterFuse<T>(s: seq<T>, keep: T -> bool, also: T -> bool, both: T -> bool)
    requires forall x :: both(x) == (keep(x) && also(x))
    ensures Filter(Filter(s, keep), also) == Filter(s, both)
    decreases |s|
  {
    if s != [] {
      FilterFuse(s[1..], keep, also, both);
      if keep(s[0]) {
        var r := Filter(s[1..], keep);
        assert ([s[0]] + r)[1..] == r;
      }
    }
  }
}
