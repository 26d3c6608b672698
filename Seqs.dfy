/** Sequence helpers shared by the list views: `Array.prototype.filter`,
    order-preserving subsequences and reversal. */
module Seqs {

  /** `xs.filter(keep)`: the elements of `xs` for which `keep` holds, in order. */
  function Filter<T>(keep: T -> bool, xs: seq<T>): (r: seq<T>)
    ensures |r| <= |xs|
    ensures forall x :: x in r ==> x in xs && keep(x)
  {
    if xs == [] then []
    else if keep(xs[0]) then [xs[0]] + Filter(keep, xs[1..])
    else Filter(keep, xs[1..])
  }

  /** `sub` can be obtained from `xs` by deleting elements, keeping the order of the rest. */
  predicate IsSubsequence<T(==)>(sub: seq<T>, xs: seq<T>)
    decreases |xs|
  {
    if sub == [] then true
    else if xs == [] then false
    else if sub[0] == xs[0] then IsSubsequence(sub[1..], xs[1..])
    else IsSubsequence(sub, xs[1..])
  }

  lemma {:induction false} SubsequenceOfSelf<T>(xs: seq<T>)
    ensures IsSubsequence(xs, xs)
    decreases |xs|
  {
    if xs != [] {
      SubsequenceOfSelf(xs[1..]);
    }
  }

  /** A filter keeps the order of what it keeps. */
  lemma {:induction false} FilterIsSubsequence<T>(keep: T -> bool, xs: seq<T>)
    ensures IsSubsequence(Filter(keep, xs), xs)
    decreases |xs|
  {
    if xs != [] {
      FilterIsSubsequence(keep, xs[1..]);
      var rest := Filter(keep, xs[1..]);
      if keep(xs[0]) {
        assert Filter(keep, xs) == [xs[0]] + rest;
        assert ([xs[0]] + rest)[1..] == rest;
      } else {
        SubsequenceSkip(rest, xs);
      }
    }
  }

  /** Dropping the head of `xs` keeps every subsequence of the tail a subsequence of `xs`. */
  lemma {:induction false} SubsequenceSkip<T>(sub: seq<T>, xs: seq<T>)
    requires xs != []
    requires IsSubsequence(sub, xs[1..])
    ensures IsSubsequence(sub, xs)
    decreases |xs|, 0
  {
    if sub != [] && sub[0] == xs[0] {
      // `sub` is a subsequence of `xs[1..]`, so `sub[1..]` is too, and it is a
      // subsequence of `xs[1..]` as required by the matching branch.
      SubsequenceTail(sub, xs[1..]);
    }
  }

  /** Removing the first element of a subsequence keeps it a subsequence. */
  lemma {:induction false} SubsequenceTail<T>(sub: seq<T>, xs: seq<T>)
    requires sub != []
    requires IsSubsequence(sub, xs)
    ensures IsSubsequence(sub[1..], xs)
    decreases |xs|, 1
  {
    assert xs != [];
    if sub[0] == xs[0] {
      SubsequenceSkip(sub[1..], xs);
    } else {
      SubsequenceTail(sub, xs[1..]);
      SubsequenceSkip(sub[1..], xs);
    }
  }

  /** How often each value occurs in a filtered list: all its occurrences if it
      is kept, none otherwise. Together with `FilterIsSubsequence` this pins the
      filtered list down completely. */
  lemma {:induction false} FilterCount<T>(keep: T -> bool, xs: seq<T>, x: T)
    ensures multiset(Filter(keep, xs))[x] == if keep(x) then multiset(xs)[x] else 0
    decreases |xs|
  {
    if xs != [] {
      FilterCount(keep, xs[1..], x);
      assert xs == [xs[0]] + xs[1..];
      assert multiset(xs) == multiset{xs[0]} + multiset(xs[1..]);
    }
  }

  /** A filter that keeps every element returns its input. */
  lemma {:induction false} FilterKeepsAll<T>(keep: T -> bool, xs: seq<T>)
    requires forall i :: 0 <= i < |xs| ==> keep(xs[i])
    ensures Filter(keep, xs) == xs
    decreases |xs|
  {
    if xs != [] {
      FilterKeepsAll(keep, xs[1..]);
    }
  }

  /** A filter that keeps no element returns the empty list. */
  lemma {:induction false} FilterKeepsNone<T>(keep: T -> bool, xs: seq<T>)
    requires forall i :: 0 <= i < |xs| ==> !keep(xs[i])
    ensures Filter(keep, xs) == []
    decreases |xs|
  {
    if xs != [] {
      FilterKeepsNone(keep, xs[1..]);
    }
  }

  /** `xs` in reverse order. */
  function Reverse<T>(xs: seq<T>): (r: seq<T>)
    ensures |r| == |xs|
  {
    if xs == [] then [] else Reverse(xs[1..]) + [xs[0]]
  }

  lemma {:induction false} ReversePermutes<T>(xs: seq<T>)
    ensures multiset(Reverse(xs)) == multiset(xs)
    decreases |xs|
  {
    if xs != [] {
      ReversePermutes(xs[1..]);
      assert xs == [xs[0]] + xs[1..];
    }
  }
}
