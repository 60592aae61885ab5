/** Order-preserving selection from a sequence: JavaScript's `Array.prototype.filter`. */
module Sequences {

  /** `sub` is obtained from `s` by deleting elements, keeping the order of the rest. */
  predicate IsSubsequence<T(==,!new)>(sub: seq<T>, s: seq<T>)
    decreases |s|
  {
    sub == [] ||
    (s != [] && if sub[0] == s[0] then IsSubsequence(sub[1..], s[1..]) else IsSubsequence(sub, s[1..]))
  }

  /** The elements of `s` that satisfy `p`, in their original order. The result is the
      one subsequence of `s` that keeps every occurrence of a satisfying element and
      nothing else. */
  function Filter<T(==,!new)>(s: seq<T>, p: T -> bool): (r: seq<T>)
    ensures IsSubsequence(r, s)
    ensures forall x :: x in r ==> p(x)
    ensures |r| <= |s|
  {
    if s == [] then []
    else
      var rest := Filter(s[1..], p);
      if p(s[0]) then [s[0]] + rest else rest
  }

  /** Every occurrence of a satisfying element is kept, and nothing else. */
  lemma {:induction false} FilterCounts<T(!new)>(s: seq<T>, p: T -> bool)
    ensures forall x :: multiset(Filter(s, p))[x] == if p(x) then multiset(s)[x] else 0
  {
    if s != [] {
      FilterCounts(s[1..], p);
      assert s == [s[0]] + s[1..];
    }
  }

  /** An element of the input is kept exactly when it satisfies the predicate. */
  lemma FilterKeeps<T(!new)>(s: seq<T>, p: T -> bool, x: T)
    requires x in s
    ensures x in Filter(s, p) <==> p(x)
  {
    FilterCounts(s, p);
    var r := Filter(s, p);
    assert multiset(s)[x] > 0;
    if p(x) {
      assert multiset(r)[x] > 0;
    }
  }

  /** When nothing satisfies the predicate, nothing is kept. */
  lemma FilterNone<T(!new)>(s: seq<T>, p: T -> bool)
    requires forall x :: x in s ==> !p(x)
    ensures Filter(s, p) == []
  {
  }

  /** Filtering one more element at the end extends the result by that element alone, if it
      satisfies the predicate. */
  lemma {:induction false} FilterAppend<T(!new)>(s: seq<T>, x: T, p: T -> bool)
    ensures Filter(s + [x], p) == Filter(s, p) + (if p(x) then [x] else [])
  {
    if s == [] {
      assert [x][1..] == [];
    } else {
      assert (s + [x])[0] == s[0];
      assert (s + [x])[1..] == s[1..] + [x];
      FilterAppend(s[1..], x, p);
    }
  }
}
