/**
 * Sequence helpers shared by every part of the model: the model of
 * JavaScript's `Array.prototype.filter`, and the notion of one list being an
 * order-preserving sub-list of another.
 */
module Lists {

  /** `s.filter(p)`: the elements of `s` that satisfy `p`, in their order in `s`. */
  function Filter<T(!new)>(p: T -> bool, s: seq<T>): (r: seq<T>)
    ensures |r| <= |s|
    ensures forall x :: x in r <==> x in s && p(x)
    decreases |s|
  {
    if s == [] then []
    else
      var init, last := s[..|s| - 1], s[|s| - 1];
      assert s == init + [last];
      Filter(p, init) + (if p(last) then [last] else [])
  }

  /** `r` is obtained from `s` by deleting elements, without reordering the rest. */
  ghost predicate SubsequenceOf<T>(r: seq<T>, s: seq<T>)
    decreases |s|
  {
    if r == [] then true
    else if s == [] then false
    else if r[|r| - 1] == s[|s| - 1] then SubsequenceOf(r[..|r| - 1], s[..|s| - 1])
    else SubsequenceOf(r, s[..|s| - 1])
  }

  lemma {:induction false} FilterIsSubsequence<T(!new)>(p: T -> bool, s: seq<T>)
    ensures SubsequenceOf(Filter(p, s), s)
    decreases |s|
  {
    if s != [] {
      var init, last := s[..|s| - 1], s[|s| - 1];
      FilterIsSubsequence(p, init);
      var r := Filter(p, s);
      if p(last) {
        assert r[..|r| - 1] == Filter(p, init);
      } else {
        assert r == Filter(p, init);
        SubsequenceOfDropLast(r, init, last);
      }
    }
  }

  /** A sub-list of `init` is a sub-list of `init` extended at the end. */
  lemma {:induction false} SubsequenceOfDropLast<T>(r: seq<T>, init: seq<T>, last: T)
    requires SubsequenceOf(r, init)
    ensures SubsequenceOf(r, init + [last])
    decreases |init| + 1, 0
  {
    var s := init + [last];
    assert s[..|s| - 1] == init;
    if r != [] && r[|r| - 1] == last {
      SubsequenceOfPrefix(r, init);
    }
  }

  /** Dropping the last element of a sub-list keeps it a sub-list. */
  lemma {:induction false} SubsequenceOfPrefix<T>(r: seq<T>, s: seq<T>)
    requires r != [] && SubsequenceOf(r, s)
    ensures SubsequenceOf(r[..|r| - 1], s)
    decreases |s|, 1
  {
    var q, init := r[..|r| - 1], s[..|s| - 1];
    assert s == init + [s[|s| - 1]];
    if r[|r| - 1] != s[|s| - 1] {
      SubsequenceOfPrefix(r, init);
    }
    SubsequenceOfDropLast(q, init, s[|s| - 1]);
  }

  /** Filtering distributes over concatenation. */
  lemma {:induction false} FilterConcat<T(!new)>(p: T -> bool, a: seq<T>, b: seq<T>)
    ensures Filter(p, a + b) == Filter(p, a) + Filter(p, b)
    decreases |b|
  {
    if b != [] {
      var b0, z := b[..|b| - 1], b[|b| - 1];
      var tail := if p(z) then [z] else [];
      assert (a + b)[..|a + b| - 1] == a + b0;
      assert (a + b)[|a + b| - 1] == z;
      assert Filter(p, a + b) == Filter(p, a + b0) + tail;
      FilterConcat(p, a, b0);
      assert Filter(p, b) == Filter(p, b0) + tail;
    } else {
      assert a + b == a;
    }
  }

  /** The filter keeps every copy of an element that satisfies `p` and no copy of any other. */
  lemma {:induction false} FilterCount<T(!new)>(p: T -> bool, s: seq<T>, x: T)
    ensures multiset(Filter(p, s))[x] == if p(x) then multiset(s)[x] else 0
    decreases |s|
  {
    if s != [] {
      var init, last := s[..|s| - 1], s[|s| - 1];
      assert s == init + [last];
      FilterCount(p, init, x);
    }
  }

  /** `FilterCount` for every element at once. */
  lemma FilterCounts<T(!new)>(p: T -> bool, s: seq<T>)
    ensures forall x :: multiset(Filter(p, s))[x] == if p(x) then multiset(s)[x] else 0
  {
    forall x
      ensures multiset(Filter(p, s))[x] == if p(x) then multiset(s)[x] else 0
    {
      FilterCount(p, s, x);
    }
  }

  /** Two filters with predicates no element satisfies both of never take more than the list has. */
  lemma {:induction false} DisjointFiltersFit<T(!new)>(p: T -> bool, q: T -> bool, s: seq<T>)
    requires forall x :: !(p(x) && q(x))
    ensures |Filter(p, s)| + |Filter(q, s)| <= |s|
    decreases |s|
  {
    if s != [] {
      DisjointFiltersFit(p, q, s[..|s| - 1]);
    }
  }

  /** Filtering a list whose elements all satisfy the predicate returns the list. */
  lemma {:induction false} FilterKeepsAll<T(!new)>(p: T -> bool, s: seq<T>)
    requires forall i :: 0 <= i < |s| ==> p(s[i])
    ensures Filter(p, s) == s
    decreases |s|
  {
    if s != [] {
      var init := s[..|s| - 1];
      assert s == init + [s[|s| - 1]];
      FilterKeepsAll(p, init);
    }
  }
}
