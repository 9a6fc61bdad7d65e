/**
 * `Array.prototype.filter` and `flatMap` on sequences, with the order facts
 * the callers rely on.
 */
module Sequences {

  /** `s.filter(keep)`. */
  function Filter<T(==,!new)>(s: seq<T>, keep: T -> bool): (r: seq<T>)
    ensures |r| <= |s|
    ensures forall x :: x in r <==> x in s && keep(x)
  {
    if s == [] then []
    else
      var rest := Filter(s[1..], keep);
      assert forall x :: x in s <==> x == s[0] || x in s[1..];
      if keep(s[0]) then [s[0]] + rest else rest
  }

  /** `a` is `b` with some elements left out, the rest in their order. */
  predicate IsSubsequence<T(==)>(a: seq<T>, b: seq<T>)
    decreases |b|
  {
    if a == [] then true
    else if b == [] then false
    else (a[0] == b[0] && IsSubsequence(a[1..], b[1..])) || IsSubsequence(a, b[1..])
  }

  lemma {:induction false} SubsequenceOfItself<T>(s: seq<T>)
    ensures IsSubsequence(s, s)
    decreases |s|
  {
    if s != [] {
      SubsequenceOfItself(s[1..]);
    }
  }

  /** Filtering keeps order: the result is a subsequence of the input. */
  lemma {:induction false} FilterIsSubsequence<T(!new)>(s: seq<T>, keep: T -> bool)
    ensures IsSubsequence(Filter(s, keep), s)
    decreases |s|
  {
    if s != [] {
      FilterIsSubsequence(s[1..], keep);
      var rest := Filter(s[1..], keep);
      if keep(s[0]) {
        assert Filter(s, keep) == [s[0]] + rest;
        assert ([s[0]] + rest)[1..] == rest;
      } else if rest != [] {
        assert Filter(s, keep) == rest;
      }
    }
  }

  /** Two filters in a row keep what both tests accept. */
  lemma {:induction false} FilterTwice<T(!new)>(s: seq<T>, p: T -> bool, q: T -> bool, both: T -> bool)
    requires forall x :: both(x) == (p(x) && q(x))
    ensures Filter(Filter(s, p), q) == Filter(s, both)
    decreases |s|
  {
    if s != [] {
      FilterTwice(s[1..], p, q, both);
      var rest := Filter(s[1..], p);
      if p(s[0]) {
        assert Filter(s, p) == [s[0]] + rest;
        assert ([s[0]] + rest)[1..] == rest;
      }
    }
  }

  /** A filter that accepts everything it is shown returns its input. */
  lemma {:induction false} FilterKeepsAll<T(!new)>(s: seq<T>, keep: T -> bool)
    requires forall i :: 0 <= i < |s| ==> keep(s[i])
    ensures Filter(s, keep) == s
    decreases |s|
  {
    if s != [] {
      FilterKeepsAll(s[1..], keep);
    }
  }

  /** `pages.flatMap(page => page)`: the pages' elements, page after page. */
  function Flatten<T>(pages: seq<seq<T>>): (r: seq<T>)
    ensures |pages| == 0 ==> r == []
  {
    if pages == [] then [] else pages[0] + Flatten(pages[1..])
  }

  function TotalLength<T>(pages: seq<seq<T>>): nat
  {
    if pages == [] then 0 else |pages[0]| + TotalLength(pages[1..])
  }

  /**
   * The elements of page `k` sit, in order, right after those of the pages
   * before it.
   */
  lemma {:induction false} FlattenPosition<T>(pages: seq<seq<T>>, k: nat, j: nat)
    requires k < |pages| && j < |pages[k]|
    ensures |Flatten(pages)| == TotalLength(pages)
    ensures TotalLength(pages[..k]) + j < |Flatten(pages)|
    ensures Flatten(pages)[TotalLength(pages[..k]) + j] == pages[k][j]
    decreases k
  {
    FlattenLength(pages);
    if k > 0 {
      FlattenPosition(pages[1..], k - 1, j);
      assert pages[..k][1..] == pages[1..][..k - 1];
      assert pages[..k][0] == pages[0];
    } else {
      assert pages[..0] == [];
    }
  }

  lemma {:induction false} FlattenLength<T>(pages: seq<seq<T>>)
    ensures |Flatten(pages)| == TotalLength(pages)
    decreases |pages|
  {
    if pages != [] {
      FlattenLength(pages[1..]);
    }
  }

  /** Flattening a concatenation of page lists concatenates their flattenings. */
  lemma {:induction false} FlattenAppend<T>(a: seq<seq<T>>, b: seq<seq<T>>)
    ensures Flatten(a + b) == Flatten(a) + Flatten(b)
    decreases |a|
  {
    if a != [] {
      FlattenAppend(a[1..], b);
      assert (a + b)[1..] == a[1..] + b;
    } else {
      assert a + b == b;
    }
  }
}
