/** Order-preserving filtering of sequences (JavaScript's `Array.prototype.filter`). */
module Seqs {

  /** The smaller of two positions, as used to clamp a slice to the end of a sequence. */
  function Min(a: int, b: int): int {
    if a < b then a else b
  }

  /** `a` is obtained from `b` by deleting elements: an order-preserving subset. */
  predicate IsSubsequence<T(==)>(a: seq<T>, b: seq<T>)
    decreases |b|
  {
    if a == [] then true
    else if b == [] then false
    else if a[0] == b[0] then IsSubsequence(a[1..], b[1..])
    else IsSubsequence(a, b[1..])
  }

  lemma {:induction false} SubsequenceRefl<T>(s: seq<T>)
    ensures IsSubsequence(s, s)
    decreases |s|
  {
    if s != [] {
      SubsequenceRefl(s[1..]);
    }
  }

  /** Prepending an element to the larger sequence keeps a subsequence a subsequence. */
  lemma {:induction false} SubsequenceSkip<T>(a: seq<T>, x: T, b: seq<T>)
    requires IsSubsequence(a, b)
    ensures IsSubsequence(a, [x] + b)
    decreases |b|, 1
  {
    if a != [] && a[0] == x {
      // the heads match, so what remains to show is that a[1..] is a subsequence of b
      SubsequenceDropHead(a, b);
    }
    assert ([x] + b)[1..] == b;
  }

  /** Dropping the first element of a subsequence keeps it a subsequence. */
  lemma {:induction false} SubsequenceDropHead<T>(a: seq<T>, b: seq<T>)
    requires a != [] && IsSubsequence(a, b)
    ensures IsSubsequence(a[1..], b)
    decreases |b|, 0
  {
    if a[0] == b[0] {
      SubsequenceSkip(a[1..], b[0], b[1..]);
      assert [b[0]] + b[1..] == b;
    } else {
      SubsequenceDropHead(a, b[1..]);
      SubsequenceSkip(a[1..], b[0], b[1..]);
      assert [b[0]] + b[1..] == b;
    }
  }

  /**
   * The elements of `s` that satisfy `f`, in their original order, every occurrence kept:
   * `s.filter(f)`.
   */
  function Filter<T>(f: T -> bool, s: seq<T>): (r: seq<T>)
    ensures |r| <= |s|
    ensures IsSubsequence(r, s)
    ensures forall x :: x in r ==> x in s && f(x)
    ensures forall x :: x in s && f(x) ==> x in r
    ensures forall x :: x in s ==> multiset(r)[x] == if f(x) then multiset(s)[x] else 0
    decreases |s|
  {
    if s == [] then []
    else
      var rest := Filter(f, s[1..]);
      assert s == [s[0]] + s[1..];
      if f(s[0]) then
        assert ([s[0]] + rest)[1..] == rest;
        [s[0]] + rest
      else
        SubsequenceSkip(rest, s[0], s[1..]);
        rest
  }

  /** A filter whose test holds everywhere is the identity. */
  lemma {:induction false} FilterAll<T>(f: T -> bool, s: seq<T>)
    requires forall x :: x in s ==> f(x)
    ensures Filter(f, s) == s
    decreases |s|
  {
    if s != [] {
      assert forall x :: x in s[1..] ==> x in s;
      FilterAll(f, s[1..]);
    }
  }

  /** Two filters in a row are one filter by a test `h` that is the conjunction of their tests. */
  lemma {:induction false} FilterFilter<T>(f: T -> bool, g: T -> bool, h: T -> bool, s: seq<T>)
    requires forall x :: h(x) == (f(x) && g(x))
    ensures Filter(g, Filter(f, s)) == Filter(h, s)
    decreases |s|
  {
    if s != [] {
      FilterFilter(f, g, h, s[1..]);
      var rest := Filter(f, s[1..]);
      if f(s[0]) {
        assert ([s[0]] + rest)[1..] == rest;
      }
    }
  }

  /** Tests that agree on every element of `s` filter it alike. */
  lemma {:induction false} FilterExt<T>(f: T -> bool, g: T -> bool, s: seq<T>)
    requires forall x :: x in s ==> (f(x) <==> g(x))
    ensures Filter(f, s) == Filter(g, s)
    decreases |s|
  {
    if s != [] {
      assert forall x :: x in s[1..] ==> x in s;
      FilterExt(f, g, s[1..]);
    }
  }

  /** If some element passes the test, the filter keeps the first one that does. */
  lemma {:induction false} FilterFirstOf<T>(f: T -> bool, s: seq<T>, i: nat)
    requires i < |s| && f(s[i])
    requires forall j :: 0 <= j < i ==> !f(s[j])
    ensures Filter(f, s) != [] && Filter(f, s)[0] == s[i]
    decreases |s|
  {
    if i > 0 {
      FilterFirstOf(f, s[1..], i - 1);
    }
  }
}
