/** Sequence helpers shared by the store and the views: JavaScript's `Array.prototype.filter`. */
module Seqs {

  /**
   * `s.filter(p)`. Defined from the back so that the effect of appending one element
   * (the step of a `forEach`) unfolds in one step.
   */
  function Filter<T>(s: seq<T>, p: T -> bool): (r: seq<T>)
    ensures |r| <= |s|
    ensures multiset(r) <= multiset(s)
    ensures forall x :: x in r ==> x in s && p(x)
    ensures forall x :: x in s && p(x) ==> x in r
    ensures (forall x :: x in s ==> p(x)) ==> r == s
    ensures (forall x :: x in s ==> !p(x)) ==> r == []
  {
    if s == [] then []
    else
      var init := s[..|s| - 1];
      var last := s[|s| - 1];
      assert s == init + [last];
      Filter(init, p) + (if p(last) then [last] else [])
  }

  /** Appending one element extends the filtered list by that element when it passes. */
  lemma FilterSnoc<T>(s: seq<T>, x: T, p: T -> bool)
    ensures Filter(s + [x], p) == Filter(s, p) + (if p(x) then [x] else [])
  {
    assert (s + [x])[..|s + [x]| - 1] == s;
  }

  /** A prefix one longer is the shorter prefix and the next element. */
  lemma PrefixSnoc<T>(s: seq<T>, n: nat)
    requires 0 < n <= |s|
    ensures s[..n] == s[..n - 1] + [s[n - 1]]
  {
  }

  /** Filtering distributes over concatenation. */
  lemma {:induction false} FilterConcat<T>(a: seq<T>, b: seq<T>, p: T -> bool)
    ensures Filter(a + b, p) == Filter(a, p) + Filter(b, p)
    decreases |b|
  {
    if b == [] {
      assert a + b == a;
    } else {
      var init := b[..|b| - 1];
      var last := b[|b| - 1];
      var tail := if p(last) then [last] else [];
      assert b == init + [last];
      assert a + b == (a + init) + [last];
      FilterConcat(a, init, p);
      FilterSnoc(a + init, last, p);
      FilterSnoc(init, last, p);
      ConcatAssoc(Filter(a, p), Filter(init, p), tail);
    }
  }

  /** Filtering two elements keeps those that pass, in order. */
  lemma FilterPair<T>(x: T, y: T, p: T -> bool)
    ensures Filter([x, y], p) == (if p(x) then [x] else []) + (if p(y) then [y] else [])
  {
    assert [x, y][..1] == [x] && [x][..0] == [];
  }

  /** Swapping two neighbours that do not both pass leaves the filtered list as it was. */
  lemma FilterSwapNeighbours<T>(front: seq<T>, x: T, y: T, back: seq<T>, p: T -> bool)
    requires !(p(x) && p(y))
    ensures Filter(front + [x, y] + back, p) == Filter(front + [y, x] + back, p)
  {
    FilterSwapLast(front, x, y, p);
    FilterConcat(front + [x, y], back, p);
    FilterConcat(front + [y, x], back, p);
  }

  /** The same swap at the end of the list. */
  lemma FilterSwapLast<T>(front: seq<T>, x: T, y: T, p: T -> bool)
    requires !(p(x) && p(y))
    ensures Filter(front + [x, y], p) == Filter(front + [y, x], p)
  {
    FilterSwapPair(x, y, p);
    FilterConcat(front, [x, y], p);
    FilterConcat(front, [y, x], p);
  }

  lemma FilterSwapPair<T>(x: T, y: T, p: T -> bool)
    requires !(p(x) && p(y))
    ensures Filter([x, y], p) == Filter([y, x], p)
  {
    FilterPair(x, y, p);
    FilterPair(y, x, p);
  }

  lemma ConcatAssoc<T>(a: seq<T>, b: seq<T>, c: seq<T>)
    ensures (a + b) + c == a + (b + c)
  {
  }
}
