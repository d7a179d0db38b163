/**
 * Ordering a sequence by an integer key. Both pipeline stages sort: the
 * daily quotes by their date label, the cleaned rows by their Date cell.
 * Neither promises an order among elements with equal keys, so the
 * specification is a non-decreasing order and a permutation.
 */
module Sorting {

  /** Non-decreasing by `key`, one neighbour at a time; elements with equal
      keys may come in any order. */
  predicate SortedBy<T>(xs: seq<T>, key: T -> int) {
    |xs| <= 1 || (key(xs[0]) <= key(xs[1]) && SortedBy(xs[1..], key))
  }

  /** Neighbour by neighbour is the same as every earlier element having a
      key no larger than every later one. */
  lemma {:induction false} SortedByPairs<T>(xs: seq<T>, key: T -> int)
    ensures SortedBy(xs, key) <==> forall i, j :: 0 <= i < j < |xs| ==> key(xs[i]) <= key(xs[j])
  {
    if |xs| > 1 {
      SortedByPairs(xs[1..], key);
      if SortedBy(xs, key) {
        forall i, j | 0 <= i < j < |xs|
          ensures key(xs[i]) <= key(xs[j])
        {
          if i > 0 {
            assert xs[i] == xs[1..][i - 1] && xs[j] == xs[1..][j - 1];
          } else if j > 1 {
            assert xs[1] == xs[1..][0] && xs[j] == xs[1..][j - 1];
          }
        }
      }
      if forall i, j :: 0 <= i < j < |xs| ==> key(xs[i]) <= key(xs[j]) {
        forall i, j | 0 <= i < j < |xs[1..]|
          ensures key(xs[1..][i]) <= key(xs[1..][j])
        {
          assert xs[1..][i] == xs[i + 1] && xs[1..][j] == xs[j + 1];
        }
      }
    }
  }

  /** `x` placed into the sorted `xs` after every element with a smaller key. */
  function Insert<T>(x: T, xs: seq<T>, key: T -> int): (ys: seq<T>)
    requires SortedBy(xs, key)
    ensures SortedBy(ys, key)
    ensures multiset(ys) == multiset(xs) + multiset{x}
    ensures ys[0] == x || (xs != [] && ys[0] == xs[0])
  {
    if xs == [] || key(x) <= key(xs[0]) then
      assert ([x] + xs)[1..] == xs;
      [x] + xs
    else
      var rest := Insert(x, xs[1..], key);
      assert xs == [xs[0]] + xs[1..];
      assert ([xs[0]] + rest)[1..] == rest;
      [xs[0]] + rest
  }

  /** The elements of `xs`, reordered so that their keys do not decrease. */
  function Sort<T>(xs: seq<T>, key: T -> int): (ys: seq<T>)
    ensures SortedBy(ys, key)
    ensures multiset(ys) == multiset(xs)
  {
    if xs == [] then
      []
    else
      assert xs == [xs[0]] + xs[1..];
      Insert(xs[0], Sort(xs[1..], key), key)
  }

  /** Two orderings of the same elements, each without one copy of `x`,
      still hold the same elements. */
  lemma PermutationWithout<T>(x: T, tail: seq<T>, a: seq<T>, b: seq<T>)
    requires multiset([x] + tail) == multiset(a + [x] + b)
    ensures multiset(tail) == multiset(a + b)
  {
    assert multiset(tail) == multiset([x] + tail) - multiset{x};
    assert multiset(a + b) == multiset(a + [x] + b) - multiset{x};
  }

  /** The only ordering of a single element is that element alone. */
  lemma OnlyElement<T>(xs: seq<T>, x: T)
    requires multiset(xs) == multiset([x])
    ensures xs == [x]
  {
    assert |xs| == |multiset(xs)| == 1;
    assert xs[0] in multiset(xs);
  }
}
