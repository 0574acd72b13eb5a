/**
 * `Array.prototype.filter` as the admin home page uses it: a predicate is
 * applied to every element from left to right, and a new array holds the
 * elements for which it answered true, in their original order.
 */
module JsArray {

  /** `xs.filter(keep)`. */
  function Filter<T>(xs: seq<T>, keep: T -> bool): (r: seq<T>)
    ensures |r| <= |xs|
    ensures forall i :: 0 <= i < |r| ==> r[i] in xs && keep(r[i])
    ensures forall i :: 0 <= i < |xs| && keep(xs[i]) ==> xs[i] in r
    decreases |xs|
  {
    if xs == [] then []
    else if keep(xs[0]) then [xs[0]] + Filter(xs[1..], keep)
    else Filter(xs[1..], keep)
  }

  /** `r` is obtained from `xs` by deleting elements: same order, nothing added or changed. */
  ghost predicate Subsequence<T>(r: seq<T>, xs: seq<T>)
    decreases |xs|
  {
    if r == [] then true
    else if xs == [] then false
    else (r[0] == xs[0] && Subsequence(r[1..], xs[1..])) || Subsequence(r, xs[1..])
  }

  /** Filtering only deletes elements; the survivors keep their relative order. */
  lemma {:induction false} FilterIsSubsequence<T>(xs: seq<T>, keep: T -> bool)
    ensures Subsequence(Filter(xs, keep), xs)
    decreases |xs|
  {
    if xs != [] {
      FilterIsSubsequence(xs[1..], keep);
      var r := Filter(xs, keep);
      if keep(xs[0]) {
        assert r[0] == xs[0] && r[1..] == Filter(xs[1..], keep);
      } else if r != [] {
        assert r == Filter(xs[1..], keep);
      }
    }
  }

  /** A subsequence has every element of the original at most as often as the original. */
  lemma {:induction false} SubsequenceMultiset<T>(r: seq<T>, xs: seq<T>)
    requires Subsequence(r, xs)
    ensures multiset(r) <= multiset(xs)
    decreases |xs|
  {
    if r != [] {
      assert xs == [xs[0]] + xs[1..];
      if r[0] == xs[0] && Subsequence(r[1..], xs[1..]) {
        SubsequenceMultiset(r[1..], xs[1..]);
        assert r == [r[0]] + r[1..];
      } else {
        SubsequenceMultiset(r, xs[1..]);
      }
    }
  }

  /** Each kept value appears exactly as often as in the input; each dropped value not at all. */
  lemma {:induction false} FilterMultiplicity<T>(xs: seq<T>, keep: T -> bool, x: T)
    ensures multiset(Filter(xs, keep))[x] == if keep(x) then multiset(xs)[x] else 0
    decreases |xs|
  {
    if xs != [] {
      FilterMultiplicity(xs[1..], keep, x);
      assert xs == [xs[0]] + xs[1..];
      if keep(xs[0]) {
        assert Filter(xs, keep) == [xs[0]] + Filter(xs[1..], keep);
      }
    }
  }

  /** A predicate that accepts every element keeps the whole array. */
  lemma {:induction false} FilterKeepsAll<T>(xs: seq<T>, keep: T -> bool)
    requires forall x :: x in xs ==> keep(x)
    ensures Filter(xs, keep) == xs
    decreases |xs|
  {
    if xs != [] {
      assert forall x :: x in xs[1..] ==> x in xs;
      FilterKeepsAll(xs[1..], keep);
    }
  }

  /** Two predicates that agree on every element give the same filtered array. */
  lemma {:induction false} FilterCongruent<T>(xs: seq<T>, p: T -> bool, q: T -> bool)
    requires forall x :: x in xs ==> p(x) == q(x)
    ensures Filter(xs, p) == Filter(xs, q)
    decreases |xs|
  {
    if xs != [] {
      assert forall x :: x in xs[1..] ==> x in xs;
      FilterCongruent(xs[1..], p, q);
    }
  }

  /**
   * Filtering two arrays of equal length whose elements are pairwise related
   * by `R`, with a predicate that answers alike on each pair, gives two arrays
   * that are again pairwise related.
   */
  lemma {:induction false} FilterRelated<T>(a: seq<T>, b: seq<T>, keep: T -> bool, R: (T, T) -> bool)
    requires |a| == |b|
    requires forall i :: 0 <= i < |a| ==> R(a[i], b[i]) && keep(a[i]) == keep(b[i])
    ensures |Filter(a, keep)| == |Filter(b, keep)|
    ensures forall i :: 0 <= i < |Filter(a, keep)| ==> R(Filter(a, keep)[i], Filter(b, keep)[i])
    decreases |a|
  {
    if a != [] {
      forall i | 0 <= i < |a| - 1 ensures R(a[1..][i], b[1..][i]) && keep(a[1..][i]) == keep(b[1..][i]) {
        assert a[1..][i] == a[i + 1] && b[1..][i] == b[i + 1];
      }
      FilterRelated(a[1..], b[1..], keep, R);
      var ra, rb := Filter(a[1..], keep), Filter(b[1..], keep);
      if keep(a[0]) {
        var fa, fb := Filter(a, keep), Filter(b, keep);
        assert fa == [a[0]] + ra && fb == [b[0]] + rb;
        forall i | 0 <= i < |fa| ensures R(fa[i], fb[i]) {
          if i > 0 {
            assert fa[i] == ra[i - 1] && fb[i] == rb[i - 1];
          }
        }
      }
    }
  }
}
