/** Sequence helpers shared by the query models: a `where` filter and distinctness. */
module Seqs {

  /** The elements of `xs` that satisfy `p`, in their original order (a query `where` clause). */
  function Where<T(==,!new)>(xs: seq<T>, p: T -> bool): (r: seq<T>)
    ensures |r| <= |xs|
    ensures forall x :: x in r <==> x in xs && p(x)
  {
    if |xs| == 0 then []
    else
      var init := xs[..|xs| - 1];
      assert xs == init + [xs[|xs| - 1]];
      Where(init, p) + (if p(xs[|xs| - 1]) then [xs[|xs| - 1]] else [])
  }

  /** Filtering commutes with concatenation, so the filter keeps the original order. */
  lemma {:induction false} WhereAppend<T(!new)>(a: seq<T>, b: seq<T>, p: T -> bool)
    ensures Where(a + b, p) == Where(a, p) + Where(b, p)
  {
    if |b| == 0 {
      assert a + b == a;
    } else {
      var b' := b[..|b| - 1];
      assert (a + b)[..|a + b| - 1] == a + b';
      assert (a + b)[|a + b| - 1] == b[|b| - 1];
      WhereAppend(a, b', p);
    }
  }

  /** Two filters that agree on every element of `xs` select the same subsequence. */
  lemma {:induction false} WhereCongruent<T(!new)>(xs: seq<T>, p: T -> bool, q: T -> bool)
    requires forall x :: x in xs ==> p(x) == q(x)
    ensures Where(xs, p) == Where(xs, q)
  {
    if |xs| > 0 {
      var init := xs[..|xs| - 1];
      assert forall x :: x in init ==> x in xs;
      WhereCongruent(init, p, q);
    }
  }

  /** A filter that no element satisfies selects nothing. */
  lemma WhereNone<T(!new)>(xs: seq<T>, p: T -> bool)
    requires forall x :: x in xs ==> !p(x)
    ensures Where(xs, p) == []
  {
    var r := Where(xs, p);
    assert forall i :: 0 <= i < |r| ==> r[i] in r;
  }

  /** Every element of `xs` is different from every other. */
  predicate NoDuplicates<T(==,!new)>(xs: seq<T>) {
    forall i, j :: 0 <= i < j < |xs| ==> xs[i] != xs[j]
  }
}
