/** Order-preserving filtering of lists, as Python's list comprehensions with an `if`. */
module Seqs {

  /** The elements of `xs` that satisfy `p`, in their original order. */
  function Filter<T(!new)>(xs: seq<T>, p: T -> bool): (r: seq<T>)
    ensures |r| <= |xs|
    ensures forall x :: x in r <==> x in xs && p(x)
    decreases |xs|
  {
    if xs == [] then [] else (if p(xs[0]) then [xs[0]] else []) + Filter(xs[1..], p)
  }

  /** Each kept element occurs as often as in the input; each dropped one not at all. */
  lemma {:induction false} FilterCount<T(!new)>(xs: seq<T>, p: T -> bool, x: T)
    ensures multiset(Filter(xs, p))[x] == if p(x) then multiset(xs)[x] else 0
    decreases |xs|
  {
    if xs != [] {
      FilterCount(xs[1..], p, x);
      assert xs == [xs[0]] + xs[1..];
    }
  }

  /** Filtering a list with a given head: the head is kept exactly when it satisfies `p`. */
  lemma FilterCons<T(!new)>(x: T, xs: seq<T>, p: T -> bool)
    ensures Filter([x] + xs, p) == if p(x) then [x] + Filter(xs, p) else Filter(xs, p)
  {
    assert ([x] + xs)[0] == x && ([x] + xs)[1..] == xs;
  }

  /** An element kept in front of a list can pass one that is dropped. */
  lemma FilterPast<T(!new)>(a: T, b: T, xs: seq<T>, ys: seq<T>, p: T -> bool)
    requires !(p(a) && p(b))
    requires Filter(xs, p) == (if p(a) then [a] else []) + Filter(ys, p)
    ensures Filter([b] + xs, p) == (if p(a) then [a] else []) + Filter([b] + ys, p)
  {
    FilterCons(b, xs, p);
    FilterCons(b, ys, p);
    if p(a) {
      assert Filter([b] + xs, p) == Filter(xs, p);
    } else {
      assert Filter(xs, p) == Filter(ys, p) by {
        assert [] + Filter(ys, p) == Filter(ys, p);
      }
      assert [] + Filter([b] + ys, p) == Filter([b] + ys, p);
    }
  }

  /** Filtering distributes over concatenation. */
  lemma {:induction false} FilterAppend<T(!new)>(a: seq<T>, b: seq<T>, p: T -> bool)
    ensures Filter(a + b, p) == Filter(a, p) + Filter(b, p)
    decreases |a|
  {
    if a == [] {
      assert a + b == b;
    } else {
      var head := if p(a[0]) then [a[0]] else [];
      assert (a + b)[0] == a[0];
      assert (a + b)[1..] == a[1..] + b;
      FilterAppend(a[1..], b, p);
      calc {
        Filter(a + b, p);
        head + Filter(a[1..] + b, p);
        head + (Filter(a[1..], p) + Filter(b, p));
        (head + Filter(a[1..], p)) + Filter(b, p);
      }
    }
  }

  /** A filter that every element passes keeps the whole list. */
  lemma {:induction false} FilterAll<T(!new)>(xs: seq<T>, p: T -> bool)
    ensures (forall x :: x in xs ==> p(x)) ==> Filter(xs, p) == xs
    decreases |xs|
  {
    if xs != [] && forall x :: x in xs ==> p(x) {
      assert xs[0] in xs;
      assert forall x :: x in xs[1..] ==> x in xs;
      FilterAll(xs[1..], p);
      assert xs == [xs[0]] + xs[1..];
    }
  }

  /** `f` tells the elements of `xs` apart. */
  ghost predicate Injective<T, K>(xs: seq<T>, f: T -> K) {
    forall i, j :: 0 <= i < j < |xs| ==> f(xs[i]) != f(xs[j])
  }

  /** Filtering keeps elements told apart by `f` told apart. */
  lemma {:induction false} FilterInjective<T(!new), K>(xs: seq<T>, p: T -> bool, f: T -> K)
    requires Injective(xs, f)
    ensures Injective(Filter(xs, p), f)
    decreases |xs|
  {
    if xs != [] {
      var tail := xs[1..];
      assert Injective(tail, f) by {
        forall i, j | 0 <= i < j < |tail|
          ensures f(tail[i]) != f(tail[j])
        {
          assert tail[i] == xs[i + 1] && tail[j] == xs[j + 1];
        }
      }
      FilterInjective(tail, p, f);
      var r, rt := Filter(xs, p), Filter(tail, p);
      forall i, j | 0 <= i < j < |r|
        ensures f(r[i]) != f(r[j])
      {
        if p(xs[0]) {
          if i == 0 {
            assert r[j] == rt[j - 1] && rt[j - 1] in tail;
            var m :| 0 <= m < |tail| && tail[m] == rt[j - 1];
            assert tail[m] == xs[m + 1];
          } else {
            assert r[i] == rt[i - 1] && r[j] == rt[j - 1];
          }
        }
      }
    }
  }

}
