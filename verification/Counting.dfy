/** Counting the elements of a sequence that satisfy a predicate. */
module Counting {

  function Count<T>(xs: seq<T>, p: T -> bool): nat {
    if xs == [] then 0
    else Count(xs[..|xs| - 1], p) + if p(xs[|xs| - 1]) then 1 else 0
  }

  lemma {:induction false} CountAppend<T>(xs: seq<T>, x: T, p: T -> bool)
    ensures Count(xs + [x], p) == Count(xs, p) + if p(x) then 1 else 0
  {
    assert (xs + [x])[..|xs|] == xs;
  }

  lemma {:induction false} CountUpdate<T>(xs: seq<T>, i: nat, x: T, p: T -> bool)
    requires i < |xs|
    ensures Count(xs[i := x], p)
         == Count(xs, p) - (if p(xs[i]) then 1 else 0) + if p(x) then 1 else 0
  {
    var n := |xs| - 1;
    var ys := xs[i := x];
    if i == n {
      assert ys[..n] == xs[..n];
    } else {
      assert ys[..n] == xs[..n][i := x];
      CountUpdate(xs[..n], i, x, p);
    }
  }

  /** A positive count has a witness, and a witness makes the count positive. */
  lemma {:induction false} CountPositive<T>(xs: seq<T>, p: T -> bool)
    ensures Count(xs, p) > 0 <==> exists i :: 0 <= i < |xs| && p(xs[i])
  {
    if xs == [] {
    } else {
      var n := |xs| - 1;
      var front := xs[..n];
      CountPositive(front, p);
      if p(xs[n]) {
      } else if exists i :: 0 <= i < |xs| && p(xs[i]) {
        var i :| 0 <= i < |xs| && p(xs[i]);
        assert front[i] == xs[i];
      }
    }
  }

  /** A count of one leaves no room for two matches. */
  lemma {:induction false} CountOneUnique<T>(xs: seq<T>, p: T -> bool, i: nat, j: nat)
    requires Count(xs, p) <= 1 && i < |xs| && j < |xs| && p(xs[i]) && p(xs[j])
    ensures i == j
  {
    var n := |xs| - 1;
    CountPositive(xs[..n], p);
    if p(xs[n]) {
      assert forall k | 0 <= k < n :: xs[..n][k] == xs[k];
    } else {
      CountOneUnique(xs[..n], p, i, j);
    }
  }

  /** Predicates that agree on every element count the same. */
  lemma {:induction false} CountSame<T>(xs: seq<T>, p: T -> bool, q: T -> bool)
    requires forall i :: 0 <= i < |xs| ==> p(xs[i]) == q(xs[i])
    ensures Count(xs, p) == Count(xs, q)
  {
    if xs == [] {
    } else {
      CountSame(xs[..|xs| - 1], p, q);
    }
  }

  /** A predicate that is the disjoint union of two others counts as their sum. */
  lemma {:induction false} CountSplit<T>(xs: seq<T>, whole: T -> bool, p: T -> bool, q: T -> bool)
    requires forall i :: 0 <= i < |xs| ==> !(p(xs[i]) && q(xs[i])) && (whole(xs[i]) <==> p(xs[i]) || q(xs[i]))
    ensures Count(xs, whole) == Count(xs, p) + Count(xs, q)
  {
    if xs == [] {
    } else {
      CountSplit(xs[..|xs| - 1], whole, p, q);
    }
  }

  /** The positions that satisfy a predicate. */
  ghost function Positions<T>(xs: seq<T>, p: T -> bool): set<nat> {
    set i: nat | i < |xs| && p(xs[i])
  }

  lemma {:induction false} CountIsCardinality<T>(xs: seq<T>, p: T -> bool)
    ensures Count(xs, p) == |Positions(xs, p)|
  {
    if xs == [] {
      assert Positions(xs, p) == {};
    } else {
      var n := |xs| - 1;
      CountIsCardinality(xs[..n], p);
      var front := Positions(xs[..n], p);
      if p(xs[n]) {
        assert Positions(xs, p) == front + {n};
      } else {
        assert Positions(xs, p) == front;
      }
    }
  }

  /** A map that is injective on a finite set preserves its size. */
  lemma {:induction false} InjectiveImage(a: set<nat>, b: set<nat>, f: nat -> nat)
    requires forall x | x in a :: f(x) in b
    requires forall x, y | x in a && y in a && f(x) == f(y) :: x == y
    requires forall y | y in b :: exists x :: x in a && f(x) == y
    ensures |a| == |b|
  {
    if a == {} {
      assert b == {};
    } else {
      var x :| x in a;
      var a', b' := a - {x}, b - {f(x)};
      forall y | y in b' ensures exists z :: z in a' && f(z) == y {
        var z :| z in a && f(z) == y;
        assert z in a';
      }
      InjectiveImage(a', b', f);
    }
  }
}
