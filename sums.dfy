/** Finite sums of reals, `sum(...)` over a list, and the few facts about them the
    estimators and the probability tables need. */
module Sums {
  /** `sum(s)`. */
  function Sum(s: seq<real>): real {
    if s == [] then 0.0 else s[0] + Sum(s[1..])
  }

  /** Appending a value adds it to the sum. */
  lemma {:induction false} SumAppend(s: seq<real>, x: real)
    ensures Sum(s + [x]) == Sum(s) + x
  {
    if s != [] {
      assert (s + [x])[1..] == s[1..] + [x];
      SumAppend(s[1..], x);
    }
  }

  /** Sums are linear: adding up `q * x[i] + p * y[i]` gives `q * sum(x) + p * sum(y)`. */
  lemma {:induction false} SumLinear(a: seq<real>, x: seq<real>, y: seq<real>, p: real, q: real)
    requires |a| == |x| == |y|
    requires forall i :: 0 <= i < |a| ==> a[i] == q * x[i] + p * y[i]
    ensures Sum(a) == q * Sum(x) + p * Sum(y)
  {
    if a != [] {
      SumLinear(a[1..], x[1..], y[1..], p, q);
      LinearStep(a[0], x[0], y[0], Sum(a[1..]), Sum(x[1..]), Sum(y[1..]), Sum(a), Sum(x), Sum(y), p, q);
    }
  }

  lemma LinearStep(a0: real, x0: real, y0: real, a1: real, x1: real, y1: real,
                   a: real, x: real, y: real, p: real, q: real)
    requires a0 == q * x0 + p * y0 && a1 == q * x1 + p * y1
    requires a == a0 + a1 && x == x0 + x1 && y == y0 + y1
    ensures a == q * x + p * y
  {
  }

  /** A sum of non-negative values is non-negative. */
  lemma {:induction false} SumNonNegative(s: seq<real>)
    requires forall i :: 0 <= i < |s| ==> s[i] >= 0.0
    ensures Sum(s) >= 0.0
  {
    if s != [] {
      SumNonNegative(s[1..]);
    }
  }

  /** Among non-negative values, each is at most their sum. */
  lemma {:induction false} ElementAtMostSum(s: seq<real>, i: nat)
    requires forall j :: 0 <= j < |s| ==> s[j] >= 0.0
    requires i < |s|
    ensures s[i] <= Sum(s)
  {
    if i == 0 {
      SumNonNegative(s[1..]);
    } else {
      ElementAtMostSum(s[1..], i - 1);
    }
  }
}
