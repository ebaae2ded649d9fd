/** The exact arithmetic behind `Binomial.pmf`: powers (`p**x`), `math.comb`, and the
    binomial theorem, from which the probabilities of 0..n successes add up to one. */
module BinomialMath {
  import opened Sums

  /** `x**k` for a natural exponent; `0**0 == 1` as in Python. */
  function Pow(x: real, k: nat): real {
    if k == 0 then 1.0 else x * Pow(x, k - 1)
  }

  /** A power of a non-negative base is non-negative. */
  lemma {:induction false} PowNonNegative(x: real, k: nat)
    requires x >= 0.0
    ensures Pow(x, k) >= 0.0
  {
    if k > 0 {
      PowNonNegative(x, k - 1);
      NonNegativeProduct(x, Pow(x, k - 1));
    }
  }

  /** Every power of one is one. */
  lemma {:induction false} PowOfOne(k: nat)
    ensures Pow(1.0, k) == 1.0
  {
    if k > 0 {
      PowOfOne(k - 1);
    }
  }

  lemma NonNegativeProduct(a: real, b: real)
    requires a >= 0.0 && b >= 0.0
    ensures a * b >= 0.0
  {
  }

  /** `math.comb(n, k)`: the number of k-element subsets of n elements, zero when k > n.
      Defined by Pascal's rule. */
  function Comb(n: nat, k: nat): nat {
    if k == 0 then 1
    else if n == 0 then 0
    else Comb(n - 1, k - 1) + Comb(n - 1, k)
  }

  function Factorial(n: nat): nat {
    if n == 0 then 1 else n * Factorial(n - 1)
  }

  /** There are no subsets with more elements than the set. */
  lemma {:induction false} CombAbove(n: nat, k: nat)
    requires k > n
    ensures Comb(n, k) == 0
  {
    if n > 0 {
      CombAbove(n - 1, k - 1);
      CombAbove(n - 1, k);
    }
  }

  /** Exactly one subset takes every element. */
  lemma {:induction false} CombAll(n: nat)
    ensures Comb(n, n) == 1
  {
    if n > 0 {
      CombAll(n - 1);
      CombAbove(n - 1, n);
    }
  }

  /** Pascal's rule agrees with the closed form `math.comb` documents:
      `comb(n, k) == n! / (k! * (n - k)!)` for `k <= n`. */
  lemma {:induction false} CombFactorials(n: nat, k: nat)
    requires k <= n
    ensures Comb(n, k) * (Factorial(k) * Factorial(n - k)) == Factorial(n)
  {
    if k == 0 {
    } else if k == n {
      CombAll(n);
    } else {
      var j := n - k;
      CombFactorials(n - 1, k - 1);
      CombFactorials(n - 1, k);
      assert n - 1 - (k - 1) == j && n - 1 - k == j - 1;
      PascalFactorials(Comb(n - 1, k - 1), Comb(n - 1, k), k, j,
                       Factorial(k - 1), Factorial(j - 1), Factorial(n - 1));
    }
  }

  lemma PascalFactorials(x: int, y: int, k: int, j: int, fk: int, fj: int, f: int)
    requires x * (fk * (j * fj)) == f
    requires y * ((k * fk) * fj) == f
    ensures (x + y) * ((k * fk) * (j * fj)) == (k + j) * f
  {
    assert (x + y) * ((k * fk) * (j * fj)) == k * (x * (fk * (j * fj))) + j * (y * ((k * fk) * fj));
  }

  /** The probability of exactly `k` successes in `n` trials, `comb(n,k) * p**k * q**(n-k)`,
      and zero for `k > n`. */
  function Term(n: nat, k: nat, p: real, q: real): real {
    if k > n then 0.0 else Comb(n, k) as real * Pow(p, k) * Pow(q, n - k)
  }

  /** The table of `Term(n, k, p, q)` for k = 0..n, as `plot_pmf` lists it. */
  function Row(n: nat, p: real, q: real): (r: seq<real>)
    ensures |r| == n + 1
  {
    seq(n + 1, k requires 0 <= k <= n => Term(n, k, p, q))
  }

  /** Splitting on the last of n trials: k successes in n trials are k successes in the
      first n-1 trials and a failure, or k-1 of them and a success. */
  lemma TermStep(n: nat, k: nat, p: real, q: real)
    requires n >= 1 && k >= 1
    ensures Term(n, k, p, q) == q * Term(n - 1, k, p, q) + p * Term(n - 1, k - 1, p, q)
  {
    if k < n {
      assert n - 1 - (k - 1) == n - k;
      assert n - k == (n - 1 - k) + 1;
      Distribute(Comb(n - 1, k - 1) as real, Comb(n - 1, k) as real, Pow(p, k), Pow(p, k - 1),
                 Pow(q, n - k), Pow(q, n - 1 - k), p, q);
    } else if k == n {
      CombAll(n);
      CombAll(n - 1);
    }
  }

  lemma Distribute(a: real, b: real, pk: real, pk1: real, qk: real, qk1: real, p: real, q: real)
    requires pk == p * pk1 && qk == q * qk1
    ensures (a + b) * pk * qk == q * (b * pk * qk1) + p * (a * pk1 * qk)
  {
  }

  /** The row for n trials is the row for n-1 trials shifted and weighted by the last trial. */
  lemma RowStep(n: nat, p: real, q: real)
    requires n >= 1
    ensures Sum(Row(n, p, q)) == q * Sum(Row(n - 1, p, q) + [0.0]) + p * Sum([0.0] + Row(n - 1, p, q))
  {
    var row, below := Row(n, p, q), Row(n - 1, p, q);
    var failed, succeeded := below + [0.0], [0.0] + below;
    forall k | 0 <= k < |row|
      ensures row[k] == q * failed[k] + p * succeeded[k]
    {
      if k == 0 {
        assert row[k] == Term(n, 0, p, q) && failed[k] == Term(n - 1, 0, p, q) && succeeded[k] == 0.0;
      } else {
        TermStep(n, k, p, q);
        assert succeeded[k] == below[k - 1];
      }
    }
    SumLinear(row, failed, succeeded, p, q);
  }

  /** The binomial theorem: the terms for 0..n successes add up to `(p + q)**n`. */
  lemma {:induction false} BinomialTheorem(n: nat, p: real, q: real)
    ensures Sum(Row(n, p, q)) == Pow(p + q, n)
  {
    if n == 0 {
      assert Row(n, p, q) == [1.0];
    } else {
      var below := Row(n - 1, p, q);
      BinomialTheorem(n - 1, p, q);
      RowStep(n, p, q);
      SumAppend(below, 0.0);
      assert ([0.0] + below)[1..] == below;
      Factor(Sum(Row(n, p, q)), Sum(below + [0.0]), Sum([0.0] + below), Pow(p + q, n - 1), p, q);
    }
  }

  lemma Factor(whole: real, x1: real, x0: real, x: real, p: real, q: real)
    requires whole == q * x1 + p * x0 && x1 == x && x0 == x
    ensures whole == (p + q) * x
  {
  }

  /** With `q == 1 - p` the probabilities of 0..n successes add up to one. */
  lemma PmfSumsToOne(n: nat, p: real)
    ensures Sum(Row(n, p, 1.0 - p)) == 1.0
  {
    BinomialTheorem(n, p, 1.0 - p);
    PowOfOne(n);
  }

  /** For a probability `p`, no term is negative and none exceeds one. */
  lemma TermIsProbability(n: nat, k: nat, p: real)
    requires 0.0 <= p <= 1.0
    ensures 0.0 <= Term(n, k, p, 1.0 - p) <= 1.0
  {
    TermNonNegative(n, k, p);
    if k <= n {
      var row := Row(n, p, 1.0 - p);
      forall j | 0 <= j < |row|
        ensures row[j] >= 0.0
      {
        TermNonNegative(n, j, p);
      }
      ElementAtMostSum(row, k);
      PmfSumsToOne(n, p);
    }
  }

  /** The same bound, for any arguments that satisfy the binomial's invariant. */
  lemma TermWhenProbability(n: nat, k: nat, p: real, q: real)
    ensures 0.0 <= p <= 1.0 && q == 1.0 - p ==> 0.0 <= Term(n, k, p, q) <= 1.0
  {
    if 0.0 <= p <= 1.0 && q == 1.0 - p {
      TermIsProbability(n, k, p);
    }
  }

  lemma TermNonNegative(n: nat, k: nat, p: real)
    requires 0.0 <= p <= 1.0
    ensures Term(n, k, p, 1.0 - p) >= 0.0
  {
    if k <= n {
      PowNonNegative(p, k);
      PowNonNegative(1.0 - p, n - k);
      NonNegativeProduct(Comb(n, k) as real, Pow(p, k));
      NonNegativeProduct(Comb(n, k) as real * Pow(p, k), Pow(1.0 - p, n - k));
    }
  }
}
