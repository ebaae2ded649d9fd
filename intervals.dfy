/** The case analysis of `probability(a, b)` around the numerical integrator: the bounds are
    floats that may be infinite, two shortcuts answer without integrating, and otherwise the
    bounds are put in order before integrating the density between them. */
module Intervals {
  import opened Options

  /** A float bound of integration: -inf, a finite number, or +inf. */
  datatype Bound = NegInf | Fin(x: real) | PosInf

  /** The order `<=` of the extended real line. */
  predicate AtMost(a: Bound, b: Bound) {
    match (a, b)
    case (NegInf, _) => true
    case (_, PosInf) => true
    case (Fin(x), Fin(y)) => x <= y
    case _ => false
  }

  /** `a > b` as Python compares floats, infinities included. */
  predicate Greater(a: Bound, b: Bound) {
    !AtMost(a, b)
  }

  /** The bounds handed to the integrator, or None when a shortcut answers without it:
      (-inf, +inf) gives 1 and (a, a) gives 0; otherwise the bounds are swapped when
      `a > b`. */
  function IntegrationRange(a: Bound, b: Bound): (r: Option<(Bound, Bound)>)
    ensures r.None? <==> (a == NegInf && b == PosInf) || a == b
    ensures r.Some? ==> AtMost(r.value.0, r.value.1) && r.value.0 != r.value.1
    ensures r.Some? ==> r.value == (a, b) || r.value == (b, a)
  {
    if a == NegInf && b == PosInf then None
    else if a == b then None
    else if Greater(a, b) then Some((b, a))
    else Some((a, b))
  }

  /** `probability(a, b)`, where `integral(lo, hi)` stands for the value returned by the
      numerical integration of the density from lo to hi. */
  function Probability(a: Bound, b: Bound, integral: (Bound, Bound) -> real): real {
    if a == NegInf && b == PosInf then 1.0
    else if a == b then 0.0
    else
      var (lo, hi) := if Greater(a, b) then (b, a) else (a, b);
      integral(lo, hi)
  }

  /** Every call either takes a shortcut or integrates over the ordered bounds. */
  lemma ProbabilityCases(a: Bound, b: Bound, integral: (Bound, Bound) -> real)
    ensures a == NegInf && b == PosInf ==> Probability(a, b, integral) == 1.0
    ensures a == b ==> Probability(a, b, integral) == 0.0
    ensures IntegrationRange(a, b).Some? ==>
      Probability(a, b, integral) == integral(IntegrationRange(a, b).value.0, IntegrationRange(a, b).value.1)
  {
  }

  /** Swapping the bounds does not change the answer, except for the pair (+inf, -inf):
      it misses the full-support shortcut and is integrated over (-inf, +inf). */
  lemma ProbabilitySymmetric(a: Bound, b: Bound, integral: (Bound, Bound) -> real)
    ensures !(a == NegInf && b == PosInf) && !(a == PosInf && b == NegInf) ==>
      Probability(a, b, integral) == Probability(b, a, integral)
    ensures Probability(PosInf, NegInf, integral) == integral(NegInf, PosInf)
  {
    if a != b && !(a == NegInf && b == PosInf) && !(a == PosInf && b == NegInf) {
      assert Greater(a, b) <==> !Greater(b, a);
    }
  }
}
