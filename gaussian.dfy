/** `Gaussian`: a normal distribution given by its mean and standard deviation, or estimated
    from a dataset. The density and the numerical integrator are parameters; what is
    modelled is the estimation, the z-score, the case analysis of `probability`, the guard
    of `plot_pdf` and the sum of two independent Gaussians. */
module Gaussians {
  import opened Python
  import opened Deviations
  import opened Sums
  import opened Estimators
  import opened Intervals
  import Base

  const EmptyMessage := "The input dataset should have at least one element."
  const PlotMessage := "Load the dataset first to plot the graphs."

  /** What `from_dataset` computes before building the instance: an empty dataset is
      refused with ValueError, a single value taken as a sample divides by zero; otherwise
      the mean times the length is the sum of the data and the std squared is the variance
      with the chosen divisor. */
  function Estimate(ds: seq<real>, isSample: bool): (r: Result<(real, Deviation)>)
    ensures r.Ok? <==> |ds| > 0 && !(isSample && |ds| == 1)
    ensures |ds| == 0 ==> r == Err(ValueError(EmptyMessage))
    ensures isSample && |ds| == 1 ==> r == Err(ZeroDivisionError)
    ensures r.Ok? ==> r.value.0 * |ds| as real == Sum(ds)
    ensures r.Ok? ==> r.value.1.radicand >= 0.0 && Square(r.value.1) == VarianceOf(ds, isSample).value
  {
    if |ds| == 0 then Err(ValueError(EmptyMessage))
    else
      var std :- StandardDeviationOf(ds, isSample);
      Ok((MeanOf(ds).value, std))
  }

  /** The operand of `+`: `type(other) is Gaussian` holds only for this exact class. */
  datatype Operand = Exactly(g: Gaussian) | Other

  class Gaussian {
    /** The inherited `Distribution` part: mean, std and data. */
    const base: Base.Distribution<real>

    /** The standard deviation stands for a real number (its radicand is not negative). */
    ghost predicate Valid() {
      base.std.radicand >= 0.0
    }

    /** `Gaussian(mean, std)`; a literal std is `Plain(std)`. */
    constructor (mean: real, std: Deviation)
      requires std.radicand >= 0.0
      ensures base.mean == mean && base.std == std && Valid()
      ensures fresh(base) && base.data == []
    {
      base := new Base.Distribution(mean, std);
    }

    /** `from_dataset`: the estimated mean and std, and the input dataset stored as the
        instance's data, in the same order. */
    static method FromDataset(ds: seq<real>, isSample: bool) returns (r: Result<Gaussian>)
      ensures r.Ok? <==> Estimate(ds, isSample).Ok?
      ensures r.Err? ==> r.error == Estimate(ds, isSample).error
      ensures r.Ok? ==> fresh(r.value) && fresh(r.value.base) && r.value.Valid()
      ensures r.Ok? ==> (r.value.base.mean, r.value.base.std) == Estimate(ds, isSample).value
      ensures r.Ok? ==> r.value.base.data == ds
    {
      match Estimate(ds, isSample)
      case Err(e) =>
        r := Err(e);
      case Ok((mean, std)) =>
        var g := new Gaussian(mean, std);
        g.base.data := ds;
        r := Ok(g);
    }

    /** `z_score(x)`: `(x - mean) / std`; zero at the mean, and ZeroDivisionError when
        the std is zero. */
    function ZScore(x: real): (r: Result<Deviation>)
      ensures r.Err? <==> IsZero(base.std)
      ensures r.Err? ==> r.error == ZeroDivisionError
      ensures forall s :: Denotes(base.std, s) && s != 0.0 ==> r.Ok? && Denotes(r.value, (x - base.mean) / s)
      ensures r.Ok? && Valid() && x == base.mean ==> Denotes(r.value, 0.0)
    {
      Deviations.ZScore(x, base.mean, base.std)
    }

    /** `probability(a=-inf, b=inf)`, where `integral(lo, hi)` is what the numerical
        integration of the density from lo to hi returns. The integration calls `pdf`, so
        with a zero std its ZeroDivisionError propagates. */
    function Probability(integral: (Bound, Bound) -> real, a: Bound := NegInf, b: Bound := PosInf): (r: Result<real>)
      ensures a == NegInf && b == PosInf ==> r == Ok(1.0)
      ensures a == b ==> r == Ok(0.0)
      ensures r.Err? <==> IntegrationRange(a, b).Some? && IsZero(base.std)
      ensures r.Err? ==> r.error == ZeroDivisionError
      ensures IntegrationRange(a, b).Some? && !IsZero(base.std) ==>
        r == Ok(integral(IntegrationRange(a, b).value.0, IntegrationRange(a, b).value.1))
    {
      ProbabilityCases(a, b, integral);
      if IntegrationRange(a, b).Some? && IsZero(base.std) then Err(ZeroDivisionError)
      else Ok(Intervals.Probability(a, b, integral))
    }

    /** `pdf(x)`, where `density(x)` stands for the value of
        `1 / (std * sqrt(2 pi)) * exp(-z**2 / 2)`: the leading division raises
        ZeroDivisionError when the std is zero. */
    function Pdf(density: real -> real, x: real): (r: Result<real>)
      ensures r.Err? <==> IsZero(base.std)
      ensures r.Err? ==> r.error == ZeroDivisionError
      ensures r.Ok? ==> r.value == density(x)
    {
      if IsZero(base.std) then Err(ZeroDivisionError) else Ok(density(x))
    }

    /** The failures of `plot_pdf`: refused without data, the grid step
        `(max - min) / n_spaces` divides by zero when `n_spaces` is 0, and with at least one
        grid point the first `pdf` call divides by a zero std. */
    function PlotPdf(nSpaces: int := 50): (r: Outcome)
      reads base
      ensures r.Raised? <==> |base.data| == 0 || nSpaces == 0 || (nSpaces > 0 && IsZero(base.std))
      ensures |base.data| == 0 ==> r == Raised(ValueError(PlotMessage))
      ensures |base.data| > 0 && r.Raised? ==> r == Raised(ZeroDivisionError)
    {
      if |base.data| == 0 then Raised(ValueError(PlotMessage))
      else if nSpaces == 0 then Raised(ZeroDivisionError)
      else if nSpaces > 0 && IsZero(base.std) then Raised(ZeroDivisionError)
      else Done
    }

    /** `self + other`: only an exact Gaussian combines, into a fresh Gaussian with empty
        data whose mean is the sum of the means and whose std is the non-negative root of
        the sum of the variances. Anything else is NotImplemented. */
    method Add(other: Operand) returns (r: Operation<Gaussian>)
      requires Valid() && (other.Exactly? ==> other.g.Valid())
      ensures r.Returned? <==> other.Exactly?
      ensures r.Returned? ==> fresh(r.value) && r.value.Valid() && r.value.base.data == []
      ensures r.Returned? ==> r.value.base.mean == base.mean + other.g.base.mean
      ensures r.Returned? ==> r.value.base.std == IndependentSum(base.std, other.g.base.std)
      ensures r.Returned? ==> Square(r.value.base.std) == Square(base.std) + Square(other.g.base.std)
    {
      if other.Exactly? {
        var sum := new Gaussian(base.mean + other.g.base.mean, IndependentSum(base.std, other.g.base.std));
        r := Returned(sum);
      } else {
        r := NotImplemented;
      }
    }
  }

  /** Gaussian(25, 3) + Gaussian(30, 4) has mean 55 and standard deviation exactly 5. */
  lemma SumExample()
    ensures Denotes(IndependentSum(Plain(3.0), Plain(4.0)), 5.0)
  {
  }

  /** The default bounds give probability one and equal bounds give zero. */
  lemma ProbabilityDefaults(g: Gaussian, integral: (Bound, Bound) -> real, x: real)
    ensures g.Probability(integral) == Ok(1.0)
    ensures g.Probability(integral, Fin(x), Fin(x)) == Ok(0.0)
  {
  }
}
