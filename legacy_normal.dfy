/** `NormalDistribution` of the older `distributions` package. Its `from_dataset` has no
    empty-dataset check: an empty dataset fails inside `mean_of` with ZeroDivisionError. */
module LegacyNormal {
  import opened Python
  import opened Deviations
  import opened Sums
  import opened Estimators
  import opened Intervals
  import LegacyBase

  /** What `from_dataset` computes before building the instance: the empty dataset divides
      by zero in `mean_of`; otherwise the mean times the length is the sum and the std
      squared is the variance with the chosen divisor. */
  function Estimate(ds: seq<real>, isSample: bool): (r: Result<(real, Deviation)>)
    requires !(isSample && |ds| == 1)
    ensures r.Ok? <==> |ds| > 0
    ensures |ds| == 0 ==> r == Err(ZeroDivisionError)
    ensures r.Ok? ==> r.value.0 * |ds| as real == Sum(ds)
    ensures r.Ok? ==> r.value.1.radicand >= 0.0 && Square(r.value.1) == VarianceOf(ds, isSample).value
  {
    var mean :- MeanOf(ds);
    Ok((mean, StandardDeviationOf(ds, isSample).value))
  }

  /** A z-score computed in numpy floats: a finite value, or the inf or nan that a numpy
      division by zero gives (with a warning, not an exception). */
  datatype NumpyScore = Finite(z: Deviation) | InfOrNan

  /** The operand of `+`: `type(other) is NormalDistribution` holds only for this class. */
  datatype Operand = Exactly(d: NormalDistribution) | Other

  class NormalDistribution {
    const base: LegacyBase.Distribution
    /** Whether the mean is a numpy float rather than a Python number: true when it comes
        from `mean_of` over the numpy array `from_dataset` builds, or from a sum with such a
        mean. */
    const numpyMean: bool

    ghost predicate Valid() {
      base.std.radicand >= 0.0
    }

    /** `NormalDistribution(mean, std)`, where `numpyMean` says whether the `mean` passed is a
        numpy float. */
    constructor (mean: real, std: Deviation, numpyMean: bool)
      requires std.radicand >= 0.0
      ensures base.mean == mean && base.std == std && this.numpyMean == numpyMean && Valid()
      ensures fresh(base) && base.data == []
    {
      base := new LegacyBase.Distribution(mean, std);
      this.numpyMean := numpyMean;
    }

    /** `from_dataset`: the estimated mean and std, with the (already flat) dataset stored
        as the instance's data in its order; the mean is a numpy float. */
    static method FromDataset(ds: seq<real>, isSample: bool) returns (r: Result<NormalDistribution>)
      requires !(isSample && |ds| == 1)
      ensures r.Ok? <==> Estimate(ds, isSample).Ok?
      ensures r.Err? ==> r.error == Estimate(ds, isSample).error
      ensures r.Ok? ==> fresh(r.value) && fresh(r.value.base) && r.value.Valid()
      ensures r.Ok? ==> (r.value.base.mean, r.value.base.std) == Estimate(ds, isSample).value
      ensures r.Ok? ==> r.value.base.data == ds && r.value.numpyMean
    {
      match Estimate(ds, isSample)
      case Err(e) =>
        r := Err(e);
      case Ok((mean, std)) =>
        var d := new NormalDistribution(mean, std, true);
        d.base.data := ds;
        r := Ok(d);
    }

    /** `z_score(x)`: `(x - mean) / std`. With a Python mean a zero std raises
        ZeroDivisionError; with a numpy mean the division is numpy's and gives inf or nan. */
    function ZScore(x: real): (r: Result<NumpyScore>)
      ensures r.Err? <==> IsZero(base.std) && !numpyMean
      ensures r.Err? ==> r.error == ZeroDivisionError
      ensures r == Ok(InfOrNan) <==> IsZero(base.std) && numpyMean
      ensures forall s :: Denotes(base.std, s) && s != 0.0 ==>
        r.Ok? && r.value.Finite? && Denotes(r.value.z, (x - base.mean) / s)
      ensures r.Ok? && r.value.Finite? && Valid() && x == base.mean ==> Denotes(r.value.z, 0.0)
    {
      match Deviations.ZScore(x, base.mean, base.std)
      case Ok(z) => Ok(Finite(z))
      case Err(e) => if numpyMean then Ok(InfOrNan) else Err(e)
    }

    /** `pdf(x)`, where `density(x)` stands for the value of
        `1 / (std * sqrt(2 pi)) * exp(-z**2 / 2)`: the leading division raises
        ZeroDivisionError when the std is zero. */
    function Pdf(density: real -> real, x: real): (r: Result<real>)
      ensures r.Err? <==> IsZero(base.std)
      ensures r.Err? ==> r.error == ZeroDivisionError
      ensures r.Ok? ==> r.value == density(x)
    {
      if IsZero(base.std) then Err(ZeroDivisionError) else Ok(density(x))
    }

    /** The inherited `plot_pdf` run with this class's `pdf`: refused without data, a
        ZeroDivisionError for a zero std when there is a grid point; otherwise the grid
        (empty for `n_spaces <= 0`) with the density at each point. */
    method PlotPdf(density: real -> real, nSpaces: int := 50) returns (r: Result<(seq<real>, seq<real>)>)
      ensures r.Err? <==> |base.data| == 0 || (nSpaces > 0 && IsZero(base.std))
      ensures |base.data| == 0 ==> r == Err(ValueError(LegacyBase.PlotMessage))
      ensures |base.data| > 0 && r.Err? ==> r.error == ZeroDivisionError
      ensures r.Ok? ==> |r.value.0| == |r.value.1| == (if nSpaces > 0 then nSpaces else 0)
      ensures r.Ok? ==> forall i :: 0 <= i < |r.value.0| ==>
        r.value.0[i] == LegacyBase.GridPoint(LegacyBase.MinOf(base.data), LegacyBase.MaxOf(base.data), nSpaces, i) &&
        r.value.1[i] == density(r.value.0[i])
    {
      r := base.PlotPdf(x => Pdf(density, x), nSpaces);
      if |base.data| > 0 && nSpaces > 0 && IsZero(base.std) {
        var lo, hi := LegacyBase.MinOf(base.data), LegacyBase.MaxOf(base.data);
        assert Pdf(density, LegacyBase.GridPoint(lo, hi, nSpaces, 0)).Err?;
      }
    }

    /** `probability(a=-inf, b=inf)`, with the same shortcuts and swap as the current
        package; on the integrated path `quad` calls `pdf`, whose ZeroDivisionError for a
        zero std propagates. */
    function Probability(integral: (Bound, Bound) -> real, a: Bound := NegInf, b: Bound := PosInf): (r: Result<real>)
      ensures a == NegInf && b == PosInf ==> r == Ok(1.0)
      ensures a == b ==> r == Ok(0.0)
      ensures r.Err? <==> IntegrationRange(a, b).Some? && IsZero(base.std)
      ensures r.Err? ==> r.error == ZeroDivisionError
      ensures IntegrationRange(a, b).Some? && !IsZero(base.std) ==>
        r == Ok(integral(IntegrationRange(a, b).value.0, IntegrationRange(a, b).value.1))
    {
      ProbabilityCases(a, b, integral);
      if IntegrationRange(a, b).Some? && IsZero(base.std) then Err(ZeroDivisionError)
      else Ok(Intervals.Probability(a, b, integral))
    }

    /** `self + other`: means add (a numpy mean on either side makes the sum numpy) and
        the std is the root of the summed variances for an exact NormalDistribution;
        anything else is NotImplemented. */
    method Add(other: Operand) returns (r: Operation<NormalDistribution>)
      requires Valid() && (other.Exactly? ==> other.d.Valid())
      ensures r.Returned? <==> other.Exactly?
      ensures r.Returned? ==> fresh(r.value) && r.value.Valid() && r.value.base.data == []
      ensures r.Returned? ==> r.value.base.mean == base.mean + other.d.base.mean
      ensures r.Returned? ==> r.value.numpyMean == (numpyMean || other.d.numpyMean)
      ensures r.Returned? ==> r.value.base.std == IndependentSum(base.std, other.d.base.std)
      ensures r.Returned? ==> Square(r.value.base.std) == Square(base.std) + Square(other.d.base.std)
    {
      if other.Exactly? {
        var sum := new NormalDistribution(base.mean + other.d.base.mean, IndependentSum(base.std, other.d.base.std),
          numpyMean || other.d.numpyMean);
        r := Returned(sum);
      } else {
        r := NotImplemented;
      }
    }
  }
}
