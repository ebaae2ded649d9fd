/** The moment estimators shared by both Gaussian classes and the older binomial helpers:
    the arithmetic mean and the variance with the sample/population divisor choice. */
module Estimators {
  import opened Python
  import opened Deviations
  import opened Sums

  /** `sum(dataset) / len(dataset)`: ZeroDivisionError on an empty dataset. */
  function MeanOf(d: seq<real>): (r: Result<real>)
    ensures r.Err? <==> |d| == 0
    ensures r.Err? ==> r.error == ZeroDivisionError
    ensures r.Ok? ==> r.value * |d| as real == Sum(d)
  {
    if |d| == 0 then Err(ZeroDivisionError) else Ok(Sum(d) / |d| as real)
  }

  /** `sum((x - center)**2 for x in dataset)`. */
  function SquaredDeviations(d: seq<real>, center: real): real {
    if d == [] then 0.0 else (d[0] - center) * (d[0] - center) + SquaredDeviations(d[1..], center)
  }

  /** A sum of squares is never negative. */
  lemma {:induction false} SquaredDeviationsNonNegative(d: seq<real>, center: real)
    ensures SquaredDeviations(d, center) >= 0.0
  {
    if d != [] {
      SquaredDeviationsNonNegative(d[1..], center);
      var dev := d[0] - center;
      assert dev * dev >= 0.0;
    }
  }

  /** `len(dataset) - 1 if is_sample else len(dataset)`. */
  function Divisor(n: nat, isSample: bool): int {
    if isSample then n - 1 else n
  }

  /** The variance about a given center: the squared deviations over the divisor.
      ZeroDivisionError when the divisor is zero. */
  function VarianceAbout(d: seq<real>, isSample: bool, center: real): (r: Result<real>)
    ensures r.Err? <==> Divisor(|d|, isSample) == 0
    ensures r.Err? ==> r.error == ZeroDivisionError
    ensures r.Ok? ==> r.value >= 0.0
    ensures r.Ok? ==> r.value * Divisor(|d|, isSample) as real == SquaredDeviations(d, center)
  {
    var n := Divisor(|d|, isSample);
    if n == 0 then Err(ZeroDivisionError)
    else
      SquaredDeviationsNonNegative(d, center);
      assert n < 0 ==> d == [];
      Ok(SquaredDeviations(d, center) / n as real)
  }

  /** The variance about the dataset's own mean (the mean is computed first, so an empty
      dataset fails there). */
  function VarianceOf(d: seq<real>, isSample: bool): (r: Result<real>)
    ensures r.Ok? <==> |d| > 0 && Divisor(|d|, isSample) != 0
    ensures r.Err? ==> r.error == ZeroDivisionError
    ensures r.Ok? ==> r.value >= 0.0
    ensures r.Ok? ==> MeanOf(d).Ok?
    ensures r.Ok? ==> r.value * Divisor(|d|, isSample) as real == SquaredDeviations(d, MeanOf(d).value)
  {
    var mean :- MeanOf(d);
    VarianceAbout(d, isSample, mean)
  }

  /** `math.sqrt(variance)`, kept exact as the root of the variance. */
  function StandardDeviationOf(d: seq<real>, isSample: bool): (r: Result<Deviation>)
    ensures r.Ok? <==> VarianceOf(d, isSample).Ok?
    ensures r.Err? ==> r.error == ZeroDivisionError
    ensures r.Ok? ==> r.value.radicand >= 0.0 && Square(r.value) == VarianceOf(d, isSample).value
  {
    var variance :- VarianceOf(d, isSample);
    Ok(RootOf(variance))
  }

  /** Both estimators are defined for every dataset of two or more values, and the sample
      variance (divisor n-1) is the population variance (divisor n) scaled by n/(n-1),
      so it is never smaller. */
  lemma BesselCorrection(d: seq<real>)
    requires |d| >= 2
    ensures VarianceOf(d, true).Ok? && VarianceOf(d, false).Ok?
    ensures VarianceOf(d, true).value * (|d| - 1) as real == VarianceOf(d, false).value * |d| as real
    ensures VarianceOf(d, true).value >= VarianceOf(d, false).value
  {
    var sample, population := VarianceOf(d, true).value, VarianceOf(d, false).value;
    var n := |d| as real;
    assert sample * (n - 1.0) == population * n;
    assert population >= 0.0;
    assert sample * (n - 1.0) >= population * (n - 1.0) by {
      assert population * n >= population * (n - 1.0);
    }
    ScaleBack(sample, population, n - 1.0);
  }

  lemma ScaleBack(a: real, b: real, k: real)
    requires k > 0.0 && a * k >= b * k
    ensures a >= b
  {
    assert (a - b) * k >= 0.0;
    assert a - b == ((a - b) * k) / k;
  }
}
