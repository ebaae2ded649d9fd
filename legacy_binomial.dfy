/** `BinomialDistribution` of the older `distributions` package. Its constructor can never
    succeed, so only its static estimators and the z-score formula are usable. */
module LegacyBinomial {
  import opened Options
  import opened Python
  import opened Deviations
  import opened Estimators

  /** `BinomialDistribution(dataset, is_sample=True)` passes an `is_sample` keyword to the
      base constructor, which only takes `mean` and `std`: a TypeError for every input. */
  function Construct(dataset: seq<real>, isSample: bool := true): (r: Result<()>)
    ensures r == Err(TypeError)
  {
    Err(TypeError)
  }

  /** `standard_deviation_of(dataset, is_sample, mean_value=None)`: the divisor is chosen
      first; the mean is computed from the data only when none is passed. */
  function StandardDeviationOf(d: seq<real>, isSample: bool, meanValue: Option<real> := None): (r: Result<Deviation>)
    ensures r.Ok? <==> (meanValue.Some? || |d| > 0) && Divisor(|d|, isSample) != 0
    ensures r.Err? ==> r.error == ZeroDivisionError
    ensures r.Ok? && meanValue.Some? ==>
      r.value.radicand >= 0.0 && Square(r.value) * Divisor(|d|, isSample) as real == SquaredDeviations(d, meanValue.value)
  {
    var center :- if meanValue.Some? then Ok(meanValue.value) else MeanOf(d);
    var variance :- VarianceAbout(d, isSample, center);
    Ok(RootOf(variance))
  }

  /** Leaving out `mean_value` is the same as passing `mean_of(dataset)`, and both agree
      with the Gaussian estimator. */
  lemma DefaultMean(d: seq<real>, isSample: bool)
    ensures |d| > 0 ==> StandardDeviationOf(d, isSample) == StandardDeviationOf(d, isSample, Some(MeanOf(d).value))
    ensures StandardDeviationOf(d, isSample) == Estimators.StandardDeviationOf(d, isSample)
  {
  }
}
