/** `Distribution` of the older `distributions` package: the same stored mean and std as the
    current base class but no `data` setter, a histogram guard with its own message, and a
    `plot_pdf` that evaluates the density on an evenly spaced grid from the smallest to the
    largest data value. */
module LegacyBase {
  import opened Options
  import opened Python
  import opened Deviations
  import opened Text

  const HistogramMessage := "Load the dataset first to plot the graph."
  const PlotMessage := "Load the dataset first to plot the graphs."

  /** `min(data)`. */
  function MinOf(d: seq<real>): (m: real)
    requires |d| > 0
    ensures exists i :: 0 <= i < |d| && d[i] == m
    ensures forall i :: 0 <= i < |d| ==> m <= d[i]
  {
    if |d| == 1 then d[0]
    else
      var rest := MinOf(d[1..]);
      assert forall i :: 1 <= i < |d| ==> d[i] == d[1..][i - 1];
      if d[0] <= rest then d[0] else rest
  }

  /** `max(data)`. */
  function MaxOf(d: seq<real>): (m: real)
    requires |d| > 0
    ensures exists i :: 0 <= i < |d| && d[i] == m
    ensures forall i :: 0 <= i < |d| ==> d[i] <= m
  {
    if |d| == 1 then d[0]
    else
      var rest := MaxOf(d[1..]);
      assert forall i :: 1 <= i < |d| ==> d[i] == d[1..][i - 1];
      if d[0] >= rest then d[0] else rest
  }

  /** The i-th grid point `min + interval * i` with `interval = (max - min) / n_spaces`. */
  function GridPoint(lo: real, hi: real, nSpaces: int, i: int): real
    requires nSpaces != 0
  {
    lo + (hi - lo) / nSpaces as real * i as real
  }

  /** The grid starts at the minimum, and with `max > min` every one of its `n_spaces`
      points lies in [min, max): the maximum itself is never reached. With `max == min`
      every point is the minimum. */
  lemma GridInRange(lo: real, hi: real, nSpaces: int, i: int)
    requires lo <= hi && 0 <= i < nSpaces
    ensures GridPoint(lo, hi, nSpaces, 0) == lo
    ensures lo <= GridPoint(lo, hi, nSpaces, i) <= hi
    ensures lo < hi ==> GridPoint(lo, hi, nSpaces, i) < hi
  {
    var step := (hi - lo) / nSpaces as real;
    assert step >= 0.0;
    assert step * nSpaces as real == hi - lo;
    StepBelow(step, i as real, nSpaces as real);
  }

  lemma StepBelow(step: real, i: real, n: real)
    requires step >= 0.0 && 0.0 <= i < n
    ensures 0.0 <= step * i <= step * n
    ensures step > 0.0 ==> step * i < step * n
  {
  }

  class Distribution {
    /** `_data`: readable through the `data` property, which has no setter. */
    var data: seq<real>
    const mean: real
    const std: Deviation

    constructor (mean: real, std: Deviation)
      ensures this.mean == mean && this.std == std
      ensures data == []
    {
      this.mean := mean;
      this.std := std;
      data := [];
    }

    /** The guard of `plot_histogram`. */
    function PlotHistogram(): (r: Outcome)
      reads this
      ensures r.Raised? <==> |data| == 0
      ensures r.Raised? ==> r.error == ValueError(HistogramMessage)
    {
      if |data| > 0 then Done else Raised(ValueError(HistogramMessage))
    }

    /** The computation of `plot_pdf`, where `pdf` is the subclass's density and may raise:
        refused without data, the first error the density raises on the grid, and otherwise
        the `n_spaces` grid points from the minimum of the data (none when `n_spaces` is zero
        or negative) with the density at each. The data are a numpy array, so the step
        `(max - min) / n_spaces` is a numpy float: for `n_spaces == 0` it is inf or nan and
        does not raise, and the empty range then yields an empty grid. */
    method PlotPdf(pdf: real -> Result<real>, nSpaces: int := 50) returns (r: Result<(seq<real>, seq<real>)>)
      ensures |data| == 0 ==> r == Err(ValueError(PlotMessage))
      ensures r.Ok? ==> (|data| > 0 &&
        forall i :: 0 <= i < nSpaces ==> pdf(GridPoint(MinOf(data), MaxOf(data), nSpaces, i)).Ok?)
      ensures (|data| > 0 &&
        forall i :: 0 <= i < nSpaces ==> pdf(GridPoint(MinOf(data), MaxOf(data), nSpaces, i)).Ok?) ==> r.Ok?
      ensures |data| > 0 && r.Err? ==>
        exists i :: (0 <= i < nSpaces && pdf(GridPoint(MinOf(data), MaxOf(data), nSpaces, i)) == Err(r.error) &&
          forall j :: 0 <= j < i ==> pdf(GridPoint(MinOf(data), MaxOf(data), nSpaces, j)).Ok?)
      ensures r.Ok? ==> |r.value.0| == |r.value.1| == (if nSpaces > 0 then nSpaces else 0)
      ensures r.Ok? ==> forall i :: 0 <= i < |r.value.0| ==>
        r.value.0[i] == GridPoint(MinOf(data), MaxOf(data), nSpaces, i) && pdf(r.value.0[i]) == Ok(r.value.1[i])
      ensures r.Ok? && |r.value.0| > 0 ==> r.value.0[0] == MinOf(data)
      ensures r.Ok? ==> forall i :: 0 <= i < |r.value.0| ==>
        MinOf(data) <= r.value.0[i] <= MaxOf(data) && (MinOf(data) < MaxOf(data) ==> r.value.0[i] < MaxOf(data))
    {
      if |data| == 0 {
        return Err(ValueError(PlotMessage));
      }
      var lo, hi := MinOf(data), MaxOf(data);
      var xs: seq<real> := [];
      var ys: seq<real> := [];
      var count := if nSpaces > 0 then nSpaces else 0;
      for i := 0 to count
        invariant |xs| == |ys| == i
        invariant forall j :: 0 <= j < i ==> xs[j] == GridPoint(lo, hi, nSpaces, j) && pdf(xs[j]) == Ok(ys[j])
        invariant forall j :: 0 <= j < i ==> lo <= xs[j] <= hi && (lo < hi ==> xs[j] < hi)
      {
        var x := lo + (hi - lo) / nSpaces as real * i as real;
        assert x == GridPoint(lo, hi, nSpaces, i);
        var y := pdf(x);
        if y.Err? {
          assert forall j :: 0 <= j < i ==> pdf(GridPoint(lo, hi, nSpaces, j)).Ok?;
          assert i < nSpaces && pdf(GridPoint(lo, hi, nSpaces, i)).Err?;
          assert !(forall k :: 0 <= k < nSpaces ==> pdf(GridPoint(MinOf(data), MaxOf(data), nSpaces, k)).Ok?);
          return Err(y.error);
        }
        GridInRange(lo, hi, nSpaces, i);
        xs := xs + [x];
        ys := ys + [y.value];
      }
      if count > 0 {
        GridInRange(lo, hi, nSpaces, 0);
      }
      r := Ok((xs, ys));
    }

    /** `__str__`, with the same rendering as the current base class. */
    function Str(showMean: real -> string, showStd: Deviation -> string): (s: string)
      requires NoSpace(showMean(mean))
      ensures ParseDescription(s) == Some((showMean(mean), showStd(std)))
    {
      DescriptionRoundTrip(showMean(mean), showStd(std));
      Describe(showMean(mean), showStd(std))
    }
  }
}
