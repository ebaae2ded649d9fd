/** `Distribution`, the base class of the current package: it stores the mean and the
    standard deviation once, starts with an empty dataset, guards the histogram against an
    empty dataset and renders itself as `"Mean: … - Standard Deviation: …"`. */
module Base {
  import opened Options
  import opened Python
  import opened Deviations
  import opened Text

  const HistogramMessage := "Load the dataset to the instance first to plot the graph."

  class Distribution<T> {
    /** `_data`: the dataset, empty until a factory method fills it in. */
    var data: seq<T>
    /** The `mean` and `std` properties: private fields set once by the constructor. */
    const mean: real
    const std: Deviation

    constructor (mean: real, std: Deviation)
      ensures this.mean == mean && this.std == std
      ensures data == []
    {
      this.mean := mean;
      this.std := std;
      data := [];
    }

    /** The `data` setter. Its body is empty, so an assignment to `data` from outside
        leaves the dataset unchanged. */
    method SetData(dataset: seq<T>)
      ensures data == old(data)
    {
    }

    /** The guard of `plot_histogram`: the drawing itself is not modelled. */
    function PlotHistogram(): (r: Outcome)
      reads this
      ensures r.Raised? <==> |data| == 0
      ensures r.Raised? ==> r.error == ValueError(HistogramMessage)
    {
      if |data| > 0 then Done else Raised(ValueError(HistogramMessage))
    }

    /** `__str__`, where `showMean` and `showStd` stand for how Python prints the two
        numbers. The text splits back into exactly those two renderings. */
    function Str(showMean: real -> string, showStd: Deviation -> string): (s: string)
      requires NoSpace(showMean(mean))
      ensures ParseDescription(s) == Some((showMean(mean), showStd(std)))
      ensures s[..|MeanLabel|] == MeanLabel
    {
      DescriptionRoundTrip(showMean(mean), showStd(std));
      Describe(showMean(mean), showStd(std))
    }
  }

  /** A distribution with mean 25 and standard deviation 3 reads
      "Mean: 25 - Standard Deviation: 3". */
  lemma DescribeExample()
    ensures Describe(DecimalOf(25), DecimalOf(3)) == "Mean: 25 - Standard Deviation: 3"
  {
    SmallDecimals();
    assert MeanLabel + "25" + StdLabel + "3" == "Mean: 25 - Standard Deviation: 3";
  }

  lemma SmallDecimals()
    ensures DecimalOf(25) == "25" && DecimalOf(3) == "3"
  {
    assert DigitChar(2) == '2' && DigitChar(3) == '3' && DigitChar(5) == '5';
    assert DigitsOf(25) == DigitsOf(2) + [DigitChar(5)];
  }
}
