/** `Bernoulli`: a Binomial with a single trial. It keeps the Binomial constructor's
    validation and replaces `pmf`, `probability` and the operations that make no sense
    for one trial. */
module Bernoullis {
  import opened Options
  import opened Python
  import opened Deviations
  import opened Binomials

  const PmfMessage := "The input value must be 0 (failure) or 1 (success)."

  class Bernoulli {
    /** The Binomial part, built as `Binomial(1, prob)`. */
    const inner: Binomial

    ghost predicate Valid() {
      inner.Valid() && inner.n == 1
    }

    constructor (trial: Binomial)
      requires trial.Valid() && trial.n == 1
      ensures inner == trial && Valid()
    {
      inner := trial;
    }

    /** `Bernoulli(prob)`: the Binomial checks with size 1, so exactly a number in [0, 1]
        is accepted; the mean is p and the variance p * q. */
    static method New(prob: Value) returns (r: Result<Bernoulli>)
      ensures r.Ok? <==> IsNumber(prob) && 0.0 <= Numeric(prob) <= 1.0
      ensures r.Err? ==> r.error == Validate(Int(1), prob).error
      ensures r.Ok? ==> fresh(r.value) && r.value.Valid() && r.value.inner.p == Numeric(prob)
      ensures r.Ok? ==> r.value.inner.base.mean == r.value.inner.p
      ensures r.Ok? ==> Square(r.value.inner.base.std) == r.value.inner.p * r.value.inner.q
      ensures r.Ok? ==> r.value.inner.base.data == []
    {
      var trial := Binomial.New(Int(1), prob);
      match trial
      case Err(e) =>
        r := Err(e);
      case Ok(b) =>
        var bernoulli := new Bernoulli(b);
        r := Ok(bernoulli);
    }

    /** `from_binary_data` is disabled: its body is `...`, so it returns None whatever the
        dataset. */
    static function FromBinaryData(ds: seq<Value>): (r: Option<Bernoulli>)
      ensures r == None
    {
      None
    }

    /** `from_file` is disabled in the same way. */
    static function FromFile(filename: string): (r: Option<Bernoulli>)
      ensures r == None
    {
      None
    }

    /** `pmf(k)`: p when `k == 1`, q when `k == 0`, under Python's `==`, so True, 1.0 and
        False, 0.0 are accepted as well; anything else is a ValueError. */
    function Pmf(k: Value): (r: Result<real>)
      ensures Equals(k, Int(1)) ==> r == Ok(inner.p)
      ensures Equals(k, Int(0)) ==> r == Ok(inner.q)
      ensures r.Err? <==> !Equals(k, Int(0)) && !Equals(k, Int(1))
      ensures r.Err? ==> r.error == ValueError(PmfMessage)
    {
      if Equals(k, Int(1)) then Ok(inner.p)
      else if Equals(k, Int(0)) then Ok(inner.q)
      else Err(ValueError(PmfMessage))
    }

    /** The two outcomes are certain together. */
    lemma PmfTotal()
      requires Valid()
      ensures Pmf(Int(0)).value + Pmf(Int(1)).value == 1.0
    {
    }

    /** On 0 and 1 the Bernoulli pmf is the Binomial pmf with one trial. */
    lemma PmfIsBinomialPmf(k: Value)
      requires Valid() && (k == Int(0) || k == Int(1))
      ensures Pmf(k) == inner.Pmf(k)
    {
      inner.PmfEnds();
    }

    /** `probability(is_success=True)`: `pmf(int(is_success))`, so the default gives p,
        False gives q, and a value whose `int()` fails raises that error. */
    function Probability(isSuccess: Value := Bool(true)): (r: Result<real>)
      ensures isSuccess == Bool(true) ==> r == Ok(inner.p)
      ensures isSuccess == Bool(false) ==> r == Ok(inner.q)
      ensures IntOf(isSuccess).Err? ==> r == Err(IntOf(isSuccess).error)
      ensures r.Ok? <==> IntOf(isSuccess).Ok? && 0 <= IntOf(isSuccess).value <= 1
    {
      var k :- IntOf(isSuccess);
      Pmf(Int(k))
    }

    /** `plot_histogram` is disabled: it does nothing and raises nothing, loaded or not. */
    function PlotHistogram(): (r: Outcome)
      ensures r == Done
    {
      Done
    }

    /** `self + other` is NotImplemented for every operand. */
    function Add<X>(other: X): (r: Operation<Bernoulli>)
      ensures r == NotImplemented
    {
      NotImplemented
    }
  }
}
