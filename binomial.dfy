/** `Binomial`: n independent trials with success probability p. The constructor validates
    its arguments, `from_binary_data` estimates n and p from a 0/1 dataset, `pmf` is the
    exact probability of x successes, and two binomials with the same p add up. */
module Binomials {
  import opened Python
  import opened Deviations
  import opened Sums
  import opened BinomialMath
  import Text
  import Base

  const SizeMessage := "Positive integers expected for the size parameter."
  const ProbabilityMessage := "The probability must be between 0 and 1."
  const EmptyMessage := "The input dataset should have at least one element."
  const BinaryMessage := "A binary dataset (contains only 1 and 0) expected."
  const PmfDomainMessage := "A positive integer expected."
  const PlotMessage := "Load the dataset first to plot the graphs."

  function PmfRangeMessage(n: nat): string {
    "The input value must be smaller than or equal " + Text.DecimalOf(n) + "."
  }

  /** The checks of `__init__`, in their order: `size < 1` (a TypeError for a string),
      `type(size) is not int` (so a float or a bool is refused), then `0 <= prob <= 1`. */
  function Validate(size: Value, prob: Value): (r: Result<(nat, real)>)
    ensures r.Ok? <==> size.Int? && size.i >= 1 && IsNumber(prob) && 0.0 <= Numeric(prob) <= 1.0
    ensures r.Ok? ==> r.value.0 == size.i && r.value.1 == Numeric(prob)
    ensures size.Str? ==> r == Err(TypeError)
    ensures IsNumber(size) && !(size.Int? && size.i >= 1) ==> r == Err(ValueError(SizeMessage))
    ensures size.Int? && size.i >= 1 && prob.Str? ==> r == Err(TypeError)
    ensures size.Int? && size.i >= 1 && IsNumber(prob) && !(0.0 <= Numeric(prob) <= 1.0) ==>
      r == Err(ValueError(ProbabilityMessage))
  {
    if size.Str? then Err(TypeError)
    else if Numeric(size) < 1.0 || !size.Int? then Err(ValueError(SizeMessage))
    else if prob.Str? then Err(TypeError)
    else if !(0.0 <= Numeric(prob) <= 1.0) then Err(ValueError(ProbabilityMessage))
    else Ok((size.i, Numeric(prob)))
  }

  /** The invalid constructions of the library's tests are refused with ValueError, and so is
      a bool size, which the `type(size) is not int` check refuses. */
  lemma InvalidSizesAndProbabilities()
    ensures Validate(Int(0), Int(1)) == Err(ValueError(SizeMessage))
    ensures Validate(Int(5), Float(1.5)) == Err(ValueError(ProbabilityMessage))
    ensures Validate(Int(-1), Float(0.5)) == Err(ValueError(SizeMessage))
    ensures Validate(Int(7), Float(-0.25)) == Err(ValueError(ProbabilityMessage))
    ensures Validate(Float(5.5), Float(0.3)) == Err(ValueError(SizeMessage))
    ensures Validate(Bool(true), Float(0.3)) == Err(ValueError(SizeMessage))
  {
  }

  /** An element of `set(dataset)`: Python's set keeps one entry per value under `==`,
      so `True`, `1` and `1.0` are the same element. */
  datatype Key = Number(x: real) | Chars(s: string)

  function KeyOf(v: Value): Key {
    if IsNumber(v) then Number(Numeric(v)) else Chars(v.s)
  }

  /** `set(dataset)`. */
  function Keys(ds: seq<Value>): set<Key> {
    set i | 0 <= i < |ds| :: KeyOf(ds[i])
  }

  /** `set(dataset) == {True, False}`, which is the same test as `set(dataset) == {0, 1}`. */
  predicate IsBinary(ds: seq<Value>) {
    Keys(ds) == {Number(0.0), Number(1.0)}
  }

  /** Every element is a number equal to 0 or 1. */
  predicate AllBits(ds: seq<Value>) {
    forall i :: 0 <= i < |ds| ==> IsNumber(ds[i]) && (Numeric(ds[i]) == 0.0 || Numeric(ds[i]) == 1.0)
  }

  predicate Occurs(ds: seq<Value>, x: real) {
    exists i :: 0 <= i < |ds| && IsNumber(ds[i]) && Numeric(ds[i]) == x
  }

  /** The set test accepts exactly the datasets of 0s and 1s (in any numeric type) in
      which both values occur: all-ones and all-zeros datasets are refused, and so is any
      dataset holding a string or another number. */
  lemma BinaryMeaning(ds: seq<Value>)
    ensures IsBinary(ds) <==> AllBits(ds) && Occurs(ds, 0.0) && Occurs(ds, 1.0)
  {
    var keys := Keys(ds);
    if IsBinary(ds) {
      forall i | 0 <= i < |ds|
        ensures IsNumber(ds[i]) && (Numeric(ds[i]) == 0.0 || Numeric(ds[i]) == 1.0)
      {
        assert KeyOf(ds[i]) in keys;
      }
      assert Number(0.0) in keys;
      assert Number(1.0) in keys;
    }
    if AllBits(ds) && Occurs(ds, 0.0) && Occurs(ds, 1.0) {
      var i0 :| 0 <= i0 < |ds| && IsNumber(ds[i0]) && Numeric(ds[i0]) == 0.0;
      var i1 :| 0 <= i1 < |ds| && IsNumber(ds[i1]) && Numeric(ds[i1]) == 1.0;
      assert KeyOf(ds[i0]) == Number(0.0) && KeyOf(ds[i1]) == Number(1.0);
      assert keys == {Number(0.0), Number(1.0)};
    }
  }

  /** `[int(x) for x in dataset]`: the first failing conversion raises. */
  function Ints(ds: seq<Value>): Result<seq<int>> {
    if ds == [] then Ok([])
    else
      var head :- IntOf(ds[0]);
      var tail :- Ints(ds[1..]);
      Ok([head] + tail)
  }

  /** On 0/1 numbers the conversion keeps every value and the order. */
  lemma {:induction false} IntsOfBits(ds: seq<Value>)
    requires AllBits(ds)
    ensures Ints(ds).Ok? && |Ints(ds).value| == |ds|
    ensures forall i :: 0 <= i < |ds| ==> Ints(ds).value[i] as real == Numeric(ds[i])
  {
    if ds != [] {
      assert AllBits(ds[1..]) by {
        forall i | 0 <= i < |ds[1..]| ensures IsNumber(ds[1..][i]) {
          assert ds[1..][i] == ds[i + 1];
        }
      }
      IntsOfBits(ds[1..]);
      assert IntOf(ds[0]).value as real == Numeric(ds[0]);
      var tail := Ints(ds[1..]).value;
      forall i | 0 <= i < |ds|
        ensures Ints(ds).value[i] as real == Numeric(ds[i])
      {
        if i > 0 {
          assert Ints(ds).value[i] == tail[i - 1];
          assert ds[1..][i - 1] == ds[i];
        }
      }
    }
  }

  /** `sum(dataset)` over ints. */
  function Total(xs: seq<int>): int {
    if xs == [] then 0 else xs[0] + Total(xs[1..])
  }

  /** With at least one 1 and at least one 0, the number of ones is strictly between 0
      and the length. */
  lemma {:induction false} TotalOfBits(xs: seq<int>, one: nat, zero: nat)
    requires forall i :: 0 <= i < |xs| ==> xs[i] == 0 || xs[i] == 1
    requires one < |xs| && zero < |xs| && xs[one] == 1 && xs[zero] == 0
    ensures 1 <= Total(xs) <= |xs| - 1
  {
    var rest := xs[1..];
    assert forall i :: 0 <= i < |rest| ==> rest[i] == xs[i + 1];
    if one == 0 {
      TotalBounds(rest);
      assert rest[zero - 1] == 0;
      ZeroBelow(rest, zero - 1);
    } else if zero == 0 {
      TotalBounds(rest);
      assert rest[one - 1] == 1;
      OneAbove(rest, one - 1);
    } else {
      TotalOfBits(rest, one - 1, zero - 1);
    }
  }

  lemma {:induction false} TotalBounds(xs: seq<int>)
    requires forall i :: 0 <= i < |xs| ==> xs[i] == 0 || xs[i] == 1
    ensures 0 <= Total(xs) <= |xs|
  {
    if xs != [] {
      assert forall i :: 0 <= i < |xs[1..]| ==> xs[1..][i] == xs[i + 1];
      TotalBounds(xs[1..]);
    }
  }

  lemma {:induction false} ZeroBelow(xs: seq<int>, zero: nat)
    requires forall i :: 0 <= i < |xs| ==> xs[i] == 0 || xs[i] == 1
    requires zero < |xs| && xs[zero] == 0
    ensures Total(xs) <= |xs| - 1
  {
    assert forall i :: 0 <= i < |xs[1..]| ==> xs[1..][i] == xs[i + 1];
    if zero == 0 {
      TotalBounds(xs[1..]);
    } else {
      ZeroBelow(xs[1..], zero - 1);
    }
  }

  lemma {:induction false} OneAbove(xs: seq<int>, one: nat)
    requires forall i :: 0 <= i < |xs| ==> xs[i] == 0 || xs[i] == 1
    requires one < |xs| && xs[one] == 1
    ensures Total(xs) >= 1
  {
    assert forall i :: 0 <= i < |xs[1..]| ==> xs[1..][i] == xs[i + 1];
    if one == 0 {
      TotalBounds(xs[1..]);
    } else {
      OneAbove(xs[1..], one - 1);
    }
  }

  /** What `from_binary_data` estimates: the number of trials, the success probability and
      the dataset converted to ints. */
  datatype Estimate = Estimate(n: nat, p: real, data: seq<int>)

  /** `from_binary_data` before it builds the instance: an empty dataset and a dataset that
      is not binary are refused; otherwise n is the length, the data are the 0/1 ints in
      the input's order, p is the share of ones, and n * p (the mean) is the count of ones. */
  function EstimateBinary(ds: seq<Value>): (r: Result<Estimate>)
    ensures r.Ok? <==> AllBits(ds) && Occurs(ds, 0.0) && Occurs(ds, 1.0)
    ensures |ds| == 0 ==> r == Err(ValueError(EmptyMessage))
    ensures |ds| > 0 && r.Err? ==> r == Err(ValueError(BinaryMessage))
    ensures r.Ok? ==> r.value.n == |ds| >= 1 && |r.value.data| == |ds|
    ensures r.Ok? ==> forall i :: 0 <= i < |ds| ==> r.value.data[i] as real == Numeric(ds[i])
    ensures r.Ok? ==> r.value.n as real * r.value.p == Total(r.value.data) as real
    ensures r.Ok? ==> 0.0 < r.value.p < 1.0
  {
    BinaryMeaning(ds);
    if |ds| == 0 then Err(ValueError(EmptyMessage))
    else if IsBinary(ds) then
      ConvertedBits(ds);
      var data := Ints(ds).value;
      Share(Total(data), |ds|);
      Ok(Estimate(|ds|, Total(data) as real / |ds| as real, data))
    else Err(ValueError(BinaryMessage))
  }

  /** The converted dataset of a binary dataset keeps its values and holds at least one
      1 and at least one 0. */
  lemma ConvertedBits(ds: seq<Value>)
    requires AllBits(ds) && Occurs(ds, 0.0) && Occurs(ds, 1.0)
    ensures Ints(ds).Ok? && |Ints(ds).value| == |ds|
    ensures forall i :: 0 <= i < |ds| ==> Ints(ds).value[i] as real == Numeric(ds[i])
    ensures 1 <= Total(Ints(ds).value) <= |ds| - 1
  {
    IntsOfBits(ds);
    var data := Ints(ds).value;
    var i0 :| 0 <= i0 < |ds| && IsNumber(ds[i0]) && Numeric(ds[i0]) == 0.0;
    var i1 :| 0 <= i1 < |ds| && IsNumber(ds[i1]) && Numeric(ds[i1]) == 1.0;
    assert forall i :: 0 <= i < |data| ==> data[i] == 0 || data[i] == 1;
    TotalOfBits(data, i1, i0);
  }

  /** `count / n` for a count strictly between 0 and n. */
  lemma Share(count: int, n: nat)
    requires 1 <= count <= n - 1
    ensures n as real * (count as real / n as real) == count as real
    ensures 0.0 < count as real / n as real < 1.0
  {
  }

  /** The operand of `+`: `type(other) is Binomial` holds only for an instance of this exact
      class, so a Bernoulli, a number or anything else is `Other`. */
  datatype Operand = Exactly(b: Binomial) | Other

  class Binomial {
    /** The `n`, `p` and `q` properties. */
    const n: nat
    const p: real
    const q: real
    /** The inherited `Distribution` part: mean, std and data. */
    const base: Base.Distribution<int>

    /** What `__init__` establishes: validated n and p, q = 1 - p, mean n*p and
        std sqrt(n*p*q). */
    ghost predicate Valid() {
      && n >= 1 && 0.0 <= p <= 1.0 && q == 1.0 - p
      && base.mean == n as real * p
      && base.std == RootOf(n as real * p * q)
    }

    constructor (size: nat, prob: real)
      requires size >= 1 && 0.0 <= prob <= 1.0
      ensures n == size && p == prob && Valid()
      ensures fresh(base) && base.data == []
    {
      n := size;
      p := prob;
      q := 1.0 - prob;
      base := new Base.Distribution(size as real * prob, RootOf(size as real * prob * (1.0 - prob)));
    }

    /** `Binomial(size, prob)`: refused with the error `Validate` names, otherwise a new
        instance with empty data. */
    static method New(size: Value, prob: Value) returns (r: Result<Binomial>)
      ensures r.Ok? <==> Validate(size, prob).Ok?
      ensures r.Err? ==> r.error == Validate(size, prob).error
      ensures r.Ok? ==> fresh(r.value) && fresh(r.value.base) && r.value.Valid()
      ensures r.Ok? ==> (r.value.n, r.value.p) == Validate(size, prob).value && r.value.base.data == []
    {
      match Validate(size, prob)
      case Err(e) =>
        r := Err(e);
      case Ok((n, p)) =>
        var b := new Binomial(n, p);
        r := Ok(b);
    }

    /** `from_binary_data`: builds `Binomial(len(dataset), sum(dataset) / len(dataset))`
        from the converted dataset and then stores that dataset in the new instance. */
    static method FromBinaryData(ds: seq<Value>) returns (r: Result<Binomial>)
      ensures r.Ok? <==> EstimateBinary(ds).Ok?
      ensures r.Err? ==> r.error == EstimateBinary(ds).error
      ensures r.Ok? ==> fresh(r.value) && fresh(r.value.base) && r.value.Valid()
      ensures r.Ok? ==> var e := EstimateBinary(ds).value;
        r.value.n == e.n && r.value.p == e.p && r.value.base.data == e.data
    {
      match EstimateBinary(ds)
      case Err(e) =>
        r := Err(e);
      case Ok(e) =>
        var b := new Binomial(e.n, e.p);
        b.base.data := e.data;
        r := Ok(b);
    }

    /** `pmf(x)`: x must be an int (not a bool) between 0 and n; the result is the exact
        binomial probability `comb(n, x) * p**x * q**(n - x)`. */
    function Pmf(x: Value): (r: Result<real>)
      ensures r.Ok? <==> x.Int? && 0 <= x.i <= n
      ensures x.Str? ==> r == Err(TypeError)
      ensures IsNumber(x) && !(x.Int? && x.i >= 0) ==> r == Err(ValueError(PmfDomainMessage))
      ensures x.Int? && x.i > n ==> r == Err(ValueError(PmfRangeMessage(n)))
      ensures r.Ok? ==> r.value == Row(n, p, q)[x.i]
      ensures r.Ok? && Valid() ==> 0.0 <= r.value <= 1.0
    {
      if x.Str? then Err(TypeError)
      else if Numeric(x) < 0.0 || !x.Int? then Err(ValueError(PmfDomainMessage))
      else if x.i > n then Err(ValueError(PmfRangeMessage(n)))
      else
        TermWhenProbability(n, x.i, p, q);
        Ok(Comb(n, x.i) as real * Pow(p, x.i) * Pow(q, n - x.i))
    }

    /** No success has probability q**n and n successes have probability p**n. */
    lemma PmfEnds()
      ensures Pmf(Int(0)) == Ok(Pow(q, n))
      ensures Pmf(Int(n)) == Ok(Pow(p, n))
    {
      CombAll(n);
      assert Pow(q, n - n) == 1.0;
    }

    /** `probability(k)` is `pmf(k)`. */
    function Probability(k: Value): (r: Result<real>)
      ensures r == Pmf(k)
    {
      Pmf(k)
    }

    /** The guard of `plot_histogram`, with the same message as the base class. */
    function PlotHistogram(): (r: Outcome)
      reads base
      ensures r.Raised? <==> |base.data| == 0
      ensures r.Raised? ==> r.error == ValueError(Base.HistogramMessage)
    {
      if |base.data| > 0 then Done else Raised(ValueError(Base.HistogramMessage))
    }

    /** `plot_pmf`: refused when no dataset is loaded; otherwise the points it plots,
        the outcomes 0..n and their probabilities, which add up to one. */
    method PlotPmf() returns (r: Result<(seq<int>, seq<real>)>)
      ensures r.Err? <==> |base.data| == 0
      ensures r.Err? ==> r.error == ValueError(PlotMessage)
      ensures r.Ok? ==> |r.value.0| == |r.value.1| == n + 1
      ensures r.Ok? ==> forall i :: 0 <= i <= n ==> r.value.0[i] == i && Pmf(Int(i)) == Ok(r.value.1[i])
      ensures r.Ok? && Valid() ==> Sum(r.value.1) == 1.0
    {
      if |base.data| == 0 {
        return Err(ValueError(PlotMessage));
      }
      var xs: seq<int> := [];
      var ys: seq<real> := [];
      for i := 0 to n + 1
        invariant |xs| == |ys| == i
        invariant forall j :: 0 <= j < i ==> xs[j] == j
        invariant ys == Row(n, p, q)[..i]
      {
        var y := Pmf(Int(i)).value;
        xs := xs + [i];
        ys := ys + [y];
      }
      assert ys == Row(n, p, q);
      if Valid() {
        PmfSumsToOne(n, p);
      }
      r := Ok((xs, ys));
    }

    /** `self + other`: only an exact Binomial with the same p combines, into a fresh
        Binomial with n1 + n2 trials and empty data; its mean and its variance are the sums
        of the operands'. Anything else is NotImplemented. */
    method Add(other: Operand) returns (r: Operation<Binomial>)
      requires Valid() && (other.Exactly? ==> other.b.Valid())
      ensures r.Returned? <==> other.Exactly? && other.b.p == p
      ensures r.Returned? ==> fresh(r.value) && r.value.Valid() && r.value.base.data == []
      ensures r.Returned? ==> r.value.n == n + other.b.n && r.value.p == p
      ensures r.Returned? ==> r.value.base.mean == base.mean + other.b.base.mean
      ensures r.Returned? ==> Square(r.value.base.std) == Square(base.std) + Square(other.b.base.std)
    {
      if other.Exactly? && other.b.p == p {
        var sum := new Binomial(n + other.b.n, p);
        r := Returned(sum);
      } else {
        r := NotImplemented;
      }
    }
  }

  /** `Binomial(20, .4)` has q = 0.6 and mean 8. */
  lemma ConstructionExample(b: Binomial)
    requires b.Valid() && b.n == 20 && b.p == 0.4
    ensures b.q == 0.6 && b.base.mean == 8.0 && Square(b.base.std) == 4.8
  {
  }
}
