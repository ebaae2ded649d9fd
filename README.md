# Data-Distributions, modelled in Dafny

A model of a small Python probability-distribution library and proofs about it. The library
comes in two copies.

The current package has four modules:

- `Distribution` is the base class. It stores a mean and a standard deviation once, holds a
  dataset that starts empty, guards plotting against an empty dataset, and renders itself as
  `Mean: … - Standard Deviation: …`.
- `Gaussian` estimates a mean and a standard deviation from a dataset, with the
  sample/population divisor choice. It computes z-scores, answers `probability(a, b)` around
  a numerical integrator, and adds two independent Gaussians.
- `Binomial` validates `n` and `p` and estimates both from a 0/1 dataset. It gives the exact
  probability mass function and adds two binomials that share `p`.
- `Bernoulli` is a Binomial with one trial. It replaces `pmf` and `probability` and disables
  the operations that make no sense for a single trial.

The older `distributions` package has its own `Distribution`, `NormalDistribution` and
`BinomialDistribution`. Its `Distribution` is read-only and also builds the `plot_pdf` grid.
`BinomialDistribution` keeps only static estimators, because its constructor always fails.

How the model represents the library:

- Python floats are exact `real`s. Python values that callers pass are a tagged `Value`
  (`Int | Float | Bool | Str`), so `type(x) is int` and `True == 1 == 1.0` can be expressed.
- Exceptions are an `Error` inside a `Result`. A ValueError raised by the library carries the
  library's own message; TypeError and ZeroDivisionError carry none.
- The `NotImplemented` sentinel of `__add__` is `Operation.NotImplemented`.
- A standard deviation is kept exactly as `coef * sqrt(radicand)` (`Deviations.Deviation`).
  Every derived standard deviation in the library is a square root, and a z-score divides by
  one.
- Python inheritance becomes composition. `Binomial`, `Gaussian` and `NormalDistribution`
  hold their `Distribution` part as `base`, and `Bernoulli` holds its `Binomial` as `inner`.
- The datasets that `from_binary_data` and `from_dataset` fill in after construction are
  mutable fields.
- The density, the numerical integrator and the printing of floats are parameters.

Main results:

- The binomial theorem, from which the pmf values for 0..n add up to one and each lies in
  [0, 1].
- Pascal's rule agrees with `n! / (k! (n-k)!)`.
- A sample variance is never below the population variance of the same data.
- `int(str(i)) == i`.
- A description text splits back into its two numbers.
- Every grid point of the older `plot_pdf` lies in `[min, max]`, and in `[min, max)` when
  `max > min`.
- The exact acceptance condition of `from_binary_data`: the values are 0s and 1s, and both
  occur.

## Model

| member | source | states |
|---|---|---|
| Text.DecimalOf | binomial.py:81 | `str(n)` as the range message writes it: non-empty, no spaces, and it starts with a minus sign exactly when the number is negative |
| Text.ParseDecimal | binomial.py:81 | reading the decimal text of any int back with `int()` gives that int |
| Text.ParseDescription | __distribution.py:66 | a text it accepts is exactly the `Mean: … - Standard Deviation: …` rendering of the two parts it returns |
| Text.DescriptionRoundTrip | __distribution.py:63-66 | a rendering whose mean text has no space splits back into exactly its mean text and std text |
| Python.IntOf | bernoulli.py:47 | `int(v)`: an int is unchanged, a bool gives 0 or 1, a float gives its truncation toward zero, and a string succeeds exactly when it is a decimal literal |
| Python.Trunc | bernoulli.py:47 | truncation toward zero: for a non-negative float the largest int not above it, for a negative float the smallest int not below it |
| Python.IntOfDecimal | bernoulli.py:47 | `int(str(i)) == i` for every int |
| Deviations.RootOfDenotes | gaussian.py:67 | the exact root of a variance stands for exactly the non-negative number whose square is the variance |
| Deviations.PlainDenotes | gaussian.py:14 | a std passed to a constructor stands for exactly its own value |
| Deviations.DenotesUnique | gaussian.py:67 | a kept standard deviation stands for at most one number |
| Deviations.ZeroDenotes | gaussian.py:77 | dividing by a standard deviation raises exactly when the number it stands for is zero |
| Deviations.QuotientDenotes | gaussian.py:77 | `num / std` stands for `num / s` whenever the std stands for a non-zero `s` |
| Deviations.ZScore | distributions/binomial.py:43-44 | `(x - mean) / std`: ZeroDivisionError exactly when the std is zero; otherwise it stands for `(x - mean) / s` for the std's value `s`, and it is zero at the mean |
| Deviations.IndependentSum | gaussian.py:150 | `(a**2 + b**2)**0.5`: its square is the sum of the squares |
| Estimators.MeanOf | gaussian.py:45-53 | `sum(d) / len(d)`: ZeroDivisionError exactly on an empty dataset, otherwise the mean times the length is the sum (the same in distributions/gaussian.py:60 and distributions/binomial.py:24) |
| Estimators.SquaredDeviationsNonNegative | gaussian.py:66 | a sum of squared deviations is never negative |
| Estimators.VarianceAbout | distributions/binomial.py:36-40 | squared deviations over `len - 1` (sample) or `len` (population): ZeroDivisionError exactly when that divisor is 0, otherwise non-negative and equal to the squared deviations divided by the divisor |
| Estimators.VarianceOf | gaussian.py:64-66 | the variance about the data's own mean: defined exactly for a non-empty dataset with a non-zero divisor, so a one-element sample divides by zero; never negative, and times the divisor it is the squared deviations about `mean_of(dataset)` |
| Estimators.StandardDeviationOf | gaussian.py:55-67 | `math.sqrt(variance)`: fails exactly when the variance does, with ZeroDivisionError; its square is the variance |
| Estimators.BesselCorrection | gaussian.py:64-66 | with two or more values both estimators are defined, `sample * (n-1) == population * n`, and the sample variance is at least the population variance |
| Intervals.IntegrationRange | gaussian.py:98-105 | no integration exactly for (-inf, +inf) and for equal bounds; otherwise the integrator gets the two bounds, swapped if needed, in increasing order and distinct |
| Intervals.ProbabilityCases | gaussian.py:98-105 | `probability(a, b)` is 1 for (-inf, +inf), 0 for `a == b`, and otherwise the integral over the ordered bounds |
| Intervals.ProbabilitySymmetric | gaussian.py:103-105 | swapping the bounds changes nothing, except that (+inf, -inf) misses the shortcut and is integrated over (-inf, +inf) |
| BinomialMath.PowNonNegative | binomial.py:83 | a power of a non-negative base is non-negative |
| BinomialMath.PowOfOne | binomial.py:83 | every power of one is one |
| BinomialMath.CombAbove | binomial.py:83 | `comb(n, k) == 0` when `k > n` |
| BinomialMath.CombAll | binomial.py:83 | `comb(n, n) == 1` |
| BinomialMath.CombFactorials | binomial.py:83 | `comb(n, k) * k! * (n-k)! == n!` for `k <= n` |
| BinomialMath.Row | binomial.py:113-115 | the pmf table for 0..n has n + 1 entries |
| BinomialMath.TermStep | binomial.py:83 | the pmf of k successes in n trials splits on the last trial: `q * pmf_{n-1}(k) + p * pmf_{n-1}(k-1)` |
| BinomialMath.RowStep | binomial.py:83 | the sum of the table for n trials is q times that for n-1 trials plus p times the same table shifted by one |
| BinomialMath.BinomialTheorem | binomial.py:83 | the pmf terms for 0..n add up to `(p + q)**n` |
| BinomialMath.PmfSumsToOne | binomial.py:20 | with `q == 1 - p` the pmf values for 0..n add up to one |
| BinomialMath.TermIsProbability | binomial.py:83 | for `p` in [0, 1], every pmf value lies in [0, 1] |
| BinomialMath.TermWhenProbability | binomial.py:83 | for any `p` in [0, 1] and `q == 1 - p`, the pmf value lies in [0, 1] |
| BinomialMath.TermNonNegative | binomial.py:83 | for `p` in [0, 1], no pmf value is negative |
| Base.Distribution.constructor | __distribution.py:8-17 | the mean and std are stored unchanged and the dataset starts empty |
| Base.Distribution.SetData | __distribution.py:23-24 | assigning `.data` leaves the dataset unchanged |
| Base.Distribution.PlotHistogram | __distribution.py:50-61 | raises ValueError with its message exactly when the dataset is empty |
| Base.Distribution.Str | __distribution.py:63-66 | the text starts with `Mean: ` and splits back into exactly the printed mean and the printed std |
| Base.DescribeExample | test/test_gaussian.py:9 | mean 25 and std 3 read `Mean: 25 - Standard Deviation: 3` |
| Binomials.Validate | binomial.py:13-16 | accepts exactly an int `size >= 1` (not a float, not a bool) and a number `prob` in [0, 1]; a string raises TypeError at the comparison; otherwise ValueError with the size message, then the probability message |
| Binomials.InvalidSizesAndProbabilities | test/test_binomial.py:17-31 | the test constructions (0, 1), (5, 1.5), (-1, 0.5), (7, -0.25) and (5.5, 0.3) are refused with ValueError, and so is (True, 0.3) through the type check of binomial.py:13 |
| Binomials.BinaryMeaning | binomial.py:46-49 | `set(dataset) == {True, False}` holds exactly when every value is a number equal to 0 or 1 and both occur |
| Binomials.IntsOfBits | binomial.py:47 | `[int(x) for x in dataset]` on 0/1 numbers succeeds, keeps the length, and keeps every value in order |
| Binomials.TotalOfBits | binomial.py:50 | a 0/1 list holding at least one 1 and one 0 sums to between 1 and `len - 1` |
| Binomials.EstimateBinary | binomial.py:44-54 | succeeds exactly for 0/1 data in which both values occur; empty data gives the empty-dataset ValueError and any other failure the binary-dataset ValueError; on success `n == len`, the data are the input as ints in order, `n * p` is the count of ones, and `0 < p < 1` |
| Binomials.Binomial.constructor | binomial.py:18-21 | stores n and p, `q == 1 - p`, mean `n * p`, std the root of `n * p * q`, empty data |
| Binomials.Binomial.New | binomial.py:6-21 | a new instance exactly when the arguments pass the checks, with the validated n and p and empty data; otherwise the error of the first failing check |
| Binomials.Binomial.FromBinaryData | binomial.py:36-54 | fails exactly as the estimate does; otherwise a valid new Binomial with the estimated n and p whose data are the converted dataset |
| Binomials.Binomial.Pmf | binomial.py:67-83 | succeeds exactly for an int `0 <= x <= n`; a string raises TypeError, a negative or non-int number the positive-integer ValueError, `x > n` the range ValueError naming n; the value is `comb(n, x) p**x q**(n-x)`, which lies in [0, 1] |
| Binomials.Binomial.PmfEnds | binomial.py:83 | `pmf(0) == q**n` and `pmf(n) == p**n` |
| Binomials.Binomial.Probability | binomial.py:85-92 | `probability(k)` is `pmf(k)` |
| Binomials.Binomial.PlotHistogram | binomial.py:94-105 | raises ValueError with the base class message exactly when no data are loaded |
| Binomials.Binomial.PlotPmf | binomial.py:107-126 | raises ValueError exactly when no data are loaded; otherwise the points are `0..n` with `pmf(i)` at each, and those values add up to one |
| Binomials.Binomial.Add | binomial.py:128-136 | a result exactly for an exact Binomial with the same p: a new valid Binomial with `n1 + n2` trials, the same p and empty data, whose mean and variance are the sums; otherwise NotImplemented |
| Binomials.ConstructionExample | test/test_binomial.py:7-14 | `Binomial(20, .4)` has q 0.6, mean 8 and variance 4.8 |
| Bernoullis.Bernoulli.constructor | bernoulli.py:14 | wraps a valid one-trial Binomial |
| Bernoullis.Bernoulli.New | bernoulli.py:6-14 | succeeds exactly for a number in [0, 1] and fails with the Binomial check's error otherwise; mean p, variance `p * q`, empty data |
| Bernoullis.Bernoulli.FromBinaryData | bernoulli.py:16-19 | returns None whatever the dataset |
| Bernoullis.Bernoulli.FromFile | bernoulli.py:21-24 | returns None whatever the file name |
| Bernoullis.Bernoulli.Pmf | bernoulli.py:26-38 | p for any value equal to 1 (True, 1.0), q for any value equal to 0; every other value raises ValueError with its message |
| Bernoullis.Bernoulli.PmfTotal | bernoulli.py:33-36 | `pmf(0) + pmf(1) == 1` |
| Bernoullis.Bernoulli.PmfIsBinomialPmf | bernoulli.py:26-38 | on 0 and 1 the Bernoulli pmf equals the one-trial Binomial pmf |
| Bernoullis.Bernoulli.Probability | bernoulli.py:40-47 | the default and True give p, False gives q, a failing `int()` passes its error on, and it succeeds exactly when `int(is_success)` is 0 or 1 |
| Bernoullis.Bernoulli.PlotHistogram | bernoulli.py:49-51 | does nothing and raises nothing, whether or not data are loaded |
| Bernoullis.Bernoulli.Add | bernoulli.py:53-54 | NotImplemented for every operand |
| Gaussians.Estimate | gaussian.py:25-28 | empty data raise the empty-dataset ValueError and a one-element sample raises ZeroDivisionError, otherwise success; the mean times the length is the sum, and the std's square is the variance with the chosen divisor |
| Gaussians.Gaussian.constructor | gaussian.py:7-14 | stores the mean and std unchanged, with empty data |
| Gaussians.Gaussian.FromDataset | gaussian.py:16-31 | fails exactly as the estimate does; otherwise a new instance with the estimated mean and std whose data are the input, same length and order |
| Gaussians.Gaussian.ZScore | gaussian.py:69-77 | ZeroDivisionError exactly when the std is zero; otherwise stands for `(x - mean) / std`, and is zero at the mean |
| Gaussians.Gaussian.Probability | gaussian.py:89-105 | 1 for (-inf, +inf), which the defaults give; 0 for equal bounds; otherwise ZeroDivisionError exactly when the std is zero (the integrator calls `pdf`), else the integral over the bounds in increasing order |
| Gaussians.Gaussian.Pdf | gaussian.py:79-87 | raises ZeroDivisionError exactly when the std is zero; otherwise the density's value at x |
| Gaussians.Gaussian.PlotPdf | gaussian.py:107-145 | raises the plot ValueError when no data are loaded; with data, raises ZeroDivisionError exactly when `n_spaces == 0` or, with at least one grid point, when `pdf` divides by a zero std |
| Gaussians.Gaussian.Add | gaussian.py:147-154 | a result exactly for an exact Gaussian: a new instance with empty data, the sum of the means, and as std the non-negative root of the summed variances; otherwise NotImplemented |
| Gaussians.SumExample | test/test_gaussian.py:68-73 | adding stds 3 and 4 gives std exactly 5 |
| Gaussians.ProbabilityDefaults | test/test_gaussian.py:87-90 | `probability()` returns 1 and `probability(185, 185)` returns 0, whatever the std |
| LegacyBase.MinOf | distributions/__distribution.py:54 | `min(data)` is a member of the data and at most every member |
| LegacyBase.MaxOf | distributions/__distribution.py:55 | `max(data)` is a member of the data and at least every member |
| LegacyBase.GridInRange | distributions/__distribution.py:58-65 | the grid starts at the minimum, every grid point lies in [min, max], and below max whenever `max > min` |
| LegacyBase.Distribution.constructor | distributions/__distribution.py:9-18 | the mean and std are stored unchanged and the dataset starts empty |
| LegacyBase.Distribution.PlotHistogram | distributions/__distribution.py:34-45 | raises ValueError with its own message exactly when the dataset is empty |
| LegacyBase.Distribution.PlotPdf | distributions/__distribution.py:47-84 | ValueError without data; with data it succeeds exactly when the density succeeds at every grid point (the numpy step for `n_spaces == 0` is inf or nan and raises nothing), and a failure is the density's error at the first failing point; on success `max(n_spaces, 0)` points `min + i * (max - min) / n_spaces` with the density at each, starting at min, all in [min, max], and below max when `max > min` |
| LegacyBase.Distribution.Str | distributions/__distribution.py:88-91 | the text splits back into exactly the printed mean and the printed std |
| LegacyNormal.Estimate | distributions/gaussian.py:27-29 | empty data raise ZeroDivisionError in `mean_of`, otherwise success; the mean times the length is the sum, and the std's square is the variance with the chosen divisor |
| LegacyNormal.NormalDistribution.constructor | distributions/gaussian.py:9-16 | stores the mean and std unchanged, records whether the mean is a numpy float, with empty data |
| LegacyNormal.NormalDistribution.FromDataset | distributions/gaussian.py:18-31 | fails exactly as the estimate does; otherwise the estimated mean (a numpy float) and std, with the input as data in order |
| LegacyNormal.NormalDistribution.ZScore | distributions/gaussian.py:76-83 | a zero std raises ZeroDivisionError exactly when the mean is a Python number, and gives inf or nan when it is a numpy float; otherwise stands for `(x - mean) / std`, and is zero at the mean |
| LegacyNormal.NormalDistribution.Pdf | distributions/gaussian.py:85-93 | raises ZeroDivisionError exactly when the std is zero; otherwise the density's value at x |
| LegacyNormal.NormalDistribution.PlotPdf | distributions/__distribution.py:53-67 | the inherited `plot_pdf` with this class's `pdf`: ValueError without data; with data, ZeroDivisionError exactly when there is a grid point and the std is zero; otherwise the grid with the density's value at each point |
| LegacyNormal.NormalDistribution.Probability | distributions/gaussian.py:95-111 | 1 for (-inf, +inf), 0 for equal bounds; otherwise ZeroDivisionError exactly when the std is zero (the integrator calls `pdf`), else the integral over the ordered bounds |
| LegacyNormal.NormalDistribution.Add | distributions/gaussian.py:113-120 | a result exactly for an exact NormalDistribution: the means added (a numpy float if either is), as std the non-negative root of the summed variances, and empty data; otherwise NotImplemented |
| LegacyBinomial.Construct | distributions/binomial.py:7-14 | construction raises TypeError for every input |
| LegacyBinomial.StandardDeviationOf | distributions/binomial.py:26-41 | fails, with ZeroDivisionError, exactly when no mean is given and the data are empty, or when the divisor is 0; with a given mean, its square times the divisor is the squared deviations about that mean |
| LegacyBinomial.DefaultMean | distributions/binomial.py:37-40 | leaving out `mean_value` is the same as passing `mean_of(dataset)`, and agrees with the Gaussian estimator |

## Left out

- Plot drawing: the `plt` calls. Only the data guards and the computed points are modelled.
- `import_dataset` and every `from_file` except Bernoulli's disabled one are left out, because they read files (and `import_dataset` runs `eval` on each line).
- The `pdf` bodies use `exp`, `pi` and a float square root. The value of each density is a parameter `density: real -> real`; only the ZeroDivisionError of its leading division by the std is modelled.
- `scipy.integrate.quad` is a parameter `integral(lo, hi)`; only the case analysis around it and the ZeroDivisionError of the `pdf` it calls are modelled.
- Square roots stay symbolic (`Deviation`). A std from the data is the exact root of the variance, not a rounded float.
- Which numbers are numpy floats is tracked only for the older NormalDistribution's mean, where it decides whether `z_score` raises. Numbers passed by callers are otherwise Python numbers, and a numpy std passed to a constructor is not modelled.
- Float rounding, inf and NaN (apart from the older `z_score`'s `InfOrNan` result) and the approximate test values (rounded pmf, pdf and integral values) are not modelled; arithmetic is exact over the reals.
- How Python prints a float is a parameter of `__str__`; only `str` of an int is modelled.
- Python.IntOf: the ValueError for a bad string quotes it between plain single quotes. Python writes `repr(s)` there, which also escapes backslashes and control characters and switches to double quotes for a string holding a single quote; that escaping is not modelled.
- `int()` on a string accepts an optional sign and digits; surrounding whitespace and `_` separators are not modelled.
- Python's fallback from NotImplemented to TypeError, and `__radd__`/`__sub__`, are not modelled; `__add__` returns `Operation.NotImplemented`.
- `np.asarray(dataset).flatten()` is not modelled: the dataset is taken to be flat.
- Datasets are values (`seq`), so aliasing between the caller's list and the stored `_data` is not captured.
- The read-only `data` property of the older package is not enforced: the Dafny field is assignable, and only the factory method assigns it.
- Bernoulli's inherited `plot_pmf` is not modelled separately; it is the Binomial one with n = 1.
- The older `BinomialDistribution.pdf` and `z_score` cannot run on any instance, because the constructor always raises. The `z_score` formula is `Deviations.ZScore`; `pdf` is a density and is left out like the others.
- The `__main__` block of the older binomial module and `setup.py` are not modelled.
- LegacyNormal.Estimate: requires that the data are not a one-element sample. The older `from_dataset` converts the data to a numpy array, so its variance there divides a numpy float by zero and gives NaN without raising, and NaN is not modelled.
- LegacyNormal.NormalDistribution.FromDataset: carries the same requirement, for the same reason.
- Gaussians.Gaussian.constructor: requires a std whose radicand is not negative. This is the representation's invariant, not a check of the library, which accepts any std.
- LegacyNormal.NormalDistribution.constructor: requires a non-negative radicand, as the Gaussian constructor does.
- Binomials.EstimateBinary: follows the code, which refuses all-ones and all-zeros data because both values must occur in `set(dataset)`. A description of the method as accepting any subset of {0, 1} does not match the code.
- The identity `sum((x - m)**2) == sum(x**2) - n*m**2` is not stated; no part of the library relies on it.
