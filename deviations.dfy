/** Standard deviations held exactly. The library computes every derived standard deviation
    with a square root (`**0.5` or `math.sqrt`), which has no exact counterpart over Dafny's
    reals; a deviation is therefore kept as `coef * sqrt(radicand)`, which also covers a
    literal value (`radicand == 1`) and is closed under the divisions a z-score performs. */
module Deviations {
  import opened Python

  /** The number coef * sqrt(radicand). */
  datatype Deviation = Deviation(coef: real, radicand: real)

  /** A literal standard deviation, as passed to a constructor. */
  function Plain(x: real): Deviation {
    Deviation(x, 1.0)
  }

  /** The square root of `v`, as `v**0.5` or `math.sqrt(v)` computes it. */
  function RootOf(v: real): Deviation {
    Deviation(1.0, v)
  }

  /** The square of the deviation, that is the variance it stands for. */
  function Square(d: Deviation): real {
    d.coef * d.coef * d.radicand
  }

  /** `x` is the real number the deviation stands for. */
  predicate Denotes(d: Deviation, x: real) {
    && d.radicand >= 0.0
    && x * x == Square(d)
    && (d.coef >= 0.0 ==> x >= 0.0)
    && (d.coef <= 0.0 ==> x <= 0.0)
  }

  /** The deviation stands for zero, so dividing by it raises ZeroDivisionError. */
  predicate IsZero(d: Deviation) {
    d.coef == 0.0 || d.radicand == 0.0
  }

  lemma SquareRootsAgree(x: real, y: real)
    requires x * x == y * y
    requires (x >= 0.0 && y >= 0.0) || (x <= 0.0 && y <= 0.0)
    ensures x == y
  {
    assert (x - y) * (x + y) == 0.0;
    ZeroProduct(x - y, x + y);
  }


  lemma ZeroProduct(a: real, b: real)
    requires a * b == 0.0
    ensures a == 0.0 || b == 0.0
  {
    if a != 0.0 {
      assert b == (a * b) / a;
    }
  }

  /** A deviation stands for at most one number. */
  lemma DenotesUnique(d: Deviation, x: real, y: real)
    requires Denotes(d, x) && Denotes(d, y)
    ensures x == y
  {
    if d.coef >= 0.0 {
      SquareRootsAgree(x, y);
    } else {
      SquareRootsAgree(x, y);
    }
  }

  /** A literal deviation stands for exactly its value. */
  lemma PlainDenotes(x: real, y: real)
    ensures Denotes(Plain(x), y) <==> y == x
  {
    if Denotes(Plain(x), y) {
      SquareRootsAgree(x, y);
    }
  }

  /** `RootOf(v)` stands for exactly the non-negative square root of `v`. */
  lemma RootOfDenotes(v: real, s: real)
    requires v >= 0.0
    ensures Denotes(RootOf(v), s) <==> s >= 0.0 && s * s == v
  {
  }

  /** A deviation is zero exactly when the number it stands for is. */
  lemma ZeroDenotes(d: Deviation, x: real)
    requires Denotes(d, x)
    ensures IsZero(d) <==> x == 0.0
  {
    if IsZero(d) {
      ZeroRoot(x, d.coef, d.radicand);
    }
    if x == 0.0 {
      ZeroRootFactors(x, d.coef, d.radicand);
    }
  }

  lemma ZeroRoot(x: real, c: real, r: real)
    requires x * x == c * c * r && (c == 0.0 || r == 0.0)
    ensures x == 0.0
  {
    ZeroProduct(x, x);
  }

  lemma ZeroRootFactors(x: real, c: real, r: real)
    requires x * x == c * c * r && x == 0.0
    ensures c == 0.0 || r == 0.0
  {
    ZeroProduct(c * c, r);
    if r != 0.0 {
      ZeroProduct(c, c);
    }
  }

  /** `num / std`, kept exact: raises ZeroDivisionError when the deviation is zero. */
  function Quotient(num: real, d: Deviation): (r: Result<Deviation>)
    ensures r.Err? <==> IsZero(d)
    ensures r.Err? ==> r.error == ZeroDivisionError
  {
    if IsZero(d) then Err(ZeroDivisionError)
    else Ok(Deviation(num / (d.coef * d.radicand), d.radicand))
  }

  /** The quotient stands for `num / s` whenever the divisor stands for a non-zero `s`. */
  lemma QuotientDenotes(num: real, d: Deviation, s: real)
    requires Denotes(d, s) && s != 0.0
    ensures Quotient(num, d).Ok?
    ensures Denotes(Quotient(num, d).value, num / s)
  {
    ZeroDenotes(d, s);
    var c, r := d.coef, d.radicand;
    var k := num / (c * r);
    var t := num / s;
    assert k * (c * r) == num;
    assert t * s == num;
    assert s * s == c * c * r;
    assert c * c * r != 0.0;
    calc {
      t * t * (c * c * r);
      (t * s) * (t * s);
      num * num;
      (k * c * r) * (k * c * r);
      (k * k * r) * (c * c * r);
    }
    assert t * t == k * k * r;
    assert k * c * r == t * s;
    if c > 0.0 {
      assert s > 0.0 && c * r > 0.0;
    } else {
      assert s < 0.0 && c * r < 0.0;
    }
    assert k * (c * r) == t * s;
    assert k >= 0.0 <==> t >= 0.0;
    assert k <= 0.0 <==> t <= 0.0;
  }

  /** Every number the divisor stands for, other than zero, gives the quotient's meaning. */
  lemma QuotientMeaning(num: real, d: Deviation)
    ensures forall s :: Denotes(d, s) && s != 0.0 ==> Quotient(num, d).Ok? && Denotes(Quotient(num, d).value, num / s)
  {
    forall s | Denotes(d, s) && s != 0.0
      ensures Quotient(num, d).Ok? && Denotes(Quotient(num, d).value, num / s)
    {
      QuotientDenotes(num, d, s);
    }
  }

  /** `(x - mean) / std`: how many standard deviations `x` lies from the mean.
      ZeroDivisionError when the standard deviation is zero. */
  function ZScore(x: real, mean: real, std: Deviation): (r: Result<Deviation>)
    ensures r.Err? <==> IsZero(std)
    ensures r.Err? ==> r.error == ZeroDivisionError
    ensures forall s :: Denotes(std, s) && s != 0.0 ==> r.Ok? && Denotes(r.value, (x - mean) / s)
    ensures r.Ok? && std.radicand >= 0.0 && x == mean ==> Denotes(r.value, 0.0)
  {
    QuotientMeaning(x - mean, std);
    Quotient(x - mean, std)
  }

  /** Standard deviation of the sum of two independent variables: `sqrt(a**2 + b**2)`. */
  function IndependentSum(a: Deviation, b: Deviation): (r: Deviation)
    requires a.radicand >= 0.0 && b.radicand >= 0.0
    ensures Square(r) == Square(a) + Square(b)
    ensures r.radicand >= 0.0 && r.coef >= 0.0
  {
    NonNegativeSquare(a);
    NonNegativeSquare(b);
    RootOf(Square(a) + Square(b))
  }

  lemma NonNegativeSquare(d: Deviation)
    requires d.radicand >= 0.0
    ensures Square(d) >= 0.0
  {
    assert d.coef * d.coef >= 0.0;
  }
}
