/** The few pieces of Python's runtime semantics the distribution library relies on:
    dynamically typed values, the exceptions it raises, the NotImplemented sentinel,
    numeric equality across int/float/bool, and the int() conversion. */
module Python {
  import Text

  /** A value as a Python caller may pass it: the runtime types the library tells apart. */
  datatype Value = Int(i: int) | Float(r: real) | Bool(b: bool) | Str(s: string)

  /** The exceptions the core raises, directly or through an arithmetic operator. */
  datatype Error = ValueError(message: string) | TypeError | ZeroDivisionError

  /** A return value, or the exception that was raised instead. */
  datatype Result<+T> = Ok(value: T) | Err(error: Error) {
    predicate IsFailure() {
      Err?
    }

    function PropagateFailure<U>(): Result<U>
      requires Err?
    {
      Err(error)
    }

    function Extract(): T
      requires Ok?
    {
      value
    }
  }

  /** What a binary operator method such as `__add__` hands back to the interpreter. */
  datatype Operation<+T> = Returned(value: T) | NotImplemented

  /** Outcome of a method that returns nothing useful but may raise. */
  datatype Outcome = Done | Raised(error: Error)

  /** bool is a subclass of int, and int and float compare by value. */
  predicate IsNumber(v: Value) {
    !v.Str?
  }

  /** The mathematical value of a number: False is 0 and True is 1. */
  function Numeric(v: Value): real
    requires IsNumber(v)
  {
    match v
    case Int(i) => i as real
    case Float(r) => r
    case Bool(b) => if b then 1.0 else 0.0
  }

  /** Python's `==`: numbers compare by value whatever their type, strings by content,
      and a string never equals a number. */
  predicate Equals(a: Value, b: Value) {
    if IsNumber(a) && IsNumber(b) then Numeric(a) == Numeric(b)
    else a.Str? && b.Str? && a.s == b.s
  }

  /** Truncation toward zero, as `int()` applies it to a float. */
  function Trunc(r: real): (t: int)
    ensures r >= 0.0 ==> 0 <= t && t as real <= r < t as real + 1.0
    ensures r < 0.0 ==> t <= 0 && t as real - 1.0 < r <= t as real
  {
    if r >= 0.0 then r.Floor else -((-r).Floor)
  }

  /** Python's `int(v)`: an int unchanged, a bool as 0 or 1, a float truncated toward zero,
      a string parsed as a base-10 literal (a ValueError when it is not one). */
  function IntOf(v: Value): (r: Result<int>)
    ensures IsNumber(v) ==> r.Ok?
    ensures r.Ok? && v.Bool? ==> r.value == (if v.b then 1 else 0)
    ensures v.Int? ==> r == Ok(v.i)
    ensures v.Float? ==> r == Ok(Trunc(v.r))
    ensures v.Str? ==> (r.Ok? <==> Text.ParseInt(v.s).Some?)
  {
    match v
    case Int(i) => Ok(i)
    case Bool(b) => Ok(if b then 1 else 0)
    case Float(x) => Ok(Trunc(x))
    case Str(s) =>
      match Text.ParseInt(s)
      case Some(i) => Ok(i)
      case None => Err(ValueError("invalid literal for int() with base 10: '" + s + "'"))
  }

  /** `int(str(i)) == i`: the decimal text of an int converts back to it. */
  lemma IntOfDecimal(i: int)
    ensures IntOf(Str(Text.DecimalOf(i))) == Ok(i)
  {
    Text.ParseDecimal(i);
  }
}
