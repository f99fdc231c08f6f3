/**
  Shared vocabulary of the model: samples that may be missing, the exceptions
  the Python code can raise, and a Result type that carries them.
 */
module Common {

  /** One signal sample. `Missing` stands for a NaN marker in the recording. */
  datatype Sample = Missing | Val(v: real)

  /** The kinds of exception the modelled code can raise or catch. */
  datatype Error =
    | ZeroDivision      // Python ZeroDivisionError
    | IndexMismatch     // numpy boolean mask of the wrong length
    | TypeMismatch      // Python TypeError
    | MissingAttribute  // Python AttributeError (e.g. `.items()` on a non-dict)
    | Foreign           // anything raised inside a scipy routine

  /** A value, or the exception raised instead of producing it. */
  datatype Result<+T> = Ok(value: T) | Err(error: Error)

  datatype Option<+T> = None | Some(value: T)

  /** True when no sample of `s` is a missing marker. */
  predicate NoMissing(s: seq<Sample>)
  {
    forall i :: 0 <= i < |s| ==> s[i].Val?
  }

  /** True when every sample of `s` is a missing marker (vacuously for `[]`). */
  predicate AllMissing(s: seq<Sample>)
  {
    forall i :: 0 <= i < |s| ==> s[i].Missing?
  }

  /** Python's `int(x)` on a float: truncation toward zero. */
  function Trunc(x: real): (r: int)
    ensures 0.0 <= x ==> r as real <= x < r as real + 1.0
    ensures x < 0.0 ==> r as real - 1.0 < x <= r as real
  {
    if x >= 0.0 then x.Floor else -((-x).Floor)
  }

  /** Python's `a // b` for a positive divisor, which floors. */
  function FloorDiv(a: int, b: int): (q: int)
    requires b > 0
    ensures q * b <= a < q * b + b
  {
    a / b
  }
}
