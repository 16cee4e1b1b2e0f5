/** Small shared vocabulary: optional values, Python's "this call raised"
    outcome, and absolute value on reals. */
module Common {

  /** Python's `Optional[T]`: `None` or a value. */
  datatype Option<+T> = None | Some(value: T) {

    /** The value, or `default` when there is none (Python's `x or default`,
        `d.get(key, default)`). */
    function GetOr(default: T): T {
      match this
      case Some(v) => v
      case None => default
    }
  }

  /** The outcome of a Python call that either returns a value or raises
      `ZeroDivisionError`, the only exception the modelled inputs can provoke. */
  datatype Outcome<+T> = Returned(value: T) | ZeroDivisionError

  /** Python's `abs` on a float, taken over the reals. */
  function Abs(x: real): (r: real)
    ensures r >= 0.0
  {
    if x < 0.0 then -x else x
  }
}
