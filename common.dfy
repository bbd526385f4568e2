/** Shared value types of the model: optional values, results with an error
    channel, and bytes (the elements of a JavaScript Uint8Array). */
module Common {

  /** A value that may be missing: the model's stand-in for `null`,
      `undefined` and `NaN` in the source. */
  datatype Option<+T> = None | Some(value: T)

  /** The outcome of an operation that can throw: `Err` carries the reason. */
  datatype Result<+T, +E> = Ok(value: T) | Err(error: E)

  /** One byte of a Uint8Array. */
  type byte = x: int | 0 <= x < 256

  /** A sequence of reals summed left to right. */
  function Sum(xs: seq<real>): real
  {
    if xs == [] then 0.0 else Sum(xs[..|xs| - 1]) + xs[|xs| - 1]
  }
}
