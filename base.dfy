/** Option and Result values used across the model, and the Python exceptions the core can raise. */
module Base {

  datatype Option<T> = None | Some(value: T)

  datatype Result<T, E> = Ok(value: T) | Err(error: E)

  /**
   * The exceptions that escape the core's operations: `AttributeError` when
   * the permission pattern does not match a listing, `UnboundLocalError` and
   * `AssertionError` in the clean-up, and `TypeError` when a target
   * identifier has more than two `_`-separated parts.
   */
  datatype PyError = AttributeError | UnboundLocalError | AssertionError | TypeError

  function Last<T>(s: seq<T>): T
    requires |s| > 0
  {
    s[|s| - 1]
  }
}
