/** Failure-carrying values shared by the model.

    - `Option` stands for JavaScript's optional values (`undefined`, a
      missing response field, `NaN` from a failed number parse).
    - `Result` stands for an operation that can throw.
 */
module Wrappers {

  datatype Option<+T> = None | Some(value: T) {

    /** The value, or `default` when absent (JavaScript's `x || default`). */
    function GetOr(default: T): T {
      match this
      case Some(v) => v
      case None => default
    }
  }

  /** `list || []` for a list read from a response that may lack it: a
      missing list is empty, a present one (even an empty one) is kept. */
  function OrEmpty<T>(response: Option<seq<T>>): (r: seq<T>)
    ensures response.None? ==> |r| == 0
    ensures response.Some? ==> r == response.value
  {
    response.GetOr([])
  }

  datatype Result<+R, +E> = Success(value: R) | Failure(error: E)
}
