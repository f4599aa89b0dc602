/**
 * Optional values, standing for TypeScript's `undefined` / `null`, and the
 * outcome of an operation that can throw.
 */
module Wrappers {

  datatype Option<+T> = None | Some(value: T) {

    /** The value, or `default` when absent (TypeScript's `x ?? default`). */
    function GetOr(default: T): T {
      match this
      case Some(v) => v
      case None => default
    }
  }

  /** JavaScript truthiness of an optional string: present and not ''. */
  predicate Truthy(s: Option<string>) {
    s.Some? && s.value != ""
  }

  /** A value, or the error an awaited call threw. */
  datatype Result<+T, +E> = Ok(value: T) | Err(error: E)
}
