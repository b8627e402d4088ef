/** Optional values and error results shared by every module of the model. */
module Wrappers {

  /** A value that may be absent: JavaScript's `undefined`/`null` for a field or a lookup. */
  datatype Option<+T> = None | Some(value: T) {

    /** The value, or `default` when absent. */
    function GetOr(default: T): T {
      if Some? then value else default
    }

    /** This option when present, otherwise `fallback`: the rule of an object spread. */
    function Or(fallback: Option<T>): Option<T> {
      if Some? then this else fallback
    }
  }

  /** The outcome of an operation that throws one of the errors `E`. */
  datatype Result<+T, +E> = Ok(value: T) | Err(error: E)

  /** The outcome of a check that either passes or throws one of the errors `E`. */
  datatype Outcome<+E> = Pass | Fail(error: E)
}
