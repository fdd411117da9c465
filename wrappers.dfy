/** Optional values and results with an error branch, as the TypeScript code
    uses `undefined`/`null` and error responses. */
module Wrappers {

  datatype Option<T> = None | Some(value: T) {
    /** The value if present, otherwise `default` (the effect of a spread that
        keeps the old field when the update does not carry it). */
    function GetOr(default: T): T {
      if Some? then value else default
    }
  }

  datatype Result<T, E> = Ok(value: T) | Err(error: E)
}
