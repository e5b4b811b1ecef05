/** Optional values and fallible results, standing for Rust's `Option` and `Result`. */
module Wrappers {

  datatype Option<T> = None | Some(value: T)
  {
    function UnwrapOr(default: T): T {
      if Some? then value else default
    }
  }

  datatype Result<T, E> = Ok(value: T) | Err(error: E)
  {
    predicate IsFailure() { Err? }
    function PropagateFailure<U>(): Result<U, E> requires Err? { Err(error) }
    function Extract(): T requires Ok? { value }
  }
}
