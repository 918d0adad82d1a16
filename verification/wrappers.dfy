/** Failure-carrying values shared by every module of the model.
    Go's `(T, error)` return pairs become `Result`; a Go pointer that may be nil,
    or a bare `error` that may be nil, becomes `Option`. */
module Wrappers {

  datatype Option<+T> = None | Some(value: T)

  /** `Ok(v)` stands for `(v, nil)`; `Err(e)` for `(zero value, e)`. */
  datatype Result<+T, +E> = Ok(value: T) | Err(error: E)
}
