/** Error-carrying results, standing in for Go's `error` return values.
    An error is identified by its message, as `errors.New` builds it. */
module Outcomes {

  /** The `error` returned by an operation that computes nothing else. */
  datatype Outcome = Ok | Err(msg: string)

  /** An optional value. */
  datatype Option<+T> = None | Some(value: T)
}
