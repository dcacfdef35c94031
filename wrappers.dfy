/** Failure-carrying values that stand in for Python's exceptions. */
module Wrappers {

  datatype Option<+T> = None | Some(value: T)

  datatype Result<+R, +E> = Success(value: R) | Failure(error: E)

  /** The outcome of a check that returns nothing on success (a Python function returning None or raising). */
  datatype Outcome<+E> = Pass | Fail(error: E)

  /** A raised Python exception. The pipeline only ever distinguishes `ValueError` (and its subclasses)
      from every other exception class; `kind` names the class of the latter (KeyError, HTTPStatusError, ...). */
  datatype Exception = ValueError(message: string) | NonValueError(kind: string, message: string)
}
