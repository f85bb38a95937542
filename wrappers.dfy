/** Failure-compatible wrappers used for the source's exceptions and None results. */
module Wrappers {

  datatype Option<+T> = None | Some(value: T)

  /** A value, or the exception the source raises instead. */
  datatype Result<+T> = Success(value: T) | Failure(error: Error) {
    predicate IsFailure() { Failure? }
    function PropagateFailure<U>(): Result<U>
      requires Failure?
    {
      Failure(error)
    }
    function Extract(): T
      requires Success?
    {
      value
    }
  }

  /** Completion of a procedure that returns nothing, or the exception it raised. */
  datatype Outcome = Pass | Fail(error: Error) {
    predicate IsFailure() { Fail? }
    function PropagateFailure(): Outcome
      requires Fail?
    {
      this
    }
  }

  /** The Python exceptions the modelled code raises or lets escape. */
  datatype Error =
    | KeyError(msg: string)
    | TypeError(msg: string)
    | AttributeError(msg: string)
    | IndexError(msg: string)
    | NameError(msg: string)
    | NotFound(resource: string)
    | Raised(msg: string)
    /** Not a Python exception: the finite observations a wait loop polls ran out before the
        loop's exit condition held (the source would still be polling). */
    | Exhausted(poll: string)

  /** The outcome of a step that needs `r`: its error, if it has one. */
  function Need<T>(r: Result<T>): (o: Outcome)
    ensures o.Pass? <==> r.Success?
    ensures r.Failure? ==> o == Fail(r.error)
  {
    if r.Success? then Pass else Fail(r.error)
  }

  /** What a bare `except` around provider calls catches: every raised error. A model
      run that ran out of observations is still in progress, so it is never caught. */
  function Swallow(o: Outcome): (r: Outcome)
    ensures r.Pass? || r.error.Exhausted?
    ensures o.Pass? ==> r.Pass?
    ensures o.Fail? && o.error.Exhausted? ==> r == o
  {
    if o.Fail? && !o.error.Exhausted? then Pass else o
  }
}
