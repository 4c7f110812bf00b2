/** Failure-compatible result types shared by the whole model. */
module Wrappers {

  /** An optional value; `None` stands for Python's `None`. */
  datatype Option<+T> = None | Some(value: T) {

    function GetOr(default: T): T {
      match this
      case Some(v) => v
      case None => default
    }

    /** This value when present, otherwise `other`. */
    function OrElse(other: Option<T>): Option<T> {
      if Some? then this else other
    }
  }

  /** A value or an error message; `Failure` stands for a raised exception. */
  datatype Result<+R> = Success(value: R) | Failure(error: string) {

    predicate IsFailure() {
      Failure?
    }

    function PropagateFailure<U>(): Result<U>
      requires Failure?
    {
      Failure(error)
    }

    function Extract(): R
      requires Success?
    {
      value
    }
  }

  /** The list holding the value of `o`, or nothing: a way to skip absent fields. */
  function OptList<T>(o: Option<T>): (r: seq<T>)
    ensures |r| <= 1
    ensures o.Some? <==> |r| == 1
    ensures o.Some? ==> r[0] == o.value
  {
    if o.Some? then [o.value] else []
  }
}
