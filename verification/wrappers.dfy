/** How the model writes C# nulls, exceptions and `Equals(object)` arguments:
    a nullable reference is an `Option`, a call that may throw returns a
    `Result` whose error is the exception, and the argument of an equality
    override is an `Obj`. */
module Wrappers {

  datatype Option<+T> = None | Some(value: T) {
    function GetOr(default: T): T {
      match this
      case Some(v) => v
      case None => default
    }
  }

  datatype Result<+T, +E> = Ok(value: T) | Err(error: E) {
    predicate IsFailure() {
      Err?
    }

    function PropagateFailure<U>(): Result<U, E>
      requires Err?
    {
      Err(error)
    }

    function Extract(): T
      requires Ok?
    {
      value
    }
  }

  datatype Obj<+T> = Null | Instance(value: T) | OtherType

  /** A C# string reference: `None` is `null`. */
  type NString = Option<string>

  /** `String.IsNullOrEmpty` */
  predicate IsNullOrEmpty(s: NString) {
    s.None? || |s.value| == 0
  }
}
