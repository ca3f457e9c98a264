/** Python's "may raise" paths. `None` stands for an exception that the scorer's
    `try` block catches, or for a key that is missing; `Some(v)` is a normal return.
    The type carries only what the `:-` operator and `dict.get` need. */
module Wrappers {

  datatype Option<+T> = None | Some(value: T) {

    /** `:-` stops at `None`: the exception leaves the current step. */
    predicate IsFailure() {
      None?
    }

    /** The exception passes on unchanged to a step with another result type. */
    function PropagateFailure<U>(): Option<U>
      requires None?
    {
      None
    }

    /** The value of a step that returned normally. */
    function Extract(): T
      requires Some?
    {
      value
    }

    /** The value, or `default` when there is none (Python's `dict.get(key, default)`). */
    function GetOr(default: T): T {
      match this
      case Some(v) => v
      case None => default
    }
  }
}
