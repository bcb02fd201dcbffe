/** Shared result types: how a service call ends, and the early exit of `require`. */
module Outcomes {

  datatype Option<+T> = None | Some(value: T)

  /** Why a transaction was rolled back: a failed `require`, a row that `get` did
      not find, or a database uniqueness constraint. The circular-referral refusal
      is kept apart because its exact condition is a theorem. */
  datatype Error = Rejected | CircularReferral | NotFound | Conflict

  datatype Result<+T> = Ok(value: T) | Fail(error: Error) {
    predicate IsFailure() {
      Fail?
    }

    function PropagateFailure<U>(): Result<U>
      requires Fail?
    {
      Fail(error)
    }

    function Extract(): T
      requires Ok?
    {
      value
    }
  }

  datatype Check = Pass | Refuse(error: Error) {
    predicate IsFailure() {
      Refuse?
    }

    function PropagateFailure<U>(): Result<U>
      requires Refuse?
    {
      Fail(error)
    }
  }

  /** The services' `require`: an early exit that rolls the transaction back. */
  function Require(condition: bool, error: Error := Rejected): Check {
    if condition then Pass else Refuse(error)
  }
}
