/** Result types shared by the whole project. */
module Wrappers {

  datatype Option<+T> = None | Some(value: T)

  /** What a Gomega assertion leaves behind: the test goes on, or it is aborted. */
  datatype Outcome = Pass | Fail {
    predicate IsFailure() {
      Fail?
    }

    function PropagateFailure(): Outcome
      requires Fail?
    {
      Fail
    }
  }
}
