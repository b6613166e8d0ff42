/** Wrappers and small helpers shared by both engines. */
module Wrappers {

  /** A value that may be absent. */
  datatype Option<+T> = None | Some(value: T)

  /** The outcome of an operation that can fail with an error message. */
  datatype Result<+R> = Success(value: R) | Failure(error: string)

  /** A set that is not empty has an element. */
  lemma Pick<T>(xs: set<T>) returns (y: T)
    requires xs != {}
    ensures y in xs
  {
    if forall z :: z !in xs {
      assert false;
    }
    y :| y in xs;
  }
}
