/** Failure-carrying datatypes shared by every module of the model: Java's
    null becomes None, a thrown exception becomes Err or Fail. */
module Wrappers {

  datatype Option<+T> = None | Some(value: T)

  datatype Result<+R, +E> = Ok(value: R) | Err(error: E)

  datatype Outcome<+E> = Pass | Fail(error: E)

  /** Regrouping a concatenation, for the logs the loops extend step by step. */
  lemma AppendAssoc<T>(a: seq<T>, b: seq<T>, c: seq<T>)
    ensures a + b + c == a + (b + c)
  {
  }
}
