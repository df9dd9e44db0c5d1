/** Value types shared by the models. */
module Prelude {

  /** A pointer or a lookup result that may be absent. */
  datatype Option<+T> = None | Some(value: T)

  lemma ConcatIsAssociative<T>(a: seq<T>, b: seq<T>, c: seq<T>)
    ensures (a + b) + c == a + (b + c)
  {
  }

  /** The outcome of an operation that the source lets return an error. */
  datatype Result<+T, +E> = Success(value: T) | Failure(error: E)
}
