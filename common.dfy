/** Small value wrappers shared by the modules of the relay model. */
module Common {

  /** An optional value: JavaScript's `undefined` is `None`. */
  datatype Option<T> = None | Some(value: T)

  /** The value of an operation that either succeeds or throws an error. */
  datatype Result<T, E> = Ok(value: T) | Err(error: E)

  /** Appending to a log in two steps appends the two parts together. */
  lemma AppendAssoc<T>(s: seq<T>, a: seq<T>, b: seq<T>)
    ensures s + a + b == s + (a + b)
  {
  }
}
