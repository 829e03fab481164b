/** Small wrappers shared by every module of the model. */
module Common {

  /** A value that may be absent (Java's null). */
  datatype Option<+T> = None | Some(value: T)

  /** A value, or the message of the exception that was thrown instead. */
  datatype Result<+T> = Success(value: T) | Failure(message: string)

  /** The elements of `s`, as a set. */
  function Elements<T>(s: seq<T>): set<T>
  {
    set x | x in s
  }

  /** No element occurs twice in `s`. */
  predicate NoDuplicates<T(==)>(s: seq<T>)
  {
    forall i, j :: 0 <= i < j < |s| ==> s[i] != s[j]
  }
}
