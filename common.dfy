/** Small shared vocabulary: optional values, results that carry an
    exception instead of throwing it, and sequences without repeats. */
module Common {

  datatype Option<+T> = None | Some(value: T)

  /** A call that either returns normally or throws `error`. */
  datatype Result<+T, +E> = Ok(value: T) | Err(error: E)

  /** No element occurs twice. */
  ghost predicate Distinct<T>(s: seq<T>)
  {
    forall i, j :: 0 <= i < j < |s| ==> s[i] != s[j]
  }
}
