/** Small shared vocabulary: optional values, results, and subsequences. */
module Common {

  /** A value that may be missing; `None` stands for a pandas missing cell (NaN). */
  datatype Option<+T> = None | Some(value: T)

  /** The outcome of a step that can raise: `Failure` carries what went wrong. */
  datatype Result<+R, +E> = Success(value: R) | Failure(error: E)

  /** `a` can be obtained from `b` by deleting elements, keeping the order of the rest. */
  predicate IsSubsequence<T(==)>(a: seq<T>, b: seq<T>)
    decreases |b|
  {
    if a == [] then true
    else if b == [] then false
    else (a[0] == b[0] && IsSubsequence(a[1..], b[1..])) || IsSubsequence(a, b[1..])
  }
}
