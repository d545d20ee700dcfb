/** Result and option types shared by the whole project. */
module Prelude {

  datatype Option<+T> = None | Some(value: T)

  /** The value of a call that can throw: `Err` carries the thrown error code. */
  datatype Result<+T, +E> = Ok(value: T) | Err(error: E)

  /** The largest integer a JavaScript number holds exactly. */
  const MAX_SAFE_INTEGER: int := 9007199254740991

  /** Number.isSafeInteger on an integer value. */
  predicate IsSafeInteger(n: int) {
    -MAX_SAFE_INTEGER <= n <= MAX_SAFE_INTEGER
  }

  lemma SubsetSize<T>(a: set<T>, b: set<T>)
    requires a <= b
    ensures |a| <= |b|
  {
    assert |b - a| == |b| - |a|;
  }

  lemma SubsetOfSameSize<T>(a: set<T>, b: set<T>)
    requires a <= b && |a| == |b|
    ensures a == b
  {
    assert |b - a| == |b| - |a|;
  }
}
