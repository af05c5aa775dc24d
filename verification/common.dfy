/** Small shared vocabulary: an optional value, standing in for JavaScript's `null`. */
module Common {

  /** `None` models a JavaScript `null` (or `undefined`) reference. */
  datatype Option<T> = None | Some(value: T)

  /** No element occurs twice. */
  predicate Distinct<T(==)>(s: seq<T>)
  {
    forall i, j :: 0 <= i < j < |s| ==> s[i] != s[j]
  }
}
