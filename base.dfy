/** Small value types shared by the other modules. */
module Base {

  /** A value that may be absent (a locator that matched nothing, a field that was not read). */
  datatype Option<+T> = None | Some(value: T)

  /** No element of `s` occurs twice. */
  predicate Distinct<T(==)>(s: seq<T>)
  {
    forall i, j :: 0 <= i < j < |s| ==> s[i] != s[j]
  }
}
