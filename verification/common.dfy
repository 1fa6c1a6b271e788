/** Small shared datatypes: an optional value stands for a C pointer that may be NULL. */
module Common {

  datatype Option<+T> = None | Some(value: T)

  /** True when no element of `s` occurs twice. */
  predicate NoDuplicates<T(==)>(s: seq<T>)
  {
    forall i, j :: 0 <= i < j < |s| ==> s[i] != s[j]
  }
}
