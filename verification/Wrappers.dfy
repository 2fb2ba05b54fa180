/** What every module uses: the conventional optional value, and lists without repetition. */
module Wrappers {
  /** Where the programs return None. */
  datatype Option<+T> = None | Some(value: T)

  predicate Distinct<T(==)>(s: seq<T>) {
    forall i, j | 0 <= i < j < |s| :: s[i] != s[j]
  }
}
