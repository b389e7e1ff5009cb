/** What several modules share. */
module Basics {
  datatype Option<T> = None | Some(value: T)

  /** No element occurs twice. */
  ghost predicate Once<T>(s: seq<T>) {
    forall i, j :: 0 <= i < j < |s| ==> s[i] != s[j]
  }
}
