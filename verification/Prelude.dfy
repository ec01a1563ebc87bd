/** Shared vocabulary: optional values and facts about sequences. */
module Prelude {
  datatype Option<+T> = None | Some(value: T)

  /** No value occurs twice. */
  ghost predicate Distinct<T>(s: seq<T>) {
    forall i, j :: 0 <= i < j < |s| ==> s[i] != s[j]
  }

  function Min(a: nat, b: nat): nat {
    if a <= b then a else b
  }
}
