/** Small notions that several modules share. */
module Wrappers {

  datatype Option<+T> = None | Some(value: T)

  predicate Distinct<T(==)>(s: seq<T>) { forall i, j :: 0 <= i < j < |s| ==> s[i] != s[j] }

  /** 1 if b holds, to be counted. */
  function One(b: bool): nat { if b then 1 else 0 }
}
