/** Optional values, for the source's `std::optional` and sentinel results, and shared helpers. */
module Wrappers {
  datatype Option<+T> = None | Some(value: T)

  /** The marks of a depth-first search. */
  const UNSEEN: nat := 0
  const ACTIVE: nat := 1
  const DONE: nat := 2

  predicate Distinct<T(==)>(s: seq<T>) {
    forall i, j :: 0 <= i < j < |s| ==> s[i] != s[j]
  }

  function Below(bound: nat): (r: set<nat>)
    ensures |r| == bound && forall n: nat :: n in r <==> n < bound
  {
    if bound == 0 then {}
    else
      var before := Below(bound - 1);
      assert bound - 1 !in before;
      before + {bound - 1}
  }
}
