/** Searching in sequences. */
module Seqs {

  /** The position of the first `x` at or after `from`, or the length. */
  function IndexOf<T(==)>(s: seq<T>, x: T, from: nat): (k: nat)
    requires from <= |s|
    ensures from <= k <= |s|
    ensures forall i :: from <= i < k ==> s[i] != x
    ensures k < |s| ==> s[k] == x
    decreases |s| - from
  {
    if from == |s| || s[from] == x then from else IndexOf(s, x, from + 1)
  }

  /** That position is the only one with no `x` before it and, unless it is the end, `x` at it. */
  lemma IndexIs<T>(s: seq<T>, x: T, from: nat, k: nat)
    requires from <= k <= |s| && (forall i :: from <= i < k ==> s[i] != x) && (k < |s| ==> s[k] == x)
    ensures IndexOf(s, x, from) == k
  {
  }
}
