/** Facts about sequences shared by the link tables and the action catalogue. */
module Sequences {

  /** No element occurs twice in `s`. */
  predicate NoDuplicates<T(==)>(s: seq<T>) {
    forall i, j :: 0 <= i < j < |s| ==> s[i] != s[j]
  }

  /** Prepending an element that is not already present keeps a sequence duplicate-free. */
  lemma NoDuplicatesCons<T>(x: T, s: seq<T>)
    ensures x !in s && NoDuplicates(s) ==> NoDuplicates([x] + s)
  {
  }
}
