/** Facts about sequences that let the column lists be read as ordered sets. */
module Seqs {

  /** No element occurs twice in `s`. */
  predicate Distinct<T(==)>(s: seq<T>) {
    forall i, j :: 0 <= i < j < |s| ==> s[i] != s[j]
  }

  /** No element of `a` occurs in `b`. */
  predicate Disjoint<T(==)>(a: seq<T>, b: seq<T>) {
    forall i :: 0 <= i < |a| ==> a[i] !in b
  }

}
