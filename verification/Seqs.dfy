/** Sequences taken apart at the end, sums, and sequences without repetition. */
module Seqs {

  function Init<T>(xs: seq<T>): seq<T>
    requires xs != []
  {
    xs[..|xs| - 1]
  }

  function Last<T>(xs: seq<T>): T
    requires xs != []
  {
    xs[|xs| - 1]
  }

  function Sum(xs: seq<int>): int {
    if xs == [] then 0 else Sum(Init(xs)) + Last(xs)
  }

  lemma SumOneMore(xs: seq<int>, x: int)
    ensures Sum(xs + [x]) == Sum(xs) + x
  {
    assert Init(xs + [x]) == xs;
  }

  predicate Distinct<T(==)>(xs: seq<T>) {
    forall i, j :: 0 <= i < j < |xs| ==> xs[i] != xs[j]
  }

  lemma DistinctInit<T>(xs: seq<T>)
    requires Distinct(xs) && xs != []
    ensures Distinct(xs[..|xs| - 1]) && xs[|xs| - 1] !in xs[..|xs| - 1]
  {
  }
}
