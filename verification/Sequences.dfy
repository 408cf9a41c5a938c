/** Sequences without repetition. */
module Sequences {

  ghost predicate Distinct(xs: seq<nat>) {
    forall i, j :: 0 <= i < j < |xs| ==> xs[i] != xs[j]
  }

  ghost function SetOf(xs: seq<nat>): set<nat> {
    set x | x in xs
  }

  lemma {:induction false} SetOfCounts(xs: seq<nat>)
    requires Distinct(xs)
    ensures |SetOf(xs)| == |xs|
  {
    if xs != [] {
      var n := |xs| - 1;
      SetOfCounts(xs[..n]);
      assert SetOf(xs) == SetOf(xs[..n]) + {xs[n]};
    }
  }
}
