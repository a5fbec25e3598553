/** Sequences without repetitions, the way a HashSet is walked: counting the elements
    that satisfy a test is the same as taking the size of the set they form. */
module Counting {

  predicate Distinct<T(==)>(xs: seq<T>) {
    forall a, b :: 0 <= a < b < |xs| ==> xs[a] != xs[b]
  }

  /** How many elements of xs pass the test. */
  function CountIf<T>(xs: seq<T>, p: T -> bool): (n: nat)
    ensures n <= |xs|
  {
    if |xs| == 0 then 0
    else CountIf(xs[..|xs| - 1], p) + (if p(xs[|xs| - 1]) then 1 else 0)
  }

  /** The total of score over the elements that pass the test. */
  function SumIf<T>(xs: seq<T>, p: T -> bool, score: int): int {
    if |xs| == 0 then 0
    else SumIf(xs[..|xs| - 1], p, score) + (if p(xs[|xs| - 1]) then score else 0)
  }

  /** Adding score once per passing element is multiplying it by their count. */
  lemma {:induction false} SumIfIsProduct<T>(xs: seq<T>, p: T -> bool, score: int)
    ensures SumIf(xs, p, score) == score * CountIf(xs, p)
  {
    if |xs| > 0 {
      SumIfIsProduct(xs[..|xs| - 1], p, score);
      var c := CountIf(xs[..|xs| - 1], p);
      assert score * (c + 1) == score * c + score;
    }
  }

  /** The set of elements of xs that pass the test. */
  function Passing<T>(xs: seq<T>, p: T -> bool): set<T> {
    set x | x in xs && p(x)
  }

  /** Over a sequence without repetitions, the count of the passing elements is the
      size of the set of passing elements. */
  lemma {:induction false} CountIfIsCard<T>(xs: seq<T>, p: T -> bool)
    requires Distinct(xs)
    ensures CountIf(xs, p) == |Passing(xs, p)|
  {
    if |xs| > 0 {
      var init, last := xs[..|xs| - 1], xs[|xs| - 1];
      assert Distinct(init);
      CountIfIsCard(init, p);
      var before := Passing(init, p);
      var after := Passing(xs, p);
      assert last !in init;
      assert after == before + (if p(last) then {last} else {});
    }
  }

  /** A sequence without repetitions has as many elements as the set it forms. */
  lemma DistinctCard<T>(xs: seq<T>)
    requires Distinct(xs)
    ensures |set x | x in xs| == |xs|
  {
    CountIfIsCard(xs, _ => true);
    assert (set x | x in xs) == Passing(xs, _ => true);
    CountAll(xs);
  }

  lemma {:induction false} CountAll<T>(xs: seq<T>)
    ensures CountIf(xs, _ => true) == |xs|
  {
    if |xs| > 0 {
      CountAll(xs[..|xs| - 1]);
    }
  }

  /** Adding an element to a set-like sequence only when it is new keeps it free of
      repetitions and adds the element to the set it forms. */
  function AddNew<T(==,!new)>(xs: seq<T>, x: T): (ys: seq<T>)
    requires Distinct(xs)
    ensures Distinct(ys)
    ensures forall y :: y in ys <==> y in xs || y == x
  {
    if x in xs then xs else xs + [x]
  }
}
