/** Sizes of finite sets. */
module Sets {

  lemma SubsetSize<T>(a: set<T>, b: set<T>)
    requires a <= b
    ensures |a| <= |b|
  {
    assert |b| == |a| + |b - a|;
  }

  lemma ProperSubsetSmaller<T>(a: set<T>, b: set<T>)
    requires a < b
    ensures |a| < |b|
  {
    assert |b| == |a| + |b - a|;
    assert b - a != {};
  }

  /** Some number lies outside any finite set. */
  lemma {:induction false} FreshNumber(used: set<nat>) returns (n: nat)
    ensures forall x | x in used :: x < n
    ensures n !in used
    decreases |used|
  {
    n := 0;
    if used != {} {
      var x :| x in used;
      n := FreshNumber(used - {x});
      n := if n > x then n else x + 1;
      assert forall y | y in used :: y == x || y in used - {x};
    }
  }
}
