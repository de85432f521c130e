/** Sizes of finite sets. */
module Counting {

  lemma SubsetIsNoLarger<T>(a: set<T>, b: set<T>)
    requires a <= b
    ensures |a| <= |b|
  {
    assert |b - a| == |b| - |b * a|;
    assert b * a == a;
  }
}
