/** Sizes of finite sets. */
module FiniteSets {

  lemma SmallerSet<T>(a: set<T>, b: set<T>, d: T)
    requires a <= b && d in b && d !in a
    ensures |a| < |b|
  {
    assert a <= b - {d};
    SubsetSize(a, b - {d});
  }

  lemma {:induction false} SubsetSize<T>(a: set<T>, b: set<T>)
    requires a <= b
    ensures |a| <= |b|
    decreases a
  {
    if a != {} {
      var x :| x in a;
      SubsetSize(a - {x}, b - {x});
    }
  }
}
