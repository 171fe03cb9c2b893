/** Finite sets of indices. */
module Sets {
  lemma {:induction false} SubsetSize<T>(a: set<T>, b: set<T>)
    requires a <= b
    ensures |a| <= |b|
    decreases a
  {
    if a != {} {
      var x :| x in a;
      SubsetSize(a - {x}, b - {x});
    }
  }

  function UpTo(n: nat): (r: set<nat>)
    ensures |r| == n && forall s: nat :: s in r <==> s < n
  {
    if n == 0 then {} else UpTo(n - 1) + {n - 1}
  }
}
