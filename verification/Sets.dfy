/** Counting with finite sets of process numbers. */
module Sets {

  /** The process numbers 0, ..., n-1. */
  ghost function Below(n: nat): (r: set<nat>)
    ensures |r| == n && forall p: nat :: p in r <==> p < n
  {
    if n == 0 then {} else Below(n - 1) + {n - 1}
  }

  lemma {:induction false} SubsetOfSameSize<T>(a: set<T>, b: set<T>)
    requires a <= b
    ensures |a| <= |b| && (|a| == |b| ==> a == b)
    decreases a
  {
    if a != {} {
      var x :| x in a;
      SubsetOfSameSize(a - {x}, b - {x});
    }
  }

  lemma Missing(a: set<nat>, b: set<nat>) returns (x: nat)
    requires a <= b && |a| < |b|
    ensures x in b && x !in a
  {
    assert |b - a| == |b| - |a|;
    x :| x in b - a;
  }

  lemma NewNumber(a: set<nat>) returns (x: nat)
    ensures x !in a
  {
    var b := a * Below(|a| + 1);
    SubsetOfSameSize(b, a);
    x := Missing(b, Below(|a| + 1));
  }

  /** How many of `a` are not in `b`, with one element arriving, leaving or joining. */
  lemma OneFewer<T>(a: set<T>, b: set<T>, x: T)
    requires x in a && x !in b
    ensures |a - (b + {x})| == |a - b| - 1 && |(a - {x}) - b| == |a - b| - 1
  {
    assert a - (b + {x}) == (a - b) - {x};
    assert (a - {x}) - b == (a - b) - {x};
  }

  lemma OneMore<T>(a: set<T>, b: set<T>, x: T)
    requires x !in a && x !in b
    ensures |(a + {x}) - b| == |a - b| + 1
  {
    assert (a + {x}) - b == (a - b) + {x};
  }

  lemma NoneLeft<T>(a: set<T>, b: set<T>)
    ensures |a - b| == 0 <==> a <= b
    ensures |a - b| <= |a|
  {
    SubsetOfSameSize(a - b, a);
    if a <= b {
      assert a - b == {};
    } else {
      var x :| x in a && x !in b;
      SubsetOfSameSize({x}, a - b);
    }
  }
}
