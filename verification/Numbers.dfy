/** Comparing and counting. */
module Numbers {
  function Min(a: int, b: int): int { if a <= b then a else b }

  function Max(a: int, b: int): int { if a >= b then a else b }

  /** A set of whole numbers between two bounds is no larger than their distance. */
  lemma {:induction false} AtMostRange(ranks: set<int>, low: int, high: int)
    requires low <= high + 1 && forall r :: r in ranks ==> low <= r <= high
    ensures |ranks| <= high - low + 1
    decreases high - low + 1
  {
    if low <= high {
      AtMostRange(ranks - {high}, low, high - 1);
      assert high !in ranks ==> ranks - {high} == ranks;
    } else {
      forall r
        ensures r !in ranks
      {
      }
      assert ranks == {};
    }
  }

  lemma {:induction false} SubsetSize<T>(a: set<T>, b: set<T>)
    requires a <= b
    ensures |a| <= |b|
    decreases |a|
  {
    if a != {} {
      var x :| x in a;
      SubsetSize(a - {x}, b - {x});
    }
  }

  lemma SameSetSize<T>(a: set<T>, b: set<T>)
    requires a <= b && |a| == |b|
    ensures a == b
  {
    assert b == a + (b - a);
  }

  lemma PartSize<T>(a: set<T>, b: set<T>)
    requires a <= b
    ensures |b| == |b - a| + |a|
  {
    assert b == (b - a) + a;
  }
}
