/** Lists without repetitions, and the sizes of sets. */
module Collections {
  predicate Distinct<T(==)>(xs: seq<T>) {
    forall i, j | 0 <= i < j < |xs| :: xs[i] != xs[j]
  }

  // No two elements have the same key
  predicate DistinctBy<T, K(==)>(xs: seq<T>, key: T -> K) {
    forall i, j | 0 <= i < j < |xs| :: key(xs[i]) != key(xs[j])
  }

  lemma SubsetSize<T>(a: set<T>, b: set<T>)
    requires a <= b
    ensures |a| <= |b| && (|a| == |b| <==> a == b)
  {
    assert |b| == |a| + |b - a|;
  }

  lemma DistinctOneMore<T>(xs: seq<T>)
    requires xs != []
    ensures var last := |xs| - 1;
            Distinct(xs) <==> Distinct(xs[..last]) && xs[last] !in xs[..last]
  {
  }

  // A list repeats nothing exactly when it has as many elements as its set
  lemma {:induction false} DistinctCount<T>(xs: seq<T>)
    ensures |set x | x in xs| <= |xs|
    ensures Distinct(xs) <==> |set x | x in xs| == |xs|
    decreases |xs|
  {
    var all := set x | x in xs;
    if xs == [] {
      assert all == {};
    } else {
      hide Distinct;
      var last := |xs| - 1;
      var fewer := set x | x in xs[..last];
      DistinctCount(xs[..last]);
      DistinctOneMore(xs);
      assert xs == xs[..last] + [xs[last]];
      assert all == fewer + {xs[last]};
      assert xs[last] in fewer <==> xs[last] in xs[..last];
    }
  }
}
