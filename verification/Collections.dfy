/** Facts about sequences and sets that several models share. */
module Collections {

  ghost predicate Distinct<T>(s: seq<T>) {
    forall i, j :: 0 <= i < j < |s| ==> s[i] != s[j]
  }

  lemma SubsetSize<T>(a: set<T>, b: set<T>)
    requires a <= b
    ensures |a| <= |b|
    ensures |a| == |b| ==> a == b
  {
    assert b == a + (b - a);
    assert |b| == |a| + |b - a|;
  }

  lemma UnionSize<T>(a: set<T>, b: set<T>)
    ensures |a + b| <= |a| + |b|
    ensures |a + b| == |a| + |b| <==> a !! b
  {
    assert |a + b| == |a| + |b| - |a * b|;
    if a * b == {} {
      forall x | x in a ensures x !in b {
        assert x in b ==> x in a * b;
      }
    } else {
      var x :| x in a * b;
      assert x in a && x in b;
    }
  }
}
