/** Choosing from, and counting, finite sets. */
module Sets {

  lemma SubsetOfSameSize<T>(a: set<T>, b: set<T>)
    requires a <= b
    ensures |a| <= |b|
    ensures |a| == |b| <==> a == b
  {
    assert b == a + (b - a);
  }

  ghost function Pick<T>(s: set<T>): (x: T)
    requires s != {}
    ensures x in s
  {
    var x :| x in s;
    x
  }

  /** The next key of a map or row of a table, in no particular order. */
  method Choose<T>(s: set<T>) returns (x: T)
    requires s != {}
    ensures x in s
  {
    x :| x in s;
  }

  lemma {:induction false} UpperBound(used: set<int>) returns (bound: int)
    ensures bound > 0 && forall id :: id in used ==> id < bound
  {
    if used == {} {
      bound := 1;
    } else {
      var id := Pick(used);
      var rest := UpperBound(used - {id});
      bound := if id < rest then rest else id + 1;
      assert forall y :: y in used ==> y == id || y in used - {id};
    }
  }
}
