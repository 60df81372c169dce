/** Least elements of finite sets of ids. */
module Keys {
  /** A non-empty set has a member. */
  lemma Member(keys: set<int>) returns (x: int)
    requires keys != {}
    ensures x in keys
  {
    assert (forall y :: y !in keys) ==> keys == {};
    x :| x in keys;
  }

  /** Every finite non-empty set of ids has a least element. */
  lemma LeastOf(keys: set<int>) returns (m: int)
    requires keys != {}
    ensures m in keys && forall j :: j in keys ==> m <= j
    decreases |keys|
  {
    var x := Member(keys);
    if keys == {x} {
      m := x;
    } else {
      var rest := LeastOf(keys - {x});
      m := if x < rest then x else rest;
      forall j | j in keys ensures m <= j {
        if j != x {
          assert j in keys - {x};
        }
      }
    }
  }

  lemma MinExists(keys: set<int>)
    requires keys != {}
    ensures exists k :: k in keys && forall j :: j in keys ==> k <= j
  {
    var m := LeastOf(keys);
  }
}
