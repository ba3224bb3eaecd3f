/** Facts about finite sets and maps that several modules need. */
module Sets {

  lemma NonEmpty<T>(s: set<T>) returns (x: T)
    requires s != {}
    ensures x in s
  {
    x :| x in s;
  }

  lemma {:induction false} MaxExists(s: set<int>)
    requires s != {}
    ensures exists k :: k in s && forall j <- s :: j <= k
  {
    var x := NonEmpty(s);
    if s != {x} {
      var rest := s - {x};
      MaxExists(rest);
      var k :| k in rest && forall j <- rest :: j <= k;
      var m := if x <= k then k else x;
      assert m in s && forall j <- s :: j <= m by {
        forall j | j in s ensures j <= m {
          if j != x { assert j in rest; }
        }
      }
    }
  }
}
