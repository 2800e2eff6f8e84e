/** Choosing from finite sets. */
module Sets {
  lemma Pick<T>(s: set<T>) returns (x: T)
    requires s != {}
    ensures x in s
  {
    x :| x in s;
  }

  /** There is an integer above any finitely many. */
  lemma {:induction false} Above(s: set<int>) returns (n: int)
    ensures forall x | x in s :: x < n
  {
    if s == {} {
      n := 0;
    } else {
      var x := Pick(s);
      var rest := Above(s - {x});
      n := if x < rest then rest else x + 1;
      forall y | y in s ensures y < n { assert y == x || y in s - {x}; }
    }
  }
}
