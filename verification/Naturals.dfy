/** Numbers not used so far. */
module Naturals {
  /** A number above all of these. */
  lemma {:induction false} Above(xs: set<nat>) returns (n: nat)
    ensures forall x :: x in xs ==> x < n
  {
    n := 0;
    if xs != {} {
      var x :| x in xs;
      n := Above(xs - {x});
      if n <= x { n := x + 1; }
      forall y | y in xs ensures y < n { assert y == x || y in xs - {x}; }
    }
  }
}
