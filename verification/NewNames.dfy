// A number or a string that is not among finitely many.

module NewNames {
  lemma {:induction false} FreshNat(xs: set<nat>) returns (x: nat)
    ensures forall y :: y in xs ==> y < x
  {
    if xs == {} {
      x := 0;
    } else {
      var z :| z in xs;
      var w := FreshNat(xs - {z});
      x := if z < w then w else z + 1;
      assert forall y :: y in xs ==> y == z || y in xs - {z};
    }
  }

  lemma {:induction false} FreshString(xs: set<string>) returns (x: string)
    ensures forall y :: y in xs ==> |y| < |x|
  {
    if xs == {} {
      x := "a";
    } else {
      var z :| z in xs;
      var w := FreshString(xs - {z});
      x := w + z + "a";
    }
  }
}
