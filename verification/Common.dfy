/** Small types shared by every part of the model. */
module Common {

  datatype Option<+T> = None | Some(value: T)

  /** One queue of one organisation. */
  datatype Scope = Scope(org: nat, queue: string)

  /** A number beyond all of a finite set. */
  lemma {:induction false} Beyond(s: set<nat>) returns (b: nat)
    ensures forall x | x in s :: x < b
  {
    if s == {} {
      b := 0;
    } else {
      var y :| y in s;
      var rest := Beyond(s - {y});
      b := if y < rest then rest else y + 1;
      assert forall x | x in s :: x == y || x in s - {y};
    }
  }
}
