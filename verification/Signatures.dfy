/** Transaction signatures: there is always one not used yet. */
module Signatures {

  lemma {:induction false} FreshSignature(used: set<string>) returns (y: string)
    ensures y !in used && forall x :: x in used ==> |x| < |y|
  {
    y := "x";
    if used != {} {
      var x :| x in used;
      var rest := FreshSignature(used - {x});
      y := if |x| < |rest| then rest else seq(|x| + 1, _ => 'x');
    }
  }
}
