/** Tab navigation shared by the three editors' wizards: tabs are kept by
    their position in the editor's declared tab list. */
module Wizard {

  /** The outcome of pressing Next: another tab, or leaving the wizard
      (`onNext`). */
  datatype Move = Goto(tab: nat) | Finish

  /** `handleNext`: the following tab, or `onNext` from the last one. */
  function Forward(count: nat, i: nat): (r: Move)
    requires i < count
    ensures r.Finish? <==> i == count - 1
    ensures r.Goto? ==> r.tab == i + 1 && r.tab < count
  {
    if i < count - 1 then Goto(i + 1) else Finish
  }

  /** `handleBack`: the previous tab, staying put on the first. */
  function Backward(i: nat): (r: nat)
    ensures i == 0 ==> r == 0
    ensures i > 0 ==> r + 1 == i
  {
    if i > 0 then i - 1 else i
  }

  /** Back undoes Next whenever Next stayed in the wizard. */
  lemma BackUndoesNext(count: nat, i: nat)
    requires i < count
    ensures Forward(count, i).Goto? ==> Backward(Forward(count, i).tab) == i
  {
  }

  /** The tabs visited by pressing Next repeatedly from tab `i` until the
      wizard is left. */
  function Walk(count: nat, i: nat): seq<nat>
    requires i < count
    decreases count - i
  {
    match Forward(count, i)
    case Finish => [i]
    case Goto(j) => [i] + Walk(count, j)
  }

  /** Next walks every tab from `i` on in declared order, one by one, and
      leaves only from the last. */
  lemma {:induction false} WalkInOrder(count: nat, i: nat)
    requires i < count
    ensures |Walk(count, i)| == count - i
    ensures forall k :: 0 <= k < |Walk(count, i)| ==> Walk(count, i)[k] == i + k
    decreases count - i
  {
    if i < count - 1 {
      WalkInOrder(count, i + 1);
    }
  }
}
