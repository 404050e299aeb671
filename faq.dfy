/** The FAQ accordion: one optional open index and a toggle rule. */
module Faq {
  import opened Options

  /** `handleToggle(i)`'s new open index: closed if `i` was open, otherwise `i`. */
  function Toggled(openIndex: Option<nat>, i: nat): (r: Option<nat>)
    ensures r == None <==> openIndex == Some(i)
    ensures r != None ==> r == Some(i)
  {
    if openIndex == Some(i) then None else Some(i)
  }

  /** `isOpen={openIndex === i}` for item `k`. */
  predicate IsOpen(openIndex: Option<nat>, k: nat) {
    openIndex == Some(k)
  }

  /** At most one item is open in any state. */
  lemma AtMostOneOpen(openIndex: Option<nat>, a: nat, b: nat)
    requires IsOpen(openIndex, a) && IsOpen(openIndex, b)
    ensures a == b
  {
  }

  /** Opening another item closes the one that was open. */
  lemma ToggleThenOther(openIndex: Option<nat>, i: nat, j: nat)
    requires i != j
    ensures Toggled(Toggled(openIndex, i), j) == Some(j)
  {
  }

  /** Toggling the same item twice restores the state only from "all closed" or "`i` open"; from another open item it ends closed. */
  lemma ToggleTwice(openIndex: Option<nat>, i: nat)
    ensures Toggled(Toggled(openIndex, i), i) == openIndex <==> openIndex == None || openIndex == Some(i)
    ensures openIndex != None && openIndex != Some(i) ==> Toggled(Toggled(openIndex, i), i) == None
  {
  }

  class Accordion {
    var openIndex: Option<nat>

    /** Every item starts closed. */
    constructor ()
      ensures openIndex == None
      ensures forall k: nat :: !IsOpen(openIndex, k)
    {
      openIndex := None;
    }

    function ItemIsOpen(k: nat): (b: bool)
      reads this
      ensures b ==> forall j: nat :: IsOpen(openIndex, j) ==> j == k
    {
      IsOpen(openIndex, k)
    }

    method HandleToggle(i: nat)
      modifies this
      ensures openIndex == Toggled(old(openIndex), i)
    {
      openIndex := if openIndex == Some(i) then None else Some(i);
    }
  }
}
