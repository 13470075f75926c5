/**
 * The collapsible section of the pod and deployment detail panels: it
 * starts in its default state and each header click flips it.
 */
module Collapsible {
  /** The open state after `clicks` header clicks. */
  function OpenAfter(defaultOpen: bool, clicks: nat): bool
  {
    if clicks == 0 then defaultOpen else !OpenAfter(defaultOpen, clicks - 1)
  }

  /** An even number of clicks restores the default; an odd number inverts it. */
  lemma {:induction false} OpenAfterParity(defaultOpen: bool, clicks: nat)
    ensures OpenAfter(defaultOpen, clicks) == if clicks % 2 == 0 then defaultOpen else !defaultOpen
  {
    if clicks > 0 {
      OpenAfterParity(defaultOpen, clicks - 1);
    }
  }

  class Section {
    const defaultOpen: bool
    var isOpen: bool
    ghost var clicks: nat

    ghost predicate Valid()
      reads this
    {
      isOpen == OpenAfter(defaultOpen, clicks)
    }

    constructor(defaultOpen: bool)
      ensures this.defaultOpen == defaultOpen && isOpen == defaultOpen && clicks == 0
      ensures Valid()
    {
      this.defaultOpen := defaultOpen;
      isOpen := defaultOpen;
      clicks := 0;
    }

    method Toggle()
      requires Valid()
      modifies this
      ensures isOpen == !old(isOpen) && clicks == old(clicks) + 1
      ensures Valid()
    {
      isOpen := !isOpen;
      clicks := clicks + 1;
    }
  }
}
