/**
 * The two UI stores of the frontend (app/frontend/src/store.ts): the sort
 * order of the listing, which cycles newest -> best -> worst, and whether the
 * submission modal is shown.
 */
module Stores {

  const Newest := "newest"
  const Best := "best"
  const Worst := "worst"

  /** The sort orders in the order `change` visits them. */
  const SortOrders: seq<string> := [Newest, Best, Worst]

  /** The state `change` moves to; every unknown state falls back to "newest". */
  function NextOrder(s: string): (t: string)
    ensures t in SortOrders && t != s
    ensures s !in SortOrders ==> t == Newest
  {
    if s == Newest then Best
    else if s == Best then Worst
    else Newest
  }

  /** `change` steps one place along SortOrders, wrapping from the last to the first. */
  lemma NextOrderFollowsCycle(i: nat)
    requires i < |SortOrders|
    ensures NextOrder(SortOrders[i]) == SortOrders[(i + 1) % |SortOrders|]
  {
  }

  /** Three changes bring a sort order back to itself. */
  lemma NextOrderPeriodThree(s: string)
    requires s in SortOrders
    ensures NextOrder(NextOrder(NextOrder(s))) == s
  {
  }

  /** useSortOrderStore. */
  class SortOrderStore {
    var state: string

    constructor ()
      ensures SortOrder() == Newest
    {
      state := Newest;
    }

    /** The `sortOrder` getter. */
    function SortOrder(): (s: string)
      reads this
      ensures s == state
    {
      state
    }

    /** The `change` action. */
    method Change()
      modifies this
      ensures SortOrder() == NextOrder(old(SortOrder()))
      ensures SortOrder() in SortOrders
    {
      if state == Newest {
        state := Best;
      } else if state == Best {
        state := Worst;
      } else {
        state := Newest;
      }
    }
  }

  /** useShowModalStore. */
  class ModalStore {
    var state: bool

    constructor ()
      ensures !ModalState()
    {
      state := false;
    }

    /** The `modalState` getter. */
    function ModalState(): (b: bool)
      reads this
      ensures b == state
    {
      state
    }

    /** The `invert` action. */
    method Invert()
      modifies this
      ensures ModalState() == !old(ModalState())
    {
      state := !state;
    }
  }

  /** Three `change` calls on a store in one of the three orders leave it where it was. */
  method ChangeThrice(store: SortOrderStore)
    requires store.SortOrder() in SortOrders
    modifies store
    ensures store.SortOrder() == old(store.SortOrder())
  {
    store.Change();
    store.Change();
    store.Change();
    NextOrderPeriodThree(old(store.SortOrder()));
  }

  /** Two `invert` calls leave the modal state where it was. */
  method InvertTwice(store: ModalStore)
    modifies store
    ensures store.ModalState() == old(store.ModalState())
  {
    store.Invert();
    store.Invert();
  }
}
