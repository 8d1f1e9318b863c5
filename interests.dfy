/**
 * The interests page: the selection of interest ids, changed only by the
 * select/deselect toggle on each card, and the gate on the Continue button.
 */
module Interests {
  import ListOps

  /** The ids of the eleven interest cards, in the page's order. */
  const InterestIds: seq<string> := [
    "ai-ml", "data-science", "cyber-security", "cloud-computing", "web-development", "mobile-development",
    "blockchain", "devops", "competitive-programming", "software-development", "networks"
  ]

  /** The selection after the given card clicks, starting from the empty selection. */
  function Selection(clicks: seq<string>): seq<string> {
    ListOps.ToggleAll([], clicks)
  }

  /** `toggleInterest` deselects by removing every occurrence of the id, and selects by appending it. */
  lemma ToggleInterestExact(selected: seq<string>, id: string)
    ensures id in selected ==> ListOps.IsSublist(ListOps.Toggle(selected, id), selected)
    ensures id in selected ==>
              forall y :: multiset(ListOps.Toggle(selected, id))[y] == if y == id then 0 else multiset(selected)[y]
    ensures id !in selected ==> ListOps.Toggle(selected, id) == selected + [id]
  {
    ListOps.FilterIsOrderedSelection(selected, ListOps.NotEqual(id));
  }

  /** Selecting a card and then deselecting it restores the selection. */
  lemma ToggleTwiceRestores(selected: seq<string>, id: string)
    requires id !in selected
    ensures ListOps.Toggle(ListOps.Toggle(selected, id), id) == selected
  {
    ListOps.ToggleTwice(selected, id);
  }

  /** A selection reached by clicks alone never holds an id twice. */
  lemma SelectionHasNoDuplicates(clicks: seq<string>)
    ensures ListOps.NoDup(Selection(clicks))
  {
    ListOps.ToggleAllNoDup([], clicks);
  }

  /** `disabled={selectedInterests.length === 0}`. */
  predicate ContinueDisabled(selected: seq<string>) {
    |selected| == 0
  }

  /** Continue is enabled once a card is selected, and disabled again when the only selected card is deselected. */
  lemma ContinueGate(selected: seq<string>, id: string)
    ensures ContinueDisabled(selected) <==> selected == []
    ensures id !in selected ==> !ContinueDisabled(ListOps.Toggle(selected, id))
    ensures ContinueDisabled(ListOps.Toggle([id], id))
  {
    ListOps.ToggleTwice([], id);
    assert ListOps.Toggle([], id) == [id];
  }
}
