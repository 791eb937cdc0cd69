/** The landing page's FAQ accordion: one `openItem` slot, so at most one
    answer is shown, and clicking a question toggles it. */
module Faq {
  import opened Common

  /** The ids of the five questions, in display order. */
  const FaqIds: seq<int> := [1, 2, 3, 4, 5]

  /** `toggleItem(id)`'s new value: the open item closes, any other opens. */
  function Toggle(openItem: Option<int>, id: int): Option<int>
  {
    if openItem == Some(id) then None else Some(id)
  }

  /** Whether the answer of the question with this id is rendered. */
  predicate AnswerShown(openItem: Option<int>, id: int)
  {
    openItem == Some(id)
  }

  /** How many of the listed questions show their answer. */
  function ShownCount(openItem: Option<int>, ids: seq<int>): nat
  {
    if ids == [] then 0
    else (if AnswerShown(openItem, ids[0]) then 1 else 0) + ShownCount(openItem, ids[1..])
  }

  /** No id is listed twice. */
  ghost predicate DistinctIds(ids: seq<int>)
  {
    forall i, j :: 0 <= i < j < |ids| ==> ids[i] != ids[j]
  }

  /** Toggling a closed question opens it; toggling the open one closes everything. */
  lemma ToggleOpensOrCloses(openItem: Option<int>, id: int)
    ensures openItem != Some(id) ==> Toggle(openItem, id) == Some(id) && AnswerShown(Toggle(openItem, id), id)
    ensures openItem == Some(id) ==> Toggle(openItem, id) == None
  {
  }

  /** Toggling twice from nothing open, or from the same question open, comes back. */
  lemma ToggleTwiceRestores(openItem: Option<int>, id: int)
    requires openItem == None || openItem == Some(id)
    ensures Toggle(Toggle(openItem, id), id) == openItem
  {
  }

  /** With another question open, toggling one twice leaves everything closed:
      the first toggle replaced the other question rather than stacking on it. */
  lemma ToggleTwiceFromOther(other: int, id: int)
    requires other != id
    ensures Toggle(Toggle(Some(other), id), id) == None
  {
  }

  /** With distinct ids at most one answer is shown, and exactly one when the
      open item is one of them. */
  lemma {:induction false} AtMostOneShown(openItem: Option<int>, ids: seq<int>)
    requires DistinctIds(ids)
    ensures ShownCount(openItem, ids) <= 1
    ensures ShownCount(openItem, ids) == 1 <==> openItem.Some? && openItem.value in ids
  {
    if ids != [] {
      AtMostOneShown(openItem, ids[1..]);
      if AnswerShown(openItem, ids[0]) {
        NoneShown(openItem, ids[1..]);
      }
    }
  }

  /** A list without the open item shows no answer. */
  lemma {:induction false} NoneShown(openItem: Option<int>, ids: seq<int>)
    requires openItem.None? || openItem.value !in ids
    ensures ShownCount(openItem, ids) == 0
  {
    if ids != [] {
      NoneShown(openItem, ids[1..]);
    }
  }

  /** On the FAQ page at most one answer is shown at any time. */
  lemma FaqShowsAtMostOne(openItem: Option<int>)
    ensures ShownCount(openItem, FaqIds) <= 1
  {
    AtMostOneShown(openItem, FaqIds);
  }

  /** The accordion's one state slot. */
  class Accordion {
    var openItem: Option<int>

    /** Initially every question is closed. */
    constructor ()
      ensures openItem == None
    {
      openItem := None;
    }

    /** `toggleItem(id)`. */
    method ToggleItem(id: int)
      modifies this
      ensures openItem == Toggle(old(openItem), id)
      ensures ShownCount(openItem, FaqIds) <= 1
    {
      openItem := if openItem == Some(id) then None else Some(id);
      FaqShowsAtMostOne(openItem);
    }
  }
}
