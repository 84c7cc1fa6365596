/**
 * The service accordion of pages/ManagedIT.tsx: four feature items, at most
 * one of them open, driven by a single `openIndex` that is a number or null.
 */
module ManagedIT {
  import opened Outcomes

  /** The titles of the four `features`; descriptions and icons are markup. */
  const FeatureTitles := ["24/7/365 Studio Help Desk", "Hybrid Cloud Orchestration",
                          "Disaster Recovery & Continuity", "Strategic IT Roadmapping"]

  /** `isOpen={openIndex === index}`: an item is drawn open only when the
      index names it, so with `null` none is; `AtMostOneOpen` counts them. */
  predicate IsOpen(openIndex: Option<nat>, index: nat)
    ensures IsOpen(openIndex, index) ==> openIndex.Some?
    ensures openIndex.Some? && openIndex.value != index ==> !IsOpen(openIndex, index)
  {
    openIndex == Some(index)
  }

  /** The value the click handler of item `index` stores,
      `openIndex === index ? null : index`. */
  function Clicked(openIndex: Option<nat>, index: nat): (r: Option<nat>)
    ensures IsOpen(r, index) <==> !IsOpen(openIndex, index)
    ensures forall j: nat :: j != index ==> !IsOpen(r, j)
  {
    if openIndex == Some(index) then None else Some(index)
  }

  /** The indices of the items drawn open. */
  function OpenItems(openIndex: Option<nat>): set<nat>
  {
    set i: nat | i < |FeatureTitles| && IsOpen(openIndex, i)
  }

  /** At most one item is open at any time, and exactly one when the index
      names an item. */
  lemma AtMostOneOpen(openIndex: Option<nat>)
    ensures |OpenItems(openIndex)| <= 1
    ensures openIndex.Some? && openIndex.value < |FeatureTitles| ==> OpenItems(openIndex) == {openIndex.value}
  {
    if openIndex.Some? && openIndex.value < |FeatureTitles| {
      assert OpenItems(openIndex) == {openIndex.value};
    } else {
      assert OpenItems(openIndex) == {};
    }
  }

  /** Clicking the same item twice restores the state only when that item or
      none was open; when another item was open, all end up closed. */
  lemma ClickTwice(openIndex: Option<nat>, index: nat)
    ensures openIndex == Some(index) || openIndex.None? ==> Clicked(Clicked(openIndex, index), index) == openIndex
    ensures openIndex != Some(index) && openIndex.Some? ==> Clicked(Clicked(openIndex, index), index).None?
  {
  }

  /** The accordion's state. */
  class Accordion {
    var openIndex: Option<nat>

    /** The drawn open item, when there is one, is one of the four. */
    ghost predicate Valid()
      reads this
    {
      openIndex.Some? ==> openIndex.value < |FeatureTitles|
    }

    /** The first item starts open. */
    constructor ()
      ensures Valid() && openIndex == Some(0)
      ensures OpenItems(openIndex) == {0}
    {
      openIndex := Some(0);
      new;
      AtMostOneOpen(openIndex);
    }

    /** A click on the header of item `index`; only the four items are drawn. */
    method Click(index: nat)
      requires Valid()
      modifies this
      ensures Valid()
      ensures index < |FeatureTitles| ==> openIndex == Clicked(old(openIndex), index)
      ensures index >= |FeatureTitles| ==> openIndex == old(openIndex)
      ensures |OpenItems(openIndex)| <= 1
    {
      if index < |FeatureTitles| {
        openIndex := Clicked(openIndex, index);
      }
      AtMostOneOpen(openIndex);
    }
  }
}
