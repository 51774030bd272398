/**
 * The slots of all houses seen one at a time, in the order in which the
 * source's nested `houses.forEach(house => house.slots.forEach(...))` loops
 * visit them.
 */
module Farm {
  import opened Types

  /** A slot together with its house's id and service block and its own index. */
  datatype SlotView = SlotView(slot: Slot, houseId: int, serviceBlock: string, slotIndex: nat)

  function ViewOf(h: House, j: nat): SlotView
    requires j < |h.slots|
  {
    SlotView(h.slots[j], h.id, h.serviceBlock, j)
  }

  /** The views of the first `n` slots of `h`, in slot order. */
  function HouseViews(h: House, n: nat): (r: seq<SlotView>)
    requires n <= |h.slots|
    ensures |r| == n
    ensures forall j :: 0 <= j < n ==> r[j] == ViewOf(h, j)
  {
    if n == 0 then [] else HouseViews(h, n - 1) + [ViewOf(h, n - 1)]
  }

  function AllViews(h: House): seq<SlotView> {
    HouseViews(h, |h.slots|)
  }

  /** Every slot of every house, house by house and slot by slot. */
  function Flatten(houses: seq<House>): seq<SlotView> {
    if houses == [] then [] else Flatten(houses[..|houses| - 1]) + AllViews(houses[|houses| - 1])
  }

  /** The walk visits exactly the slots of the houses, each with its house's id and block and its index. */
  lemma {:induction false} FlattenMembers(houses: seq<House>)
    ensures forall v :: v in Flatten(houses) ==>
              exists i, j :: 0 <= i < |houses| && 0 <= j < |houses[i].slots| && v == ViewOf(houses[i], j)
    ensures forall i, j :: 0 <= i < |houses| && 0 <= j < |houses[i].slots| ==> ViewOf(houses[i], j) in Flatten(houses)
  {
    if houses != [] {
      var init := houses[..|houses| - 1];
      var last := houses[|houses| - 1];
      FlattenMembers(init);
      assert forall i :: 0 <= i < |init| ==> init[i] == houses[i];
      forall v | v in Flatten(houses)
        ensures exists i, j :: 0 <= i < |houses| && 0 <= j < |houses[i].slots| && v == ViewOf(houses[i], j)
      {
        if v !in Flatten(init) {
          var j :| 0 <= j < |last.slots| && AllViews(last)[j] == v;
          assert v == ViewOf(houses[|houses| - 1], j);
        }
      }
      forall i, j | 0 <= i < |houses| && 0 <= j < |houses[i].slots|
        ensures ViewOf(houses[i], j) in Flatten(houses)
      {
        if i == |houses| - 1 {
          assert AllViews(last)[j] == ViewOf(houses[i], j);
        }
      }
    }
  }

  /** Walking one more house appends the views of its slots. */
  lemma FlattenStep(houses: seq<House>, i: nat)
    requires i < |houses|
    ensures Flatten(houses[..i + 1]) == Flatten(houses[..i]) + AllViews(houses[i])
  {
    assert houses[..i + 1][..i] == houses[..i];
  }
}
