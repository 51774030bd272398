/**
 * The virtual-house form (components/VirtualHouseModal.tsx): three SOLO
 * slots, from any houses, are picked in order and grouped under a name; a
 * virtual house can later be disbanded. New ids are parameters.
 */
module VirtualHouses {
  import opened Wrappers
  import opened Types
  import Lists
  import Text

  /** One entry of `availableSoloSlots`. */
  datatype SlotChoice = SlotChoice(houseId: int, slotIndex: nat, slot: Slot, houseLabel: string)

  /** The choices of one house, from slot `i` on. */
  function HouseChoices(h: House, i: nat): (r: seq<SlotChoice>)
    requires i <= |h.slots|
    ensures |r| == |h.slots| - i
    ensures forall j :: 0 <= j < |r| ==> r[j] == SlotChoice(h.id, i + j, h.slots[i + j], h.houseLabel)
    decreases |h.slots| - i
  {
    if i == |h.slots| then [] else [SlotChoice(h.id, i, h.slots[i], h.houseLabel)] + HouseChoices(h, i + 1)
  }

  /** `houses.flatMap(h => h.slots.map(...))`. */
  function AllChoices(houses: seq<House>): seq<SlotChoice> {
    if houses == [] then [] else HouseChoices(houses[0], 0) + AllChoices(houses[1..])
  }

  /** An NPC is there, in SOLO mode, and not yet in a virtual house (`virtualHouseId` falsy). */
  predicate Available(c: SlotChoice) {
    && c.slot.npc.npcType.Some?
    && c.slot.npc.mode == Some(Solo)
    && (c.slot.npc.virtualHouseId.None? || c.slot.npc.virtualHouseId == Some(""))
  }

  function AvailableSoloSlots(houses: seq<House>): seq<SlotChoice> {
    Lists.Filter(AllChoices(houses), Available)
  }

  lemma {:induction false} AllChoicesMembers(houses: seq<House>, c: SlotChoice)
    ensures c in AllChoices(houses) <==>
              exists k, i :: 0 <= k < |houses| && 0 <= i < |houses[k].slots|
                             && c == SlotChoice(houses[k].id, i, houses[k].slots[i], houses[k].houseLabel)
  {
    if houses != [] {
      AllChoicesMembers(houses[1..], c);
      var h := houses[0];
      if c in HouseChoices(h, 0) {
        var j :| 0 <= j < |h.slots| && HouseChoices(h, 0)[j] == c;
        assert houses[0] == h;
      }
      if exists k, i :: 0 <= k < |houses| && 0 <= i < |houses[k].slots|
                        && c == SlotChoice(houses[k].id, i, houses[k].slots[i], houses[k].houseLabel) {
        var k, i :| 0 <= k < |houses| && 0 <= i < |houses[k].slots|
                    && c == SlotChoice(houses[k].id, i, houses[k].slots[i], houses[k].houseLabel);
        if k == 0 {
          assert HouseChoices(h, 0)[i] == c;
        } else {
          assert houses[1..][k - 1] == houses[k];
        }
      }
    }
  }

  /** The offered slots are exactly the available slots of all houses. */
  lemma AvailableSoloSlotsExactly(houses: seq<House>, c: SlotChoice)
    ensures c in AvailableSoloSlots(houses) <==>
              && Available(c)
              && exists k, i :: 0 <= k < |houses| && 0 <= i < |houses[k].slots|
                                && c == SlotChoice(houses[k].id, i, houses[k].slots[i], houses[k].houseLabel)
  {
    AllChoicesMembers(houses, c);
  }

  predicate NoDuplicates(s: seq<SlotRef>) {
    forall i, j :: 0 <= i < j < |s| ==> s[i] != s[j]
  }

  /** `prev.filter(s => !(s.houseId === houseId && s.slotIndex === slotIndex))`. */
  function Unselect(selected: seq<SlotRef>, slot: SlotRef): (r: seq<SlotRef>)
    ensures |r| <= |selected|
    ensures forall x :: x in r <==> x in selected && x != slot
  {
    if selected == [] then []
    else
      assert selected == [selected[0]] + selected[1..];
      (if selected[0] != slot then [selected[0]] else []) + Unselect(selected[1..], slot)
  }

  /** `handleSlotToggle` on the selection. */
  function Toggled(selected: seq<SlotRef>, slot: SlotRef): seq<SlotRef> {
    if slot in selected then Unselect(selected, slot)
    else if |selected| < 3 then selected + [slot]
    else selected
  }

  lemma {:induction false} UnselectKeeps(selected: seq<SlotRef>, slot: SlotRef)
    requires NoDuplicates(selected)
    ensures NoDuplicates(Unselect(selected, slot))
  {
    if selected != [] {
      UnselectKeeps(selected[1..], slot);
      var rest := Unselect(selected[1..], slot);
      assert selected == [selected[0]] + selected[1..];
      assert selected[0] !in selected[1..];
      if selected[0] != slot {
        var r := [selected[0]] + rest;
        forall i, j | 0 <= i < j < |r| ensures r[i] != r[j] {
          if i > 0 {
            assert r[i] == rest[i - 1];
          }
          assert r[j] == rest[j - 1];
        }
      }
    }
  }

  /**
   * Toggling keeps the selection at most three slots without repeats: a
   * selected slot is removed, an unselected one is added last when there is
   * room, and ignored when three are selected.
   */
  lemma ToggledSpec(selected: seq<SlotRef>, slot: SlotRef)
    requires |selected| <= 3 && NoDuplicates(selected)
    ensures var r := Toggled(selected, slot);
            && |r| <= 3 && NoDuplicates(r)
            && (slot in selected ==> forall x :: x in r <==> x in selected && x != slot)
            && (slot !in selected && |selected| < 3 ==> r == selected + [slot])
            && (slot !in selected && |selected| == 3 ==> r == selected)
  {
    UnselectKeeps(selected, slot);
  }

  /** Unselecting a slot that is not selected changes nothing. */
  lemma {:induction false} UnselectAbsent(selected: seq<SlotRef>, slot: SlotRef)
    requires slot !in selected
    ensures Unselect(selected, slot) == selected
  {
    if selected != [] {
      UnselectAbsent(selected[1..], slot);
      assert selected == [selected[0]] + selected[1..];
    }
  }

  /** Toggling a slot on and then off again restores the selection. */
  lemma {:induction false} ToggleTwice(selected: seq<SlotRef>, slot: SlotRef)
    requires slot !in selected && |selected| < 3
    ensures Toggled(Toggled(selected, slot), slot) == selected
  {
    UnselectSnoc(selected, slot);
  }

  lemma {:induction false} UnselectSnoc(selected: seq<SlotRef>, slot: SlotRef)
    requires slot !in selected
    ensures Unselect(selected + [slot], slot) == selected
  {
    if selected == [] {
      assert Unselect([slot], slot) == [] + Unselect([], slot);
    } else {
      UnselectSnoc(selected[1..], slot);
      assert (selected + [slot])[1..] == selected[1..] + [slot];
      assert selected == [selected[0]] + selected[1..];
    }
  }

  /** `virtualHouses.filter(vh => vh.id !== id)`. */
  function WithoutHouse(virtualHouses: seq<VirtualHouse>, id: string): (r: seq<VirtualHouse>)
    ensures |r| <= |virtualHouses|
  {
    if virtualHouses == [] then []
    else (if virtualHouses[0].id != id then [virtualHouses[0]] else []) + WithoutHouse(virtualHouses[1..], id)
  }

  /** Deleting removes exactly the virtual houses with the id. */
  lemma {:induction false} WithoutHouseMembers(virtualHouses: seq<VirtualHouse>, id: string)
    ensures forall v :: v in WithoutHouse(virtualHouses, id) <==> v in virtualHouses && v.id != id
  {
    if virtualHouses != [] {
      WithoutHouseMembers(virtualHouses[1..], id);
      assert virtualHouses == [virtualHouses[0]] + virtualHouses[1..];
    }
  }

  lemma {:induction false} WithoutHouseConcat(a: seq<VirtualHouse>, b: seq<VirtualHouse>, id: string)
    ensures WithoutHouse(a + b, id) == WithoutHouse(a, id) + WithoutHouse(b, id)
  {
    if a == [] {
      assert a + b == b;
    } else {
      var head := if a[0].id != id then [a[0]] else [];
      WithoutHouseConcat(a[1..], b, id);
      assert (a + b)[0] == a[0] && (a + b)[1..] == a[1..] + b;
      assert WithoutHouse(a + b, id) == head + WithoutHouse(a[1..] + b, id);
      assert WithoutHouse(a, id) == head + WithoutHouse(a[1..], id);
      Lists.ConcatAssoc(head, WithoutHouse(a[1..], id), WithoutHouse(b, id));
    }
  }

  /** An id no virtual house has removes nothing. */
  lemma {:induction false} WithoutUnknownHouse(virtualHouses: seq<VirtualHouse>, id: string)
    requires forall i :: 0 <= i < |virtualHouses| ==> virtualHouses[i].id != id
    ensures WithoutHouse(virtualHouses, id) == virtualHouses
  {
    if virtualHouses != [] {
      WithoutUnknownHouse(virtualHouses[1..], id);
      assert virtualHouses == [virtualHouses[0]] + virtualHouses[1..];
    }
  }

  lemma WithoutOnly(v: VirtualHouse)
    ensures WithoutHouse([v], v.id) == []
  {
    assert [v][1..] == [];
  }

  /** Deleting one virtual house keeps the others in their order. */
  lemma DeleteKeepsOrder(before: seq<VirtualHouse>, v: VirtualHouse, after: seq<VirtualHouse>)
    requires forall i :: 0 <= i < |before| ==> before[i].id != v.id
    requires forall i :: 0 <= i < |after| ==> after[i].id != v.id
    ensures WithoutHouse(before + [v] + after, v.id) == before + after
  {
    var front := before + [v];
    WithoutHouseConcat(front, after, v.id);
    WithoutHouseConcat(before, [v], v.id);
    WithoutUnknownHouse(before, v.id);
    WithoutUnknownHouse(after, v.id);
    WithoutOnly(v);
    assert WithoutHouse(front, v.id) == before;
  }

  /** `handleCreate`'s guard: a name that is not blank and exactly three slots. */
  predicate CanCreate(name: string, selected: seq<SlotRef>) {
    Text.Trim(name) != [] && |selected| == 3
  }

  /** The form of the modal together with the list it edits. */
  class HouseBuilder {
    var newHouseName: string
    var selectedSlots: seq<SlotRef>
    var virtualHouses: seq<VirtualHouse>

    ghost predicate Valid()
      reads this
    {
      |selectedSlots| <= 3 && NoDuplicates(selectedSlots)
    }

    constructor(virtualHouses: seq<VirtualHouse>)
      ensures Valid()
      ensures this.newHouseName == [] && this.selectedSlots == [] && this.virtualHouses == virtualHouses
    {
      this.newHouseName := [];
      this.selectedSlots := [];
      this.virtualHouses := virtualHouses;
    }

    method SetName(name: string)
      modifies this
      requires Valid()
      ensures Valid()
      ensures newHouseName == name && selectedSlots == old(selectedSlots) && virtualHouses == old(virtualHouses)
    {
      newHouseName := name;
    }

    /** `handleSlotToggle`. */
    method ToggleSlot(houseId: int, slotIndex: int)
      modifies this
      requires Valid()
      ensures Valid()
      ensures selectedSlots == Toggled(old(selectedSlots), SlotRef(houseId, slotIndex))
      ensures newHouseName == old(newHouseName) && virtualHouses == old(virtualHouses)
    {
      var slot := SlotRef(houseId, slotIndex);
      ToggledSpec(selectedSlots, slot);
      if slot in selectedSlots {
        selectedSlots := Unselect(selectedSlots, slot);
      } else if |selectedSlots| < 3 {
        selectedSlots := selectedSlots + [slot];
      }
    }

    /**
     * `handleCreate`: with a blank name or not exactly three slots nothing
     * changes; otherwise one virtual house with the trimmed name and the
     * slots in the order picked is added, and the form is cleared.
     */
    method Create(id: string)
      modifies this
      requires Valid()
      ensures Valid()
      ensures !CanCreate(old(newHouseName), old(selectedSlots)) ==>
                newHouseName == old(newHouseName) && selectedSlots == old(selectedSlots)
                && virtualHouses == old(virtualHouses)
      ensures CanCreate(old(newHouseName), old(selectedSlots)) ==>
                && virtualHouses == old(virtualHouses) + [VirtualHouse(id, Text.Trim(old(newHouseName)), old(selectedSlots))]
                && newHouseName == [] && selectedSlots == []
    {
      if Text.Trim(newHouseName) == [] {
        return;
      }
      if |selectedSlots| != 3 {
        return;
      }
      virtualHouses := virtualHouses + [VirtualHouse(id, Text.Trim(newHouseName), selectedSlots)];
      newHouseName := [];
      selectedSlots := [];
    }

    /** `handleDelete`, once confirmed. */
    method Delete(id: string)
      modifies this
      requires Valid()
      ensures Valid()
      ensures virtualHouses == WithoutHouse(old(virtualHouses), id)
      ensures newHouseName == old(newHouseName) && selectedSlots == old(selectedSlots)
    {
      virtualHouses := WithoutHouse(virtualHouses, id);
    }
  }

  /** A created virtual house has a name with no surrounding blanks and three different slots. */
  lemma CreatedHouseShape(name: string, selected: seq<SlotRef>)
    requires CanCreate(name, selected) && NoDuplicates(selected)
    ensures var n := Text.Trim(name);
            n != [] && !Text.IsSpace(n[0]) && !Text.IsSpace(n[|n| - 1])
    ensures |selected| == 3 && selected[0] != selected[1] && selected[1] != selected[2] && selected[0] != selected[2]
  {
  }
}
