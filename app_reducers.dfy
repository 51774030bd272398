/**
 * The state updates of App.tsx: editing, adding and removing houses (every
 * change of the house list that can move a house between divisions
 * reassigns the service blocks), selling pets, perfection attempts, and the
 * simulated clock of example mode. Ids of sale records and the wall clock
 * are parameters.
 */
module AppReducers {
  import opened Wrappers
  import opened Types
  import Ledger
  import Lists
  import Calendar
  import ServiceBlocks
  import BatchSteps

  /** The persisted application state (`AppState`). */
  datatype AppState = AppState(
    houses: seq<House>,
    warehouseItems: seq<WarehouseItem>,
    cashBalance: int,
    prices: PriceConfig,
    collectedPets: seq<CollectedPet>,
    salesHistory: seq<SaleRecord>,
    checkinTimes: seq<int>,
    completedTaskLog: seq<BatchSteps.LogEntry>,
    virtualHouses: seq<VirtualHouse>,
    isPerfectionMode: bool)

  // ---------------------------------------------------------------------------
  // Houses
  // ---------------------------------------------------------------------------

  /** `houses.map(h => h.id === u.id ? u : h)`. */
  function ReplaceById(houses: seq<House>, u: House): (r: seq<House>)
    ensures |r| == |houses|
    ensures forall i :: 0 <= i < |houses| ==> r[i] == if houses[i].id == u.id then u else houses[i]
  {
    if houses == [] then []
    else [if houses[0].id == u.id then u else houses[0]] + ReplaceById(houses[1..], u)
  }

  /**
   * `updateHouse`: the house with the id of `u` is replaced; only when the
   * first such house changes division are the service blocks reassigned.
   */
  function UpdateHouse(houses: seq<House>, u: House): seq<House> {
    var replaced := ReplaceById(houses, u);
    match FindHouse(houses, u.id)
    case Some(k) => if houses[k].division != u.division then ServiceBlocks.AssignedBlocks(replaced) else replaced
    case None => replaced
  }

  /**
   * Without a change of division only the houses with the id of `u` change,
   * into `u`; with one, the replaced list is relabelled and sorted by id.
   */
  lemma UpdateHouseSpec(houses: seq<House>, u: House)
    ensures var r := UpdateHouse(houses, u);
            var k := FindHouse(houses, u.id);
            if k.Some? && houses[k.value].division != u.division then
              && multiset(r) == multiset(ServiceBlocks.Relabelled(ReplaceById(houses, u)))
              && forall i, j :: 0 <= i < j < |r| ==> r[i].id <= r[j].id
            else
              && |r| == |houses|
              && forall i :: 0 <= i < |houses| ==> r[i] == if houses[i].id == u.id then u else houses[i]
  {
    ServiceBlocks.AssignedBlocksSpec(ReplaceById(houses, u));
  }

  /** An update for an id no house has changes nothing. */
  lemma UpdateUnknownHouse(houses: seq<House>, u: House)
    requires forall i :: 0 <= i < |houses| ==> houses[i].id != u.id
    ensures UpdateHouse(houses, u) == houses
  {
    var r := ReplaceById(houses, u);
    assert forall i :: 0 <= i < |houses| ==> r[i] == houses[i];
  }

  /** House ids identify houses, as adding houses keeps them (`AddedIdsFresh`). */
  predicate UniqueIds(houses: seq<House>) {
    forall i, j :: 0 <= i < j < |houses| ==> houses[i].id != houses[j].id
  }

  /** The house templates offered when adding houses (`HouseTemplate`). */
  datatype Template = ANursery | SNursery | AFactory | SFactory | EmptyTemplate

  function TemplateDivision(t: Template): Division {
    match t
    case ANursery => Nursery
    case SNursery => Nursery
    case AFactory => Factory
    case SFactory => Factory
    case EmptyTemplate => Nursery
  }

  /** The NPC types of a template's three slots. */
  function TemplateTypes(t: Template): seq<Option<NpcType>> {
    match t
    case ANursery => [Some(F), Some(E), None]
    case SNursery => [Some(F), Some(E), Some(D)]
    case AFactory => [Some(D), Some(C), Some(B)]
    case SFactory => [Some(C), Some(B), Some(A)]
    case EmptyTemplate => [None, None, None]
  }

  /** `createSlot`: an NPC hired for 15 days when there is one, and no pet. */
  function CreateSlot(npcType: Option<NpcType>): Slot {
    Slot(NpcSlot(npcType, None, if npcType.Some? then Some(Days15) else None, None, None), EmptyPet)
  }

  function NewHouse(id: int, t: Template): House {
    var types := TemplateTypes(t);
    House(id, TemplateDivision(t), "", "", 0, None,
          [CreateSlot(types[0]), CreateSlot(types[1]), CreateSlot(types[2])])
  }

  /** `Math.max(...houses.map(h => h.id))`, or 0 for no houses. */
  function MaxId(houses: seq<House>): (r: int)
    ensures forall i :: 0 <= i < |houses| ==> houses[i].id <= r
    ensures houses != [] ==> exists i :: 0 <= i < |houses| && houses[i].id == r
  {
    if houses == [] then 0
    else if |houses| == 1 then houses[0].id
    else
      var m := MaxId(houses[..|houses| - 1]);
      var last := houses[|houses| - 1].id;
      assert forall i :: 0 <= i < |houses| - 1 ==> houses[i] == houses[..|houses| - 1][i];
      if last > m then last else m
  }

  /** The `n` houses created after id `last`. */
  function NewHouses(last: int, t: Template, n: nat): seq<House> {
    if n == 0 then [] else NewHouses(last, t, n - 1) + [NewHouse(last + n, t)]
  }

  /** How often `for (let i = 0; i < quantity; i++)` runs. */
  function Runs(quantity: int): nat {
    if quantity > 0 then quantity else 0
  }

  /** `addHousesFromTemplate`: ids count up from the largest id, then the blocks are reassigned. */
  method AddHousesFromTemplate(houses: seq<House>, template: Template, quantity: int) returns (r: seq<House>)
    ensures r == ServiceBlocks.AssignedBlocks(houses + NewHouses(MaxId(houses), template, Runs(quantity)))
  {
    var added: seq<House> := [];
    var lastId := if |houses| > 0 then MaxId(houses) else 0;
    ghost var base := lastId;
    assert base == MaxId(houses);
    var i := 0;
    while i < quantity
      invariant 0 <= i <= Runs(quantity)
      invariant lastId == base + i
      invariant added == NewHouses(base, template, i)
    {
      lastId := lastId + 1;
      added := added + [NewHouse(lastId, template)];
      i := i + 1;
    }
    assert i == Runs(quantity);
    r := ServiceBlocks.AssignServiceBlocks(houses + added);
  }

  /**
   * The new houses get the ids after the largest existing one, in order;
   * each has the template's division and NPC types, a 15-day hire exactly
   * where there is an NPC, no pet, no expiration and no attempts.
   */
  lemma {:induction false} NewHousesSpec(last: int, t: Template, n: nat)
    ensures var r := NewHouses(last, t, n);
            && |r| == n
            && forall i :: 0 <= i < n ==>
                 && r[i].id == last + i + 1
                 && r[i].division == TemplateDivision(t)
                 && r[i].perfectionAttempts == 0
                 && |r[i].slots| == 3
                 && forall j :: 0 <= j < 3 ==>
                      var s := r[i].slots[j];
                      && s.npc.npcType == TemplateTypes(t)[j]
                      && (s.npc.duration == Some(Days15) <==> s.npc.npcType.Some?)
                      && (s.npc.duration.None? <==> s.npc.npcType.None?)
                      && s.npc.expiration.None?
                      && s.pet == EmptyPet
  {
    if n > 0 {
      NewHousesSpec(last, t, n - 1);
    }
  }

  /** Every new id is larger than every existing id, so none collides. */
  lemma AddedIdsFresh(houses: seq<House>, t: Template, n: nat)
    ensures var added := NewHouses(MaxId(houses), t, n);
            forall i, j :: 0 <= i < |houses| && 0 <= j < |added| ==> houses[i].id < added[j].id
  {
    NewHousesSpec(MaxId(houses), t, n);
  }

  /** Adding houses keeps every old house, adds the new ones, relabels them all and sorts by id. */
  lemma AddHousesSpec(houses: seq<House>, t: Template, quantity: int)
    ensures var all := houses + NewHouses(MaxId(houses), t, Runs(quantity));
            var r := ServiceBlocks.AssignedBlocks(all);
            && |r| == |houses| + Runs(quantity)
            && multiset(r) == multiset(ServiceBlocks.Relabelled(all))
            && forall i, j :: 0 <= i < j < |r| ==> r[i].id <= r[j].id
  {
    var all := houses + NewHouses(MaxId(houses), t, Runs(quantity));
    NewHousesSpec(MaxId(houses), t, Runs(quantity));
    ServiceBlocks.AssignedBlocksSpec(all);
  }

  function OtherIds(houses: seq<House>, id: int): seq<House> {
    Lists.Filter(houses, (h: House) => h.id != id)
  }

  /** `removeHouse`: every house with the id goes, then the blocks are reassigned. */
  function RemoveHouse(houses: seq<House>, id: int): seq<House> {
    ServiceBlocks.AssignedBlocks(OtherIds(houses, id))
  }

  /** After removal no house has the id (the rest are sorted by id, as `AssignedBlocksSpec` states). */
  lemma RemoveHouseDropsId(houses: seq<House>, id: int)
    ensures var r := RemoveHouse(houses, id);
            forall i :: 0 <= i < |r| ==> r[i].id != id
  {
    var kept := OtherIds(houses, id);
    var r := RemoveHouse(houses, id);
    ServiceBlocks.AssignedFromInput(kept);
    forall i | 0 <= i < |r| ensures r[i].id != id {
      var k :| 0 <= k < |kept| && r[i] == kept[k].(serviceBlock := r[i].serviceBlock);
      assert kept[k] in kept;
    }
  }

  /** Every house with another id is still there, with only its block changed. */
  lemma RemoveHouseKeepsOthers(houses: seq<House>, id: int)
    ensures var r := RemoveHouse(houses, id);
            forall i :: 0 <= i < |houses| && houses[i].id != id ==>
              exists j :: 0 <= j < |r| && r[j] == houses[i].(serviceBlock := r[j].serviceBlock)
  {
    var kept := OtherIds(houses, id);
    var r := RemoveHouse(houses, id);
    ServiceBlocks.AssignedKeepsInput(kept);
    forall i | 0 <= i < |houses| && houses[i].id != id
      ensures exists j :: 0 <= j < |r| && r[j] == houses[i].(serviceBlock := r[j].serviceBlock)
    {
      assert houses[i] in kept;
      var k :| 0 <= k < |kept| && kept[k] == houses[i];
    }
  }

  // ---------------------------------------------------------------------------
  // Selling and perfection attempts
  // ---------------------------------------------------------------------------

  /**
   * `handleSellPets`: the pets leave the ledger, the cash grows by their
   * value, and the sale is recorded first in the history.
   */
  function SellPets(s: AppState, t: NpcType, quantity: int, pricePerUnit: int, id: string, now: int): AppState {
    var total := quantity * pricePerUnit;
    s.(collectedPets := Ledger.UpdateCollectedPets(s.collectedPets, t, -quantity),
       cashBalance := s.cashBalance + total,
       salesHistory := [SaleRecord(id, t, quantity, pricePerUnit, total, now)] + s.salesHistory)
  }

  lemma SellPetsSpec(s: AppState, t: NpcType, quantity: int, pricePerUnit: int, id: string, now: int)
    requires Ledger.WellFormed(s.collectedPets)
    ensures var r := SellPets(s, t, quantity, pricePerUnit, id, now);
            && r.cashBalance - s.cashBalance == quantity * pricePerUnit
            && |r.salesHistory| == |s.salesHistory| + 1
            && r.salesHistory[1..] == s.salesHistory
            && r.salesHistory[0].totalValue == r.salesHistory[0].quantity * r.salesHistory[0].pricePerUnit
            && Ledger.WellFormed(r.collectedPets)
            && CollectedQuantity(r.collectedPets, t) == Ledger.AtLeastZero(CollectedQuantity(s.collectedPets, t) - quantity)
            && (forall u :: u != t ==> CollectedQuantity(r.collectedPets, u) == CollectedQuantity(s.collectedPets, u))
            && r.houses == s.houses && r.warehouseItems == s.warehouseItems
  {
    var r := SellPets(s, t, quantity, pricePerUnit, id, now);
    var total := quantity * pricePerUnit;
    var sale := SaleRecord(id, t, quantity, pricePerUnit, total, now);
    assert r.salesHistory == [sale] + s.salesHistory;
    assert ([sale] + s.salesHistory)[1..] == s.salesHistory;
    assert r.cashBalance == s.cashBalance + total;
    Ledger.UpdateCollectedPetsSpec(s.collectedPets, t, -quantity);
    assert r.collectedPets == Ledger.UpdateCollectedPets(s.collectedPets, t, -quantity);
  }

  /** The first Champion house (`houses.find(h => h.division === Division.CHAMPION)`). */
  function FindChampion(houses: seq<House>): (r: Option<nat>)
    ensures r.Some? ==> r.value < |houses| && houses[r.value].division == Champion
                        && forall j :: 0 <= j < r.value ==> houses[j].division != Champion
    ensures r.None? ==> forall j :: 0 <= j < |houses| ==> houses[j].division != Champion
  {
    if houses == [] then None
    else if houses[0].division == Champion then Some(0)
    else match FindChampion(houses[1..])
      case None => None
      case Some(k) => Some(k + 1)
  }

  /** `handlePerfectionAttempt`: one S pet is spent on one more attempt by the Champion house. */
  function PerfectionAttempt(s: AppState): AppState {
    var champion := FindChampion(s.houses);
    var sPets := FindCollected(s.collectedPets, S);
    if champion.Some? && sPets.Some? && s.collectedPets[sPets.value].quantity > 0 then
      s.(collectedPets := Ledger.UpdateCollectedPets(s.collectedPets, S, -1),
         houses := UpdateHouse(s.houses, OneMoreAttempt(s.houses[champion.value])))
    else s
  }

  /** `{ ...championHouse, perfectionAttempts: championHouse.perfectionAttempts + 1 }`. */
  function OneMoreAttempt(h: House): House {
    h.(perfectionAttempts := h.perfectionAttempts + 1)
  }

  /**
   * With a Champion house and an S pet in stock, one S pet goes and the
   * Champion house (and any house sharing its id) counts one more attempt;
   * otherwise nothing changes.
   */
  lemma PerfectionAttemptSpec(s: AppState)
    requires Ledger.WellFormed(s.collectedPets) && UniqueIds(s.houses)
    ensures var r := PerfectionAttempt(s);
            var champion := FindChampion(s.houses);
            if champion.Some? && CollectedQuantity(s.collectedPets, S) > 0 then
              var h := s.houses[champion.value];
              && CollectedQuantity(r.collectedPets, S) == CollectedQuantity(s.collectedPets, S) - 1
              && (forall u :: u != S ==> CollectedQuantity(r.collectedPets, u) == CollectedQuantity(s.collectedPets, u))
              && |r.houses| == |s.houses|
              && forall i :: 0 <= i < |s.houses| ==>
                   r.houses[i] == if s.houses[i].id == h.id then h.(perfectionAttempts := h.perfectionAttempts + 1)
                                  else s.houses[i]
            else r == s
  {
    var champion := FindChampion(s.houses);
    var r := PerfectionAttempt(s);
    var sPets := FindCollected(s.collectedPets, S);
    assert CollectedQuantity(s.collectedPets, S) > 0 <==> sPets.Some? && s.collectedPets[sPets.value].quantity > 0;
    if champion.Some? && CollectedQuantity(s.collectedPets, S) > 0 {
      var k := champion.value;
      var h := s.houses[k];
      var u := OneMoreAttempt(h);
      assert r.houses == UpdateHouse(s.houses, u);
      assert r.collectedPets == Ledger.UpdateCollectedPets(s.collectedPets, S, -1);
      assert u.id == h.id && u.division == h.division;
      SameDivisionUpdate(s.houses, k, u);
      Ledger.UpdateCollectedPetsSpec(s.collectedPets, S, -1);
    }
  }

  /** Updating a house without changing its division, when ids are unique, replaces it in place. */
  lemma SameDivisionUpdate(houses: seq<House>, k: nat, u: House)
    requires UniqueIds(houses) && k < |houses|
    requires houses[k].id == u.id && houses[k].division == u.division
    ensures UpdateHouse(houses, u) == ReplaceById(houses, u)
  {
    var f := FindHouse(houses, u.id);
    assert f == Some(k);
  }

  // ---------------------------------------------------------------------------
  // The simulated clock
  // ---------------------------------------------------------------------------

  datatype TravelUnit = Day | Week

  /** `handleTimeTravel`: no simulated time stays none; otherwise it moves by whole days or weeks. */
  function TimeTravel(simulated: Option<int>, amount: int, unit: TravelUnit): Option<int> {
    match simulated
    case None => None
    case Some(t) => Some(t + if unit == Day then amount * DayMs else amount * 7 * DayMs)
  }

  /** A week is seven days, travel adds up, and travelling back undoes travelling forward. */
  lemma TimeTravelLaws(simulated: Option<int>, a: int, b: int, unit: TravelUnit)
    ensures TimeTravel(simulated, a, Week) == TimeTravel(simulated, 7 * a, Day)
    ensures TimeTravel(TimeTravel(simulated, a, unit), b, unit) == TimeTravel(simulated, a + b, unit)
    ensures TimeTravel(TimeTravel(simulated, a, unit), -a, unit) == simulated
    ensures simulated.Some? ==> TimeTravel(simulated, a, unit).value - simulated.value
                                == a * (if unit == Day then 1 else 7) * DayMs
  {
    if simulated.Some? {
      if unit == Day {
        assert a * DayMs + b * DayMs == (a + b) * DayMs;
      } else {
        assert a * 7 * DayMs + b * 7 * DayMs == (a + b) * 7 * DayMs;
      }
    }
  }

  /** `handleSkipToCheckin` looks two days back and two days ahead. */
  const SkipDays: seq<int> := [-2, -1, 0, 1, 2]

  function SkipCandidates(now: int, checkinTimes: seq<int>): seq<int> {
    Calendar.Checkins(now, Calendar.SortHours(checkinTimes), SkipDays)
  }

  /** Where skipping moves the simulated clock. */
  function SkippedTo(simulated: Option<int>, checkinTimes: seq<int>, forward: bool): Option<int> {
    if simulated.None? || |checkinTimes| == 0 then simulated
    else
      var now := simulated.value;
      var candidates := SkipCandidates(now, checkinTimes);
      var found := if forward then Calendar.FirstAbove(Calendar.SortAscending(candidates), now)
                   else Calendar.FirstBelow(Calendar.SortDescending(candidates), now);
      if found.Some? then found else simulated
  }

  /** `handleSkipToCheckin`, with its loops over days and hours. */
  method SkipToCheckin(simulated: Option<int>, checkinTimes: seq<int>, forward: bool) returns (r: Option<int>)
    ensures r == SkippedTo(simulated, checkinTimes, forward)
  {
    r := simulated;
    if simulated.None? || |checkinTimes| == 0 {
      return;
    }
    var now := simulated.value;
    var sorted := Calendar.SortHours(checkinTimes);
    var candidates := Calendar.CollectCheckins(now, sorted, SkipDays);
    var found: Option<int>;
    if forward {
      found := Calendar.FirstAbove(Calendar.SortAscending(candidates), now);
    } else {
      found := Calendar.FirstBelow(Calendar.SortDescending(candidates), now);
    }
    if found.Some? {
      r := found;
    }
  }

  /**
   * Skipping forward lands on the earliest candidate check-in after now,
   * and stays put only when there is none.
   */
  lemma SkipForwardIsNext(now: int, checkinTimes: seq<int>)
    requires |checkinTimes| > 0
    ensures var r := SkippedTo(Some(now), checkinTimes, true);
            var c := SkipCandidates(now, checkinTimes);
            && r.Some?
            && ((exists x :: x in c && x > now) ==>
                  r.value in c && r.value > now && forall x :: x in c && x > now ==> r.value <= x)
            && ((forall x :: x in c ==> x <= now) ==> r.value == now)
  {
    var c := SkipCandidates(now, checkinTimes);
    var sorted := Calendar.SortAscending(c);
    assert forall x :: x in sorted <==> x in c by {
      assert forall x :: x in sorted <==> x in multiset(sorted);
      assert forall x :: x in c <==> x in multiset(c);
    }
    Calendar.FirstAboveIsLeast(sorted, now);
  }

  /**
   * Skipping backward lands on the latest candidate check-in before now,
   * and stays put only when there is none.
   */
  lemma SkipBackwardIsPrevious(now: int, checkinTimes: seq<int>)
    requires |checkinTimes| > 0
    ensures var r := SkippedTo(Some(now), checkinTimes, false);
            var c := SkipCandidates(now, checkinTimes);
            && r.Some?
            && ((exists x :: x in c && x < now) ==>
                  r.value in c && r.value < now && forall x :: x in c && x < now ==> x <= r.value)
            && ((forall x :: x in c ==> x >= now) ==> r.value == now)
  {
    var c := SkipCandidates(now, checkinTimes);
    var sorted := Calendar.SortDescending(c);
    assert forall x :: x in sorted <==> x in c by {
      assert forall x :: x in sorted <==> x in multiset(sorted);
      assert forall x :: x in c <==> x in multiset(c);
    }
    Calendar.FirstBelowIsGreatest(sorted, now);
  }

  /** With check-in hours inside the day, a skip always moves: tomorrow has a later check-in, two days ago an earlier one. */
  lemma SkipAlwaysMoves(now: int, checkinTimes: seq<int>)
    requires |checkinTimes| > 0 && Calendar.ValidHours(checkinTimes)
    ensures SkippedTo(Some(now), checkinTimes, true).value > now
    ensures SkippedTo(Some(now), checkinTimes, false).value < now
  {
    var hours := Calendar.SortHours(checkinTimes);
    Calendar.SortedHoursValid(checkinTimes);
    var h := hours[0];
    var day := Calendar.DayOf(now);
    Calendar.CheckinsContains(now, hours, SkipDays, 3, 0);
    Calendar.CheckinsContains(now, hours, SkipDays, 0, 0);
    assert Calendar.CheckinAt(day + 1, h) > now;
    assert Calendar.CheckinAt(day - 2, h) < now;
    SkipForwardIsNext(now, checkinTimes);
    SkipBackwardIsPrevious(now, checkinTimes);
  }
}
