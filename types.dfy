/**
 * The records of the pet factory (types.ts) and its constant tables
 * (constants.ts). Timestamps are integer milliseconds; an NPC's expiration,
 * an ISO date string in the source, is an optional timestamp here.
 */
module Types {
  import opened Wrappers

  datatype NpcType = F | E | D | C | B | A | S

  /** The enum's string value, as it appears in task names and pet names. */
  function Letter(t: NpcType): string {
    match t
    case F => "F" case E => "E" case D => "D" case C => "C"
    case B => "B" case A => "A" case S => "S"
  }

  datatype Division = Champion | Nursery | Factory

  function DivisionName(d: Division): string {
    match d
    case Champion => "Champion Pet"
    case Nursery => "Nursery"
    case Factory => "Factory"
  }

  /** An NPC is hired for 7 or for 15 days. */
  datatype Duration = Days7 | Days15

  function Days(d: Duration): nat {
    if d == Days7 then 7 else 15
  }

  datatype SlotMode = Linked | Solo

  /** A house's `productionMode`: 'LINKED' or 'INDEPENDENT'. */
  datatype ProductionMode = LinkedProduction | Independent

  datatype NpcSlot = NpcSlot(
    npcType: Option<NpcType>,
    expiration: Option<int>,
    duration: Option<Duration>,
    mode: Option<SlotMode>,
    virtualHouseId: Option<string>)

  datatype PetSlot = PetSlot(name: Option<string>, startTime: Option<int>, finishTime: Option<int>)

  const EmptyPet := PetSlot(None, None, None)

  datatype Slot = Slot(npc: NpcSlot, pet: PetSlot)

  /** `houseLabel` is the source's `label`; a missing label is the empty string: the source treats both alike. */
  datatype House = House(
    id: int,
    division: Division,
    houseLabel: string,
    serviceBlock: string,
    perfectionAttempts: int,
    productionMode: Option<ProductionMode>,
    slots: seq<Slot>)

  datatype SlotRef = SlotRef(houseId: int, slotIndex: int)

  datatype VirtualHouse = VirtualHouse(id: string, name: string, slots: seq<SlotRef>)

  datatype WarehouseItem = WarehouseItem(id: string, name: string, currentStock: int, safetyStockLevel: int)

  /** Cycle times are whole hours. */
  datatype CycleTime = CycleTime(npcType: NpcType, time: nat)

  datatype PriceConfig = PriceConfig(petPrices: map<NpcType, int>, npcCost15Day: int, npcCost7Day: int)

  datatype CollectedPet = CollectedPet(petType: NpcType, quantity: int)

  datatype SaleRecord = SaleRecord(
    id: string, petType: NpcType, quantity: int, pricePerUnit: int, totalValue: int, timestamp: int)

  /** JavaScript numbers; the theoretical projection is fractional. */
  datatype ProjectedProfit = ProjectedProfit(
    grossRevenue: real, npcExpenses: real, perfectionExpenses: real, netProfit: real, sPetsCount: real)

  const HourMs: int := 3600000
  const DayMs: int := 86400000
  const WeekMs: int := 604800000

  const FPetStock: string := "f-pet-stock"

  /** CYCLE_TIMES: hours an NPC of each rank needs to raise one pet. */
  const CycleTimes: seq<CycleTime> := [
    CycleTime(F, 10), CycleTime(E, 20), CycleTime(D, 50),
    CycleTime(C, 50), CycleTime(B, 75), CycleTime(A, 250)]

  /** DEFAULT_CHECKIN_TIMES. */
  const DefaultCheckinTimes: seq<int> := [9, 15, 21]

  /** Index in [F, E, D, C, B, A] (npcRankOrder), -1 for S. */
  function NpcRank(t: NpcType): int {
    match t
    case F => 0 case E => 1 case D => 2 case C => 3 case B => 4 case A => 5 case S => -1
  }

  /** Index in [F, E, D, C, B, A, S] (petRankOrder). */
  function PetRank(t: NpcType): nat {
    match t
    case F => 0 case E => 1 case D => 2 case C => 3 case B => 4 case A => 5 case S => 6
  }

  /** `npcRankOrder[i]` for an index that exists. */
  function NpcAtRank(i: nat): (t: NpcType)
    requires i < 6
    ensures NpcRank(t) == i
  {
    [F, E, D, C, B, A][i]
  }

  /** A pet timer as JavaScript tests it: `finishTime` non-null and non-zero. */
  predicate HasFinish(p: PetSlot) {
    p.finishTime.Some? && p.finishTime.value != 0
  }

  /** `prices.petPrices[t] || 0`. */
  function Price(prices: PriceConfig, t: NpcType): int {
    if t in prices.petPrices then prices.petPrices[t] else 0
  }

  /** `cycleTimes.find(c => c.npcType === t)`. */
  function FindCycle(cycleTimes: seq<CycleTime>, t: NpcType): (r: Option<nat>)
    ensures r.Some? <==> exists i :: 0 <= i < |cycleTimes| && cycleTimes[i].npcType == t
    ensures r.Some? ==> exists i :: 0 <= i < |cycleTimes| && cycleTimes[i] == CycleTime(t, r.value)
  {
    if cycleTimes == [] then None
    else if cycleTimes[0].npcType == t then Some(cycleTimes[0].time)
    else
      var r := FindCycle(cycleTimes[1..], t);
      assert forall i :: 1 <= i < |cycleTimes| ==> cycleTimes[i] == cycleTimes[1..][i - 1];
      r
  }

  /** Position of the first house with the given id (`houses.find(h => h.id === id)`). */
  function FindHouse(houses: seq<House>, id: int): (r: Option<nat>)
    ensures r.Some? ==> r.value < |houses| && houses[r.value].id == id
                        && forall j :: 0 <= j < r.value ==> houses[j].id != id
    ensures r.None? ==> forall j :: 0 <= j < |houses| ==> houses[j].id != id
  {
    if houses == [] then None
    else if houses[0].id == id then Some(0)
    else match FindHouse(houses[1..], id)
      case None => None
      case Some(k) => Some(k + 1)
  }

  /** Position of the first warehouse item with the given id. */
  function FindItem(items: seq<WarehouseItem>, id: string): (r: Option<nat>)
    ensures r.Some? ==> r.value < |items| && items[r.value].id == id
                        && forall j :: 0 <= j < r.value ==> items[j].id != id
    ensures r.None? ==> forall j :: 0 <= j < |items| ==> items[j].id != id
  {
    if items == [] then None
    else if items[0].id == id then Some(0)
    else match FindItem(items[1..], id)
      case None => None
      case Some(k) => Some(k + 1)
  }

  /** `items.find(i => i.id === id)?.currentStock || 0`. */
  function StockOf(items: seq<WarehouseItem>, id: string): int {
    match FindItem(items, id)
    case None => 0
    case Some(k) => items[k].currentStock
  }

  /** The ledger entry for a pet type (`collectedPets.find(p => p.petType === t)`). */
  function FindCollected(pets: seq<CollectedPet>, t: NpcType): (r: Option<nat>)
    ensures r.Some? ==> r.value < |pets| && pets[r.value].petType == t
                        && forall j :: 0 <= j < r.value ==> pets[j].petType != t
    ensures r.None? ==> forall j :: 0 <= j < |pets| ==> pets[j].petType != t
  {
    if pets == [] then None
    else if pets[0].petType == t then Some(0)
    else match FindCollected(pets[1..], t)
      case None => None
      case Some(k) => Some(k + 1)
  }

  /** The collected quantity of a pet type, 0 without an entry. */
  function CollectedQuantity(pets: seq<CollectedPet>, t: NpcType): int {
    match FindCollected(pets, t)
    case None => 0
    case Some(k) => pets[k].quantity
  }
}
