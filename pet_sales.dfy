/**
 * The pet-sales page (components/PetSales.tsx): how many pets of a type can
 * be sold, the guard a sale passes before it reaches the ledger, and the
 * inline editor that saves a price.
 */
module PetSales {
  import opened Wrappers
  import opened Types
  import Text
  import Ledger
  import AppReducers

  /** The work-in-progress item counted towards a sale; S pets have none. */
  function SaleWipId(t: NpcType): Option<string> {
    match t
    case F => Some("f-pet-wip") case E => Some("e-pet-wip") case D => Some("d-pet-wip")
    case C => Some("c-pet-wip") case B => Some("b-pet-wip") case A => Some("a-pet-wip")
    case S => None
  }

  /**
   * Pets of type `t` that may be sold: the collected quantity, plus the stock
   * of the type's work-in-progress item, plus (F only) the F stock. An entry
   * that is missing counts as 0, and only the first entry with a key counts.
   */
  function Available(pets: seq<CollectedPet>, items: seq<WarehouseItem>, t: NpcType): int {
    CollectedQuantity(pets, t)
    + (if SaleWipId(t).Some? then StockOf(items, SaleWipId(t).value) else 0)
    + (if t == F then StockOf(items, FPetStock) else 0)
  }

  /** `collectedPets.find(p => p.petType === t)`, one entry at a time. */
  method FindCollectedPet(pets: seq<CollectedPet>, t: NpcType) returns (r: Option<nat>)
    ensures r == FindCollected(pets, t)
  {
    var i := 0;
    while i < |pets|
      invariant 0 <= i <= |pets|
      invariant forall j :: 0 <= j < i ==> pets[j].petType != t
    {
      if pets[i].petType == t {
        return Some(i);
      }
      i := i + 1;
    }
    return None;
  }

  /** `warehouseItems.find(i => i.id === id)`, one item at a time. */
  method FindWarehouseItem(items: seq<WarehouseItem>, id: string) returns (r: Option<nat>)
    ensures r == FindItem(items, id)
  {
    var i := 0;
    while i < |items|
      invariant 0 <= i <= |items|
      invariant forall j :: 0 <= j < i ==> items[j].id != id
    {
      if items[i].id == id {
        return Some(i);
      }
      i := i + 1;
    }
    return None;
  }

  /** `getAvailableQuantity`: the running total of the three sources. */
  method GetAvailableQuantity(pets: seq<CollectedPet>, items: seq<WarehouseItem>, t: NpcType)
    returns (total: int)
    ensures total == Available(pets, items, t)
  {
    total := 0;
    var collected := FindCollectedPet(pets, t);
    if collected.Some? {
      total := total + pets[collected.value].quantity;
    }
    var wipId := SaleWipId(t);
    if wipId.Some? {
      var item := FindWarehouseItem(items, wipId.value);
      if item.Some? {
        total := total + items[item.value].currentStock;
      }
    }
    if t == F {
      var stockItem := FindWarehouseItem(items, FPetStock);
      if stockItem.Some? {
        total := total + items[stockItem.value].currentStock;
      }
    }
  }

  /** S pets have no work in progress: only the ledger counts. */
  lemma AvailableOfS(pets: seq<CollectedPet>, items: seq<WarehouseItem>)
    ensures Available(pets, items, S) == CollectedQuantity(pets, S)
  {
  }

  /** With no ledger entry and no warehouse items nothing can be sold. */
  lemma AvailableOfNothing(t: NpcType)
    ensures Available([], [], t) == 0
  {
  }

  /** Only the F stock adds to F pets; for other types it is ignored. */
  lemma AvailableIgnoresFStock(pets: seq<CollectedPet>, items: seq<WarehouseItem>, t: NpcType, k: nat)
    requires t != F && k < |items| && items[k].id == FPetStock
    ensures Available(pets, items[k := items[k].(currentStock := 0)], t) == Available(pets, items, t)
  {
    var after := items[k := items[k].(currentStock := 0)];
    if SaleWipId(t).Some? {
      SameIdsSameFind(items, after, SaleWipId(t).value);
      var m := FindItem(items, SaleWipId(t).value);
      if m.Some? {
        assert m.value != k;
      }
    }
  }

  lemma {:induction false} SameIdsSameFind(a: seq<WarehouseItem>, b: seq<WarehouseItem>, id: string)
    requires |a| == |b| && forall j :: 0 <= j < |a| ==> a[j].id == b[j].id
    ensures FindItem(a, id) == FindItem(b, id)
  {
    if a != [] && a[0].id != id {
      SameIdsSameFind(a[1..], b[1..], id);
    }
  }

  /** A well-formed ledger and a warehouse without negative stock never make availability negative. */
  lemma AvailableNonNegative(pets: seq<CollectedPet>, items: seq<WarehouseItem>, t: NpcType)
    requires Ledger.WellFormed(pets)
    requires forall j :: 0 <= j < |items| ==> items[j].currentStock >= 0
    ensures Available(pets, items, t) >= CollectedQuantity(pets, t) >= 0
  {
  }

  /**
   * A sale takes the pets out of the ledger alone: the warehouse stock that
   * made the sale possible stays, so availability falls only by the part of
   * the sale the ledger could cover.
   */
  lemma SaleLeavesWarehouseStock(s: AppReducers.AppState, t: NpcType, q: int, price: int, id: string, now: int)
    requires Ledger.WellFormed(s.collectedPets) && q > 0
    ensures var r := AppReducers.SellPets(s, t, q, price, id, now);
            var held := CollectedQuantity(s.collectedPets, t);
            Available(r.collectedPets, r.warehouseItems, t)
              == Available(s.collectedPets, s.warehouseItems, t) - (if q < held then q else held)
  {
    AppReducers.SellPetsSpec(s, t, q, price, id, now);
    var held := CollectedQuantity(s.collectedPets, t);
    if FindCollected(s.collectedPets, t).Some? {
      assert held > 0;
    }
  }

  /** The request `onSellPets` receives. */
  datatype Sale = Sale(petType: NpcType, quantity: int, price: int)

  /** `parseInt(sellQuantities[t] || '0', 10)`: a missing or empty input reads as "0". */
  function RequestedQuantity(inputs: map<NpcType, string>, t: NpcType): Option<int> {
    Text.ParseInt(if t in inputs && inputs[t] != "" then inputs[t] else "0")
  }

  /**
   * `handleSell`'s decision: a sale of the requested quantity at the
   * configured price, or nothing (the alert) when the quantity is not a
   * number, not positive, more than is available, or the price is not positive.
   */
  function SellDecision(inputs: map<NpcType, string>, t: NpcType, available: int, prices: PriceConfig): Option<Sale> {
    var q := RequestedQuantity(inputs, t);
    if q.Some? && q.value > 0 && q.value <= available && Price(prices, t) > 0
    then Some(Sale(t, q.value, Price(prices, t)))
    else None
  }

  /** A sale is issued exactly when the guard holds, and carries what was typed and the set price. */
  lemma SellDecisionSpec(inputs: map<NpcType, string>, t: NpcType, available: int, prices: PriceConfig)
    ensures var r := SellDecision(inputs, t, available, prices);
            r.Some? <==> (exists q :: RequestedQuantity(inputs, t) == Some(q) && 0 < q <= available)
                         && Price(prices, t) > 0
    ensures var r := SellDecision(inputs, t, available, prices);
            r.Some? ==> && r.value.petType == t
                        && Some(r.value.quantity) == RequestedQuantity(inputs, t)
                        && 0 < r.value.quantity <= available
                        && r.value.price == Price(prices, t) > 0
  {
    var q := RequestedQuantity(inputs, t);
    var r := SellDecision(inputs, t, available, prices);
    if q.Some? && 0 < q.value <= available && Price(prices, t) > 0 {
      assert r == Some(Sale(t, q.value, Price(prices, t)));
      assert q == Some(q.value);
    } else {
      assert r == None;
      forall n | q == Some(n) && 0 < n <= available ensures Price(prices, t) <= 0 {
        assert q.value == n;
      }
    }
  }

  /** An empty or missing input reads as 0 and is refused. */
  lemma EmptyInputRefused(inputs: map<NpcType, string>, t: NpcType, available: int, prices: PriceConfig)
    requires t !in inputs || inputs[t] == ""
    ensures SellDecision(inputs, t, available, prices).None?
  {
    ZeroParses();
    assert RequestedQuantity(inputs, t) == Text.ParseInt("0");
  }

  lemma ZeroParses()
    ensures Text.ParseInt("0") == Some(0)
  {
    Text.IntToStringParses(0);
    assert Text.IntToString(0) == "0";
  }

  /** Text that holds no number (`NaN`) is refused. */
  lemma UnparseableRefused(inputs: map<NpcType, string>, t: NpcType, available: int, prices: PriceConfig)
    requires t in inputs && Text.ParseInt(inputs[t]).None?
    ensures SellDecision(inputs, t, available, prices).None?
  {
    if inputs[t] == "" {
      EmptyInputRefused(inputs, t, available, prices);
    } else {
      assert RequestedQuantity(inputs, t) == Text.ParseInt(inputs[t]);
    }
  }

  /** Nothing is sold at a price that is missing or not positive. */
  lemma UnpricedRefused(inputs: map<NpcType, string>, t: NpcType, available: int, prices: PriceConfig)
    requires t !in prices.petPrices || prices.petPrices[t] <= 0
    ensures SellDecision(inputs, t, available, prices).None?
  {
  }

  /** After a sale the cleared input refuses a second, repeated sale. */
  lemma ClearedInputRefused(inputs: map<NpcType, string>, t: NpcType, available: int, prices: PriceConfig)
    ensures SellDecision(inputs[t := ""], t, available, prices).None?
  {
    EmptyInputRefused(inputs[t := ""], t, available, prices);
  }

  /** The quantities typed on the sales page, one input per pet type. */
  class SalesForm {
    var sellQuantities: map<NpcType, string>

    constructor()
      ensures sellQuantities == map[]
    {
      sellQuantities := map[];
    }

    /** Typing into the input of a pet type. */
    method SetQuantity(t: NpcType, text: string)
      modifies this
      ensures sellQuantities == old(sellQuantities)[t := text]
    {
      sellQuantities := sellQuantities[t := text];
    }

    /**
     * `handleSell`: the sale it passes on, if any; a sale clears the input
     * of its type, a refusal leaves every input as typed.
     */
    method HandleSell(t: NpcType, available: int, prices: PriceConfig) returns (sale: Option<Sale>)
      modifies this
      ensures sale == SellDecision(old(sellQuantities), t, available, prices)
      ensures sellQuantities == if sale.Some? then old(sellQuantities)[t := ""] else old(sellQuantities)
    {
      var text := if t in sellQuantities && sellQuantities[t] != "" then sellQuantities[t] else "0";
      var quantity := Text.ParseInt(text);
      var price := Price(prices, t);
      if quantity.Some? && quantity.value > 0 && quantity.value <= available && price > 0 {
        sale := Some(Sale(t, quantity.value, price));
        sellQuantities := sellQuantities[t := ""];
      } else {
        sale := None;
      }
    }
  }

  /** The values the market configuration lets the user edit. */
  datatype PriceField = PetPrice(petType: NpcType) | NpcCost7Day | NpcCost15Day

  /** The value an editor shows (`price || 0` for a pet price). */
  function FieldValue(prices: PriceConfig, f: PriceField): int {
    match f
    case PetPrice(t) => Price(prices, t)
    case NpcCost7Day => prices.npcCost7Day
    case NpcCost15Day => prices.npcCost15Day
  }

  /** The `onSave` handler of each editor: one field of the configuration replaced. */
  function SetField(prices: PriceConfig, f: PriceField, v: int): PriceConfig {
    match f
    case PetPrice(t) => prices.(petPrices := prices.petPrices[t := v])
    case NpcCost7Day => prices.(npcCost7Day := v)
    case NpcCost15Day => prices.(npcCost15Day := v)
  }

  /** What saving the text `text` in the editor of `f` does to the configuration. */
  function SavePrice(prices: PriceConfig, f: PriceField, text: string): PriceConfig {
    match Text.ParseInt(text)
    case None => prices
    case Some(v) => SetField(prices, f, v)
  }

  /** Text that is not a number changes nothing; a number replaces that one field and no other. */
  lemma SavePriceSpec(prices: PriceConfig, f: PriceField, text: string)
    ensures Text.ParseInt(text).None? ==> SavePrice(prices, f, text) == prices
    ensures Text.ParseInt(text).Some? ==>
              && FieldValue(SavePrice(prices, f, text), f) == Text.ParseInt(text).value
              && forall g :: g != f ==> FieldValue(SavePrice(prices, f, text), g) == FieldValue(prices, g)
  {
  }

  /**
   * Saving the text an editor starts from gives back the same configuration,
   * for every field the page shows an editor for (pet prices are listed from
   * the keys present).
   */
  lemma SaveUneditedKeepsPrices(prices: PriceConfig, f: PriceField)
    requires f.PetPrice? ==> f.petType in prices.petPrices
    ensures SavePrice(prices, f, Text.IntToString(FieldValue(prices, f))) == prices
  {
    Text.IntToStringParses(FieldValue(prices, f));
  }

  /** `ConfigurableValue`: a value shown, or being edited as text. */
  class PriceEditor {
    var isEditing: bool
    var currentValue: string

    /** The text is seeded once from the value shown. */
    constructor(value: int)
      ensures !isEditing && currentValue == Text.IntToString(value)
    {
      isEditing := false;
      currentValue := Text.IntToString(value);
    }

    method StartEditing()
      modifies this
      ensures isEditing && currentValue == old(currentValue)
    {
      isEditing := true;
    }

    method Type(text: string)
      modifies this
      ensures currentValue == text && isEditing == old(isEditing)
    {
      currentValue := text;
    }

    /**
     * `handleSave`: the number handed to `onSave`, if the text parses as
     * one; editing ends either way and the text is kept.
     */
    method HandleSave() returns (saved: Option<int>)
      modifies this
      ensures saved == Text.ParseInt(old(currentValue))
      ensures !isEditing && currentValue == old(currentValue)
    {
      saved := Text.ParseInt(currentValue);
      isEditing := false;
    }
  }
}
