/**
 * The dashboard analytics of services/geminiService.ts
 * (`generateDashboardAnalytics`): alerts for NPC contracts that expire within
 * a day and for warehouse items below their safety level, the next timer to
 * finish, and the two weekly projections.
 */
module Analytics {
  import opened Wrappers
  import opened Types
  import opened Farm
  import Text
  import Finance

  datatype Alert = ExpiresSoon(npcType: NpcType, houseId: int) | BelowSafetyStock(itemName: string)

  /** The alert's message. */
  function AlertText(a: Alert): string {
    match a
    case ExpiresSoon(t, id) => "NPC '" + Letter(t) + "' in House #" + Text.IntToString(id) + " expires soon."
    case BelowSafetyStock(name) => "'" + name + "' is below safety stock level."
  }

  /** A slot with an NPC whose contract runs out in (now, now + 24 h]. */
  predicate ExpiringWithinDay(now: int, v: SlotView) {
    && v.slot.npc.npcType.Some? && v.slot.npc.expiration.Some?
    && now < v.slot.npc.expiration.value <= now + DayMs
  }

  /** The expiry alerts of the views, in the order of the views. */
  function ExpiryAlerts(now: int, views: seq<SlotView>): seq<Alert> {
    if views == [] then []
    else
      var v := views[|views| - 1];
      ExpiryAlerts(now, views[..|views| - 1])
      + (if ExpiringWithinDay(now, v) then [ExpiresSoon(v.slot.npc.npcType.value, v.houseId)] else [])
  }

  lemma {:induction false} ExpiryAlertsConcat(now: int, a: seq<SlotView>, b: seq<SlotView>)
    ensures ExpiryAlerts(now, a + b) == ExpiryAlerts(now, a) + ExpiryAlerts(now, b)
    decreases |b|
  {
    if b == [] {
      assert a + b == a;
    } else {
      assert (a + b)[..|a + b| - 1] == a + b[..|b| - 1];
      ExpiryAlertsConcat(now, a, b[..|b| - 1]);
    }
  }

  /** The low-stock alerts, in the order of the items. */
  function StockAlerts(items: seq<WarehouseItem>): seq<Alert> {
    if items == [] then []
    else
      var it := items[|items| - 1];
      StockAlerts(items[..|items| - 1])
      + (if it.currentStock < it.safetyStockLevel then [BelowSafetyStock(it.name)] else [])
  }

  /** The nested loop over the houses' slots, then the loop over the warehouse. */
  method GenerateAlerts(houses: seq<House>, items: seq<WarehouseItem>, now: int) returns (alerts: seq<Alert>)
    ensures alerts == ExpiryAlerts(now, Flatten(houses)) + StockAlerts(items)
  {
    alerts := [];
    var i := 0;
    while i < |houses|
      invariant 0 <= i <= |houses|
      invariant alerts == ExpiryAlerts(now, Flatten(houses[..i]))
    {
      var more := HouseExpiryAlerts(houses[i], now);
      FlattenStep(houses, i);
      ExpiryAlertsConcat(now, Flatten(houses[..i]), AllViews(houses[i]));
      alerts := alerts + more;
      i := i + 1;
    }
    assert houses[..i] == houses;
    var k := 0;
    while k < |items|
      invariant 0 <= k <= |items|
      invariant alerts == ExpiryAlerts(now, Flatten(houses)) + StockAlerts(items[..k])
    {
      assert items[..k + 1][..k] == items[..k];
      if items[k].currentStock < items[k].safetyStockLevel {
        alerts := alerts + [BelowSafetyStock(items[k].name)];
      }
      k := k + 1;
    }
    assert items[..k] == items;
  }

  method HouseExpiryAlerts(h: House, now: int) returns (alerts: seq<Alert>)
    ensures alerts == ExpiryAlerts(now, AllViews(h))
  {
    alerts := [];
    var j := 0;
    while j < |h.slots|
      invariant 0 <= j <= |h.slots|
      invariant alerts == ExpiryAlerts(now, HouseViews(h, j))
    {
      assert HouseViews(h, j + 1)[..j] == HouseViews(h, j);
      var v := ViewOf(h, j);
      if ExpiringWithinDay(now, v) {
        alerts := alerts + [ExpiresSoon(v.slot.npc.npcType.value, h.id)];
      }
      j := j + 1;
    }
  }

  /** An expiry alert is raised exactly for the NPCs whose contract runs out within a day. */
  lemma {:induction false} ExpiryAlertsExact(now: int, views: seq<SlotView>, a: Alert)
    ensures a in ExpiryAlerts(now, views) <==>
              exists v :: v in views && ExpiringWithinDay(now, v)
                          && a == ExpiresSoon(v.slot.npc.npcType.value, v.houseId)
  {
    if views != [] {
      var init := views[..|views| - 1];
      ExpiryAlertsExact(now, init, a);
      assert views == init + [views[|views| - 1]];
    }
  }

  /** Per house: an NPC of type `t` in house `id` is reported exactly when one of its slots expires within a day. */
  lemma ExpiryAlertForHouse(houses: seq<House>, now: int, t: NpcType, id: int)
    ensures ExpiresSoon(t, id) in ExpiryAlerts(now, Flatten(houses)) <==>
              exists i, j :: 0 <= i < |houses| && 0 <= j < |houses[i].slots| && houses[i].id == id
                             && houses[i].slots[j].npc.npcType == Some(t)
                             && ExpiringWithinDay(now, ViewOf(houses[i], j))
  {
    ExpiryAlertsExact(now, Flatten(houses), ExpiresSoon(t, id));
    FlattenMembers(houses);
  }

  /** A low-stock alert names exactly the items whose stock is below their safety level. */
  lemma {:induction false} StockAlertsExact(items: seq<WarehouseItem>, name: string)
    ensures BelowSafetyStock(name) in StockAlerts(items) <==>
              exists k :: 0 <= k < |items| && items[k].name == name
                          && items[k].currentStock < items[k].safetyStockLevel
    ensures forall a :: a in StockAlerts(items) ==> a.BelowSafetyStock?
  {
    StockAlertsKind(items);
    if items != [] {
      var init := items[..|items| - 1];
      StockAlertsExact(init, name);
      if BelowSafetyStock(name) in StockAlerts(init) {
        var k :| 0 <= k < |init| && init[k].name == name && init[k].currentStock < init[k].safetyStockLevel;
        assert items[k] == init[k];
      }
      if exists k :: 0 <= k < |items| && items[k].name == name && items[k].currentStock < items[k].safetyStockLevel {
        var k :| 0 <= k < |items| && items[k].name == name && items[k].currentStock < items[k].safetyStockLevel;
        if k < |init| {
          assert init[k] == items[k];
        }
      }
    }
  }

  /** Stock alerts are only of the low-stock kind. */
  lemma {:induction false} StockAlertsKind(items: seq<WarehouseItem>)
    ensures forall a :: a in StockAlerts(items) ==> a.BelowSafetyStock?
  {
    if items != [] {
      StockAlertsKind(items[..|items| - 1]);
    }
  }

  // ---- the next action ----

  /** A running timer that finishes after `now`. */
  predicate Upcoming(now: int, v: SlotView) {
    HasFinish(v.slot.pet) && v.slot.pet.finishTime.value > now
  }

  /** The running minimum: `nextFinishTime` (`None` for `Infinity`) and its `nextServiceBlock`. */
  datatype Pending = Pending(finish: Option<int>, serviceBlock: string)

  const NoneYet := Pending(None, "")

  /** One step of the scan: a strictly earlier upcoming finish replaces the minimum. */
  function Visit(p: Pending, now: int, v: SlotView): Pending {
    if Upcoming(now, v) && (p.finish.None? || v.slot.pet.finishTime.value < p.finish.value)
    then Pending(Some(v.slot.pet.finishTime.value), v.serviceBlock)
    else p
  }

  function Scan(p: Pending, now: int, views: seq<SlotView>): Pending {
    if views == [] then p else Visit(Scan(p, now, views[..|views| - 1]), now, views[|views| - 1])
  }

  lemma ScanSnoc(p: Pending, now: int, a: seq<SlotView>, v: SlotView)
    ensures Scan(p, now, a + [v]) == Visit(Scan(p, now, a), now, v)
  {
    assert (a + [v])[..|a|] == a;
  }

  lemma {:induction false} ScanConcat(p: Pending, now: int, a: seq<SlotView>, b: seq<SlotView>)
    ensures Scan(p, now, a + b) == Scan(Scan(p, now, a), now, b)
    decreases |b|
  {
    if b == [] {
      assert a + b == a;
    } else {
      assert (a + b)[..|a + b| - 1] == a + b[..|b| - 1];
      ScanConcat(p, now, a, b[..|b| - 1]);
    }
  }

  datatype NextAction = NoUpcomingActions | UpNext(serviceBlock: string, at: int)

  method HouseScan(h: House, now: int, p: Pending) returns (r: Pending)
    ensures r == Scan(p, now, AllViews(h))
  {
    r := p;
    var j := 0;
    while j < |h.slots|
      invariant 0 <= j <= |h.slots|
      invariant r == Scan(p, now, HouseViews(h, j))
    {
      ghost var next := Visit(r, now, ViewOf(h, j));
      HouseScanStep(h, now, p, j);
      var pet := h.slots[j].pet;
      if HasFinish(pet) && pet.finishTime.value > now {
        if r.finish.None? || pet.finishTime.value < r.finish.value {
          r := Pending(Some(pet.finishTime.value), h.serviceBlock);
        }
      }
      assert r == next;
      j := j + 1;
    }
  }

  lemma HouseScanStep(h: House, now: int, p: Pending, j: nat)
    requires j < |h.slots|
    ensures Scan(p, now, HouseViews(h, j + 1)) == Visit(Scan(p, now, HouseViews(h, j)), now, ViewOf(h, j))
  {
    assert HouseViews(h, j + 1) == HouseViews(h, j) + [ViewOf(h, j)];
    ScanSnoc(p, now, HouseViews(h, j), ViewOf(h, j));
  }

  /** The nested loop that finds the earliest upcoming finish and the block it belongs to. */
  method FindNextAction(houses: seq<House>, now: int) returns (r: NextAction)
    ensures var p := Scan(NoneYet, now, Flatten(houses));
            r == if p.finish.None? then NoUpcomingActions else UpNext(p.serviceBlock, p.finish.value)
  {
    var p := NoneYet;
    var i := 0;
    while i < |houses|
      invariant 0 <= i <= |houses|
      invariant p == Scan(NoneYet, now, Flatten(houses[..i]))
    {
      FlattenStep(houses, i);
      ScanConcat(NoneYet, now, Flatten(houses[..i]), AllViews(houses[i]));
      p := HouseScan(houses[i], now, p);
      i := i + 1;
    }
    assert houses[..i] == houses;
    r := if p.finish.None? then NoUpcomingActions else UpNext(p.serviceBlock, p.finish.value);
  }

  /**
   * The scan finds nothing exactly when no timer finishes after `now`;
   * otherwise it finds the earliest upcoming finish, and the block of the
   * first slot (in visiting order) that finishes then.
   */
  lemma ScanFindsEarliest(now: int, views: seq<SlotView>)
    ensures var p := Scan(NoneYet, now, views);
            && (p.finish.None? <==> forall v :: v in views ==> !Upcoming(now, v))
            && (p.finish.Some? ==>
                  && (forall v :: v in views && Upcoming(now, v) ==> p.finish.value <= v.slot.pet.finishTime.value)
                  && exists k :: 0 <= k < |views| && Upcoming(now, views[k])
                                 && views[k].slot.pet.finishTime.value == p.finish.value
                                 && views[k].serviceBlock == p.serviceBlock
                                 && forall m :: 0 <= m < k && Upcoming(now, views[m])
                                                ==> views[m].slot.pet.finishTime.value > p.finish.value)
  {
    ScanNone(now, views);
    ScanLeast(now, views);
    ScanWitness(now, views);
  }

  lemma {:induction false} ScanNone(now: int, views: seq<SlotView>)
    ensures Scan(NoneYet, now, views).finish.None? <==> forall v :: v in views ==> !Upcoming(now, v)
  {
    if views != [] {
      var init := views[..|views| - 1];
      var last := views[|views| - 1];
      ScanNone(now, init);
      assert views == init + [last];
      assert forall v :: v in views <==> v in init || v == last;
    }
  }

  lemma {:induction false} ScanLeast(now: int, views: seq<SlotView>)
    ensures var p := Scan(NoneYet, now, views);
            p.finish.Some? ==>
              forall v :: v in views && Upcoming(now, v) ==> p.finish.value <= v.slot.pet.finishTime.value
  {
    if views != [] {
      var init := views[..|views| - 1];
      var last := views[|views| - 1];
      ScanLeast(now, init);
      ScanNone(now, init);
      assert views == init + [last];
      assert forall v :: v in views <==> v in init || v == last;
    }
  }

  lemma {:induction false} ScanWitness(now: int, views: seq<SlotView>)
    ensures var p := Scan(NoneYet, now, views);
            p.finish.Some? ==>
              exists k :: 0 <= k < |views| && Upcoming(now, views[k])
                          && views[k].slot.pet.finishTime.value == p.finish.value
                          && views[k].serviceBlock == p.serviceBlock
                          && forall m :: 0 <= m < k && Upcoming(now, views[m])
                                         ==> views[m].slot.pet.finishTime.value > p.finish.value
  {
    if views != [] {
      var init := views[..|views| - 1];
      var last := views[|views| - 1];
      ScanWitness(now, init);
      ScanLeast(now, init);
      var q := Scan(NoneYet, now, init);
      if Upcoming(now, last) && (q.finish.None? || last.slot.pet.finishTime.value < q.finish.value) {
        ScanNone(now, init);
        var k := |views| - 1;
        forall m | 0 <= m < k && Upcoming(now, views[m])
          ensures views[m].slot.pet.finishTime.value > last.slot.pet.finishTime.value
        {
          assert views[m] == init[m];
          assert init[m] in init;
        }
      } else if q.finish.Some? {
        var k :| 0 <= k < |init| && Upcoming(now, init[k])
                 && init[k].slot.pet.finishTime.value == q.finish.value
                 && init[k].serviceBlock == q.serviceBlock
                 && forall m :: 0 <= m < k && Upcoming(now, init[m])
                                ==> init[m].slot.pet.finishTime.value > q.finish.value;
        assert views[k] == init[k];
        forall m | 0 <= m < k ensures views[m] == init[m] {
        }
      }
    }
  }

  datatype DashboardAnalytics = DashboardAnalytics(
    alerts: seq<Alert>,
    nextAction: NextAction,
    theoreticalMaxWeekly: ProjectedProfit,
    actualNext7Days: ProjectedProfit)

  /** `generateDashboardAnalytics` at time `now`. */
  method GenerateDashboardAnalytics(houses: seq<House>, items: seq<WarehouseItem>, cycleTimes: seq<CycleTime>,
                                    prices: PriceConfig, checkinTimes: seq<int>, now: int)
    returns (d: DashboardAnalytics)
    ensures d.alerts == ExpiryAlerts(now, Flatten(houses)) + StockAlerts(items)
    ensures var p := Scan(NoneYet, now, Flatten(houses));
            d.nextAction == if p.finish.None? then NoUpcomingActions else UpNext(p.serviceBlock, p.finish.value)
    ensures d.theoreticalMaxWeekly
            == Finance.TheoreticalProfit(houses, cycleTimes, prices, checkinTimes,
                                         Finance.NpcExpenses(prices, Finance.ActiveViews(houses)))
    ensures var views := Flatten(houses);
            && d.actualNext7Days.sPetsCount == Finance.SPetsWithin(now, views) as real
            && d.actualNext7Days.grossRevenue == Finance.RevenueWithin(prices, now, views) as real
            && d.actualNext7Days.npcExpenses == Finance.RenewalsWithin(prices, now, views) as real
            && d.actualNext7Days.perfectionExpenses == 0.0
            && d.actualNext7Days.netProfit == d.actualNext7Days.grossRevenue - d.actualNext7Days.npcExpenses
  {
    var alerts := GenerateAlerts(houses, items, now);
    var next := FindNextAction(houses, now);
    var theoretical := Finance.CalculateProjectedProfit(houses, cycleTimes, prices, checkinTimes);
    var actual := Finance.CalculateActualWeeklyFinances(houses, prices, now);
    d := DashboardAnalytics(alerts, next, theoretical, actual);
  }
}
