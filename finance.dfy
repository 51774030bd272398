/**
 * The two weekly projections of services/geminiService.ts: the theoretical
 * capacity of the layout (`calculateProjectedProfit`, over exact reals) and
 * the cash flow the running timers and NPC contracts produce in the next
 * seven days (`calculateActualWeeklyFinances`).
 */
module Finance {
  import opened Wrappers
  import opened Types
  import opened Farm
  import Lists

  const ZeroProfit := ProjectedProfit(0.0, 0.0, 0.0, 0.0, 0.0)

  /** A slot counts toward capacity when it has an NPC type and a contract duration. */
  predicate IsActive(v: SlotView) {
    v.slot.npc.npcType.Some? && v.slot.npc.duration.Some?
  }

  function ActiveViews(houses: seq<House>): seq<SlotView> {
    Lists.Filter(Flatten(houses), IsActive)
  }

  /** `cycleTimes.reduce((sum, ct) => sum + ct.time, 0)`. */
  function CycleSum(cycleTimes: seq<CycleTime>): nat {
    if cycleTimes == [] then 0 else cycleTimes[0].time + CycleSum(cycleTimes[1..])
  }

  /** Hours one slot needs per S pet: the whole ladder plus half the gap between check-ins. */
  function EffectiveCycle(cycleTimes: seq<CycleTime>, numCheckins: nat): real
    requires numCheckins > 0
  {
    CycleSum(cycleTimes) as real + (24.0 / numCheckins as real) / 2.0
  }

  predicate HasChampion(houses: seq<House>) {
    exists i :: 0 <= i < |houses| && houses[i].division == Champion
  }

  /** The contract price of a slot's NPC: the 7-day price for a 7-day contract, else the 15-day price. */
  function ContractCost(prices: PriceConfig, s: Slot): int {
    if s.npc.duration == Some(Days7) then prices.npcCost7Day else prices.npcCost15Day
  }

  /** What one slot adds to the weekly NPC expenses. */
  function WeeklyCost(prices: PriceConfig, v: SlotView): real {
    var cost := ContractCost(prices, v.slot);
    match v.slot.npc.duration
    case Some(d) => if cost > 0 then (cost as real / PerDay(d)) * 7.0 else 0.0
    case None => 0.0
  }

  /** `Days(d)` as a real, written as the two literal cases so that the division is by a constant. */
  function PerDay(d: Duration): (r: real)
    ensures r == Days(d) as real
  {
    if d == Days7 then 7.0 else 15.0
  }

  function NpcExpenses(prices: PriceConfig, views: seq<SlotView>): real {
    if views == [] then 0.0
    else NpcExpenses(prices, views[..|views| - 1]) + WeeklyCost(prices, views[|views| - 1])
  }

  /** The loop over the active slots that adds up their weekly NPC cost. */
  method SumNpcExpenses(prices: PriceConfig, views: seq<SlotView>) returns (total: real)
    ensures total == NpcExpenses(prices, views)
  {
    total := 0.0;
    var i := 0;
    while i < |views|
      invariant 0 <= i <= |views|
      invariant total == NpcExpenses(prices, views[..i])
    {
      assert views[..i + 1][..i] == views[..i];
      total := total + WeeklyCost(prices, views[i]);
      i := i + 1;
    }
    assert views[..i] == views;
  }

  predicate HasDuration(d: Duration, v: SlotView) {
    v.slot.npc.duration == Some(d)
  }

  function WithDuration(d: Duration): SlotView -> bool {
    v => HasDuration(d, v)
  }

  function Positive(x: int): int {
    if x > 0 then x else 0
  }

  lemma WeeklyCostCases(prices: PriceConfig, v: SlotView)
    ensures HasDuration(Days7, v) ==> WeeklyCost(prices, v) == Positive(prices.npcCost7Day) as real
    ensures HasDuration(Days15, v) ==> WeeklyCost(prices, v) == Positive(prices.npcCost15Day) as real * 7.0 / 15.0
    ensures v.slot.npc.duration.None? ==> WeeklyCost(prices, v) == 0.0
  {
  }

  /** The NPC expenses of two runs of slots add up. */
  lemma {:induction false} NpcExpensesConcat(prices: PriceConfig, a: seq<SlotView>, b: seq<SlotView>)
    ensures NpcExpenses(prices, a + b) == NpcExpenses(prices, a) + NpcExpenses(prices, b)
    decreases |b|
  {
    if b == [] {
      assert a + b == a;
    } else {
      assert (a + b)[..|a + b| - 1] == a + b[..|b| - 1];
      NpcExpensesConcat(prices, a, b[..|b| - 1]);
    }
  }

  /** No slot has a negative weekly cost, so the NPC expenses are never negative. */
  lemma {:induction false} NpcExpensesNonNegative(prices: PriceConfig, views: seq<SlotView>)
    ensures NpcExpenses(prices, views) >= 0.0
  {
    if views != [] {
      NpcExpensesNonNegative(prices, views[..|views| - 1]);
      WeeklyCostCases(prices, views[|views| - 1]);
    }
  }

  /** The S pets a week that `active` slots complete, each taking the effective cycle per pet. */
  function WeeklySPets(active: nat, cycleTimes: seq<CycleTime>, numCheckins: nat): real
    requires numCheckins > 0
  {
    active as real * (168.0 / EffectiveCycle(cycleTimes, numCheckins))
  }

  /** The theoretical weekly figures, with the NPC expenses as their own sum. */
  function TheoreticalProfit(houses: seq<House>, cycleTimes: seq<CycleTime>, prices: PriceConfig,
                             checkinTimes: seq<int>, npc: real): ProjectedProfit
  {
    var active := ActiveViews(houses);
    if |active| == 0 || |checkinTimes| == 0 then ZeroProfit
    else
      var sPets := WeeklySPets(|active|, cycleTimes, |checkinTimes|);
      var gross := sPets * Price(prices, S) as real;
      var perfection := if HasChampion(houses) then gross else 0.0;
      ProjectedProfit(gross, npc, perfection, gross - npc - perfection, sPets)
  }

  /** `calculateProjectedProfit`: the closed-form figures, with the NPC expenses summed by a loop. */
  method CalculateProjectedProfit(houses: seq<House>, cycleTimes: seq<CycleTime>, prices: PriceConfig,
                                  checkinTimes: seq<int>) returns (p: ProjectedProfit)
    ensures p == TheoreticalProfit(houses, cycleTimes, prices, checkinTimes, NpcExpenses(prices, ActiveViews(houses)))
  {
    var active := ActiveViews(houses);
    if |active| == 0 || |checkinTimes| == 0 {
      return ZeroProfit;
    }
    var npc := SumNpcExpenses(prices, active);
    p := TheoreticalProfit(houses, cycleTimes, prices, checkinTimes, npc);
  }

  /** Without an active slot or without check-ins every figure is zero. */
  lemma TheoreticalZero(houses: seq<House>, cycleTimes: seq<CycleTime>, prices: PriceConfig, checkinTimes: seq<int>)
    requires (forall i, j :: 0 <= i < |houses| && 0 <= j < |houses[i].slots| ==> !IsActive(ViewOf(houses[i], j)))
             || checkinTimes == []
    ensures TheoreticalProfit(houses, cycleTimes, prices, checkinTimes, NpcExpenses(prices, ActiveViews(houses)))
            == ZeroProfit
  {
    if checkinTimes != [] {
      FlattenMembers(houses);
      Lists.FilterNone(Flatten(houses), IsActive);
    }
  }

  /**
   * With active slots and check-ins, each active slot completes 168 hours over
   * the effective cycle (the whole ladder plus half the gap between
   * check-ins) S pets a week, and the gross is their number at the S price.
   */
  lemma TheoreticalFigures(houses: seq<House>, cycleTimes: seq<CycleTime>, prices: PriceConfig,
                           checkinTimes: seq<int>, npc: real)
    requires checkinTimes != [] && ActiveViews(houses) != []
    ensures var p := TheoreticalProfit(houses, cycleTimes, prices, checkinTimes, npc);
            && p.sPetsCount == |ActiveViews(houses)| as real * (168.0 / EffectiveCycle(cycleTimes, |checkinTimes|))
            && p.grossRevenue == p.sPetsCount * Price(prices, S) as real
            && p.npcExpenses == npc
  {
  }

  /**
   * With active slots and check-ins, perfection attempts consume the whole
   * gross exactly when a Champion house exists, and the net is what remains
   * after NPC and perfection expenses.
   */
  lemma TheoreticalPerfection(houses: seq<House>, cycleTimes: seq<CycleTime>, prices: PriceConfig,
                              checkinTimes: seq<int>, npc: real)
    requires checkinTimes != [] && ActiveViews(houses) != []
    ensures var p := TheoreticalProfit(houses, cycleTimes, prices, checkinTimes, npc);
            && (HasChampion(houses) ==> p.perfectionExpenses == p.grossRevenue)
            && (!HasChampion(houses) ==> p.perfectionExpenses == 0.0)
            && p.netProfit == p.grossRevenue - p.npcExpenses - p.perfectionExpenses
  {
  }

  /** The effective cycle is positive, so a layout with active slots and check-ins projects S pets. */
  lemma ProjectionPositive(cycleTimes: seq<CycleTime>, numCheckins: nat, active: nat)
    requires numCheckins > 0 && active > 0
    ensures EffectiveCycle(cycleTimes, numCheckins) > 0.0
    ensures active as real * (168.0 / EffectiveCycle(cycleTimes, numCheckins)) > 0.0
  {
    var e := EffectiveCycle(cycleTimes, numCheckins);
    assert 24.0 / numCheckins as real > 0.0;
    assert 168.0 / e > 0.0;
  }

  // ---- the next seven days ----

  /** An A NPC whose running pet finishes within the week delivers one S pet. */
  predicate YieldsS(now: int, v: SlotView) {
    && v.slot.npc.npcType == Some(A) && HasFinish(v.slot.pet)
    && now < v.slot.pet.finishTime.value <= now + WeekMs
  }

  /** A contract that expires within the week is renewed at its contract price. */
  function RenewalCost(prices: PriceConfig, now: int, v: SlotView): int {
    match v.slot.npc.expiration
    case Some(e) => if now < e <= now + WeekMs then ContractCost(prices, v.slot) else 0
    case None => 0
  }

  /** The number of S pets the views deliver in the week, counted from the last view back. */
  function SPetsWithin(now: int, views: seq<SlotView>): nat {
    if views == [] then 0
    else SPetsWithin(now, views[..|views| - 1]) + (if YieldsS(now, views[|views| - 1]) then 1 else 0)
  }

  /** The revenue of the S pets the views deliver in the week. */
  function RevenueWithin(prices: PriceConfig, now: int, views: seq<SlotView>): int {
    if views == [] then 0
    else RevenueWithin(prices, now, views[..|views| - 1])
         + (if YieldsS(now, views[|views| - 1]) then Price(prices, S) else 0)
  }

  /** The cost of renewing the contracts of the views that expire in the week. */
  function RenewalsWithin(prices: PriceConfig, now: int, views: seq<SlotView>): int {
    if views == [] then 0
    else RenewalsWithin(prices, now, views[..|views| - 1]) + RenewalCost(prices, now, views[|views| - 1])
  }

  /** Each of the week's sums over two runs of views adds up. */
  lemma {:induction false} WeekSumsConcat(prices: PriceConfig, now: int, a: seq<SlotView>, b: seq<SlotView>)
    ensures SPetsWithin(now, a + b) == SPetsWithin(now, a) + SPetsWithin(now, b)
    ensures RevenueWithin(prices, now, a + b) == RevenueWithin(prices, now, a) + RevenueWithin(prices, now, b)
    ensures RenewalsWithin(prices, now, a + b) == RenewalsWithin(prices, now, a) + RenewalsWithin(prices, now, b)
    decreases |b|
  {
    if b == [] {
      assert a + b == a;
    } else {
      assert (a + b)[..|a + b| - 1] == a + b[..|b| - 1];
      WeekSumsConcat(prices, now, a, b[..|b| - 1]);
    }
  }

  /**
   * `calculateActualWeeklyFinances`: one S price and one S pet for every A
   * slot whose pet finishes in (now, now + 1 week], one contract price for
   * every NPC whose contract expires in that window, no perfection expense.
   */
  method CalculateActualWeeklyFinances(houses: seq<House>, prices: PriceConfig, now: int)
    returns (p: ProjectedProfit)
    ensures var views := Flatten(houses);
            && p.sPetsCount == SPetsWithin(now, views) as real
            && p.grossRevenue == RevenueWithin(prices, now, views) as real
            && p.npcExpenses == RenewalsWithin(prices, now, views) as real
            && p.perfectionExpenses == 0.0
            && p.netProfit == p.grossRevenue - p.npcExpenses
  {
    var gross := 0;
    var npc := 0;
    var sPets := 0;
    var i := 0;
    while i < |houses|
      invariant 0 <= i <= |houses|
      invariant sPets == SPetsWithin(now, Flatten(houses[..i]))
      invariant gross == RevenueWithin(prices, now, Flatten(houses[..i]))
      invariant npc == RenewalsWithin(prices, now, Flatten(houses[..i]))
    {
      var g, c, n := HouseWeek(houses[i], prices, now);
      FlattenStep(houses, i);
      WeekSumsConcat(prices, now, Flatten(houses[..i]), AllViews(houses[i]));
      gross, npc, sPets := gross + g, npc + c, sPets + n;
      i := i + 1;
    }
    assert houses[..i] == houses;
    p := ProjectedProfit(gross as real, npc as real, 0.0, (gross - npc) as real, sPets as real);
  }

  /** The inner `house.slots.forEach`: one house's S pets, revenue and renewals in the week. */
  method HouseWeek(h: House, prices: PriceConfig, now: int) returns (gross: int, npc: int, sPets: nat)
    ensures sPets == SPetsWithin(now, AllViews(h))
    ensures gross == RevenueWithin(prices, now, AllViews(h))
    ensures npc == RenewalsWithin(prices, now, AllViews(h))
  {
    gross, npc, sPets := 0, 0, 0;
    var j := 0;
    while j < |h.slots|
      invariant 0 <= j <= |h.slots|
      invariant sPets == SPetsWithin(now, HouseViews(h, j))
      invariant gross == RevenueWithin(prices, now, HouseViews(h, j))
      invariant npc == RenewalsWithin(prices, now, HouseViews(h, j))
    {
      var v := ViewOf(h, j);
      assert HouseViews(h, j + 1)[..j] == HouseViews(h, j);
      if YieldsS(now, v) {
        gross := gross + Price(prices, S);
        sPets := sPets + 1;
      }
      npc := npc + RenewalCost(prices, now, v);
      j := j + 1;
    }
  }

  lemma OneMore(n: int, price: int)
    ensures (n + 1) * price == n * price + price
  {
  }

  /** The week's revenue is one S price per S pet it brings. */
  lemma {:induction false} RevenueIsSPetsTimesPrice(prices: PriceConfig, now: int, views: seq<SlotView>)
    ensures RevenueWithin(prices, now, views) == SPetsWithin(now, views) * Price(prices, S)
  {
    if views != [] {
      var init := views[..|views| - 1];
      RevenueIsSPetsTimesPrice(prices, now, init);
      if YieldsS(now, views[|views| - 1]) {
        OneMore(SPetsWithin(now, init), Price(prices, S));
      }
    }
  }

  /** The S pet count is never negative, and it is zero exactly when no view delivers an S pet. */
  lemma {:induction false} SPetCountZero(prices: PriceConfig, now: int, views: seq<SlotView>)
    ensures SPetsWithin(now, views) >= 0
    ensures SPetsWithin(now, views) == 0 <==> forall v :: v in views ==> !YieldsS(now, v)
  {
    if views != [] {
      var init := views[..|views| - 1];
      SPetCountZero(prices, now, init);
      assert views == init + [views[|views| - 1]];
    }
  }

  /** The week brings S pets exactly when some A slot's pet finishes within it. */
  lemma ActualSPetsExact(houses: seq<House>, prices: PriceConfig, now: int)
    ensures SPetsWithin(now, Flatten(houses)) > 0 <==>
              exists i, j :: 0 <= i < |houses| && 0 <= j < |houses[i].slots|
                             && YieldsS(now, ViewOf(houses[i], j))
  {
    SPetCountZero(prices, now, Flatten(houses));
    FlattenMembers(houses);
  }
}
