/**
 * The daily briefing (`generateDailyBriefing` in services/geminiService.ts):
 * the next check-in after `now`, the slots whose pet is due or will finish
 * before that check-in, one flat task per such slot, and the due tasks ordered
 * by the rank of the pet they produce, highest first.
 */
module Planner {
  import opened Wrappers
  import opened Types
  import opened Calendar
  import Sorting
  import Lists
  import opened Farm

  /**
   * The flat task the briefing produces for one finished slot. `estFinishTime`
   * is the finish timestamp (the source renders it with `toLocaleString`).
   */
  datatype PlannedTask = PlannedTask(
    houseId: int,
    slotIndex: nat,
    currentPet: string,
    taskName: string,
    estFinishTime: int,
    serviceBlock: string,
    currentNpcType: NpcType,
    nextNpcType: NpcType,
    forceStore: bool)

  datatype Briefing = Briefing(dueTasks: seq<PlannedTask>, upcomingTasks: seq<PlannedTask>, nextCheckin: int)

  /** The three days the source searches: yesterday, today and tomorrow. */
  const SearchDays: seq<int> := [-1, 0, 1]

  /** The hour of the fallback check-in: the earliest configured hour, 9 when that is 0 or absent. */
  function FallbackHour(sortedHours: seq<int>): int {
    if sortedHours != [] && sortedHours[0] != 0 then sortedHours[0] else 9
  }

  /**
   * The first of yesterday's, today's and tomorrow's check-ins (hours sorted
   * ascending) that lies after `now`; two days ahead at the fallback hour if
   * there is none.
   */
  function NextCheckin(now: int, checkinTimes: seq<int>): int {
    var sorted := SortHours(checkinTimes);
    match FirstAbove(Checkins(now, sorted, SearchDays), now)
    case Some(t) => t
    case None => CheckinAt(DayOf(now) + 2, FallbackHour(sorted))
  }

  lemma TomorrowIsAfterNow(now: int, hour: int)
    requires 0 <= hour
    ensures CheckinAt(DayOf(now) + 1, hour) > now
  {
  }

  /**
   * With at least one check-in hour in 0..23, the next check-in is the
   * earliest of the candidate check-ins that lies strictly after `now`, and the
   * fallback is never taken.
   */
  lemma NextCheckinIsEarliest(now: int, checkinTimes: seq<int>)
    requires checkinTimes != [] && ValidHours(checkinTimes)
    ensures var next := NextCheckin(now, checkinTimes);
            && next in Checkins(now, SortHours(checkinTimes), SearchDays)
            && next > now
            && forall c :: c in Checkins(now, SortHours(checkinTimes), SearchDays) && c > now ==> next <= c
  {
    var sorted := SortHours(checkinTimes);
    SortedHoursValid(checkinTimes);
    var all := Checkins(now, sorted, SearchDays);
    CheckinsAscending(now, sorted, SearchDays);
    FirstAboveIsLeast(all, now);
    var tomorrow := CheckinAt(DayOf(now) + 1, sorted[0]);
    TomorrowIsAfterNow(now, sorted[0]);
    CheckinsContains(now, sorted, SearchDays, 2, 0);
  }

  /** Without check-in hours the fallback applies: 09:00 two days ahead. */
  lemma NextCheckinWithoutHours(now: int)
    ensures NextCheckin(now, []) == CheckinAt(DayOf(now) + 2, 9)
  {
    assert Checkins(now, SortHours([]), SearchDays) == [];
  }

  /** The views of the slots of one house from index `from` on whose pet timer is set. */
  function FinishedInHouse(h: House, from: nat): (r: seq<SlotView>)
    requires from <= |h.slots|
    ensures forall v :: v in r ==>
              (v.houseId == h.id && v.serviceBlock == h.serviceBlock
               && from <= v.slotIndex < |h.slots| && v.slot == h.slots[v.slotIndex] && HasFinish(v.slot.pet))
    ensures forall j :: from <= j < |h.slots| && HasFinish(h.slots[j].pet)
              ==> SlotView(h.slots[j], h.id, h.serviceBlock, j) in r
    decreases |h.slots| - from
  {
    if from == |h.slots| then []
    else
      var v := SlotView(h.slots[from], h.id, h.serviceBlock, from);
      (if HasFinish(v.slot.pet) then [v] else []) + FinishedInHouse(h, from + 1)
  }

  /** `allFinishedSlots`: every slot with a finish time, house by house, slot by slot. */
  function AllFinished(houses: seq<House>): (r: seq<SlotView>)
    ensures forall v :: v in r ==>
              (HasFinish(v.slot.pet)
               && (exists i :: 0 <= i < |houses| && v.houseId == houses[i].id
                     && v.serviceBlock == houses[i].serviceBlock
                     && v.slotIndex < |houses[i].slots| && v.slot == houses[i].slots[v.slotIndex]))
    ensures forall i, j :: 0 <= i < |houses| && 0 <= j < |houses[i].slots| && HasFinish(houses[i].slots[j].pet)
              ==> SlotView(houses[i].slots[j], houses[i].id, houses[i].serviceBlock, j) in r
  {
    if houses == [] then []
    else
      var r := FinishedInHouse(houses[0], 0) + AllFinished(houses[1..]);
      assert forall i :: 1 <= i < |houses| ==> houses[i] == houses[1..][i - 1];
      r
  }

  function FinishOf(v: SlotView): int {
    v.slot.pet.finishTime.GetOr(0)
  }

  function DueSlots(views: seq<SlotView>, now: int): seq<SlotView> {
    Lists.Filter(views, v => FinishOf(v) <= now)
  }

  function UpcomingSlots(views: seq<SlotView>, now: int, next: int): seq<SlotView> {
    Lists.Filter(views, v => now < FinishOf(v) < next)
  }

  /** `house?.productionMode === 'INDEPENDENT'` for the first house with the view's id. */
  predicate IsIndependent(houses: seq<House>, houseId: int) {
    match FindHouse(houses, houseId)
    case None => false
    case Some(k) => houses[k].productionMode == Some(Independent)
  }

  /** `slot.pet.name || \`${type}-Pet\``. */
  function PetName(p: PetSlot, t: NpcType): string {
    if p.name.Some? && p.name.value != "" then p.name.value else Letter(t) + "-Pet"
  }

  /** The rank that follows `t` in [F, E, D, C, B, A]; S (not in that list) is followed by F. */
  function FollowingRank(t: NpcType): NpcType
    requires t != A
  {
    NpcAtRank(NpcRank(t) + 1)
  }

  /**
   * `mapSlotsToTasks` for one slot; a slot without an NPC type yields the task
   * that the final filter drops, so it yields `None` here.
   */
  function MapSlot(houses: seq<House>, v: SlotView): Option<PlannedTask> {
    match v.slot.npc.npcType
    case None => None
    case Some(t) =>
      var pet := PetName(v.slot.pet, t);
      if t == A then
        Some(PlannedTask(v.houseId, v.slotIndex, pet, "Claim Sacri S for Sale", FinishOf(v),
                         v.serviceBlock, t, S, false))
      else if IsIndependent(houses, v.houseId) then
        Some(PlannedTask(v.houseId, v.slotIndex, pet, "Harvest " + Letter(t) + " to Warehouse", FinishOf(v),
                         v.serviceBlock, t, t, true))
      else
        var next := FollowingRank(t);
        var name := if t == F then "Harvest F & Start E (Use Stock)"
                    else "Harvest " + Letter(t) + " & Start " + Letter(next);
        Some(PlannedTask(v.houseId, v.slotIndex, pet, name, FinishOf(v), v.serviceBlock, t, next, false))
  }

  /** The tasks of the views that have an NPC type, in the order of the views. */
  function MapSlots(houses: seq<House>, views: seq<SlotView>): (r: seq<PlannedTask>)
    ensures |r| <= |views|
  {
    if views == [] then []
    else
      match MapSlot(houses, views[0])
      case None => MapSlots(houses, views[1..])
      case Some(task) => [task] + MapSlots(houses, views[1..])
  }

  /** The due tasks ordered by the rank of the pet they produce, highest first; ties keep their order. */
  function SortDue(tasks: seq<PlannedTask>): seq<PlannedTask> {
    Sorting.SortBy(tasks, DueKey)
  }

  /** The sort key of a due task: its produced rank, negated for a descending sort. */
  function DueKey(t: PlannedTask): int {
    -(PetRank(t.nextNpcType) as int)
  }

  function GenerateDailyBriefing(houses: seq<House>, checkinTimes: seq<int>, now: int): Briefing {
    var next := NextCheckin(now, checkinTimes);
    var finished := AllFinished(houses);
    Briefing(SortDue(MapSlots(houses, DueSlots(finished, now))),
             MapSlots(houses, UpcomingSlots(finished, now, next)),
             next)
  }

  // ---- properties ----

  /**
   * The task of a slot: an A slot collects an S; otherwise a house in
   * INDEPENDENT mode stores a pet of the slot's own rank; otherwise the next
   * rank is started. Only a slot with an NPC type yields a task.
   */
  lemma MapSlotRanks(houses: seq<House>, v: SlotView)
    ensures MapSlot(houses, v).Some? <==> v.slot.npc.npcType.Some?
    ensures MapSlot(houses, v).Some? ==>
      var task := MapSlot(houses, v).value;
      var t := v.slot.npc.npcType.value;
      && task.currentNpcType == t
      && task.houseId == v.houseId && task.slotIndex == v.slotIndex
      && task.estFinishTime == FinishOf(v)
      && (t == A ==> task.nextNpcType == S && !task.forceStore)
      && (t != A && IsIndependent(houses, v.houseId) ==> task.nextNpcType == t && task.forceStore)
      && (t != A && !IsIndependent(houses, v.houseId) ==>
            !task.forceStore && NpcRank(task.nextNpcType) == (if t == S then 0 else NpcRank(t) + 1))
  {
  }

  lemma {:induction false} MapSlotsMembers(houses: seq<House>, views: seq<SlotView>)
    ensures forall task :: task in MapSlots(houses, views) ==>
              exists v :: v in views && MapSlot(houses, v) == Some(task)
    ensures forall v :: v in views && v.slot.npc.npcType.Some? ==>
              MapSlot(houses, v).value in MapSlots(houses, views)
  {
    if views != [] {
      MapSlotsMembers(houses, views[1..]);
      assert forall v :: v in views ==> v == views[0] || v in views[1..];
    }
  }

  /**
   * Due and upcoming tasks are disjoint: a due task's pet finished by `now`, an
   * upcoming task's pet finishes after `now` and before the next check-in.
   */
  lemma DueAndUpcomingDisjoint(houses: seq<House>, checkinTimes: seq<int>, now: int)
    ensures var b := GenerateDailyBriefing(houses, checkinTimes, now);
            && (forall t :: t in b.dueTasks ==> t.estFinishTime <= now)
            && (forall t :: t in b.upcomingTasks ==> now < t.estFinishTime < b.nextCheckin)
            && (forall t :: t in b.dueTasks ==> t !in b.upcomingTasks)
  {
    var next := NextCheckin(now, checkinTimes);
    var finished := AllFinished(houses);
    var due := MapSlots(houses, DueSlots(finished, now));
    var upcoming := MapSlots(houses, UpcomingSlots(finished, now, next));
    MapSlotsMembers(houses, DueSlots(finished, now));
    MapSlotsMembers(houses, UpcomingSlots(finished, now, next));
    forall t | t in due ensures t.estFinishTime <= now {
      var v :| v in DueSlots(finished, now) && MapSlot(houses, v) == Some(t);
      MapSlotRanks(houses, v);
    }
    forall t | t in upcoming ensures now < t.estFinishTime < next {
      var v :| v in UpcomingSlots(finished, now, next) && MapSlot(houses, v) == Some(t);
      MapSlotRanks(houses, v);
    }
    assert multiset(SortDue(due)) == multiset(due);
    forall t | t in SortDue(due) ensures t in due {
      assert t in multiset(SortDue(due));
    }
  }

  /**
   * Every slot whose pet has finished by `now` and that has an NPC type gets a
   * due task; one that finishes before the next check-in gets an upcoming task.
   */
  lemma EveryReadySlotHasTask(houses: seq<House>, checkinTimes: seq<int>, now: int, i: nat, j: nat)
    requires i < |houses| && j < |houses[i].slots|
    requires HasFinish(houses[i].slots[j].pet) && houses[i].slots[j].npc.npcType.Some?
    ensures var b := GenerateDailyBriefing(houses, checkinTimes, now);
            var f := houses[i].slots[j].pet.finishTime.value;
            && (f <= now ==> exists t :: t in b.dueTasks && t.houseId == houses[i].id && t.slotIndex == j
                                          && t.estFinishTime == f)
            && (now < f < b.nextCheckin ==>
                  exists t :: t in b.upcomingTasks && t.houseId == houses[i].id && t.slotIndex == j
                              && t.estFinishTime == f)
  {
    var next := NextCheckin(now, checkinTimes);
    var finished := AllFinished(houses);
    var v := SlotView(houses[i].slots[j], houses[i].id, houses[i].serviceBlock, j);
    assert v in finished;
    MapSlotRanks(houses, v);
    var task := MapSlot(houses, v).value;
    var due := MapSlots(houses, DueSlots(finished, now));
    if FinishOf(v) <= now {
      MapSlotsMembers(houses, DueSlots(finished, now));
      assert task in due;
      assert task in multiset(SortDue(due));
    }
    if now < FinishOf(v) < next {
      MapSlotsMembers(houses, UpcomingSlots(finished, now, next));
    }
  }

  /**
   * The due list holds the mapped due tasks, each once, ordered by the rank of
   * the pet they produce from highest to lowest, tasks of equal rank in the
   * order of their slots.
   */
  lemma DueTasksOrdered(houses: seq<House>, checkinTimes: seq<int>, now: int)
    ensures var b := GenerateDailyBriefing(houses, checkinTimes, now);
            var mapped := MapSlots(houses, DueSlots(AllFinished(houses), now));
            && multiset(b.dueTasks) == multiset(mapped)
            && (forall i, j :: 0 <= i < j < |b.dueTasks| ==>
                  PetRank(b.dueTasks[i].nextNpcType) >= PetRank(b.dueTasks[j].nextNpcType))
            && (forall k :: Sorting.WithKey(b.dueTasks, DueKey, k)
                         == Sorting.WithKey(mapped, DueKey, k))
  {
    var mapped := MapSlots(houses, DueSlots(AllFinished(houses), now));
    var sorted := SortDue(mapped);
    assert Sorting.SortedBy(sorted, DueKey);
    forall k {
      Sorting.SortIsStable(mapped, DueKey, k);
    }
  }
}
