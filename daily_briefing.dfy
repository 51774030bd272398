/**
 * The state-changing part of the daily briefing (components/DailyBriefing.tsx):
 * committing a batch, undoing it from the log, and pruning the log to the
 * current check-in session; plus the stock check and the per-rank counts the
 * batch cards show.
 */
module DailyBriefing {
  import opened Wrappers
  import opened Types
  import opened BatchSteps
  import Calendar
  import Sorting
  import Ledger
  import Lists

  // ---------------------------------------------------------------------------
  // Session pruning
  // ---------------------------------------------------------------------------

  /** The day offsets whose check-ins may open a session: the day before yesterday to today. */
  const SessionDays: seq<int> := [-2, -1, 0]

  /** The check-ins of the session days, latest first. */
  function SessionCandidates(now: int, checkinTimes: seq<int>): (r: seq<int>)
    ensures Calendar.Descending(r)
  {
    Calendar.SortDescending(Calendar.Checkins(now, Calendar.SortHours(checkinTimes), SessionDays))
  }

  /** `candidates.find(d => d <= now)`, as the position `indexOf` then gives back. */
  function FirstAtOrBelow(s: seq<int>, now: int): (r: Option<nat>)
    ensures r.Some? ==> r.value < |s| && s[r.value] <= now && forall j :: 0 <= j < r.value ==> s[j] > now
    ensures r.None? ==> forall j :: 0 <= j < |s| ==> s[j] > now
  {
    if s == [] then None
    else if s[0] <= now then Some(0)
    else match FirstAtOrBelow(s[1..], now)
      case None => None
      case Some(k) => Some(k + 1)
  }

  /** The candidate after the current session's start, 0 when there is none. */
  function Cutoff(candidates: seq<int>, now: int): int {
    match FirstAtOrBelow(candidates, now)
    case None => 0
    case Some(i) => if i + 1 < |candidates| then candidates[i + 1] else 0
  }

  /** `log.filter(l => l.timestamp > cutoff)`. */
  function NewerThan(log: seq<LogEntry>, cutoff: int): (r: seq<LogEntry>)
    ensures |r| <= |log|
    ensures forall e :: e in r <==> e in log && e.timestamp > cutoff
  {
    if log == [] then []
    else
      var last := log[|log| - 1];
      assert log == log[..|log| - 1] + [last];
      NewerThan(log[..|log| - 1], cutoff) + (if last.timestamp > cutoff then [last] else [])
  }

  /** `sort((a, b) => b.timestamp - a.timestamp)`: stable, newest first. */
  function NewestFirst(log: seq<LogEntry>): seq<LogEntry> {
    Sorting.SortBy(log, NewestKey)
  }

  function NewestKey(e: LogEntry): int {
    -e.timestamp
  }

  function Tasks(log: seq<LogEntry>): (r: seq<BatchTask>)
    ensures |r| == |log| && forall i :: 0 <= i < |log| ==> r[i] == log[i].task
  {
    if log == [] then [] else Tasks(log[..|log| - 1]) + [log[|log| - 1].task]
  }

  /**
   * With at least one valid check-in hour, the current session has a start:
   * every check-in of the day before yesterday is already past.
   */
  lemma SessionStartExists(now: int, checkinTimes: seq<int>)
    requires |checkinTimes| > 0 && Calendar.ValidHours(checkinTimes)
    ensures FirstAtOrBelow(SessionCandidates(now, checkinTimes), now).Some?
  {
    var sorted := Calendar.SortHours(checkinTimes);
    Calendar.SortedHoursValid(checkinTimes);
    var c := Calendar.CheckinAt(Calendar.DayOf(now) - 2, sorted[0]);
    Calendar.CheckinsContains(now, sorted, SessionDays, 0, 0);
    var all := Calendar.Checkins(now, sorted, SessionDays);
    assert c in multiset(all);
    assert c in SessionCandidates(now, checkinTimes);
    assert Calendar.DayOf(now) * 86400000 <= now;
  }

  /**
   * The current session starts at the latest candidate not after `now`; the
   * cutoff is the candidate just before it, and every older candidate is no
   * later than the cutoff.
   */
  lemma CutoffIsPreviousSession(candidates: seq<int>, now: int)
    requires Calendar.Descending(candidates)
    ensures match FirstAtOrBelow(candidates, now)
            case None => Cutoff(candidates, now) == 0
            case Some(i) =>
              && (forall x :: x in candidates && x <= now ==> x <= candidates[i])
              && candidates[i] <= now
              && (i + 1 < |candidates| ==>
                    Cutoff(candidates, now) == candidates[i + 1] <= candidates[i]
                    && forall k :: i + 1 <= k < |candidates| ==> candidates[k] <= Cutoff(candidates, now))
              && (i + 1 >= |candidates| ==> Cutoff(candidates, now) == 0)
  {
    match FirstAtOrBelow(candidates, now)
    case None =>
    case Some(i) =>
      forall x | x in candidates && x <= now ensures x <= candidates[i] {
        var k :| 0 <= k < |candidates| && candidates[k] == x;
      }
  }

  /** The history lists the kept entries' tasks, newest first, each entry once. */
  lemma HistoryNewestFirst(recent: seq<LogEntry>)
    ensures var sorted := NewestFirst(recent);
            && multiset(sorted) == multiset(recent)
            && forall i, j :: 0 <= i < j < |sorted| ==> sorted[i].timestamp >= sorted[j].timestamp
  {
    var sorted := NewestFirst(recent);
    assert Sorting.SortedBy(sorted, NewestKey);
    forall i, j | 0 <= i < j < |sorted| ensures sorted[i].timestamp >= sorted[j].timestamp {
      assert NewestKey(sorted[i]) <= NewestKey(sorted[j]);
    }
  }

  // ---------------------------------------------------------------------------
  // Stock check and counts of a batch card
  // ---------------------------------------------------------------------------

  /** `requiredWarehouseItems.find(i => i.itemId === 'f-pet-stock')`, as its count. */
  function FStockRequirement(reqs: seq<RequiredItem>): (r: Option<int>)
    ensures r.Some? <==> exists i :: 0 <= i < |reqs| && reqs[i].itemId == FPetStock
    ensures r.Some? ==> exists i :: 0 <= i < |reqs| && reqs[i].itemId == FPetStock && reqs[i].count == r.value
                                    && forall j :: 0 <= j < i ==> reqs[j].itemId != FPetStock
  {
    if reqs == [] then None
    else if reqs[0].itemId == FPetStock then Some(reqs[0].count)
    else
      var r := FStockRequirement(reqs[1..]);
      assert forall i :: 1 <= i < |reqs| ==> reqs[i] == reqs[1..][i - 1];
      r
  }

  /** No F stock is required, or the warehouse holds at least the required count. */
  predicate HasStock(task: BatchTask, items: seq<WarehouseItem>) {
    var req := FStockRequirement(task.requiredWarehouseItems);
    req.None? || StockOf(items, FPetStock) >= req.value
  }

  /** How many F subtasks store their harvest back into the F stock. */
  function FStoreCount(subs: seq<SubTask>): nat {
    if subs == [] then 0
    else
      var st := subs[|subs| - 1];
      FStoreCount(subs[..|subs| - 1]) + (if st.currentNpcType == F && st.actionType == HarvestAndStore then 1 else 0)
  }

  /**
   * With the stock check passed for one F pet per F subtask, commit takes
   * exactly one F pet per F subtask (its clamp at zero never acts) and puts
   * back one per F subtask that stores.
   */
  lemma {:induction false} EnoughStockTakesOnePerF(items: seq<WarehouseItem>, subs: seq<SubTask>)
    requires FindItem(items, FPetStock).Some?
    requires StockOf(items, FPetStock) >= FCount(subs)
    ensures FindItem(CommitStock(items, subs), FPetStock).Some?
    ensures StockOf(CommitStock(items, subs), FPetStock) == StockOf(items, FPetStock) - FCount(subs) + FStoreCount(subs)
  {
    if subs != [] {
      var n := |subs| - 1;
      var st := subs[n];
      var prev := CommitStock(items, subs[..n]);
      assert FCount(subs) == FCount(subs[..n]) + (if st.currentNpcType == F then 1 else 0);
      assert FStoreCount(subs) == FStoreCount(subs[..n])
                                  + (if st.currentNpcType == F && st.actionType == HarvestAndStore then 1 else 0);
      EnoughStockTakesOnePerF(items, subs[..n]);
      assert CommitStock(items, subs) == CommitStockStep(prev, st);
      CommitStepFStock(prev, st);
    }
  }

  /** One subtask takes one F pet when it harvests an F pet, and puts one back when it also stores it. */
  lemma CommitStepFStock(prev: seq<WarehouseItem>, st: SubTask)
    requires FindItem(prev, FPetStock).Some?
    requires st.currentNpcType == F ==> StockOf(prev, FPetStock) >= 1
    ensures FindItem(CommitStockStep(prev, st), FPetStock).Some?
    ensures StockOf(CommitStockStep(prev, st), FPetStock)
            == StockOf(prev, FPetStock) - (if st.currentNpcType == F then 1 else 0)
               + (if st.currentNpcType == F && st.actionType == HarvestAndStore then 1 else 0)
  {
    var consumed := if st.currentNpcType == F then ConsumeF(prev) else prev;
    if st.currentNpcType == F {
      BumpSame(prev, FPetStock, -1);
    }
    FindItemIds(prev, consumed, FPetStock);
    if st.actionType == HarvestAndStore && StoreId(st.currentNpcType).Some? {
      var id := StoreId(st.currentNpcType).value;
      FindItemIds(consumed, Bump(consumed, id, 1), FPetStock);
      if st.currentNpcType == F {
        BumpSame(consumed, FPetStock, 1);
      } else {
        BumpOther(consumed, id, 1, FPetStock);
      }
    }
  }

  /** The stock check of a batch whose requirement is one F pet per F subtask. */
  lemma HasStockTakesOnePerF(task: BatchTask, items: seq<WarehouseItem>)
    requires FindItem(items, FPetStock).Some?
    requires FStockRequirement(task.requiredWarehouseItems) == Some(FCount(task.subTasks) as int)
    requires HasStock(task, items)
    ensures StockOf(CommitStock(items, task.subTasks), FPetStock)
            == StockOf(items, FPetStock) - FCount(task.subTasks) + FStoreCount(task.subTasks)
  {
    EnoughStockTakesOnePerF(items, task.subTasks);
  }

  /** How many subtasks harvest a pet of rank `t`. */
  function TypeCount(subs: seq<SubTask>, t: NpcType): nat {
    if subs == [] then 0
    else TypeCount(subs[..|subs| - 1], t) + (if subs[|subs| - 1].currentNpcType == t then 1 else 0)
  }

  /** The per-rank counts of a batch card: `counts[t] = (counts[t] || 0) + 1` for each subtask. */
  method CountHarvest(subs: seq<SubTask>) returns (counts: map<NpcType, nat>)
    ensures forall t :: t in counts <==> TypeCount(subs, t) > 0
    ensures forall t :: t in counts ==> counts[t] == TypeCount(subs, t)
  {
    counts := map[];
    var i := 0;
    while i < |subs|
      invariant 0 <= i <= |subs|
      invariant forall t :: t in counts <==> TypeCount(subs[..i], t) > 0
      invariant forall t :: t in counts ==> counts[t] == TypeCount(subs[..i], t)
    {
      var t := subs[i].currentNpcType;
      counts := counts[t := (if t in counts then counts[t] else 0) + 1];
      assert subs[..i + 1][..i] == subs[..i];
      i := i + 1;
    }
    assert subs[..i] == subs;
  }

  /** Every subtask is counted once, under its own rank. */
  lemma {:induction false} TypeCountsTotal(subs: seq<SubTask>)
    ensures TypeCount(subs, F) + TypeCount(subs, E) + TypeCount(subs, D) + TypeCount(subs, C)
            + TypeCount(subs, B) + TypeCount(subs, A) + TypeCount(subs, S) == |subs|
  {
    if subs != [] {
      TypeCountsTotal(subs[..|subs| - 1]);
    }
  }

  /** A restart placed in the task's own house (`targetHouseId === task.houseId || !targetHouseId`). */
  predicate PlacedInOwnHouse(task: BatchTask, st: SubTask) {
    st.actionType == HarvestAndRestart
    && (st.targetHouseId.None? || st.targetHouseId.value == 0 || st.targetHouseId.value == task.houseId)
  }

  /** A subtask with a (non-zero) target in another house. */
  predicate PlacedElsewhere(task: BatchTask, st: SubTask) {
    st.targetHouseId.Some? && st.targetHouseId.value != 0 && st.targetHouseId.value != task.houseId
  }

  function OwnHousePlacements(task: BatchTask): seq<SubTask> {
    Lists.Filter(task.subTasks, st => PlacedInOwnHouse(task, st))
  }

  function CrossHousePlacements(task: BatchTask): seq<SubTask> {
    Lists.Filter(task.subTasks, st => PlacedElsewhere(task, st))
  }

  /**
   * The guide lists every restart of the batch exactly once among the
   * placements, and where commit puts its pet: in the own-house list exactly
   * when commit's target house is the task's house.
   */
  lemma RestartsListedOnce(task: BatchTask, st: SubTask)
    requires st in task.subTasks && st.actionType == HarvestAndRestart
    ensures st in OwnHousePlacements(task) <==> TargetHouse(task, st) == task.houseId
    ensures st in CrossHousePlacements(task) <==> TargetHouse(task, st) != task.houseId
  {
    assert PlacedInOwnHouse(task, st) <==> TargetHouse(task, st) == task.houseId;
  }

  /**
   * The guide's placement lists tell the player where commit actually starts
   * the next pet: a restart listed under the own house gets its pet in the
   * task's house, one listed under another house gets it in that house, at
   * the slot commit targets.
   */
  lemma PlacementsMatchCommit(houses: seq<House>, task: BatchTask, st: SubTask, cycleTimes: seq<CycleTime>, now: int)
    requires st in task.subTasks && st.actionType == HarvestAndRestart
    requires SlotAt(houses, task.houseId, st.slotIndex).Some?
    requires FindCycle(cycleTimes, st.nextNpcType).Some?
    requires SlotAt(houses, TargetHouse(task, st), TargetIndex(st)).Some?
    ensures var r := CommitSlotsStep(houses, task, st, cycleTimes, now);
            var placed := PetSlot(Some(Letter(st.nextNpcType) + "-Pet"), Some(now),
                                  Some(now + FindCycle(cycleTimes, st.nextNpcType).value * HourMs));
            && (st in OwnHousePlacements(task) ==>
                  SlotAt(r, task.houseId, TargetIndex(st)).Some? && SlotAt(r, task.houseId, TargetIndex(st)).value.pet == placed)
            && (st in CrossHousePlacements(task) ==>
                  st.targetHouseId.Some?
                  && SlotAt(r, st.targetHouseId.value, TargetIndex(st)).Some?
                  && SlotAt(r, st.targetHouseId.value, TargetIndex(st)).value.pet == placed)
  {
    RestartsListedOnce(task, st);
    CommitSlotsStepTarget(houses, task, st, cycleTimes, now);
  }

  // ---------------------------------------------------------------------------
  // The state commit, undo and pruning change
  // ---------------------------------------------------------------------------

  /** The cutoff of `calculateBriefing`: the check-in before the latest one not after `now`, or 0. */
  method SessionCutoff(checkinTimes: seq<int>, now: int) returns (cutoff: int)
    ensures cutoff == Cutoff(SessionCandidates(now, checkinTimes), now)
  {
    var sorted := Calendar.SortHours(checkinTimes);
    var candidates := Calendar.CollectCheckins(now, sorted, SessionDays);
    candidates := Calendar.SortDescending(candidates);
    cutoff := 0;
    var start := FirstAtOrBelow(candidates, now);
    if start.Some? && start.value + 1 < |candidates| {
      cutoff := candidates[start.value + 1];
    }
  }

  /** The houses, warehouse, collected-pet ledger and completed-task log. */
  class Factory {
    var houses: seq<House>
    var warehouse: seq<WarehouseItem>
    var collected: seq<CollectedPet>
    var log: seq<LogEntry>

    constructor(houses: seq<House>, warehouse: seq<WarehouseItem>, collected: seq<CollectedPet>, log: seq<LogEntry>)
      ensures this.houses == houses && this.warehouse == warehouse
      ensures this.collected == collected && this.log == log
    {
      this.houses := houses;
      this.warehouse := warehouse;
      this.collected := collected;
      this.log := log;
    }

    /**
     * `executeTaskComplete`: each subtask in turn clears its source, takes an
     * F pet from stock for an F harvest, then collects, stores or restarts;
     * one log entry is prepended.
     */
    method Commit(task: BatchTask, cycleTimes: seq<CycleTime>, now: int)
      requires RefsExist(houses, task)
      modifies this
      ensures houses == CommitSlots(old(houses), task, cycleTimes, now, task.subTasks)
      ensures warehouse == CommitStock(old(warehouse), task.subTasks)
      ensures collected == CommitLedger(old(collected), task.subTasks)
      ensures log == [CommitEntry(task, now)] + old(log)
    {
      var subs := task.subTasks;
      var newHouses, newItems, pets := houses, warehouse, collected;
      var snapshots: seq<Snapshot> := [];
      var i := 0;
      while i < |subs|
        invariant 0 <= i <= |subs|
        invariant newHouses == CommitSlots(houses, task, cycleTimes, now, subs[..i])
        invariant newItems == CommitStock(warehouse, subs[..i])
        invariant pets == CommitLedger(collected, subs[..i])
        invariant snapshots == Snapshots(task.houseId, subs[..i])
      {
        var st := subs[i];
        ghost var nextHouses := CommitSlotsStep(newHouses, task, st, cycleTimes, now);
        ghost var nextItems := CommitStockStep(newItems, st);
        snapshots := snapshots + [Snapshot(task.houseId, st.slotIndex, st.currentNpcType)];
        newHouses := SetPet(newHouses, task.houseId, st.slotIndex, EmptyPet);
        if st.currentNpcType == F {
          newItems := ConsumeF(newItems);
        }
        if st.actionType == CollectS {
          pets := Ledger.UpdateCollectedPets(pets, S, 1);
        } else if st.actionType == HarvestAndStore {
          var itemId := StoreId(st.currentNpcType);
          if itemId.Some? {
            newItems := Bump(newItems, itemId.value, 1);
          }
        } else if st.actionType == HarvestAndRestart {
          var th, ti := TargetHouse(task, st), TargetIndex(st);
          var target := SlotAt(newHouses, th, ti);
          var cycle := FindCycle(cycleTimes, st.nextNpcType);
          if cycle.Some? && target.Some? {
            newHouses := SetSlot(newHouses, th, ti, Restarted(target.value, st.nextNpcType, now, cycle.value));
          }
        }
        assert newHouses == nextHouses;
        assert newItems == nextItems;
        assert subs[..i + 1][..i] == subs[..i];
        i := i + 1;
      }
      assert subs[..i] == subs;
      houses, warehouse, collected := newHouses, newItems, pets;
      log := [LogEntry(task.id, task, now, "Completed batch " + task.id, snapshots)] + log;
    }

    /**
     * `executeUndo`: the first log entry of the task, if any, is reversed and
     * removed. Restart targets are cleared before the sources are restored
     * (see `UndoAsWrittenEmptiesOwnSlot` for the order the source uses).
     */
    method Undo(undoTask: BatchTask, clock: int)
      requires FindLog(log, undoTask.id).Some? ==> RefsExist(houses, log[FindLog(log, undoTask.id).value].task)
      modifies this
      ensures FindLog(old(log), undoTask.id).None? ==>
                houses == old(houses) && warehouse == old(warehouse) && collected == old(collected) && log == old(log)
      ensures FindLog(old(log), undoTask.id).Some? ==>
                var k := FindLog(old(log), undoTask.id).value;
                var task := old(log)[k].task;
                && houses == UndoSlots(old(houses), task, clock, task.subTasks)
                && warehouse == UndoStock(old(warehouse), task.subTasks)
                && collected == UndoLedger(old(collected), task.subTasks)
                && log == old(log)[..k] + old(log)[k + 1..]
    {
      var found := FindLog(log, undoTask.id);
      if found.None? {
        return;
      }
      var k := found.value;
      var task := log[k].task;
      var cleared, newItems, pets := ReverseActions(task, houses, warehouse, collected);
      var newHouses := RestoreAll(task, cleared, clock);
      houses, warehouse, collected := newHouses, newItems, pets;
      log := log[..k] + log[k + 1..];
    }

    /** First pass of undo: refund F pets, take back collections and stores, clear restart targets. */
    static method ReverseActions(task: BatchTask, houses: seq<House>, items: seq<WarehouseItem>, pets: seq<CollectedPet>)
      returns (newHouses: seq<House>, newItems: seq<WarehouseItem>, newPets: seq<CollectedPet>)
      ensures newHouses == ClearTargets(houses, task, task.subTasks)
      ensures newItems == UndoStock(items, task.subTasks)
      ensures newPets == UndoLedger(pets, task.subTasks)
    {
      var subs := task.subTasks;
      newHouses, newItems, newPets := houses, items, pets;
      var i := 0;
      while i < |subs|
        invariant 0 <= i <= |subs|
        invariant newHouses == ClearTargets(houses, task, subs[..i])
        invariant newItems == UndoStock(items, subs[..i])
        invariant newPets == UndoLedger(pets, subs[..i])
      {
        var st := subs[i];
        ghost var nextItems := UndoStockStep(newItems, st);
        ghost var nextPets := UndoLedgerStep(newPets, st);
        ghost var nextHouses := ClearTargetsStep(newHouses, task, st);
        if st.currentNpcType == F {
          newItems := Bump(newItems, FPetStock, 1);
        }
        if st.actionType == CollectS {
          newPets := Ledger.UpdateCollectedPets(newPets, S, -1);
        } else if st.actionType == HarvestAndStore {
          var itemId := WipId(st.currentNpcType);
          if itemId.Some? {
            newItems := Bump(newItems, itemId.value, -1);
          }
        } else if st.actionType == HarvestAndRestart {
          newHouses := SetPet(newHouses, TargetHouse(task, st), TargetIndex(st), EmptyPet);
        }
        assert newItems == nextItems;
        assert newPets == nextPets;
        assert newHouses == nextHouses;
        assert subs[..i + 1][..i] == subs[..i];
        i := i + 1;
      }
      assert subs[..i] == subs;
    }

    /** Second pass of undo: a finished pet back in every source slot. */
    static method RestoreAll(task: BatchTask, houses: seq<House>, clock: int) returns (newHouses: seq<House>)
      ensures newHouses == RestoreSources(houses, task, clock, task.subTasks)
    {
      var subs := task.subTasks;
      newHouses := houses;
      var i := 0;
      while i < |subs|
        invariant 0 <= i <= |subs|
        invariant newHouses == RestoreSources(houses, task, clock, subs[..i])
      {
        var st := subs[i];
        newHouses := SetPet(newHouses, task.houseId, st.slotIndex, FinishedPet(st.currentNpcType, clock));
        assert subs[..i + 1][..i] == subs[..i];
        i := i + 1;
      }
      assert subs[..i] == subs;
    }

    /**
     * The history block of `calculateBriefing`: keep the log entries newer
     * than the cutoff and list their tasks newest first. The kept entries are
     * stored only when some were dropped, and then in the sorted order, since
     * the source sorts the very array it has just stored.
     */
    method PruneSession(checkinTimes: seq<int>, now: int) returns (history: seq<BatchTask>)
      modifies this
      ensures houses == old(houses) && warehouse == old(warehouse) && collected == old(collected)
      ensures |checkinTimes| == 0 || |old(log)| == 0 ==> history == [] && log == old(log)
      ensures |checkinTimes| > 0 && |old(log)| > 0 ==>
                var recent := NewerThan(old(log), Cutoff(SessionCandidates(now, checkinTimes), now));
                && history == Tasks(NewestFirst(recent))
                && log == if |recent| < |old(log)| then NewestFirst(recent) else old(log)
    {
      if |checkinTimes| == 0 || |log| == 0 {
        return [];
      }
      var cutoff := SessionCutoff(checkinTimes, now);
      var recent := NewerThan(log, cutoff);
      var newest := NewestFirst(recent);
      if |recent| < |log| {
        log := newest;
      }
      history := Tasks(newest);
    }
  }
}
