/**
 * The effects of committing and undoing a batch task of the daily briefing
 * (components/DailyBriefing.tsx), stated as folds over the task's subtasks.
 * Each subtask touches three separate pieces of state: the slots of the
 * houses, the warehouse counts and the collected-pet ledger; one fold per
 * piece, each defined from the last subtask back, so that the loops of the
 * `Factory` class in DailyBriefing step through them one subtask at a time.
 */
module BatchSteps {
  import opened Wrappers
  import opened Types
  import Lists
  import Ledger

  datatype Action = HarvestAndRestart | HarvestAndStore | HarvestUpgradeAndStore | CollectS | RenewNpc | FillIdle

  /** One slot of a batch: the optional fields of the source are `Option`s. */
  datatype SubTask = SubTask(
    slotIndex: nat,
    currentNpcType: NpcType,
    nextNpcType: NpcType,
    actionType: Action,
    targetHouseId: Option<int>,
    targetSlotIndex: Option<nat>,
    virtualHouseName: Option<string>)

  datatype RequiredItem = RequiredItem(itemId: string, count: int, name: string)

  /** A `DailyBriefingTask` of the batch shape; a missing `subTasks` is the empty list. */
  datatype BatchTask = BatchTask(
    id: string,
    houseId: int,
    serviceBlock: string,
    estFinishTime: string,
    taskLabel: string,
    isFullyReady: bool,
    subTasks: seq<SubTask>,
    requiredWarehouseItems: seq<RequiredItem>)

  /** The snapshot commit records for each subtask. */
  datatype Snapshot = Snapshot(houseId: int, slotIndex: nat, previousPetType: NpcType)

  datatype LogEntry = LogEntry(id: string, task: BatchTask, timestamp: int, summary: string, affectedSlots: seq<Snapshot>)

  // ---------------------------------------------------------------------------
  // Slots addressed by house id and slot index
  // ---------------------------------------------------------------------------

  /** `houses.find(h => h.id === id).slots[i]`, `None` where the source would fail. */
  function SlotAt(houses: seq<House>, id: int, i: nat): (r: Option<Slot>)
    ensures r.Some? <==> FindHouse(houses, id).Some? && i < |houses[FindHouse(houses, id).value].slots|
  {
    match FindHouse(houses, id)
    case None => None
    case Some(k) => if i < |houses[k].slots| then Some(houses[k].slots[i]) else None
  }

  /** Replace the slot `SlotAt` names; nothing changes where there is none. */
  function SetSlot(houses: seq<House>, id: int, i: nat, s: Slot): seq<House> {
    match FindHouse(houses, id)
    case None => houses
    case Some(k) =>
      if i < |houses[k].slots| then houses[k := houses[k].(slots := houses[k].slots[i := s])] else houses
  }

  /** `slot.pet = p`. */
  function SetPet(houses: seq<House>, id: int, i: nat, p: PetSlot): seq<House> {
    match SlotAt(houses, id, i)
    case None => houses
    case Some(s) => SetSlot(houses, id, i, s.(pet := p))
  }

  /** Two house lists with the same ids and slot counts, house by house. */
  predicate SameShape(a: seq<House>, b: seq<House>) {
    && |a| == |b|
    && forall k :: 0 <= k < |a| ==> a[k].id == b[k].id && |a[k].slots| == |b[k].slots|
  }

  lemma {:induction false} FindHouseShape(a: seq<House>, b: seq<House>, id: int)
    requires SameShape(a, b)
    ensures FindHouse(a, id) == FindHouse(b, id)
  {
    if a != [] {
      assert SameShape(a[1..], b[1..]) by {
        forall k | 0 <= k < |a[1..]| ensures a[1..][k].id == b[1..][k].id && |a[1..][k].slots| == |b[1..][k].slots| {
          assert a[1..][k] == a[k + 1] && b[1..][k] == b[k + 1];
        }
      }
      FindHouseShape(a[1..], b[1..], id);
    }
  }

  lemma SetSlotShape(houses: seq<House>, id: int, i: nat, s: Slot)
    ensures SameShape(houses, SetSlot(houses, id, i, s))
  {
  }

  lemma SetPetShape(houses: seq<House>, id: int, i: nat, p: PetSlot)
    ensures SameShape(houses, SetPet(houses, id, i, p))
  {
  }

  /**
   * Reading a slot after writing one: the written slot holds the new value,
   * every other slot is as it was (house ids are compared as the source's
   * `find` does, so two ids that differ never name the same house).
   */
  lemma SlotAtSetSlot(houses: seq<House>, id: int, i: nat, s: Slot, id2: int, j: nat)
    ensures SlotAt(SetSlot(houses, id, i, s), id2, j)
            == if SlotAt(houses, id, i).Some? && id == id2 && i == j then Some(s) else SlotAt(houses, id2, j)
  {
    var r := SetSlot(houses, id, i, s);
    SetSlotShape(houses, id, i, s);
    FindHouseShape(houses, r, id2);
  }

  /** The same, for the pet of a slot. */
  lemma SlotAtSetPet(houses: seq<House>, id: int, i: nat, p: PetSlot, id2: int, j: nat)
    ensures SlotAt(SetPet(houses, id, i, p), id2, j)
            == if SlotAt(houses, id, i).Some? && id == id2 && i == j then Some(SlotAt(houses, id, i).value.(pet := p))
               else SlotAt(houses, id2, j)
  {
    if SlotAt(houses, id, i).Some? {
      SlotAtSetSlot(houses, id, i, SlotAt(houses, id, i).value.(pet := p), id2, j);
    }
  }

  // ---------------------------------------------------------------------------
  // Where a subtask acts
  // ---------------------------------------------------------------------------

  /** `st.targetHouseId || task.houseId`: a missing or zero target means the task's own house. */
  function TargetHouse(task: BatchTask, st: SubTask): int {
    if st.targetHouseId.Some? && st.targetHouseId.value != 0 then st.targetHouseId.value else task.houseId
  }

  /** `st.targetSlotIndex !== undefined ? st.targetSlotIndex : st.slotIndex`. */
  function TargetIndex(st: SubTask): nat {
    if st.targetSlotIndex.Some? then st.targetSlotIndex.value else st.slotIndex
  }

  /** The slots every subtask of `task` reads; the source fails on a subtask whose slot is missing. */
  predicate RefsExist(houses: seq<House>, task: BatchTask) {
    forall i :: 0 <= i < |task.subTasks| ==>
      && SlotAt(houses, task.houseId, task.subTasks[i].slotIndex).Some?
      && (task.subTasks[i].actionType == HarvestAndRestart
          ==> SlotAt(houses, TargetHouse(task, task.subTasks[i]), TargetIndex(task.subTasks[i])).Some?)
  }

  // ---------------------------------------------------------------------------
  // Commit
  // ---------------------------------------------------------------------------

  /** A pet of rank `t` started at `now`, due `hours` later. */
  function StartedPet(t: NpcType, now: int, hours: nat): PetSlot {
    PetSlot(Some(Letter(t) + "-Pet"), Some(now), Some(now + hours * 3600000))
  }

  /** The target slot after a restart: the new pet, and a contract that starts running if it had none. */
  function Restarted(s: Slot, t: NpcType, now: int, hours: nat): Slot {
    var npc :=
      if s.npc.expiration.None? && s.npc.duration.Some?
      then s.npc.(expiration := Some(now + Days(s.npc.duration.value) * DayMs))
      else s.npc;
    Slot(npc, StartedPet(t, now, hours))
  }

  /** What a restart puts in a slot, field by field. */
  lemma RestartedShape(s: Slot, t: NpcType, now: int, hours: nat)
    ensures var r := Restarted(s, t, now, hours);
            && r.pet == PetSlot(Some(Letter(t) + "-Pet"), Some(now), Some(now + hours * HourMs))
            && r.npc.expiration == (if s.npc.expiration.None? && s.npc.duration.Some?
                                    then Some(now + Days(s.npc.duration.value) * DayMs) else s.npc.expiration)
            && r.npc.(expiration := s.npc.expiration) == s.npc
  {
  }

  /** The slots after one subtask of commit: clear the source, then start the next pet in the target. */
  function CommitSlotsStep(houses: seq<House>, task: BatchTask, st: SubTask, cycleTimes: seq<CycleTime>, now: int): seq<House> {
    var cleared := SetPet(houses, task.houseId, st.slotIndex, EmptyPet);
    if st.actionType != HarvestAndRestart then cleared
    else match FindCycle(cycleTimes, st.nextNpcType)
      case None => cleared
      case Some(hours) =>
        match SlotAt(cleared, TargetHouse(task, st), TargetIndex(st))
        case None => cleared
        case Some(s) => SetSlot(cleared, TargetHouse(task, st), TargetIndex(st), Restarted(s, st.nextNpcType, now, hours))
  }

  function CommitSlots(houses: seq<House>, task: BatchTask, cycleTimes: seq<CycleTime>, now: int, subs: seq<SubTask>): seq<House> {
    if subs == [] then houses
    else CommitSlotsStep(CommitSlots(houses, task, cycleTimes, now, subs[..|subs| - 1]), task, subs[|subs| - 1], cycleTimes, now)
  }

  /** `items.find(w => w.id === id).currentStock += d`, if there is such an item. */
  function Bump(items: seq<WarehouseItem>, id: string, d: int): seq<WarehouseItem> {
    match FindItem(items, id)
    case None => items
    case Some(k) => items[k := items[k].(currentStock := items[k].currentStock + d)]
  }

  /** Take one F pet out of stock, only while there is one. */
  function ConsumeF(items: seq<WarehouseItem>): seq<WarehouseItem> {
    match FindItem(items, FPetStock)
    case None => items
    case Some(k) => if items[k].currentStock > 0 then Bump(items, FPetStock, -1) else items
  }

  /** The work-in-progress item of a rank from E to A. */
  function WipId(t: NpcType): Option<string> {
    match t
    case E => Some("e-pet-wip") case D => Some("d-pet-wip") case C => Some("c-pet-wip")
    case B => Some("b-pet-wip") case A => Some("a-pet-wip")
    case _ => None
  }

  /** Where commit stores a harvested pet: F pets go back to the F stock. */
  function StoreId(t: NpcType): Option<string> {
    if t == F then Some(FPetStock) else WipId(t)
  }

  function CommitStockStep(items: seq<WarehouseItem>, st: SubTask): seq<WarehouseItem> {
    var consumed := if st.currentNpcType == F then ConsumeF(items) else items;
    if st.actionType == HarvestAndStore && StoreId(st.currentNpcType).Some?
    then Bump(consumed, StoreId(st.currentNpcType).value, 1)
    else consumed
  }

  function CommitStock(items: seq<WarehouseItem>, subs: seq<SubTask>): seq<WarehouseItem> {
    if subs == [] then items
    else CommitStockStep(CommitStock(items, subs[..|subs| - 1]), subs[|subs| - 1])
  }

  function CommitLedgerStep(pets: seq<CollectedPet>, st: SubTask): seq<CollectedPet> {
    if st.actionType == CollectS then Ledger.UpdateCollectedPets(pets, S, 1) else pets
  }

  function CommitLedger(pets: seq<CollectedPet>, subs: seq<SubTask>): seq<CollectedPet> {
    if subs == [] then pets
    else CommitLedgerStep(CommitLedger(pets, subs[..|subs| - 1]), subs[|subs| - 1])
  }

  /** One snapshot per subtask, in subtask order. */
  function Snapshots(houseId: int, subs: seq<SubTask>): (r: seq<Snapshot>)
    ensures |r| == |subs|
    ensures forall i :: 0 <= i < |subs| ==> r[i] == Snapshot(houseId, subs[i].slotIndex, subs[i].currentNpcType)
  {
    if subs == [] then []
    else Snapshots(houseId, subs[..|subs| - 1]) + [Snapshot(houseId, subs[|subs| - 1].slotIndex, subs[|subs| - 1].currentNpcType)]
  }

  /** The log entry commit prepends. */
  function CommitEntry(task: BatchTask, now: int): LogEntry {
    LogEntry(task.id, task, now, "Completed batch " + task.id, Snapshots(task.houseId, task.subTasks))
  }

  // ---------------------------------------------------------------------------
  // Undo
  // ---------------------------------------------------------------------------

  /** The first log entry whose task has the given id (`findIndex`). */
  function FindLog(log: seq<LogEntry>, id: string): (r: Option<nat>)
    ensures r.Some? ==> r.value < |log| && log[r.value].task.id == id
                        && forall j :: 0 <= j < r.value ==> log[j].task.id != id
    ensures r.None? ==> forall j :: 0 <= j < |log| ==> log[j].task.id != id
  {
    if log == [] then None
    else if log[0].task.id == id then Some(0)
    else match FindLog(log[1..], id)
      case None => None
      case Some(k) => Some(k + 1)
  }

  /** A pet of rank `t` that finished a second before `clock`. */
  function FinishedPet(t: NpcType, clock: int): PetSlot {
    PetSlot(Some(Letter(t) + "-Pet"), Some(clock - 1000000), Some(clock - 1000))
  }

  /** The undo of one subtask as the source writes it: restore the source, then clear a restart's target. */
  function UndoSlotsStepAsWritten(houses: seq<House>, task: BatchTask, st: SubTask, clock: int): seq<House> {
    var restored := SetPet(houses, task.houseId, st.slotIndex, FinishedPet(st.currentNpcType, clock));
    if st.actionType == HarvestAndRestart then SetPet(restored, TargetHouse(task, st), TargetIndex(st), EmptyPet)
    else restored
  }

  function UndoSlotsAsWritten(houses: seq<House>, task: BatchTask, clock: int, subs: seq<SubTask>): seq<House> {
    if subs == [] then houses
    else UndoSlotsStepAsWritten(UndoSlotsAsWritten(houses, task, clock, subs[..|subs| - 1]), task, subs[|subs| - 1], clock)
  }

  function ClearTargetsStep(houses: seq<House>, task: BatchTask, st: SubTask): seq<House> {
    if st.actionType == HarvestAndRestart then SetPet(houses, TargetHouse(task, st), TargetIndex(st), EmptyPet) else houses
  }

  /** First pass of undo: clear the slot every restart filled. */
  function ClearTargets(houses: seq<House>, task: BatchTask, subs: seq<SubTask>): seq<House> {
    if subs == [] then houses
    else ClearTargetsStep(ClearTargets(houses, task, subs[..|subs| - 1]), task, subs[|subs| - 1])
  }

  /** Second pass of undo: put a finished pet back in every source slot. */
  function RestoreSources(houses: seq<House>, task: BatchTask, clock: int, subs: seq<SubTask>): seq<House> {
    if subs == [] then houses
    else
      var st := subs[|subs| - 1];
      SetPet(RestoreSources(houses, task, clock, subs[..|subs| - 1]), task.houseId, st.slotIndex, FinishedPet(st.currentNpcType, clock))
  }

  /** The slots after undo: targets cleared first, so that a restart into its own slot does not wipe the restored pet. */
  function UndoSlots(houses: seq<House>, task: BatchTask, clock: int, subs: seq<SubTask>): seq<House> {
    RestoreSources(ClearTargets(houses, task, subs), task, clock, subs)
  }

  function UndoStockStep(items: seq<WarehouseItem>, st: SubTask): seq<WarehouseItem> {
    var refunded := if st.currentNpcType == F then Bump(items, FPetStock, 1) else items;
    if st.actionType == HarvestAndStore && WipId(st.currentNpcType).Some?
    then Bump(refunded, WipId(st.currentNpcType).value, -1)
    else refunded
  }

  function UndoStock(items: seq<WarehouseItem>, subs: seq<SubTask>): seq<WarehouseItem> {
    if subs == [] then items
    else UndoStockStep(UndoStock(items, subs[..|subs| - 1]), subs[|subs| - 1])
  }

  function UndoLedgerStep(pets: seq<CollectedPet>, st: SubTask): seq<CollectedPet> {
    if st.actionType == CollectS then Ledger.UpdateCollectedPets(pets, S, -1) else pets
  }

  function UndoLedger(pets: seq<CollectedPet>, subs: seq<SubTask>): seq<CollectedPet> {
    if subs == [] then pets
    else UndoLedgerStep(UndoLedger(pets, subs[..|subs| - 1]), subs[|subs| - 1])
  }

  // ---------------------------------------------------------------------------
  // What commit does
  // ---------------------------------------------------------------------------

  lemma {:induction false} CommitSlotsShape(houses: seq<House>, task: BatchTask, cycleTimes: seq<CycleTime>, now: int, subs: seq<SubTask>)
    ensures SameShape(houses, CommitSlots(houses, task, cycleTimes, now, subs))
  {
    if subs != [] {
      var prev := CommitSlots(houses, task, cycleTimes, now, subs[..|subs| - 1]);
      var st := subs[|subs| - 1];
      CommitSlotsShape(houses, task, cycleTimes, now, subs[..|subs| - 1]);
      var cleared := SetPet(prev, task.houseId, st.slotIndex, EmptyPet);
      SetPetShape(prev, task.houseId, st.slotIndex, EmptyPet);
      match SlotAt(cleared, TargetHouse(task, st), TargetIndex(st))
      case None =>
      case Some(x) => SetSlotShape(cleared, TargetHouse(task, st), TargetIndex(st), Restarted(x, st.nextNpcType, now, 0));
        SetSlotShape(cleared, TargetHouse(task, st), TargetIndex(st), Restarted(x, st.nextNpcType, now, 1));
    }
  }

  /**
   * One subtask of commit: the source slot loses its pet unless a restart
   * refills that very slot; a restart of a rank that has a cycle time puts a
   * pet of the next rank, started now and due a cycle later, in the target
   * slot, whose contract starts running only when it had no expiration yet
   * and has a duration; no other slot changes.
   */
  lemma CommitSlotsStepEffect(houses: seq<House>, task: BatchTask, st: SubTask, cycleTimes: seq<CycleTime>, now: int)
    requires SlotAt(houses, task.houseId, st.slotIndex).Some?
    requires st.actionType == HarvestAndRestart ==> SlotAt(houses, TargetHouse(task, st), TargetIndex(st)).Some?
    ensures var r := CommitSlotsStep(houses, task, st, cycleTimes, now);
            var restarts := st.actionType == HarvestAndRestart && FindCycle(cycleTimes, st.nextNpcType).Some?;
            var th, ti := TargetHouse(task, st), TargetIndex(st);
            && (restarts ==>
                  var target := SlotAt(houses, th, ti).value;
                  var hours := FindCycle(cycleTimes, st.nextNpcType).value;
                  && SlotAt(r, th, ti).Some?
                  && SlotAt(r, th, ti).value.pet == PetSlot(Some(Letter(st.nextNpcType) + "-Pet"), Some(now), Some(now + hours * HourMs))
                  && SlotAt(r, th, ti).value.npc.expiration
                     == (if target.npc.expiration.None? && target.npc.duration.Some?
                         then Some(now + Days(target.npc.duration.value) * DayMs) else target.npc.expiration)
                  && SlotAt(r, th, ti).value.npc.(expiration := target.npc.expiration) == target.npc)
            && (!restarts || th != task.houseId || ti != st.slotIndex ==>
                  SlotAt(r, task.houseId, st.slotIndex) == Some(SlotAt(houses, task.houseId, st.slotIndex).value.(pet := EmptyPet)))
            && (forall id2: int, j: nat ::
                  (id2 != task.houseId || j != st.slotIndex) && (!restarts || id2 != th || j != ti) ==>
                  SlotAt(r, id2, j) == SlotAt(houses, id2, j))
  {
    var th, ti := TargetHouse(task, st), TargetIndex(st);
    if st.actionType == HarvestAndRestart && FindCycle(cycleTimes, st.nextNpcType).Some? {
      CommitSlotsStepTarget(houses, task, st, cycleTimes, now);
    }
    if !(st.actionType == HarvestAndRestart && FindCycle(cycleTimes, st.nextNpcType).Some?)
       || th != task.houseId || ti != st.slotIndex {
      CommitSlotsStepAt(houses, task, st, cycleTimes, now, task.houseId, st.slotIndex);
    }
    forall id2: int, j: nat | (id2 != task.houseId || j != st.slotIndex)
        && (!(st.actionType == HarvestAndRestart && FindCycle(cycleTimes, st.nextNpcType).Some?) || id2 != th || j != ti)
      ensures SlotAt(CommitSlotsStep(houses, task, st, cycleTimes, now), id2, j) == SlotAt(houses, id2, j)
    {
      CommitSlotsStepAt(houses, task, st, cycleTimes, now, id2, j);
    }
  }

  /** One subtask of commit, at one slot other than a restarted target. */
  lemma CommitSlotsStepAt(houses: seq<House>, task: BatchTask, st: SubTask, cycleTimes: seq<CycleTime>, now: int, id2: int, j: nat)
    requires SlotAt(houses, task.houseId, st.slotIndex).Some?
    requires !(st.actionType == HarvestAndRestart && FindCycle(cycleTimes, st.nextNpcType).Some?)
             || id2 != TargetHouse(task, st) || j != TargetIndex(st)
    ensures SlotAt(CommitSlotsStep(houses, task, st, cycleTimes, now), id2, j)
            == if id2 == task.houseId && j == st.slotIndex
               then Some(SlotAt(houses, task.houseId, st.slotIndex).value.(pet := EmptyPet))
               else SlotAt(houses, id2, j)
  {
    var cleared := SetPet(houses, task.houseId, st.slotIndex, EmptyPet);
    var th, ti := TargetHouse(task, st), TargetIndex(st);
    SlotAtSetPet(houses, task.houseId, st.slotIndex, EmptyPet, id2, j);
    if st.actionType == HarvestAndRestart && FindCycle(cycleTimes, st.nextNpcType).Some? && SlotAt(cleared, th, ti).Some? {
      var hours := FindCycle(cycleTimes, st.nextNpcType).value;
      var y := Restarted(SlotAt(cleared, th, ti).value, st.nextNpcType, now, hours);
      SlotAtSetSlot(cleared, th, ti, y, id2, j);
    }
  }

  /** One subtask of commit, at the target slot of a restart. */
  lemma CommitSlotsStepTarget(houses: seq<House>, task: BatchTask, st: SubTask, cycleTimes: seq<CycleTime>, now: int)
    requires SlotAt(houses, task.houseId, st.slotIndex).Some?
    requires st.actionType == HarvestAndRestart && FindCycle(cycleTimes, st.nextNpcType).Some?
    requires SlotAt(houses, TargetHouse(task, st), TargetIndex(st)).Some?
    ensures var r := CommitSlotsStep(houses, task, st, cycleTimes, now);
            var th, ti := TargetHouse(task, st), TargetIndex(st);
            var target := SlotAt(houses, th, ti).value;
            var hours := FindCycle(cycleTimes, st.nextNpcType).value;
            && SlotAt(r, th, ti).Some?
            && SlotAt(r, th, ti).value.pet == PetSlot(Some(Letter(st.nextNpcType) + "-Pet"), Some(now), Some(now + hours * HourMs))
            && SlotAt(r, th, ti).value.npc.expiration
               == (if target.npc.expiration.None? && target.npc.duration.Some?
                   then Some(now + Days(target.npc.duration.value) * DayMs) else target.npc.expiration)
            && SlotAt(r, th, ti).value.npc.(expiration := target.npc.expiration) == target.npc
  {
    var cleared := SetPet(houses, task.houseId, st.slotIndex, EmptyPet);
    var th, ti := TargetHouse(task, st), TargetIndex(st);
    var hours := FindCycle(cycleTimes, st.nextNpcType).value;
    SlotAtSetPet(houses, task.houseId, st.slotIndex, EmptyPet, th, ti);
    var x := SlotAt(cleared, th, ti).value;
    var y := Restarted(x, st.nextNpcType, now, hours);
    SlotAtSetSlot(cleared, th, ti, y, th, ti);
    RestartedShape(x, st.nextNpcType, now, hours);
  }

  /**
   * When no restart of the batch refills a source slot of the batch, commit
   * leaves every source slot without a pet.
   */
  lemma {:induction false} CommitClearsSources(houses: seq<House>, task: BatchTask, cycleTimes: seq<CycleTime>, now: int, subs: seq<SubTask>)
    requires forall i :: 0 <= i < |subs| ==> SlotAt(houses, task.houseId, subs[i].slotIndex).Some?
    requires forall j :: 0 <= j < |subs| && subs[j].actionType == HarvestAndRestart ==>
               SlotAt(houses, TargetHouse(task, subs[j]), TargetIndex(subs[j])).Some?
    requires forall i, j :: 0 <= i < |subs| && 0 <= j < |subs| && subs[j].actionType == HarvestAndRestart ==>
               TargetHouse(task, subs[j]) != task.houseId || TargetIndex(subs[j]) != subs[i].slotIndex
    ensures forall i :: 0 <= i < |subs| ==>
              var s := SlotAt(CommitSlots(houses, task, cycleTimes, now, subs), task.houseId, subs[i].slotIndex);
              s.Some? && s.value.pet == EmptyPet
  {
    if subs != [] {
      var n := |subs| - 1;
      var prev := CommitSlots(houses, task, cycleTimes, now, subs[..n]);
      var st := subs[n];
      CommitClearsSources(houses, task, cycleTimes, now, subs[..n]);
      CommitSlotsShape(houses, task, cycleTimes, now, subs[..n]);
      var r := CommitSlotsStep(prev, task, st, cycleTimes, now);
      forall i | 0 <= i < |subs| ensures SlotAt(r, task.houseId, subs[i].slotIndex).Some?
                                       && SlotAt(r, task.houseId, subs[i].slotIndex).value.pet == EmptyPet {
        FindHouseShape(houses, prev, task.houseId);
        FindHouseShape(houses, prev, TargetHouse(task, st));
        CommitSlotsStepEffect(prev, task, st, cycleTimes, now);
        if i < n {
          assert subs[..n][i] == subs[i];
        }
      }
    }
  }

  /** Warehouse counts that are not negative stay so: F stock is only taken while there is some. */
  lemma {:induction false} CommitStockNonNegative(items: seq<WarehouseItem>, subs: seq<SubTask>)
    requires forall k :: 0 <= k < |items| ==> items[k].currentStock >= 0
    ensures var r := CommitStock(items, subs);
            |r| == |items| && forall k :: 0 <= k < |r| ==> r[k].currentStock >= 0
  {
    if subs != [] {
      CommitStockNonNegative(items, subs[..|subs| - 1]);
    }
  }

  /** How many subtasks collect an S pet. */
  function CollectCount(subs: seq<SubTask>): nat {
    if subs == [] then 0
    else CollectCount(subs[..|subs| - 1]) + (if subs[|subs| - 1].actionType == CollectS then 1 else 0)
  }

  lemma QuantityNonNegative(pets: seq<CollectedPet>, t: NpcType)
    requires Ledger.WellFormed(pets)
    ensures CollectedQuantity(pets, t) >= 0
  {
  }

  /** On a well-formed ledger, commit adds exactly one S pet per collecting subtask and nothing else. */
  lemma {:induction false} CommitLedgerCounts(pets: seq<CollectedPet>, subs: seq<SubTask>)
    requires Ledger.WellFormed(pets)
    ensures var r := CommitLedger(pets, subs);
            && Ledger.WellFormed(r)
            && CollectedQuantity(r, S) == CollectedQuantity(pets, S) + CollectCount(subs)
            && forall u :: u != S ==> CollectedQuantity(r, u) == CollectedQuantity(pets, u)
  {
    if subs != [] {
      var prev := CommitLedger(pets, subs[..|subs| - 1]);
      CommitLedgerCounts(pets, subs[..|subs| - 1]);
      if subs[|subs| - 1].actionType == CollectS {
        QuantityNonNegative(prev, S);
        Ledger.UpdateCollectedPetsSpec(prev, S, 1);
      }
    }
  }

  /** Undo takes one S pet back per collecting subtask, which it can do in full while there are enough. */
  lemma {:induction false} UndoLedgerCounts(pets: seq<CollectedPet>, subs: seq<SubTask>)
    requires Ledger.WellFormed(pets)
    requires CollectedQuantity(pets, S) >= CollectCount(subs)
    ensures var r := UndoLedger(pets, subs);
            && Ledger.WellFormed(r)
            && CollectedQuantity(r, S) == CollectedQuantity(pets, S) - CollectCount(subs)
            && forall u :: u != S ==> CollectedQuantity(r, u) == CollectedQuantity(pets, u)
  {
    if subs != [] {
      var prev := UndoLedger(pets, subs[..|subs| - 1]);
      UndoLedgerCounts(pets, subs[..|subs| - 1]);
      if subs[|subs| - 1].actionType == CollectS {
        Ledger.UpdateCollectedPetsSpec(prev, S, -1);
      }
    }
  }

  /** Undoing a commit gives every pet type its count back. */
  lemma UndoCommitLedger(pets: seq<CollectedPet>, subs: seq<SubTask>)
    requires Ledger.WellFormed(pets)
    ensures var r := UndoLedger(CommitLedger(pets, subs), subs);
            Ledger.WellFormed(r) && forall u :: CollectedQuantity(r, u) == CollectedQuantity(pets, u)
  {
    CommitLedgerCounts(pets, subs);
    QuantityNonNegative(pets, S);
    UndoLedgerCounts(CommitLedger(pets, subs), subs);
  }

  // ---------------------------------------------------------------------------
  // Commit then undo on the warehouse
  // ---------------------------------------------------------------------------

  predicate SameIds(a: seq<WarehouseItem>, b: seq<WarehouseItem>) {
    |a| == |b| && forall k :: 0 <= k < |a| ==> a[k].id == b[k].id
  }

  lemma {:induction false} FindItemIds(a: seq<WarehouseItem>, b: seq<WarehouseItem>, id: string)
    requires SameIds(a, b)
    ensures FindItem(a, id) == FindItem(b, id)
  {
    if a != [] {
      assert SameIds(a[1..], b[1..]) by {
        forall k | 0 <= k < |a[1..]| ensures a[1..][k].id == b[1..][k].id {
          assert a[1..][k] == a[k + 1] && b[1..][k] == b[k + 1];
        }
      }
      FindItemIds(a[1..], b[1..], id);
    }
  }

  /** The stock of the item at position `k` moved by `d`. */
  function AddAt(items: seq<WarehouseItem>, k: nat, d: int): seq<WarehouseItem>
    requires k < |items|
  {
    items[k := items[k].(currentStock := items[k].currentStock + d)]
  }

  /** Bumping an item that is found is a single point update. */
  lemma BumpAt(items: seq<WarehouseItem>, id: string, k: nat, d: int)
    requires FindItem(items, id) == Some(k)
    ensures k < |items| && Bump(items, id, d) == AddAt(items, k, d)
  {
  }

  /** Bumping an item that is not there changes nothing. */
  lemma BumpMissing(items: seq<WarehouseItem>, id: string, d: int)
    requires FindItem(items, id).None?
    ensures Bump(items, id, d) == items
  {
  }

  /** Two point updates of the stock commute, at the same position or at two different ones. */
  lemma StockUpdatesCommute(items: seq<WarehouseItem>, i: nat, j: nat, x: int, y: int)
    requires i < |items| && j < |items|
    ensures AddAt(AddAt(items, i, x), j, y) == AddAt(AddAt(items, j, y), i, x)
  {
    var ui := items[i].(currentStock := items[i].currentStock + x);
    var uj := items[j].(currentStock := items[j].currentStock + y);
    if i != j {
      assert items[i := ui][j] == items[j];
      assert items[j := uj][i] == items[i];
      Lists.UpdateCommute(items, i, j, ui, uj);
    }
  }

  /** Two bumps commute. */
  lemma BumpCommute(items: seq<WarehouseItem>, a: string, x: int, b: string, y: int)
    ensures Bump(Bump(items, a, x), b, y) == Bump(Bump(items, b, y), a, x)
  {
    var afterA := Bump(items, a, x);
    var afterB := Bump(items, b, y);
    FindItemIds(items, afterA, b);
    FindItemIds(items, afterB, a);
    var fa := FindItem(items, a);
    var fb := FindItem(items, b);
    if fa.None? {
      BumpMissing(items, a, x);
      BumpMissing(afterB, a, x);
    } else if fb.None? {
      BumpMissing(items, b, y);
      BumpMissing(afterA, b, y);
    } else {
      var i, j := fa.value, fb.value;
      BumpAt(items, a, i, x);
      BumpAt(items, b, j, y);
      BumpAt(afterA, b, j, y);
      BumpAt(afterB, a, i, x);
      StockUpdatesCommute(items, i, j, x, y);
    }
  }

  /** A bump and the opposite bump cancel. */
  lemma BumpBack(items: seq<WarehouseItem>, a: string, x: int)
    ensures Bump(Bump(items, a, x), a, -x) == items
  {
    FindItemIds(items, Bump(items, a, x), a);
  }

  /** Without F pets, a subtask's commit only stores into its work-in-progress item. */
  lemma CommitStockStepNoF(items: seq<WarehouseItem>, st: SubTask)
    requires st.currentNpcType != F
    ensures CommitStockStep(items, st)
            == if st.actionType == HarvestAndStore && WipId(st.currentNpcType).Some?
               then Bump(items, WipId(st.currentNpcType).value, 1) else items
  {
  }

  lemma StepsCommute(items: seq<WarehouseItem>, st: SubTask, x: SubTask)
    requires st.currentNpcType != F && x.currentNpcType != F
    ensures UndoStockStep(CommitStockStep(items, st), x) == CommitStockStep(UndoStockStep(items, x), st)
  {
    CommitStockStepNoF(items, st);
    CommitStockStepNoF(UndoStockStep(items, x), st);
    if st.actionType == HarvestAndStore && WipId(st.currentNpcType).Some?
       && x.actionType == HarvestAndStore && WipId(x.currentNpcType).Some? {
      BumpCommute(items, WipId(st.currentNpcType).value, 1, WipId(x.currentNpcType).value, -1);
    }
  }

  lemma {:induction false} UndoStockCommutes(items: seq<WarehouseItem>, st: SubTask, subs: seq<SubTask>)
    requires st.currentNpcType != F
    requires forall i :: 0 <= i < |subs| ==> subs[i].currentNpcType != F
    ensures UndoStock(CommitStockStep(items, st), subs) == CommitStockStep(UndoStock(items, subs), st)
  {
    if subs != [] {
      var n := |subs| - 1;
      UndoStockCommutes(items, st, subs[..n]);
      StepsCommute(UndoStock(items, subs[..n]), st, subs[n]);
    }
  }

  /** Committing and then undoing a batch without F pets leaves every warehouse count as it was. */
  lemma {:induction false} UndoCommitStock(items: seq<WarehouseItem>, subs: seq<SubTask>)
    requires forall i :: 0 <= i < |subs| ==> subs[i].currentNpcType != F
    ensures UndoStock(CommitStock(items, subs), subs) == items
  {
    if subs != [] {
      var n := |subs| - 1;
      var st := subs[n];
      var mid := CommitStock(items, subs[..n]);
      UndoStockCommutes(mid, st, subs[..n]);
      UndoCommitStock(items, subs[..n]);
      CommitStockStepNoF(items, st);
      if st.actionType == HarvestAndStore && WipId(st.currentNpcType).Some? {
        BumpBack(items, WipId(st.currentNpcType).value, 1);
      }
    }
  }

  /** How many subtasks harvest an F pet. */
  function FCount(subs: seq<SubTask>): nat {
    if subs == [] then 0
    else FCount(subs[..|subs| - 1]) + (if subs[|subs| - 1].currentNpcType == F then 1 else 0)
  }

  lemma BumpOther(items: seq<WarehouseItem>, a: string, x: int, b: string)
    requires a != b
    ensures StockOf(Bump(items, a, x), b) == StockOf(items, b)
  {
    FindItemIds(items, Bump(items, a, x), b);
  }

  lemma BumpSame(items: seq<WarehouseItem>, a: string, x: int)
    requires FindItem(items, a).Some?
    ensures StockOf(Bump(items, a, x), a) == StockOf(items, a) + x
  {
    FindItemIds(items, Bump(items, a, x), a);
  }

  /**
   * Committing and then undoing one F pet that is harvested and stored does
   * not restore the F stock: commit takes one F pet (while there is one) and
   * stores the harvested one back into the F stock; undo refunds one and has
   * no F entry in its work-in-progress map to take the stored one back.
   */
  lemma FStoreCommitUndo(items: seq<WarehouseItem>, st: SubTask)
    requires FindItem(items, FPetStock).Some?
    requires st.currentNpcType == F && st.actionType == HarvestAndStore
    ensures StockOf(UndoStock(CommitStock(items, [st]), [st]), FPetStock)
            == StockOf(items, FPetStock) + (if StockOf(items, FPetStock) > 0 then 1 else 2)
  {
    assert [st][..0] == [];
    var consumed := ConsumeF(items);
    if StockOf(items, FPetStock) > 0 {
      FindItemIds(items, Bump(items, FPetStock, -1), FPetStock);
      BumpSame(items, FPetStock, -1);
    }
    var c := Bump(consumed, FPetStock, 1);
    assert CommitStock(items, [st]) == c;
    FindItemIds(consumed, c, FPetStock);
    BumpSame(consumed, FPetStock, 1);
    assert UndoStock(c, [st]) == Bump(c, FPetStock, 1);
    BumpSame(c, FPetStock, 1);
  }

  /** Undo gives back one F pet per F subtask, whether or not commit could take one. */
  lemma {:induction false} UndoRefundsF(items: seq<WarehouseItem>, subs: seq<SubTask>)
    requires FindItem(items, FPetStock).Some?
    ensures FindItem(UndoStock(items, subs), FPetStock).Some?
    ensures StockOf(UndoStock(items, subs), FPetStock) == StockOf(items, FPetStock) + FCount(subs)
  {
    if subs != [] {
      var n := |subs| - 1;
      var st := subs[n];
      var prev := UndoStock(items, subs[..n]);
      assert FCount(subs) == FCount(subs[..n]) + (if st.currentNpcType == F then 1 else 0);
      UndoRefundsF(items, subs[..n]);
      assert UndoStock(items, subs) == UndoStockStep(prev, st);
      UndoStepRefundsF(prev, st);
    }
  }

  /** One subtask's undo gives back one F pet when it harvested an F pet. */
  lemma UndoStepRefundsF(prev: seq<WarehouseItem>, st: SubTask)
    requires FindItem(prev, FPetStock).Some?
    ensures FindItem(UndoStockStep(prev, st), FPetStock).Some?
    ensures StockOf(UndoStockStep(prev, st), FPetStock)
            == StockOf(prev, FPetStock) + (if st.currentNpcType == F then 1 else 0)
  {
    var refunded := if st.currentNpcType == F then Bump(prev, FPetStock, 1) else prev;
    if st.currentNpcType == F {
      BumpSame(prev, FPetStock, 1);
    }
    FindItemIds(prev, refunded, FPetStock);
    if st.actionType == HarvestAndStore && WipId(st.currentNpcType).Some? {
      BumpOther(refunded, WipId(st.currentNpcType).value, -1, FPetStock);
      FindItemIds(refunded, Bump(refunded, WipId(st.currentNpcType).value, -1), FPetStock);
    }
  }

  // ---------------------------------------------------------------------------
  // Undo of a restart into its own slot
  // ---------------------------------------------------------------------------

  /** A pet that finished a second before `clock`, as undo leaves a harvested slot. */
  predicate Finished(p: PetSlot, clock: int) {
    p.name.Some? && p.startTime == Some(clock - 1000000) && p.finishTime == Some(clock - 1000)
  }

  /**
   * As written, undo restores a source slot and then clears the target of the
   * same subtask; for a restart into its own slot (no target given) the
   * restored pet is wiped and the slot is left empty.
   */
  lemma UndoAsWrittenEmptiesOwnSlot(clock: int)
    ensures var npc := NpcSlot(Some(E), None, Some(Days15), None, None);
            var house := House(1, Nursery, "", "", 0, None, [Slot(npc, EmptyPet)]);
            var st := SubTask(0, E, D, HarvestAndRestart, None, None, None);
            var task := BatchTask("b1", 1, "", "", "", true, [st], []);
            && SlotAt(UndoSlotsAsWritten([house], task, clock, [st]), 1, 0) == Some(Slot(npc, EmptyPet))
            && !Finished(EmptyPet, clock)
  {
    var npc := NpcSlot(Some(E), None, Some(Days15), None, None);
    var house := House(1, Nursery, "", "", 0, None, [Slot(npc, EmptyPet)]);
    var st := SubTask(0, E, D, HarvestAndRestart, None, None, None);
    var task := BatchTask("b1", 1, "", "", "", true, [st], []);
    assert [st][..0] == [];
    var restored := SetPet([house], 1, 0, FinishedPet(E, clock));
    SlotAtSetPet([house], 1, 0, FinishedPet(E, clock), 1, 0);
    SlotAtSetPet(restored, 1, 0, EmptyPet, 1, 0);
  }

  lemma {:induction false} ClearTargetsShape(houses: seq<House>, task: BatchTask, subs: seq<SubTask>)
    ensures SameShape(houses, ClearTargets(houses, task, subs))
  {
    if subs != [] {
      var prev := ClearTargets(houses, task, subs[..|subs| - 1]);
      var st := subs[|subs| - 1];
      ClearTargetsShape(houses, task, subs[..|subs| - 1]);
      SetPetShape(prev, TargetHouse(task, st), TargetIndex(st), EmptyPet);
    }
  }

  lemma {:induction false} RestoreSourcesFinished(houses: seq<House>, task: BatchTask, clock: int, subs: seq<SubTask>)
    requires forall i :: 0 <= i < |subs| ==> SlotAt(houses, task.houseId, subs[i].slotIndex).Some?
    ensures SameShape(houses, RestoreSources(houses, task, clock, subs))
    ensures forall i :: 0 <= i < |subs| ==>
              var s := SlotAt(RestoreSources(houses, task, clock, subs), task.houseId, subs[i].slotIndex);
              s.Some? && Finished(s.value.pet, clock)
  {
    if subs != [] {
      var n := |subs| - 1;
      var st := subs[n];
      var prev := RestoreSources(houses, task, clock, subs[..n]);
      RestoreSourcesFinished(houses, task, clock, subs[..n]);
      SetPetShape(prev, task.houseId, st.slotIndex, FinishedPet(st.currentNpcType, clock));
      FindHouseShape(houses, prev, task.houseId);
      forall i | 0 <= i < |subs| ensures
        var s := SlotAt(RestoreSources(houses, task, clock, subs), task.houseId, subs[i].slotIndex);
        s.Some? && Finished(s.value.pet, clock)
      {
        SlotAtSetPet(prev, task.houseId, st.slotIndex, FinishedPet(st.currentNpcType, clock), task.houseId, subs[i].slotIndex);
        if i < n {
          assert subs[..n][i] == subs[i];
        }
      }
    }
  }

  /**
   * Undo clears the targets first and then restores the sources, so every
   * source slot of the batch ends with a finished pet, ready to harvest again.
   */
  lemma UndoRestoresSources(houses: seq<House>, task: BatchTask, clock: int)
    requires forall i :: 0 <= i < |task.subTasks| ==> SlotAt(houses, task.houseId, task.subTasks[i].slotIndex).Some?
    ensures forall i :: 0 <= i < |task.subTasks| ==>
              var s := SlotAt(UndoSlots(houses, task, clock, task.subTasks), task.houseId, task.subTasks[i].slotIndex);
              s.Some? && Finished(s.value.pet, clock)
  {
    var cleared := ClearTargets(houses, task, task.subTasks);
    ClearTargetsShape(houses, task, task.subTasks);
    FindHouseShape(houses, cleared, task.houseId);
    RestoreSourcesFinished(cleared, task, clock, task.subTasks);
  }
}
