# Flyff Pet Studio production tracker, modelled in Dafny

This project models the production-planning core of Flyff Pet Studio, a tracker for a
pet factory. Houses hold three slots. Each slot has an NPC of rank F, E, D, C, B or A
and raises a pet that is harvested when its timer finishes. A harvested pet is either
upgraded into the next slot, stored in the warehouse, or, from an A slot, collected as
an S pet for sale.

The model covers six parts of the tracker:

- **Briefing planner and projections** (`services/geminiService.ts`), in modules
  `Planner`, `Finance`, `Analytics`, `Calendar` and `Farm`:
  - the next check-in;
  - the due and upcoming task lists, and the rank ladder of the tasks;
  - the theoretical weekly profit (over exact reals) and the actual 7-day cash flow;
  - dashboard alerts and the next action.
- **Batch commit, undo and history pruning** (`components/DailyBriefing.tsx`):
  - `BatchSteps` defines the specification folds;
  - class `DailyBriefing.Factory` holds houses, warehouse, collected pets and the task log, and its `Commit`, `Undo` and `PruneSession` methods are proved equal to those folds;
  - the stock check and the harvest counts of the task cards are also modelled.
- **App state reducers** (`App.tsx`), in modules `AppReducers`, `ServiceBlocks` and `Ledger`:
  - service-block assignment, as loops over a division map;
  - updating, adding and removing houses;
  - the collected-pet ledger, selling and perfection attempts;
  - the simulated clock.
- **Save-state migration** (`services/stateMigration.ts`), in module `Migration`:
  - a JSON datatype;
  - `deepMerge`, a recursive method with a key loop;
  - `migrateState`.
- **Virtual-house selection** (`components/VirtualHouseModal.tsx`), in module `VirtualHouses`:
  - the filter for available SOLO slots;
  - the form state, as class `HouseBuilder`.
- **Pet sales** (`components/PetSales.tsx`), in module `PetSales`:
  - the available quantity, as a method with find loops;
  - the sell guard and the form that clears its input;
  - the price editor.

Helper modules:

- `Wrappers`: the `Option` type.
- `Types`: records and constants from `types.ts` and `constants.ts`.
- `Text`: trimming, JavaScript `parseInt` and decimal rendering.
- `Sorting`: a stable insertion sort, proved sorted, a permutation and stable.
- `Lists`: a generic filter.

Modelling conventions:

- Time is an integer count of milliseconds.
- The current time `now` is always a parameter.
- A calendar check-in is the day start plus `hour * 3600000`, with fixed 86 400 000 ms days.
- NPC expirations are optional integer timestamps.
- A JavaScript value that may be `null` or missing is an `Option`, and JavaScript truthiness is written out. For example, a `finishTime` of 0 counts as no timer.

In places the source files disagree with each other. The model follows each function's own body:

- The planner produces flat per-slot tasks (`Planner.PlannedTask`), while commit and undo consume batch tasks with sub-tasks (`BatchSteps.BatchTask`). The model has both datatypes, one for each function.
- Commit stores an F pet that is harvested and stored into the F stock (`DailyBriefing.tsx:367-373`), but undo's map of stocks to take back has no F entry (`DailyBriefing.tsx:454-459`). Commit followed by undo of such a sub-task therefore leaves one more F pet in stock than before; `BatchSteps.FStoreCommitUndo` states the exact difference. The model keeps this behaviour.
- The undo snapshot records `previousPetType`, as `DailyBriefing.tsx` writes it. It does not use the field names that `types.ts` declares.
- `DailyBriefing.tsx:274` calls `generateDailyBriefing` with five arguments, but `geminiService.ts:99` declares four: `(houses, cycleTimes, checkinTimes, currentTime?)`. So `virtualHouses` binds to `currentTime`, and the fifth argument, `now`, is dropped. The planner is modelled from its own parameters, with the time as a parameter; see the `Planner` line under "## Left out".

One property of selling: the quantity offered for sale includes warehouse work-in-progress and F stock, but `handleSellPets` removes the pets only from the collected-pet ledger. The lemma `PetSales.SaleLeavesWarehouseStock` states exactly how much availability drops after a sale.

## Model

| member | source | states |
|---|---|---|
| Finance.SumNpcExpenses | services/geminiService.ts:33-42 | the running total of the loop equals the NPC-expense sum over active slots |
| Finance.WeeklyCostCases | services/geminiService.ts:35-42 | a 7-day NPC costs its 7-day price per week, a 15-day NPC 7/15 of its 15-day price, and a non-positive cost or a missing duration adds nothing |
| Finance.NpcExpensesNonNegative | services/geminiService.ts:38-41 | the weekly NPC expense is never negative, because slots with cost ≤ 0 are skipped |
| Finance.CalculateProjectedProfit | services/geminiService.ts:5-50 | the method's result is the theoretical projection, with the expense loop's total as its NPC expense |
| Finance.TheoreticalZero | services/geminiService.ts:11-14 | with no slot that has both an NPC type and a duration, or with no check-in times, every figure is zero |
| Finance.TheoreticalFigures | services/geminiService.ts:16-31 | S-pet count = active slots × 168 / (sum of cycle times + (24 / check-ins) / 2), and gross = count × S price |
| Finance.TheoreticalPerfection | services/geminiService.ts:44-47 | perfection expense equals gross revenue iff some house is Champion, else 0; net = gross − NPC − perfection |
| Finance.ProjectionPositive | services/geminiService.ts:25-29 | the effective cycle time is positive, so the division is defined and the S-pet count is positive |
| Finance.CalculateActualWeeklyFinances | services/geminiService.ts:53-96 | the nested loops' totals equal the S-pet count, revenue and renewal cost over the next 7 days; perfection is 0 and net = gross − NPC |
| Finance.HouseWeek | services/geminiService.ts:66-86 | the per-house loop adds exactly that house's S pets, revenue and renewals |
| Finance.RevenueIsSPetsTimesPrice | services/geminiService.ts:69-73 | revenue over the week = S pets counted × S price |
| Finance.SPetCountZero | services/geminiService.ts:69-73 | the count is 0 iff no slot has an A NPC whose finish falls in (now, now + 7 days] |
| Finance.ActualSPetsExact | services/geminiService.ts:66-74 | some S pet is counted iff some house slot has an A NPC finishing within the week |
| Analytics.GenerateAlerts | services/geminiService.ts:218-235 | the alert list is the expiry alerts over all slots in house order, followed by the stock alerts |
| Analytics.HouseExpiryAlerts | services/geminiService.ts:220-227 | the inner loop pushes exactly the expiry alerts of one house's slots |
| Analytics.ExpiryAlertsExact | services/geminiService.ts:219-228 | an expiry alert is issued for a slot iff it has an NPC type and its expiration is in (now, now + 24 h] |
| Analytics.ExpiryAlertForHouse | services/geminiService.ts:219-228 | the alert for type t in house id exists iff some slot of such a house with that type expires within the day |
| Analytics.StockAlertsExact | services/geminiService.ts:231-235 | a stock alert names an item iff some item with that name is below its safety level, and the stock alerts are only of that kind |
| Analytics.HouseScan | services/geminiService.ts:242-249 | the per-house scan updates the pending next finish exactly as the specification fold |
| Analytics.FindNextAction | services/geminiService.ts:237-257 | the next action is "no upcoming actions" iff no timer is in the future, otherwise the earliest future finish and its house's service block |
| Analytics.ScanFindsEarliest | services/geminiService.ts:241-250 | the scan keeps the least future finish time, and the first slot reaching it, in house and slot order |
| Analytics.GenerateDashboardAnalytics | services/geminiService.ts:207-263 | the dashboard bundles the alerts, the next action, the theoretical projection and the 7-day figures as specified |
| Calendar.SortHours | services/geminiService.ts:102 | the sorted check-in hours are ascending and a permutation of the input |
| Calendar.SortedHoursValid | services/geminiService.ts:102 | sorting keeps hours within 0..23 |
| Calendar.CheckinsContains | services/geminiService.ts:105-109 | every day offset and hour yields a candidate check-in |
| Calendar.DayCheckinsAscending | services/geminiService.ts:105-109 | one day's candidates are ascending and lie within that day |
| Calendar.CheckinsAscending | services/geminiService.ts:105-109 | candidates built over increasing day offsets are ascending, and none is before the first day's start |
| Calendar.FirstAbove | services/geminiService.ts:112 | `find(t > now)` returns a candidate above now, and none is found iff every candidate is ≤ now |
| Calendar.FirstAboveIsLeast | services/geminiService.ts:112 | on ascending candidates the one found is the least above now |
| Calendar.FirstBelow | App.tsx:426-428 | `find(t < now)` returns a candidate below now, and none iff every candidate is ≥ now |
| Calendar.FirstBelowIsGreatest | App.tsx:426-428 | on descending candidates the one found is the greatest below now |
| Calendar.SortDescending | components/DailyBriefing.tsx:290 | the candidates sorted newest first are descending and a permutation |
| Calendar.SortAscending | App.tsx:418-419 | the candidates sorted oldest first are ascending and a permutation |
| Calendar.CollectCheckins | App.tsx:409-415 | the push loop over offsets and hours builds exactly the candidate list |
| Calendar.AppendDay | App.tsx:411-414 | the inner loop appends one day's check-ins in hour order |
| Farm.HouseViews | services/geminiService.ts:120-122 | each slot of a house is paired with its house id, service block and index |
| Farm.FlattenMembers | services/geminiService.ts:66-67 | the flattened slot list holds exactly the (house, slot) pairs of the input |
| Planner.TomorrowIsAfterNow | services/geminiService.ts:105-112 | tomorrow's check-in at any hour is after now, so the search succeeds with any hour |
| Planner.NextCheckinIsEarliest | services/geminiService.ts:102-112 | with valid hours, the next check-in is a candidate after now and no later than any other such candidate |
| Planner.NextCheckinWithoutHours | services/geminiService.ts:113-118 | with no hours, the fallback is 9 o'clock two days ahead |
| Planner.FinishedInHouse | services/geminiService.ts:120-124 | the finished slots of a house are exactly its slots with a truthy finish time |
| Planner.AllFinished | services/geminiService.ts:120-124 | the finished slots of all houses are exactly those with a truthy finish time, each tagged with its house |
| Planner.MapSlots | services/geminiService.ts:133-191 | mapping never yields more tasks than slots |
| Planner.MapSlotRanks | services/geminiService.ts:133-189 | a slot yields a task iff it has an NPC type; A → S, INDEPENDENT → same type with forced store, otherwise the next rank |
| Planner.MapSlotsMembers | services/geminiService.ts:133-191 | every task comes from a slot, and every slot with an NPC type yields its task |
| Planner.DueAndUpcomingDisjoint | services/geminiService.ts:126-128 | due tasks finish at or before now, upcoming ones strictly between now and the next check-in, and no task is in both |
| Planner.EveryReadySlotHasTask | services/geminiService.ts:120-194 | each slot with a timer and an NPC type appears among due or upcoming tasks, as its finish time dictates |
| Planner.DueTasksOrdered | services/geminiService.ts:196-201 | due tasks are a permutation of the mapped tasks, ordered by next rank highest first, with ties kept in input order |
| Sorting.SortBy | App.tsx:45 | the sort returns a permutation in ascending key order |
| Sorting.SortIsStable | services/geminiService.ts:197-201 | elements with equal keys keep their relative order |
| BatchSteps.SlotAt | components/DailyBriefing.tsx:353-354 | a slot is addressed iff the house exists and the index is within its slots |
| BatchSteps.Snapshots | components/DailyBriefing.tsx:341-350 | one snapshot per sub-task, in order, recording house, slot and previous type |
| BatchSteps.FindLog | components/DailyBriefing.tsx:420 | the first log entry whose task id matches, or none iff no entry matches |
| BatchSteps.CommitSlotsStepEffect | components/DailyBriefing.tsx:352-399 | a sub-task empties its source; a restart with a cycle time starts the next pet at the target and sets the expiration only when absent and a duration is set; no other slot changes |
| BatchSteps.CommitSlotsStepAt | components/DailyBriefing.tsx:352-399 | at any slot but a restarted target, a sub-task empties its own source and changes nothing else |
| BatchSteps.CommitSlotsStepTarget | components/DailyBriefing.tsx:377-399 | a restart puts the started next-rank pet in the target and sets the NPC expiration only when it was absent and a duration is set |
| BatchSteps.BumpCommute | components/DailyBriefing.tsx:357-375 | two stock adjustments by id commute |
| BatchSteps.CommitClearsSources | components/DailyBriefing.tsx:344-356 | after commit every sub-task's source slot is empty, when no restart targets a source |
| BatchSteps.CommitStockNonNegative | components/DailyBriefing.tsx:357-361 | commit never drives a stock count negative, because F stock is taken only while positive |
| BatchSteps.CommitLedgerCounts | components/DailyBriefing.tsx:364-365 | commit adds exactly one collected S per COLLECT_S sub-task and leaves other types alone |
| BatchSteps.UndoLedgerCounts | components/DailyBriefing.tsx:450-451 | undo removes one collected S per COLLECT_S sub-task and leaves other types alone |
| BatchSteps.UndoCommitLedger | components/DailyBriefing.tsx:450-451 | undoing a commit restores every collected quantity |
| BatchSteps.UndoCommitStock | components/DailyBriefing.tsx:452-463 | commit then undo of sub-tasks without F pets restores the warehouse exactly |
| BatchSteps.UndoRefundsF | components/DailyBriefing.tsx:445-448 | undo refunds one F stock per F sub-task, even if commit could not take one |
| BatchSteps.FStoreCommitUndo | components/DailyBriefing.tsx:357-377 | committing and undoing one F pet that is harvested and stored leaves the F stock one higher (two when it was empty): commit stores it into the F stock, and undo's map has no F entry to take it back |
| BatchSteps.UndoAsWrittenEmptiesOwnSlot | components/DailyBriefing.tsx:433-471 | undo in the written order leaves an in-place restart's slot empty instead of finished |
| BatchSteps.RestoreSourcesFinished | components/DailyBriefing.tsx:434-442 | restoring sources leaves every source slot with a finished pet |
| BatchSteps.UndoRestoresSources | components/DailyBriefing.tsx:433-471 | undo resets every source slot to its finished state |
| DailyBriefing.SessionCandidates | components/DailyBriefing.tsx:283-290 | the session candidates (two days back to today) are sorted newest first |
| DailyBriefing.FirstAtOrBelow | components/DailyBriefing.tsx:291 | the session start is the first candidate at or before now, none iff all are later |
| DailyBriefing.NewerThan | components/DailyBriefing.tsx:299 | the recent logs are exactly the entries newer than the cutoff |
| DailyBriefing.Tasks | components/DailyBriefing.tsx:304 | the history lists each entry's task in order |
| DailyBriefing.SessionStartExists | components/DailyBriefing.tsx:284-291 | with valid check-in hours a session start at or before now always exists |
| DailyBriefing.CutoffIsPreviousSession | components/DailyBriefing.tsx:291-298 | the cutoff is the candidate after the session start, the previous session, or 0 when there is none |
| DailyBriefing.SessionCutoff | components/DailyBriefing.tsx:283-298 | sorting the hours, collecting and sorting the candidates, then searching them gives the previous-session cutoff of the session candidates |
| DailyBriefing.HistoryNewestFirst | components/DailyBriefing.tsx:303 | history is a permutation of the recent logs, newest first |
| DailyBriefing.FStockRequirement | components/DailyBriefing.tsx:47 | the first required item with the F-stock id, or none iff there is none |
| DailyBriefing.EnoughStockTakesOnePerF | components/DailyBriefing.tsx:358-361 | with enough F stock, commit takes exactly one per F sub-task and adds back one per F store |
| DailyBriefing.HasStockTakesOnePerF | components/DailyBriefing.tsx:47-49 | when the card shows enough stock for the F count, commit's F-stock change is exact |
| DailyBriefing.CountHarvest | components/DailyBriefing.tsx:41-45 | the count map holds exactly the types present, each with its number of sub-tasks |
| DailyBriefing.TypeCountsTotal | components/DailyBriefing.tsx:43-45 | the per-type counts add up to the number of sub-tasks |
| DailyBriefing.RestartsListedOnce | components/DailyBriefing.tsx:84-92 | a restart is listed under the own house iff its target is the own house, and under cross-house iff not |
| DailyBriefing.PlacementsMatchCommit | components/DailyBriefing.tsx:84-92 | a restart listed under the own house gets its next pet in the task's house, and one listed under another house gets it in that house, at the slot commit targets (as commit does at lines 377-392) |
| DailyBriefing.Factory.constructor | components/DailyBriefing.tsx:337-338 | the factory starts from the given houses, warehouse, ledger and log |
| DailyBriefing.Factory.Commit | components/DailyBriefing.tsx:332-416 | houses, warehouse and ledger become the commit folds over the sub-tasks, and one log entry is prepended |
| DailyBriefing.Factory.Undo | components/DailyBriefing.tsx:418-481 | an unknown task id changes nothing; otherwise the warehouse and ledger become the undo folds, the houses become the corrected slot fold `UndoSlots` (restart targets cleared, then sources restored), and exactly that log entry is removed |
| DailyBriefing.Factory.PruneSession | components/DailyBriefing.tsx:280-307 | history is empty without check-ins or logs; otherwise it is the recent entries newest first, and the log is replaced only when entries were dropped |
| Ledger.AddTo | App.tsx:345-346 | every entry of the type gets the quantity added, the others are unchanged |
| Ledger.PruneMembers | App.tsx:347 | pruning keeps exactly the entries with a positive quantity |
| Ledger.PruneDistinct | App.tsx:345-347 | updating and pruning keeps one entry per type |
| Ledger.PruneQuantities | App.tsx:345-347 | an existing type's quantity becomes max(0, old + q), other types are unchanged |
| Ledger.UpdateCollectedPetsSpec | App.tsx:340-355 | the ledger stays one positive entry per type, the type's quantity becomes max(0, old + q), other types are unchanged |
| Ledger.AppendedFound | App.tsx:348-349 | an absent type appended is found at the end, and other lookups are unchanged |
| Ledger.UpdateAbsentNonPositive | App.tsx:350-351 | an absent type with a non-positive quantity leaves the ledger unchanged |
| ServiceBlocks.AssignServiceBlocks | App.tsx:19-46 | the method's grouping and push loops produce exactly the assigned-blocks specification |
| ServiceBlocks.GroupByDivision | App.tsx:20-26 | the division map holds, for each division in first-seen order, its houses in input order |
| ServiceBlocks.PushGroup | App.tsx:31-42 | one division's houses are appended with their block labels |
| ServiceBlocks.PushChampion | App.tsx:31-33 | every Champion house is appended, in order, with block "Champion" |
| ServiceBlocks.PushLettered | App.tsx:36-42 | every house of another division is appended, in order, with the block letter its index gives |
| ServiceBlocks.LabelGroup | App.tsx:36-42 | labelling keeps the group's length |
| ServiceBlocks.RelabelledBlock | App.tsx:29-43 | the i-th house of a division with n houses is labelled Champion, or with letter i mod min(3, n) |
| ServiceBlocks.Relabelled | App.tsx:32-41 | relabelling changes only the service block of each house |
| ServiceBlocks.DivisionOrderComplete | App.tsx:21-29 | every house's division is grouped, and each division once |
| ServiceBlocks.GroupedPerm | App.tsx:28-43 | the grouped output is a permutation of the relabelled houses |
| ServiceBlocks.AssignedBlocksSpec | App.tsx:45 | the result is a permutation of the relabelled houses, sorted by id ascending |
| ServiceBlocks.AssignedFromInput | App.tsx:28-45 | every output house is an input house with only its service block changed |
| ServiceBlocks.AssignedKeepsInput | App.tsx:28-45 | every input house appears in the output with only its service block changed |
| ServiceBlocks.BlocksCycle | App.tsx:36-41 | block letters repeat with period 3 and are A, B or C |
| AppReducers.ReplaceById | App.tsx:242 | every house with the id is replaced, the others are kept in place |
| AppReducers.UpdateHouseSpec | App.tsx:240-249 | blocks are reassigned iff the first house with the id changes division; otherwise only houses with the id are replaced |
| AppReducers.UpdateUnknownHouse | App.tsx:242-247 | updating an id no house has changes nothing |
| AppReducers.SameDivisionUpdate | App.tsx:242-247 | with distinct ids, an update that keeps the division is a plain replacement |
| AppReducers.MaxId | App.tsx:254 | the largest id is an upper bound of all ids and attained when there are houses |
| AppReducers.AddHousesFromTemplate | App.tsx:251-314 | the loop's houses, added to the old ones, are given service blocks |
| AppReducers.NewHousesSpec | App.tsx:256-310 | new houses get ids max+1..max+n, the template's division and types, duration 15 iff a type is set, no expiration, an empty pet and 0 attempts |
| AppReducers.AddedIdsFresh | App.tsx:254-257 | every new id is larger than every existing id |
| AppReducers.AddHousesSpec | App.tsx:313 | the result has old + quantity houses, is a permutation of them relabelled, and is sorted by id |
| AppReducers.RemoveHouseDropsId | App.tsx:317-319 | no house with the removed id remains |
| AppReducers.RemoveHouseKeepsOthers | App.tsx:318 | every other house remains, with only its service block possibly changed |
| AppReducers.SellPetsSpec | App.tsx:357-370 | cash grows by quantity × price, one record with total = quantity × unit price is prepended, and the ledger loses the pets |
| AppReducers.FindChampion | App.tsx:373 | the first Champion house, or none iff there is no Champion house |
| AppReducers.PerfectionAttemptSpec | App.tsx:372-383 | with a Champion house and an S pet, one S is used and that house's attempts go up by one; otherwise nothing changes |
| AppReducers.TimeTravelLaws | App.tsx:389-401 | a week is 7 days, travels add up and cancel out, no simulated time stays none, and the shift is amount × days × 86 400 000 |
| AppReducers.SkipToCheckin | App.tsx:403-434 | the method's candidate loops and search give the skip specification |
| AppReducers.SkipForwardIsNext | App.tsx:417-424 | skipping forward moves to the least candidate after now, or stays when there is none |
| AppReducers.SkipBackwardIsPrevious | App.tsx:425-433 | skipping backward moves to the greatest candidate before now, or stays when there is none |
| AppReducers.SkipAlwaysMoves | App.tsx:403-434 | with valid hours, forward always lands after now and backward before now |
| Migration.IsObjectExactlyObjects | services/stateMigration.ts:6-8 | isObject holds exactly for plain objects, not null or arrays |
| Migration.MergeObjects | services/stateMigration.ts:17-35 | the key loop with recursive calls computes the deep-merge specification |
| Migration.MergeNonObjects | services/stateMigration.ts:18-20 | if either side is not a plain object, the result is a shallow copy of the target |
| Migration.MergeObjectsSpec | services/stateMigration.ts:20-31 | keys are the union; target-only keys are kept; non-object or target-missing source values are copied; shared objects merge recursively |
| Migration.MergeSelf | services/stateMigration.ts:17-35 | merging an object with itself gives it back |
| Migration.MergeEmpty | services/stateMigration.ts:17-35 | an empty object is a unit of the merge on either side |
| Migration.MergeTwice | services/stateMigration.ts:17-35 | merging the same source again changes nothing |
| Migration.MigrateHouses | services/stateMigration.ts:59-65 | the house mapping succeeds iff no house is null, and migrates each house in place |
| Migration.MigrateState | services/stateMigration.ts:45-69 | the method's assignments give the migration specification |
| Migration.MigrateHouseSpec | services/stateMigration.ts:60-64 | a migrated house keeps its fields, has a truthy label and production mode, and keeps truthy existing ones |
| Migration.MigrateHouseTwice | services/stateMigration.ts:60-64 | migrating a house twice is the same as once |
| Migration.MigrateSpec | services/stateMigration.ts:47-65 | a migrated state has every default key, a truthy task log, and every house labelled with a production mode |
| Migration.MergedKeys | services/stateMigration.ts:51 | the merged state keeps every key of the initial state |
| Migration.DefaultsSpec | services/stateMigration.ts:53-65 | the defaults keep every key, leave a truthy task log, and give every migrated house a truthy label and production mode |
| Migration.HousesKept | services/stateMigration.ts:59 | falsy houses are left as they are, and a falsy value is never an array |
| Migration.DefaultsIdle | services/stateMigration.ts:53-65 | a state with a truthy task log and an empty house array passes the defaults unchanged |
| Migration.DefaultsFail | services/stateMigration.ts:59-65 | the defaults fail iff the houses are truthy and either not an array or holding null |
| Migration.MigrateNonObject | services/stateMigration.ts:51 | a loaded value that is not an object migrates to the default state |
| Migration.MigrateFails | services/stateMigration.ts:59-60 | migration fails (the source throws) iff the merged houses are truthy and not an array, or contain null |
| VirtualHouses.HouseChoices | components/VirtualHouseModal.tsx:24-29 | each slot of a house becomes a choice with its house id, index, slot and label |
| VirtualHouses.AllChoicesMembers | components/VirtualHouseModal.tsx:23-29 | the choices are exactly the (house, slot) pairs |
| VirtualHouses.AvailableSoloSlotsExactly | components/VirtualHouseModal.tsx:23-34 | a choice is available iff it is a slot with an NPC type, SOLO mode and no virtual-house id |
| VirtualHouses.Unselect | components/VirtualHouseModal.tsx:39 | unselecting keeps exactly the other selections |
| VirtualHouses.UnselectKeeps | components/VirtualHouseModal.tsx:39 | unselecting keeps the selection free of duplicates |
| VirtualHouses.ToggledSpec | components/VirtualHouseModal.tsx:36-45 | toggling removes a selected slot, appends a new one only below 3, keeps at most 3 and no duplicates |
| VirtualHouses.UnselectAbsent | components/VirtualHouseModal.tsx:39 | unselecting an unselected slot changes nothing |
| VirtualHouses.UnselectSnoc | components/VirtualHouseModal.tsx:39-42 | unselecting the slot just appended restores the selection |
| VirtualHouses.ToggleTwice | components/VirtualHouseModal.tsx:36-45 | toggling a new slot twice restores the selection |
| VirtualHouses.WithoutHouse | components/VirtualHouseModal.tsx:70 | deleting never lengthens the list |
| VirtualHouses.WithoutHouseMembers | components/VirtualHouseModal.tsx:70 | deleting keeps exactly the virtual houses with another id |
| VirtualHouses.WithoutUnknownHouse | components/VirtualHouseModal.tsx:70 | deleting an unknown id changes nothing |
| VirtualHouses.DeleteKeepsOrder | components/VirtualHouseModal.tsx:68-71 | deleting one house leaves the others in their order |
| VirtualHouses.HouseBuilder.constructor | components/VirtualHouseModal.tsx:14-15 | the form starts with an empty name and no selection |
| VirtualHouses.HouseBuilder.SetName | components/VirtualHouseModal.tsx:14 | typing changes only the name |
| VirtualHouses.HouseBuilder.ToggleSlot | components/VirtualHouseModal.tsx:36-45 | the selection becomes the toggled selection, and nothing else changes |
| VirtualHouses.HouseBuilder.Create | components/VirtualHouseModal.tsx:47-66 | a blank name or a selection of other than 3 changes nothing; otherwise one house with the trimmed name and the slots in order is appended and the form resets |
| VirtualHouses.HouseBuilder.Delete | components/VirtualHouseModal.tsx:68-71 | the list loses the houses with that id, and the form is untouched |
| VirtualHouses.CreatedHouseShape | components/VirtualHouseModal.tsx:48-61 | a created house has a non-blank trimmed name and three distinct slots |
| Text.ParseInt | components/PetSales.tsx:23 | parseInt yields NaN iff no digit follows the leading JavaScript white space (including line terminators and the Unicode space separators) and the sign |
| Text.Trim | components/VirtualHouseModal.tsx:48 | the result is the slice of the input between leading and trailing JavaScript white space (tab, vertical tab, form feed, no-break and byte-order-mark spaces, the Unicode space separators and the line terminators), and it neither starts nor ends with such a character |
| Text.SkipSpaces | components/PetSales.tsx:23 | the first position at or after k that is not JavaScript white space or a line terminator; everything skipped is one |
| Text.SkipSpacesBack | components/VirtualHouseModal.tsx:48 | the end of the text before the trailing JavaScript white space and line terminators; everything skipped is one |
| Text.IntToStringParses | components/PetSales.tsx:20-23 | parsing a rendered integer gives it back |
| PetSales.FindCollectedPet | components/PetSales.tsx:60 | the search loop returns the first ledger entry of the type |
| PetSales.FindWarehouseItem | components/PetSales.tsx:70 | the search loop returns the first warehouse item with the id |
| PetSales.GetAvailableQuantity | components/PetSales.tsx:57-80 | the running total equals collected + matching work-in-progress stock + (F only) F stock, with missing entries counting 0 |
| PetSales.AvailableOfS | components/PetSales.tsx:64-72 | S has no work in progress, so its availability is its collected quantity |
| PetSales.AvailableOfNothing | components/PetSales.tsx:57-80 | with no ledger and no warehouse nothing is available |
| PetSales.AvailableIgnoresFStock | components/PetSales.tsx:75-78 | the F stock counts only for F pets |
| PetSales.AvailableNonNegative | components/PetSales.tsx:57-80 | availability is at least the collected quantity when stocks are non-negative |
| PetSales.SaleLeavesWarehouseStock | App.tsx:357-358 | after a sale availability drops by the part the ledger covered, not by the quantity sold |
| PetSales.SellDecisionSpec | components/PetSales.tsx:82-91 | a sale is issued iff the typed quantity parses, 0 < quantity ≤ available and price > 0, and it carries that quantity and price |
| PetSales.EmptyInputRefused | components/PetSales.tsx:83 | an empty or missing input reads as 0 and is refused |
| PetSales.UnparseableRefused | components/PetSales.tsx:83-85 | input that is not a number is refused |
| PetSales.UnpricedRefused | components/PetSales.tsx:84-85 | a missing or non-positive price refuses every sale |
| PetSales.ClearedInputRefused | components/PetSales.tsx:86-87 | after a sale clears the input, selling again is refused |
| PetSales.SalesForm.constructor | components/PetSales.tsx:54 | the form starts with no quantities |
| PetSales.SalesForm.SetQuantity | components/PetSales.tsx:155 | typing sets only that type's input |
| PetSales.SalesForm.HandleSell | components/PetSales.tsx:82-91 | the sale passed on is the sell decision; a sale clears that type's input, a refusal leaves every input |
| PetSales.SavePriceSpec | components/PetSales.tsx:22-28 | text that does not parse changes nothing; a number replaces that one field and no other |
| PetSales.SaveUneditedKeepsPrices | components/PetSales.tsx:105-121 | saving an editor's starting text leaves the configuration unchanged |
| PetSales.PriceEditor.constructor | components/PetSales.tsx:19-20 | the editor starts closed, with the value's decimal text |
| PetSales.PriceEditor.StartEditing | components/PetSales.tsx:47 | clicking the value opens the editor and keeps the text |
| PetSales.PriceEditor.Type | components/PetSales.tsx:38 | typing replaces the text |
| PetSales.PriceEditor.HandleSave | components/PetSales.tsx:22-28 | the value saved is the parsed text when it parses, and editing always ends |

## Left out

- Rendering, JSX, icons and labels, and the `toLocaleString` and `toLocaleTimeString` formatting of alert and next-action times. Alerts are a datatype; their rendered text is a plain function.
- Local-time calendar rules, DST and time zones: days are a fixed 86 400 000 ms from midnight UTC.
- ISO-8601 expiration strings: expirations are integer timestamps.
- Floating-point rounding: the theoretical projection uses exact reals, and integer totals are unbounded.
- Wall-clock reads (`Date.now()`, `new Date()`) are parameters.
  - `calculateActualWeeklyFinances`, `calculateBriefing` and `generateDailyBriefing` (`geminiService.ts:100`, for a falsy `currentTime`) fall back to the wall clock when the given time is 0, null or missing. Here the time passed in is always used.
  - Undo's "finished" timestamps are computed from a separate `clock` parameter.
- `crypto.randomUUID`: record and virtual-house ids are parameters.
- `alert` and `window.confirm`: a refused action returns `None` or leaves the state unchanged. A delete is modelled as confirmed.
- React state plumbing: each `setState` is an assignment to a field or a returned value.
  - `onUpdateCollectedPets` during commit and undo is applied to the factory's own ledger.
  - The price editor's seeded text is not re-synchronised when the value shown changes.
- The JavaScript `in` operator also sees prototype keys. The migration treats only the object's own keys as present.
- JSON numbers are integers in the migration's value type.
- The order in which `Object.keys` visits a division map is first-insertion order for the string keys used. The model groups divisions in first-seen order.
- `cycleTimes` is passed to `generateDailyBriefing` but never used, so the planner does not take it.
- Planner: the time at which `calculateBriefing` runs the planner is not modelled. Because of the argument mismatch above, the source plans at `new Date(virtualHouses)`. For an array, even an empty one, that is an Invalid Date, so no task is due or upcoming and `nextCheckin` is invalid. When `virtualHouses` is undefined, as from `App.tsx:446-450`, the source plans at the wall clock and ignores `simulatedTime`. The model plans at the `now` it is given, which is what the call evidently intends.
- DailyBriefing.Factory: follows the props that `DailyBriefingProps` declares (`DailyBriefing.tsx:8-20`), with a real task log and a working log setter. The app's only call site (`App.tsx:446-450`) passes no `completedTaskLog`, `setCompletedTaskLog` or `virtualHouses`. As wired there, `calculateBriefing` throws at `completedTaskLog.length` (`DailyBriefing.tsx:281`) whenever there are check-in times, commit throws at `setCompletedTaskLog` (`DailyBriefing.tsx:414`) after houses and warehouse have already been set, and undo throws at `completedTaskLog.findIndex` (`DailyBriefing.tsx:420`). The model does not capture these failures.
- Persistence (localStorage), save codes, the clipboard and the files outside the modelled components are not part of this model.
- DailyBriefing.Factory.Commit: requires every sub-task's source slot and, for a restart, its target slot to exist. The source throws a TypeError on a missing source slot. For a restart, a missing target house throws at once (`DailyBriefing.tsx:384`); a missing slot index in an existing house throws only when a cycle time for the next rank is found (`DailyBriefing.tsx:386-389`). Every rank has an entry in the fixed cycle table, so with that table the two agree.
- DailyBriefing.Factory.Undo: requires the same of the logged task; the source throws otherwise. Its houses follow the corrected order `UndoSlots` (every restart target cleared, then every source restored), not the source's per-sub-task restore-then-clear order, which `UndoSlotsAsWritten` models; see "## Findings". The two differ when a restart targets its own source slot, or a later sub-task's target is an earlier sub-task's source.
- BatchSteps.CommitClearsSources: stated only when no restart targets another sub-task's source slot; otherwise the restart refills that slot.
- AppReducers.PerfectionAttemptSpec: stated only for houses with distinct ids, because `updateHouse` replaces every house sharing the Champion house's id.
- AppReducers.SkipAlwaysMoves: stated only for hours within 0..23; other hours can put every candidate on one side of now.
- Planner.NextCheckinIsEarliest: stated only for hours within 0..23, for the same reason.
- DailyBriefing.SessionStartExists: stated only for hours within 0..23.
- Migration.MigrateFails: the source throws on a truthy `houses` that is not an array or that holds `null`. The model returns `None` instead.

## Findings

| source | as written | input that shows it | evidently intended | confidence | as-written member | corrected member |
|---|---|---|---|---|---|---|
| components/DailyBriefing.tsx:433-471 | undo restores each source slot and then, in the same iteration, clears the restart target; for an in-place restart the target is the source itself | one E slot restarted in place (no target house or index) and then undone: the slot ends empty | "This will reset slots to their finished state" (line 327): clear targets first, then restore sources | high, not executed | BatchSteps.UndoAsWrittenEmptiesOwnSlot | BatchSteps.UndoRestoresSources, DailyBriefing.Factory.Undo |
