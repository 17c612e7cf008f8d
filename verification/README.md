# Calendar step state machine

This project models the calendar step of a scheduling form. The user picks how an activity is scheduled: one day (`single`), several discrete days (`multiple`), a recurring pattern (`periodic`), or an always-on pattern (`permanent`). The last two each have the sub-states `noHours` and `withHours`.

The machine holds the active mode and an ordered list of day entries. Each entry has a start and an end timestamp. The machine reacts to one event at a time:

- Transition lists are tried top to bottom, and the first guard that holds wins.
- An event that the current state does not list changes nothing.
- The list actions append a copy of the last entry, remove one index, or edit one field of one entry. An index that addresses no entry leaves the list unchanged.

Modules:

- `Timestamps` (`timestamps.dfy`): a timestamp is a calendar date plus a time of day. The date-fns and `Date` setters the actions call are modelled as field replacements.
- `DayList` (`day_list.dfy`): the `Day` entry and the six list actions (`addNewDay`, `removeDay`, `changeStartDate`, `changeEndDate`, `changeStartHour`, `changeEndHour`). It also holds the positional map they share.
- `CalendarMachine` (`calendar_machine.dfy`): `Mode`, `Event` and `Snapshot`, the four guards, the transition function `Step`, `Run` over a sequence of events, and the reachability invariant.

The reachability invariant says that the list is never empty, and that `multiple` holds at least two days. `Step` preserves it, and `Reachable` proves it for every event sequence that starts from the initial snapshot.

## Model

| member | source | states |
|---|---|---|
| CalendarMachine.Initial | src/machines/calendarMachine.ts:23-35 | the machine starts in `single` with exactly one day; that day's start equals its end, and both are the seed day at 00:00:00 |
| Timestamps.WithDate | src/machines/calendarMachine.ts:121-126 | setting year, month and day from the new date gives exactly the new date and keeps the time of day |
| Timestamps.WithHourMinute | src/machines/calendarMachine.ts:163-166 | setting hours then minutes gives the new hour and minute; date and seconds are kept |
| Timestamps.DateAndTimeCommute | src/machines/calendarMachine.ts:121-166 | a date edit and a time-of-day edit of one timestamp commute |
| Timestamps.LastDateWins | src/machines/calendarMachine.ts:121-126 | of two date edits, the second one decides the result |
| Timestamps.SameDateIsIdentity | src/machines/calendarMachine.ts:121-126 | writing back a timestamp's own date changes nothing |
| DayList.AddNewDay | src/machines/calendarMachine.ts:96-105 | on a non-empty list: length grows by one, existing entries stay in order, and the new last entry equals the old last entry; an empty list is returned as is |
| DayList.RemoveDay | src/machines/calendarMachine.ts:106-113 | an in-range index yields the list with exactly that entry cut out, the others in order; any other index yields the list unchanged |
| DayList.UpdateAt | src/machines/calendarMachine.ts:118-119 | the positional map keeps the length and every entry except the one at `index`, which is the update of the old entry; an out-of-range index changes nothing |
| DayList.ChangeStartDate | src/machines/calendarMachine.ts:114-134 | only the start date of entry `index` changes, and only its calendar date: time of day, end timestamp, other entries and length are kept; an out-of-range index is a no-op |
| DayList.ChangeEndDate | src/machines/calendarMachine.ts:135-155 | the same for the end timestamp |
| DayList.ChangeStartHour | src/machines/calendarMachine.ts:156-178 | only hour and minute of the start of entry `index` change: date, seconds, end, other entries and length are kept; an out-of-range index is a no-op |
| DayList.ChangeEndHour | src/machines/calendarMachine.ts:179-197 | the same for the end timestamp |
| DayList.RemoveDayTakesOneEntry | src/machines/calendarMachine.ts:111 | removing an in-range index shortens the list by one and removes exactly that entry from the multiset of entries |
| DayList.RemoveUndoesAdd | src/machines/calendarMachine.ts:96-113 | removing the appended copy, or the original last entry it was copied from, restores the list |
| DayList.StartDateAndHourCommute | src/machines/calendarMachine.ts:114-178 | editing the start date and the start time of one entry gives the same list in either order |
| DayList.LastEndDateWins | src/machines/calendarMachine.ts:135-155 | of two end-date edits of one entry, the later wins |
| CalendarMachine.ApplyChange | src/machines/calendarMachine.ts:222-233 | each change event runs its own action: CHANGE_START_DATE replaces only the start's date, CHANGE_END_DATE only the end's date, CHANGE_START_HOUR only the start's hour and minute, CHANGE_END_HOUR only the end's; the other entries and the length are kept |
| CalendarMachine.Step | src/machines/calendarMachine.ts:212-338 | an event the state does not list leaves mode and days unchanged; only list events change `days`; the reachability invariant is preserved |
| CalendarMachine.RunPreservesInvariant | src/machines/calendarMachine.ts:212-338 | any sequence of events keeps the invariant |
| CalendarMachine.Reachable | src/machines/calendarMachine.ts:33-35 | from the initial snapshot, after any event sequence, `days` is non-empty and `multiple` holds at least two days |
| CalendarMachine.RemoveGuardsPartition | src/machines/calendarMachine.ts:90-91 | exactly one of `hasLessOrEqualTo2Days` and `hasMoreThan2Days` holds |
| CalendarMachine.RemoveInMultiple | src/machines/calendarMachine.ts:247-257 | REMOVE_DAY in `multiple` tests the length before removal: at most 2 goes to `single`, more than 2 stays in `multiple`, and both remove the addressed entry |
| CalendarMachine.OutOfRangeRemoveFromTwoDays | src/machines/calendarMachine.ts:247-257 | with two days, an out-of-range REMOVE_DAY still moves to `single` and keeps both days |
| CalendarMachine.AddDayFromSingle | src/machines/calendarMachine.ts:218-221 | ADD_DAY in `single` enters `multiple` with the last entry appended again |
| CalendarMachine.ModeChoiceKeepsDays | src/machines/calendarMachine.ts:212-338 | the four mode-choice events never change `days`, and entering `periodic` or `permanent` lands in `noHours` |
| CalendarMachine.RecurringModesIgnoreListEvents | src/machines/calendarMachine.ts:272-338 | ADD_DAY, REMOVE_DAY and the change events leave `periodic` and `permanent` snapshots unchanged |
| CalendarMachine.HoursSubStates | src/machines/calendarMachine.ts:272-327 | ADD_HOURS moves `noHours` to `withHours` in both modes; CHANGE_HOURS in `periodic.withHours` changes nothing, because `hasHours` and `hasNoHours` both return false (92-93); in `permanent.withHours` it is modelled as no transition, which is unresolved |
| CalendarMachine.PlaceholderGuardsNeverHold | src/machines/calendarMachine.ts:92-93 | the guards `hasHours` and `hasNoHours` are false for every list |
| CalendarMachine.AddDayInMultiple | src/machines/calendarMachine.ts:241-246 | ADD_DAY in `multiple` stays in `multiple` and appends a copy of the last entry |
| CalendarMachine.ChangeEventsEditAndKeepMode | src/machines/calendarMachine.ts:222-269 | in `single` and `multiple` each change event keeps the mode and applies its own action to the list |
| CalendarMachine.ModeChoiceTargets | src/machines/calendarMachine.ts:212-338 | CHOOSE_FIXED_DAYS goes from `single`/`multiple` to `periodic.noHours`; CHOOSE_ONE_OR_MORE_DAYS goes from `periodic`/`permanent` to `single`; CHOOSE_PERMANENT goes from `periodic` to `permanent.noHours`; CHOOSE_WITH_START_AND_END_DATE goes from `permanent` to `periodic.noHours` |
| CalendarMachine.RunConcat | src/machines/calendarMachine.ts:341-343 | the machine handles events one at a time in order, so running two event sequences in turn equals running their concatenation |
| CalendarMachine.RemoveThresholdScenario | src/machines/calendarMachine.ts:247-257 | from `multiple` with three days, REMOVE_DAY 0 stays in `multiple` with two days, and a second one ends in `single` with one day |
| CalendarMachine.EndToEndScenario | src/machines/calendarMachine.ts:96-257 | seed, ADD_DAY, CHANGE_START_DATE on entry 1, REMOVE_DAY 0 gives `single` with one entry: the new date at the seed time, ending at the seed |
| CalendarMachine.SingleWithSeveralDays | src/machines/calendarMachine.ts:213-303 | `single` can be reached holding two days, through `multiple`, `periodic` and CHOOSE_ONE_OR_MORE_DAYS |

### Notes on behaviour

- An out-of-range REMOVE_DAY is not always a no-op. In `multiple` with exactly two days, the guard `hasLessOrEqualTo2Days` looks only at the length, so the machine moves to `single` and keeps both days. The code is modelled as written; see `OutOfRangeRemoveFromTwoDays`.
- `single` is not limited to one day. `multiple` → `periodic` → `single` keeps the whole list. In `single` REMOVE_DAY is not listed, so such a list cannot shrink until ADD_DAY moves it back to `multiple`. The invariant therefore promises only a non-empty list outside `multiple`.
- In `permanent.withHours`, CHANGE_HOURS names its conditions as the strings `"hours.length > 0"` and `"hours.length === 0"`. Neither is a registered guard, and the context has no `hours` field. What the state-chart library does with them is not part of this model. The model treats the event as selecting no transition, which is an unresolved point.

## Left out

- React glue (`useCalendarMachine`, the components, page bootstrap): rendering and event wiring only. The caller-facing "dispatch and read the snapshot" adapter is `Step` plus `Run`.
- Reading the wall clock in `getTodayWithoutTime`: the seed day is the `today` parameter of `Initial`, with the time zeroed.
- CalendarMachine.Initial: the source calls `getTodayWithoutTime` twice, once for the start and once for the end. The model reads one `today` for both. The promise that start equals end therefore assumes both calls fall on the same day; a seed taken across midnight is not modelled.
- CalendarMachine.HoursSubStates: for `permanent.withHours` the no-op on CHANGE_HOURS is a modelling choice, not a consequence of the code. Its conditions `"hours.length > 0"` and `"hours.length === 0"` are not registered guards, and what the state-chart library does with them is not modelled.
- The text round trip of timestamps (`Date.toString()` and `new Date(string)`), time zones and milliseconds: a timestamp is a structured record.
- date-fns clamping in `setYear`/`setMonth`/`setDate` (for example 31 February) and leap-year arithmetic: date edits are modelled as plain field replacement.
- `Date.setHours`/`setMinutes` with out-of-range or non-numeric values: the event's hour is typed 0 to 23 and its minute 0 to 59. Overflow into the next day is not modelled. A cleared time field makes `parseInt` return NaN, and `setHours(NaN)` gives an invalid date; that case is not modelled either.
- A `null` date from the date picker: the change-date events carry a date; what date-fns does with `null` is not visible here.
- `src/machines/single.ts`: an unused draft of the state nodes that is never passed to the machine.
- `console.log` calls and the layout comment of the machine: diagnostics only.
- The `Day` start-before-end ordering: the code never enforces it, so the model does not either.
