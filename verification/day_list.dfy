/**
 The ordered list of day entries and the six actions that edit it
 (`addNewDay`, `removeDay`, `changeStartDate`, `changeEndDate`,
 `changeStartHour`, `changeEndHour`). Every action returns a new list; an
 index that addresses no entry leaves the list as it was.
 */
module DayList {
  import opened Timestamps

  /** One scheduled day: a start and an end timestamp. Nothing forces `startDate` before `endDate`. */
  datatype Day = Day(startDate: Timestamp, endDate: Timestamp)

  predicate InRange(days: seq<Day>, index: int) {
    0 <= index < |days|
  }

  /** `r` is `days` with at most the entry at `index` replaced, and exactly `days` when `index` addresses nothing. */
  predicate OnlyEntryChanged(days: seq<Day>, r: seq<Day>, index: int) {
    && |r| == |days|
    && (forall k :: 0 <= k < |days| && k != index ==> r[k] == days[k])
    && (!InRange(days, index) ==> r == days)
  }

  /** `addNewDay`: appends a copy of the last entry; an empty list stays empty. */
  function AddNewDay(days: seq<Day>): (r: seq<Day>)
    ensures |days| == 0 ==> r == days
    ensures |days| > 0 ==> |r| == |days| + 1 && r[..|days|] == days && r[|days|] == days[|days| - 1]
  {
    if |days| == 0 then days else days + [days[|days| - 1]]
  }

  /** `removeDay`: keeps every entry whose position differs from `index`, walking the list front to back. */
  function RemoveDay(days: seq<Day>, index: int): (r: seq<Day>)
    ensures InRange(days, index) ==> r == days[..index] + days[index + 1..]
    ensures !InRange(days, index) ==> r == days
    decreases |days|
  {
    if |days| == 0 then []
    else
      var rest := RemoveDay(days[1..], index - 1);
      if index == 0 then rest
      else
        assert index > 0 && InRange(days, index) ==> days[1..][..index - 1] == days[1..index];
        [days[0]] + rest
  }

  /** The positional `map` every change action uses: `update` is applied to the entry at `index` only. */
  function UpdateAt(days: seq<Day>, index: int, update: Day -> Day): (r: seq<Day>)
    ensures OnlyEntryChanged(days, r, index)
    ensures InRange(days, index) ==> r[index] == update(days[index])
    decreases |days|
  {
    if |days| == 0 then []
    else [if index == 0 then update(days[0]) else days[0]] + UpdateAt(days[1..], index - 1, update)
  }

  /** `changeStartDate`: the start of entry `index` takes the year, month and day of `newDate` and keeps its time of day. */
  function ChangeStartDate(days: seq<Day>, index: int, newDate: CalendarDate): (r: seq<Day>)
    ensures OnlyEntryChanged(days, r, index)
    ensures InRange(days, index) ==>
      && r[index].startDate.date == newDate
      && r[index].startDate.time == days[index].startDate.time
      && r[index].endDate == days[index].endDate
  {
    UpdateAt(days, index, (d: Day) => d.(startDate := WithDate(d.startDate, newDate)))
  }

  /** `changeEndDate`: the end of entry `index` takes the year, month and day of `newDate` and keeps its time of day. */
  function ChangeEndDate(days: seq<Day>, index: int, newDate: CalendarDate): (r: seq<Day>)
    ensures OnlyEntryChanged(days, r, index)
    ensures InRange(days, index) ==>
      && r[index].endDate.date == newDate
      && r[index].endDate.time == days[index].endDate.time
      && r[index].startDate == days[index].startDate
  {
    UpdateAt(days, index, (d: Day) => d.(endDate := WithDate(d.endDate, newDate)))
  }

  /** `changeStartHour`: the start of entry `index` takes the new hour and minute; its date and seconds stay. */
  function ChangeStartHour(days: seq<Day>, index: int, hour: Hour, minute: Minute): (r: seq<Day>)
    ensures OnlyEntryChanged(days, r, index)
    ensures InRange(days, index) ==>
      && r[index].startDate.date == days[index].startDate.date
      && r[index].startDate.time == TimeOfDay(hour, minute, days[index].startDate.time.second)
      && r[index].endDate == days[index].endDate
  {
    UpdateAt(days, index, (d: Day) => d.(startDate := WithHourMinute(d.startDate, hour, minute)))
  }

  /** `changeEndHour`: the end of entry `index` takes the new hour and minute; its date and seconds stay. */
  function ChangeEndHour(days: seq<Day>, index: int, hour: Hour, minute: Minute): (r: seq<Day>)
    ensures OnlyEntryChanged(days, r, index)
    ensures InRange(days, index) ==>
      && r[index].endDate.date == days[index].endDate.date
      && r[index].endDate.time == TimeOfDay(hour, minute, days[index].endDate.time.second)
      && r[index].startDate == days[index].startDate
  {
    UpdateAt(days, index, (d: Day) => d.(endDate := WithHourMinute(d.endDate, hour, minute)))
  }

  /** Removing one entry takes exactly that entry out of the multiset of entries. */
  lemma {:induction false} RemoveDayTakesOneEntry(days: seq<Day>, index: int)
    requires InRange(days, index)
    ensures |RemoveDay(days, index)| == |days| - 1
    ensures multiset(RemoveDay(days, index)) + multiset{days[index]} == multiset(days)
  {
    assert days == days[..index] + [days[index]] + days[index + 1..];
  }

  /** Removing the copy that `addNewDay` appended, or the entry it was copied from, gives back the original list. */
  lemma {:induction false} RemoveUndoesAdd(days: seq<Day>)
    requires |days| > 0
    ensures RemoveDay(AddNewDay(days), |days|) == days
    ensures RemoveDay(AddNewDay(days), |days| - 1) == days
  {
  }

  /** Date and time-of-day edits of the same entry commute. */
  lemma StartDateAndHourCommute(days: seq<Day>, index: int, newDate: CalendarDate, hour: Hour, minute: Minute)
    ensures ChangeStartHour(ChangeStartDate(days, index, newDate), index, hour, minute)
         == ChangeStartDate(ChangeStartHour(days, index, hour, minute), index, newDate)
  {
  }

  /** Of two date changes to the end of the same entry, the later one wins. */
  lemma LastEndDateWins(days: seq<Day>, index: int, first: CalendarDate, second: CalendarDate)
    ensures ChangeEndDate(ChangeEndDate(days, index, first), index, second) == ChangeEndDate(days, index, second)
  {
  }
}
