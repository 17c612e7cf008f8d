/**
 Points in time as the calendar step stores them in each day entry.

 The calendar step stores a timestamp as the text of a JavaScript `Date` and edits it
 through date-fns setters (`setYear`, `setMonth`, `setDate`) and the `Date`
 setters `setHours` and `setMinutes`. Here a timestamp is a plain record of a
 calendar date and a time of day, and every setter replaces one field.
 */
module Timestamps {

  /** Year, month and day of month, as read by `getYear`, `getMonth` and `getDate`. */
  datatype CalendarDate = CalendarDate(year: int, month: int, day: int)

  /** Hour, minute and second of a timestamp. Milliseconds are always zero and are not kept. */
  datatype TimeOfDay = TimeOfDay(hour: int, minute: int, second: int)

  datatype Timestamp = Timestamp(date: CalendarDate, time: TimeOfDay)

  /** An hour as an `<input type="time">` yields it. */
  type Hour = h: int | 0 <= h < 24

  /** A minute as an `<input type="time">` yields it. */
  type Minute = m: int | 0 <= m < 60

  const Midnight: TimeOfDay := TimeOfDay(0, 0, 0)

  /** The seed timestamp: the given day with hours, minutes and seconds zeroed. */
  function StartOfDay(today: CalendarDate): Timestamp {
    Timestamp(today, Midnight)
  }

  function SetYear(t: Timestamp, year: int): Timestamp {
    t.(date := t.date.(year := year))
  }

  function SetMonth(t: Timestamp, month: int): Timestamp {
    t.(date := t.date.(month := month))
  }

  function SetDayOfMonth(t: Timestamp, day: int): Timestamp {
    t.(date := t.date.(day := day))
  }

  function SetHours(t: Timestamp, hour: Hour): Timestamp {
    t.(time := t.time.(hour := hour))
  }

  function SetMinutes(t: Timestamp, minute: Minute): Timestamp {
    t.(time := t.time.(minute := minute))
  }

  /** Copies year, month and day of `newDate` into `t`, one setter after the other. */
  function WithDate(t: Timestamp, newDate: CalendarDate): (r: Timestamp)
    ensures r.date == newDate
    ensures r.time == t.time
  {
    SetDayOfMonth(SetMonth(SetYear(t, newDate.year), newDate.month), newDate.day)
  }

  /** Sets the hour, then the minute; the date and the seconds are kept. */
  function WithHourMinute(t: Timestamp, hour: Hour, minute: Minute): (r: Timestamp)
    ensures r.date == t.date
    ensures r.time.hour == hour && r.time.minute == minute
    ensures r.time.second == t.time.second
  {
    SetMinutes(SetHours(t, hour), minute)
  }

  /** Changing the date and changing the time of day touch disjoint fields, so their order does not matter. */
  lemma DateAndTimeCommute(t: Timestamp, newDate: CalendarDate, hour: Hour, minute: Minute)
    ensures WithHourMinute(WithDate(t, newDate), hour, minute) == WithDate(WithHourMinute(t, hour, minute), newDate)
  {
  }

  /** A second date change overrides the first. */
  lemma LastDateWins(t: Timestamp, first: CalendarDate, second: CalendarDate)
    ensures WithDate(WithDate(t, first), second) == WithDate(t, second)
  {
  }

  /** Writing back the date a timestamp already has changes nothing. */
  lemma SameDateIsIdentity(t: Timestamp)
    ensures WithDate(t, t.date) == t
  {
  }
}
