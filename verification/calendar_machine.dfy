/**
 The calendar-step state machine: a mode, the list of day entries, and one
 step per event. Transition lists are tried top to bottom and the first
 guard that holds wins; an event the current state does not list changes
 nothing. Entering `periodic` or `permanent` lands in their initial
 sub-state `noHours`.
 */
module CalendarMachine {
  import opened Timestamps
  import DayList

  /** Sub-state of `periodic` and `permanent`: whether hour ranges are attached. */
  datatype HoursState = NoHours | WithHours

  datatype Mode =
    | Single
    | Multiple
    | Periodic(hours: HoursState)
    | Permanent(hours: HoursState)

  /** The events the machine reacts to, with the payloads the UI sends. */
  datatype Event =
    | ChooseOneOrMoreDays
    | ChooseFixedDays
    | ChooseWithStartAndEndDate
    | ChoosePermanent
    | AddDay
    | RemoveDay(index: int)
    | ChangeStartDate(index: int, newDate: CalendarDate)
    | ChangeEndDate(index: int, newDate: CalendarDate)
    | ChangeStartHour(index: int, newHours: Hour, newMinutes: Minute)
    | ChangeEndHour(index: int, newHours: Hour, newMinutes: Minute)
    | AddHours
    | ChangeHours

  /** What a caller reads back after each event: the active mode and the context's `days`. */
  datatype Snapshot = Snapshot(mode: Mode, days: seq<DayList.Day>)

  /** The initial snapshot, seeded with the current day at midnight as both start and end. */
  function Initial(today: CalendarDate): (s: Snapshot)
    ensures s.mode == Single
    ensures |s.days| == 1
    ensures s.days[0].startDate == s.days[0].endDate
    ensures s.days[0].startDate.date == today
    ensures s.days[0].startDate.time == TimeOfDay(0, 0, 0)
  {
    Snapshot(Single, [DayList.Day(StartOfDay(today), StartOfDay(today))])
  }

  // Guards, evaluated on the context before any action runs.

  predicate HasLessOrEqualTo2Days(days: seq<DayList.Day>) {
    |days| <= 2
  }

  predicate HasMoreThan2Days(days: seq<DayList.Day>) {
    |days| > 2
  }

  /** Placeholder guard: never holds. */
  predicate HasHours(days: seq<DayList.Day>) {
    false
  }

  /** Placeholder guard: never holds. */
  predicate HasNoHours(days: seq<DayList.Day>) {
    false
  }

  predicate IsChange(e: Event) {
    e.ChangeStartDate? || e.ChangeEndDate? || e.ChangeStartHour? || e.ChangeEndHour?
  }

  predicate IsModeChoice(e: Event) {
    e.ChooseOneOrMoreDays? || e.ChooseFixedDays? || e.ChooseWithStartAndEndDate? || e.ChoosePermanent?
  }

  /** The events the state (including its parent state) has a transition list for. */
  predicate Listed(mode: Mode, e: Event) {
    match mode
    case Single => e.ChooseFixedDays? || e.AddDay? || IsChange(e)
    case Multiple => e.ChooseFixedDays? || e.AddDay? || e.RemoveDay? || IsChange(e)
    case Periodic(h) =>
      || e.ChooseOneOrMoreDays? || e.ChoosePermanent?
      || (h == NoHours && e.AddHours?) || (h == WithHours && e.ChangeHours?)
    case Permanent(h) =>
      || e.ChooseOneOrMoreDays? || e.ChooseWithStartAndEndDate?
      || (h == NoHours && e.AddHours?) || (h == WithHours && e.ChangeHours?)
  }

  /** The reachability invariant: the list is never empty, and `multiple` holds at least two days. */
  predicate Invariant(s: Snapshot) {
    |s.days| >= 1 && (s.mode == Multiple ==> |s.days| >= 2)
  }

  /** The change actions, shared by `single` and `multiple`. */
  function ApplyChange(days: seq<DayList.Day>, e: Event): (r: seq<DayList.Day>)
    requires IsChange(e)
    ensures DayList.OnlyEntryChanged(days, r, e.index)
    ensures DayList.InRange(days, e.index) && e.ChangeStartDate? ==>
      && r[e.index].startDate == Timestamp(e.newDate, days[e.index].startDate.time)
      && r[e.index].endDate == days[e.index].endDate
    ensures DayList.InRange(days, e.index) && e.ChangeEndDate? ==>
      && r[e.index].endDate == Timestamp(e.newDate, days[e.index].endDate.time)
      && r[e.index].startDate == days[e.index].startDate
    ensures DayList.InRange(days, e.index) && e.ChangeStartHour? ==>
      && r[e.index].startDate.date == days[e.index].startDate.date
      && r[e.index].startDate.time == TimeOfDay(e.newHours, e.newMinutes, days[e.index].startDate.time.second)
      && r[e.index].endDate == days[e.index].endDate
    ensures DayList.InRange(days, e.index) && e.ChangeEndHour? ==>
      && r[e.index].endDate.date == days[e.index].endDate.date
      && r[e.index].endDate.time == TimeOfDay(e.newHours, e.newMinutes, days[e.index].endDate.time.second)
      && r[e.index].startDate == days[e.index].startDate
  {
    match e
    case ChangeStartDate(i, d) => DayList.ChangeStartDate(days, i, d)
    case ChangeEndDate(i, d) => DayList.ChangeEndDate(days, i, d)
    case ChangeStartHour(i, h, m) => DayList.ChangeStartHour(days, i, h, m)
    case ChangeEndHour(i, h, m) => DayList.ChangeEndHour(days, i, h, m)
  }

  /** One event: the transition table of the machine. */
  function Step(s: Snapshot, e: Event): (r: Snapshot)
    ensures !Listed(s.mode, e) ==> r == s
    ensures Invariant(s) ==> Invariant(r)
    ensures !(e.AddDay? || e.RemoveDay? || IsChange(e)) ==> r.days == s.days
  {
    match s.mode
    case Single =>
      if e.ChooseFixedDays? then Snapshot(Periodic(NoHours), s.days)
      else if e.AddDay? then Snapshot(Multiple, DayList.AddNewDay(s.days))
      else if IsChange(e) then s.(days := ApplyChange(s.days, e))
      else s
    case Multiple =>
      if e.ChooseFixedDays? then Snapshot(Periodic(NoHours), s.days)
      else if e.AddDay? then s.(days := DayList.AddNewDay(s.days))
      else if e.RemoveDay? then
        if HasLessOrEqualTo2Days(s.days) then Snapshot(Single, DayList.RemoveDay(s.days, e.index))
        else if HasMoreThan2Days(s.days) then s.(days := DayList.RemoveDay(s.days, e.index))
        else s
      else if IsChange(e) then s.(days := ApplyChange(s.days, e))
      else s
    case Periodic(h) =>
      if h == NoHours && e.AddHours? then s.(mode := Periodic(WithHours))
      else if h == WithHours && e.ChangeHours? then
        if HasHours(s.days) then s
        else if HasNoHours(s.days) then s.(mode := Periodic(NoHours))
        else s
      else if e.ChooseOneOrMoreDays? then Snapshot(Single, s.days)
      else if e.ChoosePermanent? then Snapshot(Permanent(NoHours), s.days)
      else s
    case Permanent(h) =>
      // CHANGE_HOURS in `withHours` names conditions that are not registered
      // guards; it is taken to select no transition.
      if h == NoHours && e.AddHours? then s.(mode := Permanent(WithHours))
      else if e.ChooseOneOrMoreDays? then Snapshot(Single, s.days)
      else if e.ChooseWithStartAndEndDate? then Snapshot(Periodic(NoHours), s.days)
      else s
  }

  /** Feeds the events to the machine one at a time, in order. */
  function Run(s: Snapshot, events: seq<Event>): Snapshot
    decreases |events|
  {
    if |events| == 0 then s else Run(Step(s, events[0]), events[1..])
  }

  lemma {:induction false} RunPreservesInvariant(s: Snapshot, events: seq<Event>)
    requires Invariant(s)
    ensures Invariant(Run(s, events))
    decreases |events|
  {
    if |events| > 0 {
      RunPreservesInvariant(Step(s, events[0]), events[1..]);
    }
  }

  /** From the initial snapshot, after any sequence of events, the list is non-empty and `multiple` holds at least two days. */
  lemma Reachable(today: CalendarDate, events: seq<Event>)
    ensures |Run(Initial(today), events).days| >= 1
    ensures Run(Initial(today), events).mode == Multiple ==> |Run(Initial(today), events).days| >= 2
  {
    RunPreservesInvariant(Initial(today), events);
  }

  /** Exactly one of the two REMOVE_DAY guards of `multiple` holds. */
  lemma RemoveGuardsPartition(days: seq<DayList.Day>)
    ensures HasLessOrEqualTo2Days(days) != HasMoreThan2Days(days)
  {
  }

  /** REMOVE_DAY in `multiple`: the guard reads the length before removal; at most two days falls back to `single`. */
  lemma RemoveInMultiple(days: seq<DayList.Day>, index: int)
    ensures Step(Snapshot(Multiple, days), RemoveDay(index))
         == Snapshot(if |days| <= 2 then Single else Multiple, DayList.RemoveDay(days, index))
  {
  }

  /** An index that addresses nothing still moves `multiple` with two days to `single`, with the list unchanged. */
  lemma OutOfRangeRemoveFromTwoDays(days: seq<DayList.Day>, index: int)
    requires |days| == 2 && !(0 <= index < 2)
    ensures Step(Snapshot(Multiple, days), RemoveDay(index)) == Snapshot(Single, days)
  {
  }

  /** ADD_DAY from `single` enters `multiple` with the last entry copied. */
  lemma AddDayFromSingle(days: seq<DayList.Day>)
    requires |days| >= 1
    ensures Step(Snapshot(Single, days), AddDay).mode == Multiple
    ensures Step(Snapshot(Single, days), AddDay).days == days + [days[|days| - 1]]
  {
  }

  /** ADD_DAY in `multiple` stays in `multiple` and appends a copy of the last entry. */
  lemma AddDayInMultiple(days: seq<DayList.Day>)
    requires |days| >= 1
    ensures Step(Snapshot(Multiple, days), AddDay) == Snapshot(Multiple, days + [days[|days| - 1]])
  {
  }

  /** In `single` and `multiple` a change event keeps the mode and applies the action it names. */
  lemma ChangeEventsEditAndKeepMode(s: Snapshot, e: Event)
    requires s.mode == Single || s.mode == Multiple
    requires IsChange(e)
    ensures Step(s, e) == s.(days := ApplyChange(s.days, e))
  {
  }

  /** Where each mode choice goes from each state that lists it. */
  lemma ModeChoiceTargets(s: Snapshot)
    ensures s.mode == Single || s.mode == Multiple ==> Step(s, ChooseFixedDays).mode == Periodic(NoHours)
    ensures s.mode.Periodic? || s.mode.Permanent? ==> Step(s, ChooseOneOrMoreDays).mode == Single
    ensures s.mode.Periodic? ==> Step(s, ChoosePermanent).mode == Permanent(NoHours)
    ensures s.mode.Permanent? ==> Step(s, ChooseWithStartAndEndDate).mode == Periodic(NoHours)
  {
  }

  /** The two guards of `periodic.withHours` are placeholders that never hold. */
  lemma PlaceholderGuardsNeverHold(days: seq<DayList.Day>)
    ensures !HasHours(days) && !HasNoHours(days)
  {
  }

  /** Running two event sequences one after the other is running their concatenation. */
  lemma {:induction false} RunConcat(s: Snapshot, first: seq<Event>, second: seq<Event>)
    ensures Run(s, first + second) == Run(Run(s, first), second)
    decreases |first|
  {
    if |first| > 0 {
      assert (first + second)[0] == first[0];
      assert (first + second)[1..] == first[1..] + second;
      RunConcat(Step(s, first[0]), first[1..], second);
    } else {
      assert first + second == second;
    }
  }

  /** Mode choices never touch the list, and entering `periodic` or `permanent` starts in `noHours`. */
  lemma ModeChoiceKeepsDays(s: Snapshot, e: Event)
    requires IsModeChoice(e)
    ensures Step(s, e).days == s.days
    ensures Step(s, e).mode.Periodic? && !s.mode.Periodic? ==> Step(s, e).mode.hours == NoHours
    ensures Step(s, e).mode.Permanent? && !s.mode.Permanent? ==> Step(s, e).mode.hours == NoHours
  {
  }

  /** List events are ignored outside `single` and `multiple`. */
  lemma RecurringModesIgnoreListEvents(s: Snapshot, e: Event)
    requires s.mode.Periodic? || s.mode.Permanent?
    requires e.AddDay? || e.RemoveDay? || IsChange(e)
    ensures Step(s, e) == s
  {
  }

  /** ADD_HOURS moves `noHours` to `withHours`; CHANGE_HOURS in `withHours` never changes anything. */
  lemma HoursSubStates(days: seq<DayList.Day>)
    ensures Step(Snapshot(Periodic(NoHours), days), AddHours) == Snapshot(Periodic(WithHours), days)
    ensures Step(Snapshot(Permanent(NoHours), days), AddHours) == Snapshot(Permanent(WithHours), days)
    ensures Step(Snapshot(Periodic(WithHours), days), ChangeHours) == Snapshot(Periodic(WithHours), days)
    ensures Step(Snapshot(Permanent(WithHours), days), ChangeHours) == Snapshot(Permanent(WithHours), days)
  {
  }

  /** Three days, remove one: still `multiple` with two; remove again: `single` with one. */
  lemma RemoveThresholdScenario(d0: DayList.Day, d1: DayList.Day, d2: DayList.Day)
    ensures Step(Snapshot(Multiple, [d0, d1, d2]), RemoveDay(0)) == Snapshot(Multiple, [d1, d2])
    ensures Step(Step(Snapshot(Multiple, [d0, d1, d2]), RemoveDay(0)), RemoveDay(0)) == Snapshot(Single, [d2])
  {
  }

  /** Seed, add a day, move the second start to another date, remove the first entry. */
  lemma EndToEndScenario(today: CalendarDate, other: CalendarDate)
    ensures
      var s0 := Initial(today);
      var d0 := StartOfDay(today);
      var s1 := Step(s0, AddDay);
      var s2 := Step(s1, ChangeStartDate(1, other));
      var s3 := Step(s2, RemoveDay(0));
      && s1 == Snapshot(Multiple, [DayList.Day(d0, d0), DayList.Day(d0, d0)])
      && s2.mode == Multiple
      && s2.days[1].startDate == Timestamp(other, Midnight)
      && s2.days[1].endDate == d0
      && s3 == Snapshot(Single, [DayList.Day(Timestamp(other, Midnight), d0)])
  {
  }

  /** `single` can hold more than one day: go to `multiple`, then to `periodic`, then back. */
  lemma SingleWithSeveralDays(today: CalendarDate)
    ensures Run(Initial(today), [AddDay, ChooseFixedDays, ChooseOneOrMoreDays]).mode == Single
    ensures |Run(Initial(today), [AddDay, ChooseFixedDays, ChooseOneOrMoreDays]).days| == 2
  {
  }
}
