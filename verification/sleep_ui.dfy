/**
 * The logic of the sleep schedule screen: the title of a schedule card,
 * the add/edit dialog's state and the schedule it saves, and the strings
 * exchanged with the date and time pickers.
 */
module SleepUi {
  import opened Wrappers
  import opened KotlinInts
  import opened KotlinStrings
  import opened Timestamps
  import opened SleepData

  const DAY_NAMES: seq<string> := ["Monday", "Tuesday", "Wednesday", "Thursday", "Friday", "Saturday", "Sunday"]
  const SCHEDULE_TYPES: seq<string> := ["DAILY", "WEEKLY", "WEEKDAYS", "WEEKENDS", "ONCE"]
  const WEEKLY := 1
  const ONCE := 4
  const DEFAULT_BEDTIME := "22:30"
  const DEFAULT_WAKEUP := "06:30"

  // ---------------------------------------------------------------- schedule card

  /** What a schedule card shows as its title; a list index out of bounds throws. */
  datatype CardTitle = Title(text: string) | NoTitle | IndexOutOfBounds(index: int)

  /** The card title for a schedule. */
  function ScheduleInfo(s: SleepSchedule): (r: CardTitle)
    ensures r == NoTitle <==> s.scheduleType.None?
    ensures r.IndexOutOfBounds? <==>
      s.scheduleType == Some("WEEKLY") && s.dayOfWeek.Some? && !(1 <= s.dayOfWeek.value <= 7)
    ensures s.scheduleType.Some? && s.scheduleType.value !in SCHEDULE_TYPES ==> r == Title(s.scheduleType.value)
    ensures s.scheduleType == Some("ONCE") ==> r == Title("Once on " + s.date.GetOr(""))
    ensures s.scheduleType == Some("DAILY") ==> r == Title("Every day")
    ensures s.scheduleType == Some("WEEKDAYS") ==> r == Title("Weekdays (Mon-Fri)")
    ensures s.scheduleType == Some("WEEKENDS") ==> r == Title("Weekends (Sat-Sun)")
    ensures s.scheduleType == Some("WEEKLY") && s.dayOfWeek.Some? && 1 <= s.dayOfWeek.value <= 7
      ==> r == Title("Every " + DAY_NAMES[s.dayOfWeek.value - 1])
    ensures s.scheduleType == Some("WEEKLY") && s.dayOfWeek.None? ==> r == Title("Every Monday")
  {
    match s.scheduleType
    case None => NoTitle
    case Some(t) =>
      if t == "ONCE" then Title("Once on " + s.date.GetOr(""))
      else if t == "DAILY" then Title("Every day")
      else if t == "WEEKLY" then
        var i := Wrap32(s.dayOfWeek.GetOr(1) - 1);
        if 0 <= i < |DAY_NAMES| then Title("Every " + DAY_NAMES[i]) else IndexOutOfBounds(i)
      else if t == "WEEKDAYS" then Title("Weekdays (Mon-Fri)")
      else if t == "WEEKENDS" then Title("Weekends (Sat-Sun)")
      else Title(t)
  }

  // ---------------------------------------------------------------- dialog state

  /** `types.indexOf(initial?.type).takeIf { it >= 0 } ?: 0` */
  function InitialTypeIndex(initial: Option<SleepSchedule>): (i: nat)
    ensures i < |SCHEDULE_TYPES|
    ensures initial.Some? && initial.value.scheduleType.Some? && initial.value.scheduleType.value in SCHEDULE_TYPES
      ==> SCHEDULE_TYPES[i] == initial.value.scheduleType.value
    ensures initial.None? || initial.value.scheduleType.None? || initial.value.scheduleType.value !in SCHEDULE_TYPES
      ==> i == 0
  {
    if initial.Some? && initial.value.scheduleType.Some? then
      var t := initial.value.scheduleType.value;
      if t == "DAILY" then 0
      else if t == "WEEKLY" then 1
      else if t == "WEEKDAYS" then 2
      else if t == "WEEKENDS" then 3
      else if t == "ONCE" then 4
      else 0
    else 0
  }

  /** `initial?.dayOfWeek?.let { (it - 1).coerceIn(0, 6) } ?: 0` */
  function InitialDayIndex(initial: Option<SleepSchedule>): (i: nat)
    ensures i < |DAY_NAMES|
    ensures initial.Some? && initial.value.dayOfWeek.Some? && 1 <= initial.value.dayOfWeek.value <= 7
      ==> i == initial.value.dayOfWeek.value - 1
    ensures initial.None? || initial.value.dayOfWeek.None? ==> i == 0
    ensures initial.Some? && initial.value.dayOfWeek.Some? && INT_MIN < initial.value.dayOfWeek.value < 1 ==> i == 0
    ensures initial.Some? && initial.value.dayOfWeek.Some? && initial.value.dayOfWeek.value > 7 ==> i == 6
    ensures initial.Some? && initial.value.dayOfWeek == Some(INT_MIN) ==> i == 6
  {
    if initial.Some? && initial.value.dayOfWeek.Some? then
      var j := Wrap32(initial.value.dayOfWeek.value - 1);
      if j < 0 then 0 else if j > 6 then 6 else j
    else 0
  }

  /** `initial?.date ?: isoFormat.format(Date())`, with today's date as a parameter. */
  function InitialDateIso(initial: Option<SleepSchedule>, today: string): (r: string)
    ensures initial.Some? && initial.value.date.Some? ==> r == initial.value.date.value
    ensures initial.None? || initial.value.date.None? ==> r == today
  {
    if initial.Some? then initial.value.date.GetOr(today) else today
  }

  function InitialBedtime(initial: Option<SleepSchedule>): (r: string)
    ensures initial.Some? && initial.value.bedtime.Some? ==> r == initial.value.bedtime.value
    ensures initial.None? || initial.value.bedtime.None? ==> r == DEFAULT_BEDTIME
  {
    if initial.Some? then initial.value.bedtime.GetOr(DEFAULT_BEDTIME) else DEFAULT_BEDTIME
  }

  function InitialWakeup(initial: Option<SleepSchedule>): (r: string)
    ensures initial.Some? && initial.value.wakeup.Some? ==> r == initial.value.wakeup.value
    ensures initial.None? || initial.value.wakeup.None? ==> r == DEFAULT_WAKEUP
  {
    if initial.Some? then initial.value.wakeup.GetOr(DEFAULT_WAKEUP) else DEFAULT_WAKEUP
  }

  /** The schedule the Save button hands on: a weekday only for WEEKLY, a date only for ONCE. */
  function BuildSchedule(id: Option<string>, typeIndex: int, dayIndex: Int32, dateIso: string, bedtime: string, wakeup: string)
    : (s: SleepSchedule)
    requires 0 <= typeIndex < |SCHEDULE_TYPES|
    ensures s.id == id && s.scheduleType == Some(SCHEDULE_TYPES[typeIndex])
    ensures s.dayOfWeek.Some? <==> typeIndex == WEEKLY
    ensures s.dayOfWeek.Some? && 0 <= dayIndex < |DAY_NAMES| ==> 1 <= s.dayOfWeek.value <= 7
    ensures s.date.Some? <==> typeIndex == ONCE
    ensures s.date.Some? ==> s.date.value == dateIso
    ensures s.bedtime == Some(bedtime) && s.wakeup == Some(wakeup)
  {
    SleepSchedule(
      id,
      Some(SCHEDULE_TYPES[typeIndex]),
      if typeIndex == WEEKLY then Some(Wrap32(dayIndex + 1)) else None,
      if typeIndex == ONCE then Some(dateIso) else None,
      Some(bedtime),
      Some(wakeup))
  }

  /** The dialog's remembered state, from opening it (`initial`) to pressing Save. */
  class ScheduleDialog {
    const initial: Option<SleepSchedule>
    var selectedTypeIndex: int
    var selectedDayIndex: int
    var selectedDateIso: string
    var bedtime: string
    var wakeup: string

    /** The chips and the day list only offer valid indices. */
    ghost predicate Valid()
      reads this
    {
      0 <= selectedTypeIndex < |SCHEDULE_TYPES| && 0 <= selectedDayIndex < |DAY_NAMES|
    }

    constructor(initial: Option<SleepSchedule>, today: string)
      ensures this.initial == initial
      ensures selectedTypeIndex == InitialTypeIndex(initial)
      ensures selectedDayIndex == InitialDayIndex(initial)
      ensures selectedDateIso == InitialDateIso(initial, today)
      ensures bedtime == InitialBedtime(initial) && wakeup == InitialWakeup(initial)
      ensures Valid()
    {
      this.initial := initial;
      selectedTypeIndex := InitialTypeIndex(initial);
      selectedDayIndex := InitialDayIndex(initial);
      selectedDateIso := InitialDateIso(initial, today);
      bedtime := InitialBedtime(initial);
      wakeup := InitialWakeup(initial);
    }

    /** Tapping a type chip. */
    method SelectType(index: int)
      requires Valid() && 0 <= index < |SCHEDULE_TYPES|
      modifies this
      ensures selectedTypeIndex == index
      ensures selectedDayIndex == old(selectedDayIndex) && selectedDateIso == old(selectedDateIso)
      ensures bedtime == old(bedtime) && wakeup == old(wakeup)
      ensures Valid()
    {
      selectedTypeIndex := index;
    }

    /** Tapping a row (or its radio button) of the weekday list. */
    method SelectDay(index: int)
      requires Valid() && 0 <= index < |DAY_NAMES|
      modifies this
      ensures selectedDayIndex == index
      ensures selectedTypeIndex == old(selectedTypeIndex) && selectedDateIso == old(selectedDateIso)
      ensures bedtime == old(bedtime) && wakeup == old(wakeup)
      ensures Valid()
    {
      selectedDayIndex := index;
    }

    /** The date picker's callback with year, zero-based month and day. */
    method OnDatePicked(year: nat, month: nat, day: nat)
      requires Valid()
      modifies this
      ensures selectedDateIso == FormatDate(year, month, day)
      ensures selectedTypeIndex == old(selectedTypeIndex) && selectedDayIndex == old(selectedDayIndex)
      ensures bedtime == old(bedtime) && wakeup == old(wakeup)
      ensures Valid()
    {
      selectedDateIso := FormatDate(year, month, day);
    }

    /** The bedtime picker's callback. */
    method OnBedtimePicked(hour: nat, minute: nat)
      requires Valid()
      modifies this
      ensures bedtime == FormatTime(hour, minute)
      ensures selectedTypeIndex == old(selectedTypeIndex) && selectedDayIndex == old(selectedDayIndex)
      ensures selectedDateIso == old(selectedDateIso) && wakeup == old(wakeup)
      ensures Valid()
    {
      bedtime := FormatTime(hour, minute);
    }

    /** The wake-up picker's callback. */
    method OnWakeupPicked(hour: nat, minute: nat)
      requires Valid()
      modifies this
      ensures wakeup == FormatTime(hour, minute)
      ensures selectedTypeIndex == old(selectedTypeIndex) && selectedDayIndex == old(selectedDayIndex)
      ensures selectedDateIso == old(selectedDateIso) && bedtime == old(bedtime)
      ensures Valid()
    {
      wakeup := FormatTime(hour, minute);
    }

    /** The schedule the Save button passes to `onSave`; it keeps the document id of the schedule being edited. */
    function Save(): (s: SleepSchedule)
      reads this
      requires Valid()
      ensures s.id == (if initial.Some? then initial.value.id else None)
      ensures s.scheduleType == Some(SCHEDULE_TYPES[selectedTypeIndex])
      ensures s.dayOfWeek == (if selectedTypeIndex == WEEKLY then Some(selectedDayIndex + 1) else None)
      ensures s.date == (if selectedTypeIndex == ONCE then Some(selectedDateIso) else None)
      ensures s.bedtime == Some(bedtime) && s.wakeup == Some(wakeup)
      ensures ScheduleInfo(s).Title?
    {
      BuiltScheduleHasTitle(if initial.Some? then initial.value.id else None,
        selectedTypeIndex, selectedDayIndex, selectedDateIso, bedtime, wakeup);
      BuildSchedule(if initial.Some? then initial.value.id else None,
        selectedTypeIndex, selectedDayIndex, selectedDateIso, bedtime, wakeup)
    }
  }

  // ---------------------------------------------------------------- pickers

  /** `"%02d:%02d".format(h, m)` */
  function FormatTime(hour: nat, minute: nat): (r: string)
    ensures Split(r, ':') == [Pad(hour, 2), Pad(minute, 2)]
    ensures hour < 100 && minute < 100 ==> |r| == 5
  {
    var h, m := Pad(hour, 2), Pad(minute, 2);
    assert ':' !in h && ':' !in m;
    SplitAt(h, m, ':');
    SplitWhole(m, ':');
    if hour < 100 && minute < 100 then
      PadWidth(hour, 2);
      PadWidth(minute, 2);
      h + ":" + m
    else
      h + ":" + m
  }

  /** `String.format("%04d-%02d-%02d", y, m + 1, d)` with the picker's zero-based month. */
  function FormatDate(year: nat, month: nat, day: nat): (r: string)
    ensures Split(r, '-') == [Pad(year, 4), Pad(month + 1, 2), Pad(day, 2)]
    ensures year < 10000 && month + 1 < 100 && day < 100 ==> |r| == 10
  {
    IsoDatePieces(year, month + 1, day);
    if year < 10000 && month + 1 < 100 && day < 100 then
      IsoDateWidth(year, month + 1, day);
      IsoDate(year, month + 1, day)
    else
      IsoDate(year, month + 1, day)
  }

  /** `initialTime.split(":").map { it.toIntOrNull() ?: 0 }`, then hour and minute with defaults 22 and 30. */
  function TimePickerStart(time: string): (hm: (Int32, Int32))
    ensures hm.0 == ToIntOrNull(Split(time, ':')[0]).GetOr(0)
    ensures |Split(time, ':')| >= 2 ==> hm.1 == ToIntOrNull(Split(time, ':')[1]).GetOr(0)
    ensures |Split(time, ':')| == 1 ==> hm.1 == 30
  {
    var parts := Split(time, ':');
    var hour := if |parts| >= 1 then ToIntOrNull(parts[0]).GetOr(0) else 22;
    var minute := if |parts| >= 2 then ToIntOrNull(parts[1]).GetOr(0) else 30;
    (hour, minute)
  }

  /** `toInt()` of every piece: `None` when any piece is not an `Int`. */
  function ParseInts(parts: seq<string>): (r: Option<seq<Int32>>)
    ensures r.Some? <==> forall i :: 0 <= i < |parts| ==> ToIntOrNull(parts[i]).Some?
    ensures r.Some? ==> (|r.value| == |parts|
      && forall i :: 0 <= i < |parts| ==> Some(r.value[i]) == ToIntOrNull(parts[i]))
    decreases |parts|
  {
    if parts == [] then Some([])
    else
      match (ToIntOrNull(parts[0]), ParseInts(parts[1..]))
      case (Some(v), Some(vs)) => Some([v] + vs)
      case (_, _) => None
  }

  /**
   * The year, zero-based month and day that `showDatePicker` sets into its
   * calendar, or `None` when the string does not parse and the picker
   * keeps today's date.
   */
  function DatePickerStart(iso: string): (r: Option<(Int32, Int32, Int32)>)
    ensures r.Some? <==> ParseInts(Split(iso, '-')).Some? && |Split(iso, '-')| >= 3
    ensures r.Some? ==> var p := ParseInts(Split(iso, '-')).value;
      r.value == (p[0], Wrap32(p[1] - 1), p[2])
  {
    match ParseInts(Split(iso, '-'))
    case None => None
    case Some(parts) =>
      if |parts| < 3 then None else Some((parts[0], Wrap32(parts[1] - 1), parts[2]))
  }

  // ---------------------------------------------------------------- properties

  /** A time the picker wrote opens the picker on that time again. */
  lemma TimeRoundTrip(hour: nat, minute: nat)
    requires hour <= INT_MAX && minute <= INT_MAX
    ensures TimePickerStart(FormatTime(hour, minute)) == (hour, minute)
  {
    var h, m := Pad(hour, 2), Pad(minute, 2);
    assert ':' !in h && ':' !in m;
    assert FormatTime(hour, minute) == h + [':'] + m;
    SplitAt(h, m, ':');
    SplitWhole(m, ':');
    ParsePadded(hour, 2);
    ParsePadded(minute, 2);
  }

  /**
   * `split` never returns an empty list, so the hour default 22 is never
   * used: a time without a colon opens at its number (0 when it is not
   * one) and minute 30.
   */
  lemma TimeWithoutColon(time: string)
    requires ':' !in time
    ensures TimePickerStart(time) == (ToIntOrNull(time).GetOr(0), 30)
    ensures TimePickerStart("") == (0, 30)
  {
    SplitWhole(time, ':');
    SplitWhole("", ':');
  }

  /** A date the picker wrote opens the picker on that date again. */
  lemma DateRoundTrip(year: nat, month: nat, day: nat)
    requires year <= INT_MAX && month < INT_MAX && day <= INT_MAX
    ensures DatePickerStart(FormatDate(year, month, day)) == Some((year, month, day))
  {
    IsoDatePieces(year, month + 1, day);
    ParsePadded(year, 4);
    ParsePadded(month + 1, 2);
    ParsePadded(day, 2);
    ParseIntsCons(Pad(day, 2), []);
    ParseIntsCons(Pad(month + 1, 2), [Pad(day, 2)]);
    ParseIntsCons(Pad(year, 4), [Pad(month + 1, 2), Pad(day, 2)]);
  }

  lemma ParseIntsCons(p: string, ps: seq<string>)
    requires ToIntOrNull(p).Some? && ParseInts(ps).Some?
    ensures ParseInts([p] + ps) == Some([ToIntOrNull(p).value] + ParseInts(ps).value)
  {
    assert ([p] + ps)[1..] == ps;
  }

  /** Every schedule the dialog saves has a card title; a weekly one names the chosen day. */
  lemma BuiltScheduleHasTitle(id: Option<string>, typeIndex: int, dayIndex: int, dateIso: string, bedtime: string, wakeup: string)
    requires 0 <= typeIndex < |SCHEDULE_TYPES| && 0 <= dayIndex < |DAY_NAMES|
    ensures ScheduleInfo(BuildSchedule(id, typeIndex, dayIndex, dateIso, bedtime, wakeup)).Title?
    ensures typeIndex == WEEKLY ==>
      ScheduleInfo(BuildSchedule(id, typeIndex, dayIndex, dateIso, bedtime, wakeup)) == Title("Every " + DAY_NAMES[dayIndex])
  {
  }

  /** Opening the dialog on a schedule it saved restores every choice that schedule records. */
  lemma ReopenRestores(id: Option<string>, typeIndex: int, dayIndex: int, dateIso: string, bedtime: string, wakeup: string, today: string)
    requires 0 <= typeIndex < |SCHEDULE_TYPES| && 0 <= dayIndex < |DAY_NAMES|
    ensures var s := Some(BuildSchedule(id, typeIndex, dayIndex, dateIso, bedtime, wakeup));
      && InitialTypeIndex(s) == typeIndex
      && (typeIndex == WEEKLY ==> InitialDayIndex(s) == dayIndex)
      && (typeIndex == ONCE ==> InitialDateIso(s, today) == dateIso)
      && InitialBedtime(s) == bedtime && InitialWakeup(s) == wakeup
  {
  }

  /** For a stored weekday in range, the card and the dialog show the same day. */
  lemma CardAndDialogAgreeOnDay(s: SleepSchedule)
    requires s.scheduleType == Some("WEEKLY") && s.dayOfWeek.Some? && 1 <= s.dayOfWeek.value <= 7
    ensures ScheduleInfo(s) == Title("Every " + DAY_NAMES[InitialDayIndex(Some(s))])
  {
  }

  /** A stored weekday out of range makes the card throw, while the dialog clamps it to Monday or Sunday. */
  lemma OutOfRangeDay(s: SleepSchedule)
    requires s.scheduleType == Some("WEEKLY") && s.dayOfWeek.Some? && !(1 <= s.dayOfWeek.value <= 7)
    ensures ScheduleInfo(s).IndexOutOfBounds?
    ensures InitialDayIndex(Some(s)) == (if s.dayOfWeek.value < 1 && s.dayOfWeek.value != INT_MIN then 0 else 6)
  {
  }
}
