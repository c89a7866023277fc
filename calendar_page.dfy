/**
 * The web calendar page: the week strip and day navigation, the items of a
 * day, the day view's three time slots, the Take button of a slot's dose,
 * and the page's add forms.
 *
 * Days are numbered consecutively in local time, day 0 being Thursday
 * 1 January 1970; a local day is 86400000 ms long.
 */
module CalendarPage {
  import opened Wrappers
  import opened Text
  import opened Seqs
  import opened Forms
  import opened Medicine
  import opened TodaySchedule
  import Notifications
  import JsNum

  const DayMs: int := 86400000

  /** The time value of a day's local midnight. */
  function Midnight(day: int): int { day * DayMs }

  /** The local day a time value falls on. */
  function DayOf(ms: int): int { ms / DayMs }

  // ---------------------------------------------------------------------
  // Weeks and navigation
  // ---------------------------------------------------------------------

  /** `getDay()`: 0 for Sunday. */
  function Weekday(day: int): (r: int)
    ensures 0 <= r < 7
  {
    (day + 4) % 7
  }

  /** `startOfWeek`: the Sunday on or before the day. */
  function StartOfWeek(day: int): (r: int)
  {
    day - Weekday(day)
  }

  /** `weekDays`: seven days from the start of the week. */
  function WeekDays(day: int): (r: seq<int>)
    ensures |r| == 7
  {
    seq(7, i requires 0 <= i < 7 => StartOfWeek(day) + i)
  }

  /** The week strip is seven consecutive days from a Sunday and holds the current day. */
  lemma WeekDaysFromSunday(day: int)
    ensures var w := WeekDays(day);
            && Weekday(w[0]) == 0
            && (forall i :: 0 < i < 7 ==> w[i] == w[i - 1] + 1)
            && day in w
  {
    var w := WeekDays(day);
    var k := Weekday(day);
    assert w[k] == StartOfWeek(day) + k;
    var q := (day + 4) / 7;
    assert day + 4 == 7 * q + k;
    assert w[0] + 4 == 7 * q;
    assert (w[0] + 4) % 7 == 0;
  }

  /** Moving on by seven days shows the following week. */
  lemma NextWeekFollows(day: int)
    ensures forall i :: 0 <= i < 7 ==> WeekDays(day + 7)[i] == WeekDays(day)[i] + 7
  {
    var q := (day + 4) / 7;
    var k := Weekday(day);
    assert day + 4 == 7 * q + k;
    assert day + 7 + 4 == 7 * (q + 1) + k;
    assert Weekday(day + 7) == k;
    assert StartOfWeek(day + 7) == StartOfWeek(day) + 7;
    forall i | 0 <= i < 7 ensures WeekDays(day + 7)[i] == WeekDays(day)[i] + 7 {
      assert WeekDays(day + 7)[i] == StartOfWeek(day + 7) + i;
      assert WeekDays(day)[i] == StartOfWeek(day) + i;
    }
  }

  datatype ViewMode = WeekView | DayView

  /** How far the arrows move: a week in the week view, a day in the day view. */
  function Step(mode: ViewMode): (r: int)
    ensures r == 7 <==> mode == WeekView
    ensures r == 1 <==> mode == DayView
  {
    match mode
    case WeekView => 7
    case DayView => 1
  }

  /** The page's date and view. */
  class Calendar {
    var currentDay: int
    var viewMode: ViewMode

    constructor (today: int)
      ensures currentDay == today && viewMode == DayView
    {
      currentDay := today;
      viewMode := DayView;
    }

    method NavigatePrev()
      modifies this
      ensures currentDay == old(currentDay) - Step(viewMode) && viewMode == old(viewMode)
    {
      currentDay := currentDay + (if viewMode == WeekView then -7 else -1);
    }

    method NavigateNext()
      modifies this
      ensures currentDay == old(currentDay) + Step(viewMode) && viewMode == old(viewMode)
    {
      currentDay := currentDay + (if viewMode == WeekView then 7 else 1);
    }

    method GoToToday(today: int)
      modifies this
      ensures currentDay == today && viewMode == old(viewMode)
    {
      currentDay := today;
    }

    /** A click on a day of the week strip opens that day. */
    method OpenDay(day: int)
      modifies this
      ensures currentDay == day && viewMode == DayView
    {
      currentDay := day;
      viewMode := DayView;
    }
  }

  // ---------------------------------------------------------------------
  // A day's items
  // ---------------------------------------------------------------------

  /** Date handling the page delegates: `format(day, 'yyyy-MM-dd')`, and the
      local day and hour of `new Date(startTime)`, None for an Invalid Date. */
  datatype Clock = Clock(dateText: int -> string, dayOf: string -> Option<int>, hourOf: string -> Option<int>)

  /** getRemindersForDay: a start time on that day. */
  function RemindersForDay(reminders: seq<Reminder>, day: int, clock: Clock): (r: seq<Reminder>)
    ensures forall i :: 0 <= i < |r| ==> r[i] in reminders && r[i].startTime != [] && clock.dayOf(r[i].startTime) == Some(day)
    ensures forall i :: 0 <= i < |reminders| && reminders[i].startTime != [] && clock.dayOf(reminders[i].startTime) == Some(day)
              ==> reminders[i] in r
  {
    Filter(reminders, (r: Reminder) => r.startTime != [] && clock.dayOf(r.startTime) == Some(day))
  }

  /** getMedicationsForDay: the medications active on the day's date text. */
  function MedicationsForDay(meds: seq<Med>, day: int, clock: Clock): seq<Med>
  {
    ActiveMeds(meds, clock.dateText(day))
  }

  /** getChoresForDay: a due date equal to the day's date text. */
  function ChoresForDay(chores: seq<Chore>, day: int, clock: Clock): (r: seq<Chore>)
    ensures forall i :: 0 <= i < |r| ==> r[i] in chores && r[i].dueDate == clock.dateText(day)
    ensures forall i :: 0 <= i < |chores| && chores[i].dueDate == clock.dateText(day) ==> chores[i] in r
  {
    Filter(chores, (c: Chore) => c.dueDate == clock.dateText(day))
  }

  /** getItemCountForDay. */
  function ItemCount(reminders: seq<Reminder>, meds: seq<Med>, chores: seq<Chore>, day: int, clock: Clock): (n: nat)
    ensures n <= |reminders| + |meds| + |chores|
    ensures n == 0 <==> RemindersForDay(reminders, day, clock) == [] && MedicationsForDay(meds, day, clock) == []
                        && ChoresForDay(chores, day, clock) == []
  {
    |RemindersForDay(reminders, day, clock)| + |MedicationsForDay(meds, day, clock)| + |ChoresForDay(chores, day, clock)|
  }

  // ---------------------------------------------------------------------
  // The day view's slots
  // ---------------------------------------------------------------------

  datatype Slot = MorningSlot | AfternoonSlot | EveningSlot

  const TimeSlots: seq<Slot> := [MorningSlot, AfternoonSlot, EveningSlot]

  /** A slot's time, the one a medication must list to appear in it. */
  function SlotTime(slot: Slot): string
  {
    match slot
    case MorningSlot => Morning
    case AfternoonSlot => Afternoon
    case EveningSlot => Evening
  }

  /** The slot test on a reminder's hour, by the slot's time. */
  predicate HourInSlot(slot: Slot, hour: int)
  {
    if SlotTime(slot) == Morning then 6 <= hour < 12
    else if SlotTime(slot) == Afternoon then 12 <= hour < 17
    else 17 <= hour < 22
  }

  /** The slots part the hours 6 to 21; earlier and later hours are in none. */
  lemma SlotsOfHour(hour: int)
    ensures HourInSlot(MorningSlot, hour) <==> 6 <= hour < 12
    ensures HourInSlot(AfternoonSlot, hour) <==> 12 <= hour < 17
    ensures HourInSlot(EveningSlot, hour) <==> 17 <= hour < 22
    ensures (exists slot :: HourInSlot(slot, hour)) <==> 6 <= hour < 22
    ensures forall s1, s2 :: HourInSlot(s1, hour) && HourInSlot(s2, hour) ==> s1 == s2
  {
    assert Morning != Afternoon && Morning != Evening && Afternoon != Evening by {
      assert Morning[0] != Afternoon[0] && Morning[0] != Evening[0] && Afternoon[0] != Evening[0];
    }
    if 6 <= hour < 12 {
      assert HourInSlot(MorningSlot, hour);
    } else if 12 <= hour < 17 {
      assert HourInSlot(AfternoonSlot, hour);
    } else if 17 <= hour < 22 {
      assert HourInSlot(EveningSlot, hour);
    }
  }

  /** A reminder with a start time whose hour the slot takes; an Invalid Date's NaN hour is in none. */
  predicate ReminderInSlot(r: Reminder, slot: Slot, clock: Clock)
  {
    r.startTime != [] && match clock.hourOf(r.startTime)
                         case None => false
                         case Some(h) => HourInSlot(slot, h)
  }

  /** `schedule?.times?.includes(slot.time)`. */
  predicate MedInSlot(m: Med, slot: Slot)
  {
    SlotTime(slot) in m.times
  }

  /** A slot of the day view with its reminders, medications and chores. */
  datatype SlotView = SlotView(slot: Slot, reminders: seq<Reminder>, meds: seq<Med>, chores: seq<Chore>)

  function SlotViewOf(slot: Slot, dayReminders: seq<Reminder>, dayMeds: seq<Med>, dayChores: seq<Chore>,
                      clock: Clock): SlotView
  {
    SlotView(slot, Filter(dayReminders, (r: Reminder) => ReminderInSlot(r, slot, clock)),
             Filter(dayMeds, (m: Med) => MedInSlot(m, slot)),
             if SlotTime(slot) == Morning then dayChores else [])
  }

  /** The day view: the three slots, morning first. */
  function DayViewOf(reminders: seq<Reminder>, meds: seq<Med>, chores: seq<Chore>, day: int, clock: Clock): seq<SlotView>
  {
    var rs := RemindersForDay(reminders, day, clock);
    var ms := MedicationsForDay(meds, day, clock);
    var cs := ChoresForDay(chores, day, clock);
    Map(TimeSlots, (slot: Slot) => SlotViewOf(slot, rs, ms, cs, clock))
  }

  /** A reminder of the day is in the slot its hour falls in; a medication
      active that day is in every slot whose time it lists; the day's chores
      are all in the morning slot and in no other. */
  lemma DayViewPlacement(reminders: seq<Reminder>, meds: seq<Med>, chores: seq<Chore>, day: int, clock: Clock,
                         k: nat)
    requires k < 3
    ensures var v := DayViewOf(reminders, meds, chores, day, clock);
            var slot := TimeSlots[k];
            && |v| == 3 && v[k].slot == slot
            && (forall r :: r in v[k].reminders <==> r in RemindersForDay(reminders, day, clock) && ReminderInSlot(r, slot, clock))
            && (forall m :: m in v[k].meds <==> m in MedicationsForDay(meds, day, clock) && SlotTime(slot) in m.times)
            && v[k].chores == (if k == 0 then ChoresForDay(chores, day, clock) else [])
  {
    var rs := RemindersForDay(reminders, day, clock);
    var ms := MedicationsForDay(meds, day, clock);
    var slot := TimeSlots[k];
    assert Morning != Afternoon && Morning != Evening by {
      assert Morning[0] != Afternoon[0] && Morning[0] != Evening[0];
    }
    forall r ensures r in Filter(rs, (r: Reminder) => ReminderInSlot(r, slot, clock)) <==> r in rs && ReminderInSlot(r, slot, clock) {
      if r in rs && ReminderInSlot(r, slot, clock) {
        var i :| 0 <= i < |rs| && rs[i] == r;
      }
    }
    forall m ensures m in Filter(ms, (m: Med) => MedInSlot(m, slot)) <==> m in ms && MedInSlot(m, slot) {
      if m in ms && MedInSlot(m, slot) {
        var i :| 0 <= i < |ms| && ms[i] == m;
      }
    }
  }

  /** A medication added with the slot check boxes shows in exactly the ticked slots. */
  lemma AddedMedicationSlots(m: Med, morning: bool, afternoon: bool, evening: bool)
    requires m.times == SlotTimes(morning, afternoon, evening)
    ensures MedInSlot(m, MorningSlot) <==> morning
    ensures MedInSlot(m, AfternoonSlot) <==> afternoon
    ensures MedInSlot(m, EveningSlot) <==> evening
  {
    SlotTimesListed(morning, afternoon, evening);
  }

  // ---------------------------------------------------------------------
  // The Take button
  // ---------------------------------------------------------------------

  /** isDoseTakenOnDate. */
  predicate TakenOn(logs: seq<Log>, medicineId: string, scheduledTime: string, day: int)
  {
    DoseTaken(logs, medicineId, scheduledTime, Midnight(day))
  }

  /** markDoseAsTaken's `takenAt`: the viewed day at the dose's HH:MM when both
      parts are numbers, else the viewed date with the time of day it carries. */
  function TakenAt(day: int, timeOfDay: int, scheduledTime: string): int
  {
    match Notifications.ClockTime(scheduledTime)
    case Some(hm) => Midnight(day) + hm.0 * 3600000 + hm.1 * 60000
    case None => Midnight(day) + timeOfDay
  }

  /** The log markDoseAsTaken sends, with its local day. */
  function DoseLog(medicineId: string, scheduledTime: string, day: int, timeOfDay: int): Log
  {
    Log(medicineId, scheduledTime, Some(Midnight(DayOf(TakenAt(day, timeOfDay, scheduledTime)))))
  }

  /** Whether the button takes a click: not while a log is being sent, nor
      for a dose already taken, nor on a day after today. */
  predicate TakeEnabled(pending: bool, taken: bool, day: int, today: int)
  {
    !pending && !taken && !(day > today)
  }

  /** The logs after a click on a slot's Take button. */
  function TakeClick(logs: seq<Log>, medicineId: string, slot: Slot, day: int, today: int, timeOfDay: int): seq<Log>
  {
    var taken := TakenOn(logs, medicineId, SlotTime(slot), day);
    if !taken && !(day > today) then logs + [DoseLog(medicineId, SlotTime(slot), day, timeOfDay)] else logs
  }

  /** A slot's time reads as an hour and minute of the day: 8:00, 14:00 or 20:00. */
  lemma SlotClockTime(slot: Slot)
    ensures Notifications.ClockTime(SlotTime(slot)) ==
            Some((match slot case MorningSlot => 8 case AfternoonSlot => 14 case EveningSlot => 20, 0))
  {
    match slot
    case MorningSlot => OnTheHour(Morning, 8);
    case AfternoonSlot => OnTheHour(Afternoon, 14);
    case EveningSlot => OnTheHour(Evening, 20);
  }

  /** An "hh:00" time reads as hour hh, minute 0. */
  lemma OnTheHour(t: string, hour: int)
    requires |t| == 5 && t[2] == ':' && t[3..] == "00"
    requires JsNum.IsDigit(t[0]) && JsNum.IsDigit(t[1]) && Notifications.TwoDigits(t[..2]) == hour
    ensures Notifications.ClockTime(t) == Some((hour, 0))
  {
    Notifications.ClockTimeOfDigits(t);
    assert Notifications.TwoDigits("00") == 0;
  }

  /** A slot dose's log falls on the viewed day. */
  lemma SlotLogOnDay(medicineId: string, slot: Slot, day: int, timeOfDay: int)
    ensures DoseLog(medicineId, SlotTime(slot), day, timeOfDay).takenDay == Some(Midnight(day))
  {
    SlotClockTime(slot);
    var t := TakenAt(day, timeOfDay, SlotTime(slot));
    var hm := Notifications.ClockTime(SlotTime(slot)).value;
    assert 0 <= hm.0 * 3600000 + hm.1 * 60000 < DayMs;
    JsNum.DivMod(t, DayMs, day, hm.0 * 3600000 + hm.1 * 60000);
  }

  /** A click on today's or a past day's untaken dose marks it taken for
      that day and leaves every other dose as it was; on a future day, or
      for a dose already taken, nothing changes. */
  lemma TakeClickMarksTaken(logs: seq<Log>, medicineId: string, slot: Slot, day: int, today: int, timeOfDay: int,
                            otherId: string, otherTime: string, otherDay: int)
    ensures var after := TakeClick(logs, medicineId, slot, day, today, timeOfDay);
            && (day > today ==> after == logs)
            && (day <= today ==> TakenOn(after, medicineId, SlotTime(slot), day))
            && ((otherId, otherTime, otherDay) != (medicineId, SlotTime(slot), day) ==>
                  TakenOn(after, otherId, otherTime, otherDay) == TakenOn(logs, otherId, otherTime, otherDay))
  {
    var l := DoseLog(medicineId, SlotTime(slot), day, timeOfDay);
    SlotLogOnDay(medicineId, slot, day, timeOfDay);
    LoggingMarksTaken(logs, l, medicineId, SlotTime(slot), Midnight(day));
    LoggingMarksTaken(logs, l, otherId, otherTime, Midnight(otherDay));
    if otherDay != day {
      assert Midnight(otherDay) != Midnight(day);
    }
  }

  // ---------------------------------------------------------------------
  // The add forms
  // ---------------------------------------------------------------------

  const NeedTitle: string := "Please enter a title"
  const NeedTaskName: string := "Please enter a task name"
  const NeedMedicineName: string := "Please enter a medicine name"

  /** handleAddReminder: a title is needed; the date defaults to the viewed
      day, the time to 09:00; title and description are sent trimmed, an
      empty description not at all. */
  function AddReminder(form: ReminderForm, currentDay: int, clock: Clock): (r: Submission<ReminderRequest>)
    ensures r.Rejected? <==> Blank(form.title)
    ensures r.Rejected? ==> r.reason == NeedTitle
    ensures r.Accepted? ==>
              && r.value.title == JsTrim(form.title) && r.value.title != []
              && r.value.description == OrNull(JsTrim(form.description))
              && r.value.startTime == OrDefault(form.date, clock.dateText(currentDay)) + "T"
                                      + OrDefault(form.time, "09:00") + ":00"
              && r.value.kind == "Custom" && r.value.endTime == None && r.value.isActive == Some(true)
  {
    if Blank(form.title) then Rejected(NeedTitle)
    else
      var dateStr := if form.date != [] then form.date else clock.dateText(currentDay);
      var timeStr := if form.time != [] then form.time else "09:00";
      Accepted(ReminderRequest(JsTrim(form.title), OrNull(JsTrim(form.description)), "Custom",
                               dateStr + "T" + timeStr + ":00", None, Some(true)))
  }

  /** handleAddChore: a title is needed (no family check); the chore is
      PENDING and due on the viewed day unless a date was chosen. */
  function AddChore(form: ChoreForm, currentDay: int, clock: Clock): (r: Submission<ChoreRequest>)
    ensures r.Rejected? <==> Blank(form.title)
    ensures r.Rejected? ==> r.reason == NeedTaskName
    ensures r.Accepted? ==>
              && r.value.title == form.title && r.value.assignedTo == OrNull(form.assignedTo)
              && r.value.dueDate == OrDefault(form.dueDate, clock.dateText(currentDay))
              && r.value.dueTime == OrNull(form.dueTime) && r.value.points == form.points
              && r.value.status == "PENDING"
  {
    if Blank(form.title) then Rejected(NeedTaskName)
    else
      Accepted(ChoreRequest(form.title, OrNull(form.assignedTo), form.points,
                            OrDefault(form.dueDate, clock.dateText(currentDay)), OrNull(form.dueTime), "PENDING"))
  }

  /** handleAddMedicine: only a name is needed, so no slot may be ticked; the
      start date defaults to the viewed day. */
  function AddMedicine(form: MedicineForm, currentDay: int, clock: Clock): (r: Submission<MedicineRequest>)
    ensures r.Rejected? <==> Blank(form.name)
    ensures r.Rejected? ==> r.reason == NeedMedicineName
    ensures r.Accepted? ==>
              && r.value.name == form.name
              && r.value.times == SlotTimes(form.morning, form.afternoon, form.evening)
              && r.value.inventory == InventoryOf(form.quantity)
              && r.value.startDate == Some(OrDefault(form.startDate, clock.dateText(currentDay)))
              && r.value.endDate == OrNull(form.endDate)
              && r.value.assignedTo == None && r.value.active == None
  {
    if Blank(form.name) then Rejected(NeedMedicineName)
    else
      Accepted(MedicineRequest(form.name, SlotTimes(form.morning, form.afternoon, form.evening),
                               InventoryOf(form.quantity), Some(OrDefault(form.startDate, clock.dateText(currentDay))),
                               OrNull(form.endDate), None, None))
  }
}
