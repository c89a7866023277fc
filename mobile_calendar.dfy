/**
 * The mobile calendar screen: one selected day, moved a day at a time, and
 * that day's agenda, built by pushing the day's reminders, then a row per
 * (active medicine, scheduled time), then the chores due that day, and
 * sorting the rows by their time text.
 */
module CalendarScreen {
  import opened Wrappers
  import opened Seqs
  import opened Sorting
  import opened Text
  import opened Medicine
  import TS = TodaySchedule
  import C = CalendarComponent

  // ------------------------------------------------------------ day navigation

  /** date-fns addDays (subDays with a negative count): the day of the
      month moves by `n` and rolls into the months around it. */
  function AddDays(d: C.LocalDate, n: int): (r: C.LocalDate)
    requires C.ValidDate(d)
    ensures C.ValidDate(r)
    ensures C.DayNumber(r) == C.DayNumber(d) + n
  {
    C.MonthRoll(d.year, d.month);
    C.JsDate(d.year, d.month, d.day + n)
  }

  /** The next day is the day after in the same month, or the first of the next month. */
  lemma NextDayIsTomorrow(d: C.LocalDate)
    requires C.ValidDate(d)
    ensures d.day < C.DaysInMonth(d.year, d.month) ==> AddDays(d, 1) == d.(day := d.day + 1)
    ensures d.day == C.DaysInMonth(d.year, d.month) ==>
              var (ny, nm) := C.NextMonth(d.year, d.month);
              AddDays(d, 1) == C.LocalDate(ny, nm, 1)
  {
    if d.day < C.DaysInMonth(d.year, d.month) {
      C.DayNumberInjective(AddDays(d, 1), d.(day := d.day + 1));
    } else if d.day == C.DaysInMonth(d.year, d.month) {
      var (ny, nm) := C.NextMonth(d.year, d.month);
      C.MonthStep(d.year, d.month);
      C.DayNumberInjective(AddDays(d, 1), C.LocalDate(ny, nm, 1));
    }
  }

  /** The previous day and the next day undo each other. */
  lemma PrevUndoesNext(d: C.LocalDate)
    requires C.ValidDate(d)
    ensures AddDays(AddDays(d, 1), -1) == d
    ensures AddDays(AddDays(d, -1), 1) == d
  {
    C.DayNumberInjective(AddDays(AddDays(d, 1), -1), d);
    C.DayNumberInjective(AddDays(AddDays(d, -1), 1), d);
  }

  // ------------------------------------------------------------ the agenda rows

  datatype Kind = ReminderRow | MedicineRow | ChoreRow

  /** An agenda row; a reminder row carries no completed flag. Icons and
      colours follow from the kind and the flag. */
  datatype Event = Event(id: string, kind: Kind, title: string, time: string, completed: Option<bool>)

  /** What the screen reads off dates: `format(date, 'yyyy-MM-dd')`, the
      local day a date and an ISO text fall on (None for an Invalid Date),
      and `format(parseISO(s), 'h:mm a')`. */
  datatype Clock = Clock(dateText: C.LocalDate -> string, dayKey: C.LocalDate -> int,
                         dayOf: string -> Option<int>, formatTime: string -> string)

  /** An active reminder starting on the day. */
  predicate OnDay(r: TS.Reminder, day: int, clock: Clock)
  {
    r.isActive == Some(true) && clock.dayOf(r.startTime) == Some(day)
  }

  function ReminderEvent(r: TS.Reminder, clock: Clock): Event
  {
    Event(r.id, ReminderRow, r.title, clock.formatTime(r.startTime), None)
  }

  /** The first loop, reminder by reminder. */
  function ReminderEvents(rs: seq<TS.Reminder>, day: int, clock: Clock): seq<Event>
    decreases |rs|
  {
    if rs == [] then []
    else
      var r := rs[|rs| - 1];
      ReminderEvents(rs[..|rs| - 1], day, clock) + (if OnDay(r, day, clock) then [ReminderEvent(r, clock)] else [])
  }

  /** The reminder rows are the reminders on the day, one row each, in list order. */
  lemma {:induction false} ReminderEventsExact(rs: seq<TS.Reminder>, day: int, clock: Clock, p: TS.Reminder -> bool)
    requires forall r :: p(r) == OnDay(r, day, clock)
    ensures ReminderEvents(rs, day, clock) == Map(Filter(rs, p), (r: TS.Reminder) => ReminderEvent(r, clock))
    decreases |rs|
  {
    if rs != [] {
      var init := rs[..|rs| - 1];
      var r := rs[|rs| - 1];
      ReminderEventsExact(init, day, clock, p);
      assert rs == init + [r];
      FilterSnoc(init, r, p);
      var f := Filter(init, p);
      MapSnoc(f, r, (r: TS.Reminder) => ReminderEvent(r, clock));
    }
  }

  /** The row of one scheduled time; completed when a log that day has that time. */
  function DoseEvent(m: Med, time: string, logged: seq<string>): Event
  {
    Event(m.id + "-" + time, MedicineRow, m.name, time, Some(time in logged))
  }

  /** The inner loop, time by time. */
  function DoseEvents(m: Med, times: seq<string>, logged: seq<string>): seq<Event>
    decreases |times|
  {
    if times == [] then []
    else DoseEvents(m, times[..|times| - 1], logged) + [DoseEvent(m, times[|times| - 1], logged)]
  }

  /** The outer loop, over the active medicines. */
  function MedEvents(meds: seq<Med>, logs: seq<Log>, day: int): seq<Event>
    decreases |meds|
  {
    if meds == [] then []
    else
      var m := meds[|meds| - 1];
      MedEvents(meds[..|meds| - 1], logs, day) + DoseEvents(m, m.times, LoggedTimes(logs, m.id, day))
  }

  function ActiveMeds(meds: seq<Med>): seq<Med>
  {
    Filter(meds, (m: Med) => m.active)
  }

  /** One row per scheduled time, in order, each naming its medicine and
      time and completed exactly when that dose was taken on the day. */
  lemma {:induction false} DoseEventsExact(m: Med, times: seq<string>, logs: seq<Log>, day: int)
    ensures |DoseEvents(m, times, LoggedTimes(logs, m.id, day))| == |times|
    ensures forall k :: 0 <= k < |times| ==>
              DoseEvents(m, times, LoggedTimes(logs, m.id, day))[k] ==
                Event(m.id + "-" + times[k], MedicineRow, m.name, times[k], Some(DoseTaken(logs, m.id, times[k], day)))
    decreases |times|
  {
    if times != [] {
      var init := times[..|times| - 1];
      var t := times[|times| - 1];
      DoseEventsExact(m, init, logs, day);
      LoggedTimesTaken(logs, m.id, day, t);
      var e := DoseEvents(m, times, LoggedTimes(logs, m.id, day));
      forall k | 0 <= k < |times|
        ensures e[k] == Event(m.id + "-" + times[k], MedicineRow, m.name, times[k], Some(DoseTaken(logs, m.id, times[k], day)))
      {
        if k < |init| {
          assert init[k] == times[k];
        }
      }
    }
  }

  function TimesCount(m: Med): int { |m.times| }

  /** As many medicine rows as the active medicines have scheduled times. */
  lemma {:induction false} MedEventsCount(meds: seq<Med>, logs: seq<Log>, day: int)
    ensures |MedEvents(meds, logs, day)| == SumOf(meds, TimesCount)
    decreases |meds|
  {
    if meds != [] {
      var m := meds[|meds| - 1];
      MedEventsCount(meds[..|meds| - 1], logs, day);
      DoseEventsExact(m, m.times, logs, day);
    }
  }

  function ChoreEvent(c: TS.Chore): Event
  {
    Event(c.id, ChoreRow, c.title, "All day", Some(c.status == "COMPLETED"))
  }

  /** The last loop, over the chores due that day. */
  function ChoreEvents(cs: seq<TS.Chore>): seq<Event>
    decreases |cs|
  {
    if cs == [] then [] else ChoreEvents(cs[..|cs| - 1]) + [ChoreEvent(cs[|cs| - 1])]
  }

  function DueChores(chores: seq<TS.Chore>, dateStr: string): seq<TS.Chore>
  {
    Filter(chores, (c: TS.Chore) => c.dueDate == dateStr)
  }

  /** One 'All day' row per chore, in order, completed exactly when its status is COMPLETED. */
  lemma {:induction false} ChoreEventsExact(cs: seq<TS.Chore>)
    ensures |ChoreEvents(cs)| == |cs|
    ensures forall k :: 0 <= k < |cs| ==>
              ChoreEvents(cs)[k] == Event(cs[k].id, ChoreRow, cs[k].title, "All day", Some(cs[k].status == "COMPLETED"))
    decreases |cs|
  {
    if cs != [] {
      var init := cs[..|cs| - 1];
      ChoreEventsExact(init);
      forall k | 0 <= k < |cs|
        ensures ChoreEvents(cs)[k] == Event(cs[k].id, ChoreRow, cs[k].title, "All day", Some(cs[k].status == "COMPLETED"))
      {
        if k < |init| {
          assert init[k] == cs[k];
        }
      }
    }
  }

  /** `a.time.localeCompare(b.time) < 0`, read as character order. */
  predicate TimeBefore(a: Event, b: Event)
  {
    StrLess(a.time, b.time)
  }

  lemma TimeBeforeIsStrictWeak()
    ensures StrictWeak(TimeBefore)
  {
    forall a: Event, b: Event | TimeBefore(a, b) ensures !TimeBefore(b, a) {
      StrLessTrichotomy(a.time, b.time);
    }
    forall a: Event, b: Event, c: Event | !TimeBefore(b, a) && !TimeBefore(c, b) ensures !TimeBefore(c, a) {
      StrLessTrichotomy(a.time, b.time);
      StrLessTrichotomy(b.time, c.time);
      StrLessTrichotomy(a.time, c.time);
      if StrLess(c.time, a.time) {
        if StrLess(a.time, b.time) {
          StrLessTransitive(c.time, a.time, b.time);
        }
      }
    }
  }

  /** The rows before sorting. */
  function Pushed(reminders: seq<TS.Reminder>, meds: seq<Med>, logs: seq<Log>, chores: seq<TS.Chore>,
                  date: C.LocalDate, clock: Clock): seq<Event>
  {
    var day := clock.dayKey(date);
    ReminderEvents(reminders, day, clock) + MedEvents(ActiveMeds(meds), logs, day)
      + ChoreEvents(DueChores(chores, clock.dateText(date)))
  }

  /** getEventsForDate's result: the pushed rows, stably sorted by time text. */
  function EventsFor(reminders: seq<TS.Reminder>, meds: seq<Med>, logs: seq<Log>, chores: seq<TS.Chore>,
                     date: C.LocalDate, clock: Clock): seq<Event>
  {
    SortWith(Pushed(reminders, meds, logs, chores, date, clock), TimeBefore)
  }

  /** The agenda holds exactly the pushed rows, ordered by time text. */
  lemma EventsSorted(reminders: seq<TS.Reminder>, meds: seq<Med>, logs: seq<Log>, chores: seq<TS.Chore>,
                     date: C.LocalDate, clock: Clock)
    ensures SortedBy(EventsFor(reminders, meds, logs, chores, date, clock), TimeBefore)
    ensures multiset(EventsFor(reminders, meds, logs, chores, date, clock)) ==
            multiset(Pushed(reminders, meds, logs, chores, date, clock))
  {
    TimeBeforeIsStrictWeak();
    SortWithSorted(Pushed(reminders, meds, logs, chores, date, clock), TimeBefore);
  }

  // ------------------------------------------------------------ the loops

  method PushReminders(events: seq<Event>, reminders: seq<TS.Reminder>, day: int, clock: Clock)
      returns (out: seq<Event>)
    ensures out == events + ReminderEvents(reminders, day, clock)
  {
    out := events;
    for i := 0 to |reminders|
      invariant out == events + ReminderEvents(reminders[..i], day, clock)
    {
      assert reminders[..i + 1][..i] == reminders[..i];
      var r := reminders[i];
      if r.isActive == Some(true) && clock.dayOf(r.startTime) == Some(day) {
        out := out + [ReminderEvent(r, clock)];
      }
    }
    assert reminders[..|reminders|] == reminders;
  }

  method PushDoses(events: seq<Event>, m: Med, logged: seq<string>) returns (out: seq<Event>)
    ensures out == events + DoseEvents(m, m.times, logged)
  {
    out := events;
    for j := 0 to |m.times|
      invariant out == events + DoseEvents(m, m.times[..j], logged)
    {
      assert m.times[..j + 1][..j] == m.times[..j];
      out := out + [DoseEvent(m, m.times[j], logged)];
    }
    assert m.times[..|m.times|] == m.times;
  }

  method PushMedicines(events: seq<Event>, active: seq<Med>, logs: seq<Log>, day: int) returns (out: seq<Event>)
    ensures out == events + MedEvents(active, logs, day)
  {
    out := events;
    for i := 0 to |active|
      invariant out == events + MedEvents(active[..i], logs, day)
    {
      assert active[..i + 1][..i] == active[..i];
      var m := active[i];
      var logged := LoggedTimes(logs, m.id, day);
      out := PushDoses(out, m, logged);
    }
    assert active[..|active|] == active;
  }

  method PushChores(events: seq<Event>, due: seq<TS.Chore>) returns (out: seq<Event>)
    ensures out == events + ChoreEvents(due)
  {
    out := events;
    for i := 0 to |due|
      invariant out == events + ChoreEvents(due[..i])
    {
      assert due[..i + 1][..i] == due[..i];
      out := out + [ChoreEvent(due[i])];
    }
    assert due[..|due|] == due;
  }

  /** getEventsForDate. */
  method GetEventsForDate(reminders: seq<TS.Reminder>, meds: seq<Med>, logs: seq<Log>, chores: seq<TS.Chore>,
                          date: C.LocalDate, clock: Clock) returns (events: seq<Event>)
    ensures events == EventsFor(reminders, meds, logs, chores, date, clock)
  {
    var dateStr := clock.dateText(date);
    var day := clock.dayKey(date);
    events := PushReminders([], reminders, day, clock);
    assert events == ReminderEvents(reminders, day, clock);
    events := PushMedicines(events, ActiveMeds(meds), logs, day);
    events := PushChores(events, DueChores(chores, dateStr));
    events := SortWith(events, TimeBefore);
  }

  /** The screen's selected day. */
  class Screen {
    var selectedDate: C.LocalDate

    predicate Valid()
      reads this
    {
      C.ValidDate(selectedDate)
    }

    constructor(today: C.LocalDate)
      requires C.ValidDate(today)
      ensures Valid() && selectedDate == today
    {
      selectedDate := today;
    }

    method GoToPrevDay()
      requires Valid()
      modifies this
      ensures Valid() && selectedDate == AddDays(old(selectedDate), -1)
    {
      selectedDate := AddDays(selectedDate, -1);
    }

    method GoToNextDay()
      requires Valid()
      modifies this
      ensures Valid() && selectedDate == AddDays(old(selectedDate), 1)
    {
      selectedDate := AddDays(selectedDate, 1);
    }

    method GoToToday(today: C.LocalDate)
      requires C.ValidDate(today)
      modifies this
      ensures Valid() && selectedDate == today
    {
      selectedDate := today;
    }
  }
}
