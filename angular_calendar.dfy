/**
 * The Angular calendar component: a month grid of 42 cells built in three
 * loops (the tail of the previous month, the month itself, the head of the
 * next month), month navigation, and the event form opened from a cell.
 *
 * Dates are local calendar dates in the proleptic Gregorian calendar, with
 * months counted from 0 as JavaScript's Date does; the time of day plays no
 * part in the grid and is left out.
 */
module CalendarComponent {
  import opened Wrappers
  import opened Seqs
  import opened JsNum

  // ---------------------------------------------------------------------
  // Local dates
  // ---------------------------------------------------------------------

  /** A local date; `month` is 0 for January. */
  datatype LocalDate = LocalDate(year: int, month: int, day: int)

  predicate IsLeap(y: int) { y % 4 == 0 && (y % 100 != 0 || y % 400 == 0) }

  function DaysInMonth(y: int, m: int): (r: int)
    ensures 28 <= r <= 31
  {
    if m == 1 then (if IsLeap(y) then 29 else 28)
    else if m == 3 || m == 5 || m == 8 || m == 10 then 30
    else 31
  }

  predicate ValidDate(d: LocalDate)
  {
    0 <= d.month < 12 && 1 <= d.day <= DaysInMonth(d.year, d.month)
  }

  function YearLength(y: int): int { if IsLeap(y) then 366 else 365 }

  /** The days of year 0 up to year `y`: 365 each, plus the leap days. */
  function DaysBeforeYear(y: int): int
  {
    365 * y + (y + 3) / 4 - (y + 99) / 100 + (y + 399) / 400
  }

  /** The days of year `y` before the first of month `m`. */
  function DaysBeforeMonth(y: int, m: int): int
  {
    var common :=
      if m <= 0 then 0 else if m == 1 then 31 else if m == 2 then 59 else if m == 3 then 90
      else if m == 4 then 120 else if m == 5 then 151 else if m == 6 then 181 else if m == 7 then 212
      else if m == 8 then 243 else if m == 9 then 273 else if m == 10 then 304 else 334;
    common + if m >= 2 && IsLeap(y) then 1 else 0
  }

  /** Days since 1 January of year 0. */
  function DayNumber(d: LocalDate): int
  {
    DaysBeforeYear(d.year) + DaysBeforeMonth(d.year, d.month) + d.day - 1
  }

  /** `getDay()`: 0 for Sunday; 1 January 1970 was a Thursday. */
  function Weekday(d: LocalDate): (r: int)
    ensures 0 <= r < 7
  {
    (DayNumber(d) + 6) % 7
  }

  /** The month before and the month after, across year ends. */
  function PrevMonth(y: int, m: int): (int, int) { if m == 0 then (y - 1, 11) else (y, m - 1) }
  function NextMonth(y: int, m: int): (int, int) { if m == 11 then (y + 1, 0) else (y, m + 1) }

  /** The multiples of `b` below `y + 1` are those below `y`, and one more
      when `y` is a multiple. */
  lemma MultiplesStep(y: int, b: int)
    requires b > 0
    ensures (y + b) / b == (y + b - 1) / b + (if y % b == 0 then 1 else 0)
  {
    DivModFundamental(y, b);
    var q, r := y / b, y % b;
    DivMod(y + b, b, q + 1, r);
    if r == 0 {
      DivMod(y + b - 1, b, q, b - 1);
    } else {
      DivMod(y + b - 1, b, q + 1, r - 1);
    }
  }

  /** A year is as long as the leap-day count says. */
  lemma YearStep(y: int)
    ensures DaysBeforeYear(y + 1) == DaysBeforeYear(y) + YearLength(y)
  {
    MultiplesStep(y, 4);
    MultiplesStep(y, 100);
    MultiplesStep(y, 400);
    LeapCount(y);
    assert y + 1 + 3 == y + 4 && y + 1 + 99 == y + 100 && y + 1 + 399 == y + 400;
  }

  /** A leap year is a multiple of 4, less the multiples of 100, plus the multiples of 400. */
  lemma LeapCount(y: int)
    ensures (if y % 4 == 0 then 1 else 0) - (if y % 100 == 0 then 1 else 0) + (if y % 400 == 0 then 1 else 0)
            == if IsLeap(y) then 1 else 0
  {
    if y % 100 == 0 {
      DivModFundamental(y, 100);
      DivMod(y, 4, (y / 100) * 25, 0);
    }
    if y % 400 == 0 {
      DivModFundamental(y, 400);
      DivMod(y, 100, (y / 400) * 4, 0);
    }
  }

  /** The next month starts as many days after this one as this one is long. */
  lemma MonthStep(y: int, m: int)
    requires 0 <= m < 12
    ensures var (ny, nm) := NextMonth(y, m);
            DayNumber(LocalDate(ny, nm, 1)) == DayNumber(LocalDate(y, m, 1)) + DaysInMonth(y, m)
  {
    if m == 11 {
      YearStep(y);
    }
  }

  /** `new Date(y, m, day)` once the month is in range: a day out of the
      month's range rolls into the months before or after. */
  function Normal(y: int, m: int, day: int): (r: LocalDate)
    requires 0 <= m < 12
    ensures ValidDate(r)
    ensures DayNumber(r) == DayNumber(LocalDate(y, m, 1)) + day - 1
    ensures 1 <= day <= DaysInMonth(y, m) ==> r == LocalDate(y, m, day)
    decreases if day < 1 then 1 else 0, if day < 1 then 1 - day else day
  {
    if day < 1 then
      var (py, pm) := PrevMonth(y, m);
      MonthStep(py, pm);
      Normal(py, pm, day + DaysInMonth(py, pm))
    else if day > DaysInMonth(y, m) then
      var (ny, nm) := NextMonth(y, m);
      MonthStep(y, m);
      Normal(ny, nm, day - DaysInMonth(y, m))
    else LocalDate(y, m, day)
  }

  /** `new Date(year, month, day)`: the month rolls into the year first. */
  function JsDate(year: int, month: int, day: int): (r: LocalDate)
    ensures ValidDate(r)
    ensures DayNumber(r) == DayNumber(LocalDate(year + month / 12, month % 12, 1)) + day - 1
  {
    Normal(year + month / 12, month % 12, day)
  }

  /** A later month starts no earlier than the end of an earlier one. */
  lemma {:induction false} LaterMonthStartsLater(y1: int, m1: int, y2: int, m2: int)
    requires 0 <= m1 < 12 && 0 <= m2 < 12 && 12 * y1 + m1 < 12 * y2 + m2
    ensures DayNumber(LocalDate(y1, m1, 1)) + DaysInMonth(y1, m1) <= DayNumber(LocalDate(y2, m2, 1))
    decreases 12 * y2 + m2 - 12 * y1 - m1
  {
    var (py, pm) := PrevMonth(y2, m2);
    assert NextMonth(py, pm) == (y2, m2);
    MonthStep(py, pm);
    var start := DayNumber(LocalDate(py, pm, 1));
    assert start + DaysInMonth(py, pm) == DayNumber(LocalDate(y2, m2, 1));
    if 12 * py + pm == 12 * y1 + m1 {
      assert py == y1 && pm == m1;
    } else {
      LaterMonthStartsLater(y1, m1, py, pm);
      assert DayNumber(LocalDate(y1, m1, 1)) + DaysInMonth(y1, m1) <= start;
    }
  }

  /** Different valid dates have different day numbers. */
  lemma DayNumberInjective(a: LocalDate, b: LocalDate)
    requires ValidDate(a) && ValidDate(b) && DayNumber(a) == DayNumber(b)
    ensures a == b
  {
    if 12 * a.year + a.month < 12 * b.year + b.month {
      LaterMonthStartsLater(a.year, a.month, b.year, b.month);
      assert false;
    } else if 12 * b.year + b.month < 12 * a.year + a.month {
      LaterMonthStartsLater(b.year, b.month, a.year, a.month);
      assert false;
    }
  }

  /** The month index in which `month` rolls over: one before and one after
      a month in range. */
  lemma MonthRoll(year: int, month: int)
    requires 0 <= month < 12
    ensures (year + (month + 1) / 12, (month + 1) % 12) == NextMonth(year, month)
    ensures (year + (month - 1) / 12, (month - 1) % 12) == PrevMonth(year, month)
    ensures year + month / 12 == year && month % 12 == month
  {
    if month == 11 {
      DivMod(month + 1, 12, 1, 0);
    } else {
      DivMod(month + 1, 12, 0, month + 1);
    }
    if month == 0 {
      DivMod(month - 1, 12, -1, 11);
    } else {
      DivMod(month - 1, 12, 0, month - 1);
    }
    DivMod(month, 12, 0, month);
  }

  /** `new Date(year, month, 1)` is the month's first day, and
      `new Date(year, month + 1, 0)` its last. */
  lemma FirstAndLastDay(year: int, month: int)
    requires 0 <= month < 12
    ensures JsDate(year, month, 1) == LocalDate(year, month, 1)
    ensures JsDate(year, month + 1, 0) == LocalDate(year, month, DaysInMonth(year, month))
  {
    MonthRoll(year, month);
    var (ny, nm) := NextMonth(year, month);
    var (py, pm) := PrevMonth(ny, nm);
    assert (py, pm) == (year, month);
  }

  /** `new Date(year, month + k)` is the first of the month `k` months on. */
  lemma MonthShift(year: int, month: int, k: int)
    requires 0 <= month < 12 && (k == 1 || k == -1)
    ensures JsDate(year, month + k, 1) ==
              if k == 1 then LocalDate(NextMonth(year, month).0, NextMonth(year, month).1, 1)
              else LocalDate(PrevMonth(year, month).0, PrevMonth(year, month).1, 1)
  {
    MonthRoll(year, month);
  }

  /** Going back a month and forward again returns to the month. */
  lemma PrevNextInverse(year: int, month: int)
    requires 0 <= month < 12
    ensures var back := JsDate(year, month - 1, 1);
            JsDate(back.year, back.month + 1, 1) == LocalDate(year, month, 1)
  {
    MonthShift(year, month, -1);
    var back := JsDate(year, month - 1, 1);
    MonthShift(back.year, back.month, 1);
  }

  /** The month's position on a line of months. */
  function MonthIndex(d: LocalDate): int { 12 * d.year + d.month }

  /** Navigation moves exactly one month and lands on the first. */
  lemma MonthShiftIsOneMonth(year: int, month: int, k: int)
    requires 0 <= month < 12 && (k == 1 || k == -1)
    ensures MonthIndex(JsDate(year, month + k, 1)) == MonthIndex(LocalDate(year, month, 1)) + k
    ensures JsDate(year, month + k, 1).day == 1
  {
    MonthShift(year, month, k);
  }

  // ---------------------------------------------------------------------
  // The grid
  // ---------------------------------------------------------------------

  /** A grid cell. */
  datatype Cell = Cell(day: int, date: LocalDate, otherMonth: bool, isToday: bool)

  /** Cell `k` of the grid of month `month` of `year`, as the three loops
      push it. */
  function CellAt(year: int, month: int, today: LocalDate, k: int): Cell
    requires 0 <= month < 12
  {
    var w := Weekday(LocalDate(year, month, 1));
    var n := DaysInMonth(year, month);
    if k < w then
      var date := JsDate(year, month, -w + k + 1);
      Cell(date.day, date, true, false)
    else if k < w + n then
      var date := JsDate(year, month, k - w + 1);
      Cell(k - w + 1, date, false, date == today)
    else
      Cell(k - w - n + 1, JsDate(year, month + 1, k - w - n + 1), true, false)
  }

  /** The 42 cells. */
  function Grid(year: int, month: int, today: LocalDate): seq<Cell>
    requires 0 <= month < 12
  {
    seq(42, k requires 0 <= k < 42 => CellAt(year, month, today, k))
  }

  /** `cells` are the grid's first `i` cells. */
  ghost predicate GridPrefix(cells: seq<Cell>, year: int, month: int, today: LocalDate, i: int)
    requires 0 <= month < 12
  {
    |cells| == i && forall k :: 0 <= k < i ==> cells[k] == CellAt(year, month, today, k)
  }

  /** Cell `k` is `k` days after the Sunday `w` days before the first. */
  lemma CellDayNumber(year: int, month: int, today: LocalDate, k: int)
    requires 0 <= month < 12 && 0 <= k < 42
    ensures ValidDate(CellAt(year, month, today, k).date)
    ensures DayNumber(CellAt(year, month, today, k).date) ==
              DayNumber(LocalDate(year, month, 1)) - Weekday(LocalDate(year, month, 1)) + k
  {
    var first := LocalDate(year, month, 1);
    var w := Weekday(first);
    var n := DaysInMonth(year, month);
    MonthRoll(year, month);
    if k < w {
      assert CellAt(year, month, today, k).date == JsDate(year, month, -w + k + 1);
    } else if k < w + n {
      assert CellAt(year, month, today, k).date == JsDate(year, month, k - w + 1);
    } else {
      var (ny, nm) := NextMonth(year, month);
      MonthStep(year, month);
      var date := JsDate(year, month + 1, k - w - n + 1);
      assert CellAt(year, month, today, k).date == date;
      assert DayNumber(date) == DayNumber(LocalDate(ny, nm, 1)) + k - w - n;
    }
  }

  /** Day numbers `w` apart from `w`'s weekday fall on a Sunday-based grid. */
  lemma GridWeekday(first: LocalDate, d: LocalDate, k: int)
    requires 0 <= k && DayNumber(d) == DayNumber(first) - Weekday(first) + k
    ensures Weekday(d) == k % 7
  {
    DivModFundamental(DayNumber(first) + 6, 7);
    DivModFundamental(k, 7);
    DivMod(DayNumber(d) + 6, 7, (DayNumber(first) + 6) / 7 + k / 7, k % 7);
  }

  lemma FullPrefixIsGrid(cells: seq<Cell>, year: int, month: int, today: LocalDate)
    requires 0 <= month < 12 && GridPrefix(cells, year, month, today, 42)
    ensures cells == Grid(year, month, today)
  {
  }

  /** The cells are 42 consecutive days from a Sunday: the day numbers go up
      by one, and cell `k` falls on weekday `k % 7`. */
  lemma GridConsecutive(year: int, month: int, today: LocalDate)
    requires 0 <= month < 12
    ensures var g := Grid(year, month, today);
            && |g| == 42
            && (forall k :: 0 <= k < 42 ==> ValidDate(g[k].date))
            && (forall k :: 0 <= k < 41 ==> DayNumber(g[k + 1].date) == DayNumber(g[k].date) + 1)
            && (forall k :: 0 <= k < 42 ==> Weekday(g[k].date) == k % 7)
  {
    var g := Grid(year, month, today);
    var first := LocalDate(year, month, 1);
    forall k | 0 <= k < 42
      ensures ValidDate(g[k].date) && DayNumber(g[k].date) == DayNumber(first) - Weekday(first) + k
    {
      CellDayNumber(year, month, today, k);
    }
    forall k | 0 <= k < 42 ensures Weekday(g[k].date) == k % 7 {
      GridWeekday(first, g[k].date, k);
    }
  }

  /** The first `w` cells, `w` the weekday of the first, are the last days
      of the previous month, marked as another month's and not today. */
  lemma GridLead(year: int, month: int, today: LocalDate, k: int)
    requires 0 <= month < 12
    requires 0 <= k < Weekday(LocalDate(year, month, 1))
    ensures var c := Grid(year, month, today)[k];
            var w := Weekday(LocalDate(year, month, 1));
            var (py, pm) := PrevMonth(year, month);
            && c.otherMonth && !c.isToday
            && c.date == LocalDate(py, pm, DaysInMonth(py, pm) - w + k + 1)
            && c.day == c.date.day
  {
    var w := Weekday(LocalDate(year, month, 1));
    var (py, pm) := PrevMonth(year, month);
    var d := -w + k + 1;
    MonthRoll(year, month);
    assert JsDate(year, month, d) == Normal(year, month, d);
    assert Normal(year, month, d) == Normal(py, pm, d + DaysInMonth(py, pm));
    assert 1 <= d + DaysInMonth(py, pm) <= DaysInMonth(py, pm);
    assert Grid(year, month, today)[k] == CellAt(year, month, today, k);
  }

  /** The next `n` cells, `n` the month's length, are its days 1 to `n` in
      order, marked as this month's, and today exactly when they are today. */
  lemma GridMonth(year: int, month: int, today: LocalDate, d: int)
    requires 0 <= month < 12 && 1 <= d <= DaysInMonth(year, month)
    ensures var w := Weekday(LocalDate(year, month, 1));
            var c := Grid(year, month, today)[w + d - 1];
            && c == Cell(d, LocalDate(year, month, d), false, LocalDate(year, month, d) == today)
  {
    MonthRoll(year, month);
  }

  /** The remaining cells are the next month's first days, numbered from 1
      and marked as another month's. */
  lemma GridTrail(year: int, month: int, today: LocalDate, k: int)
    requires 0 <= month < 12
    requires Weekday(LocalDate(year, month, 1)) + DaysInMonth(year, month) <= k < 42
    ensures var c := Grid(year, month, today)[k];
            var j := k - Weekday(LocalDate(year, month, 1)) - DaysInMonth(year, month) + 1;
            var (ny, nm) := NextMonth(year, month);
            && c == Cell(j, LocalDate(ny, nm, j), true, false)
  {
    MonthRoll(year, month);
  }

  /** Only cells of the month itself can be today, and at most one is. */
  lemma GridTodayOnce(year: int, month: int, today: LocalDate)
    requires 0 <= month < 12
    ensures var g := Grid(year, month, today);
            && (forall k :: 0 <= k < 42 && g[k].isToday ==> !g[k].otherMonth && g[k].date == today)
            && (forall j, k :: 0 <= j < k < 42 && g[j].isToday ==> !g[k].isToday)
  {
    var g := Grid(year, month, today);
    GridConsecutive(year, month, today);
    forall j, k | 0 <= j < k < 42 && g[j].isToday ensures !g[k].isToday {
      DayNumberGrows(g, j, k);
    }
  }

  /** Consecutive day numbers never repeat a date. */
  lemma DayNumberGrows(g: seq<Cell>, j: int, k: int)
    requires 0 <= j < k < |g|
    requires forall i :: 0 <= i < |g| - 1 ==> DayNumber(g[i + 1].date) == DayNumber(g[i].date) + 1
    ensures g[j].date != g[k].date
    decreases k - j
  {
    if k > j + 1 {
      DayNumberGrows(g, j, k - 1);
      DayNumberAbove(g, j, k - 1);
    }
  }

  lemma DayNumberAbove(g: seq<Cell>, j: int, k: int)
    requires 0 <= j <= k < |g|
    requires forall i :: 0 <= i < |g| - 1 ==> DayNumber(g[i + 1].date) == DayNumber(g[i].date) + 1
    ensures DayNumber(g[k].date) == DayNumber(g[j].date) + (k - j)
    decreases k - j
  {
    if k > j {
      DayNumberAbove(g, j, k - 1);
    }
  }

  // ---------------------------------------------------------------------
  // Events and the form
  // ---------------------------------------------------------------------

  datatype EventType = Family | School | Medical | Other

  /** The fields of a calendar event this component reads. */
  datatype CalendarEvent = CalendarEvent(id: string, title: string, startTime: string, eventType: EventType)

  /** The event form, a CreateEventRequest. */
  datatype EventForm = EventForm(title: string, description: string, startTime: string, endTime: string,
                                 eventType: EventType, participantIds: seq<string>)

  const BlankForm := EventForm([], [], [], [], Other, [])

  /** getEventsForDay: the events whose start, read as a local date by
      `dateOf` (None for an Invalid Date), is the cell's date. */
  function EventsForDay(events: seq<CalendarEvent>, date: LocalDate, dateOf: string -> Option<LocalDate>)
    : (r: seq<CalendarEvent>)
    ensures forall i :: 0 <= i < |r| ==> r[i] in events && dateOf(r[i].startTime) == Some(date)
    ensures forall i :: 0 <= i < |events| && dateOf(events[i].startTime) == Some(date) ==> events[i] in r
  {
    Filter(events, (e: CalendarEvent) => dateOf(e.startTime) == Some(date))
  }

  /** `toISOString().slice(0, 16)`: the date and the minutes. */
  function IsoMinutes(iso: string): (r: string)
    ensures |r| == Min(16, |iso|) && r == iso[..|r|]
  {
    iso[..Min(16, |iso|)]
  }

  /** The form selectDate opens: blank, starting and ending at the cell. */
  function FormAt(iso: string): (r: EventForm)
    ensures r.startTime == r.endTime == IsoMinutes(iso)
    ensures r.title == [] && r.description == [] && r.eventType == Other && r.participantIds == []
  {
    EventForm([], [], IsoMinutes(iso), IsoMinutes(iso), Other, [])
  }

  // ---------------------------------------------------------------------
  // The component's state
  // ---------------------------------------------------------------------

  class Calendar {
    var events: seq<CalendarEvent>
    var calendarDays: seq<Cell>
    var currentDate: LocalDate
    var showModal: bool
    var editingEvent: Option<CalendarEvent>
    var eventForm: EventForm

    predicate Valid()
      reads this
    {
      ValidDate(currentDate)
    }

    /** The component before ngOnInit; `now` is `new Date()`. */
    constructor (now: LocalDate)
      requires ValidDate(now)
      ensures Valid() && currentDate == now
      ensures events == [] && calendarDays == [] && !showModal && editingEvent.None? && eventForm == BlankForm
    {
      events, calendarDays := [], [];
      currentDate := now;
      showModal := false;
      editingEvent := None;
      eventForm := BlankForm;
    }

    /** loadEvents, once the events arrive. */
    method LoadEvents(fetched: seq<CalendarEvent>)
      modifies this
      ensures events == fetched
      ensures calendarDays == old(calendarDays) && currentDate == old(currentDate)
      ensures showModal == old(showModal) && editingEvent == old(editingEvent) && eventForm == old(eventForm)
    {
      events := fetched;
    }

    /** generateCalendarDays, `today` being `new Date()`. */
    method GenerateCalendarDays(today: LocalDate)
      requires Valid()
      modifies this
      ensures Valid()
      ensures calendarDays == Grid(currentDate.year, currentDate.month, today)
      ensures events == old(events) && currentDate == old(currentDate)
      ensures showModal == old(showModal) && editingEvent == old(editingEvent) && eventForm == old(eventForm)
    {
      var year := currentDate.year;
      var month := currentDate.month;
      var firstDay := JsDate(year, month, 1);
      var lastDay := JsDate(year, month + 1, 0);
      FirstAndLastDay(year, month);
      calendarDays := [];
      PushLeadDays(year, month, today, Weekday(firstDay));
      PushMonthDays(year, month, today, lastDay.day);
      var remaining := 42 - |calendarDays|;
      PushTrailDays(year, month, today, remaining);
      FullPrefixIsGrid(calendarDays, year, month, today);
    }

    /** The first loop: the previous month's days before the first. */
    method PushLeadDays(year: int, month: int, today: LocalDate, w: int)
      requires 0 <= month < 12 && w == Weekday(LocalDate(year, month, 1)) && calendarDays == []
      modifies this
      ensures GridPrefix(calendarDays, year, month, today, w)
      ensures events == old(events) && currentDate == old(currentDate)
      ensures showModal == old(showModal) && editingEvent == old(editingEvent) && eventForm == old(eventForm)
    {
      for i := 0 to w
        invariant unchanged(`events, `currentDate, `showModal, `editingEvent, `eventForm)
        invariant GridPrefix(calendarDays, year, month, today, i)
      {
        var date := JsDate(year, month, -w + i + 1);
        calendarDays := calendarDays + [Cell(date.day, date, true, false)];
      }
    }

    /** The second loop: days 1 to `n` of the month. */
    method PushMonthDays(year: int, month: int, today: LocalDate, n: int)
      requires 0 <= month < 12 && n == DaysInMonth(year, month)
      requires GridPrefix(calendarDays, year, month, today, Weekday(LocalDate(year, month, 1)))
      modifies this
      ensures GridPrefix(calendarDays, year, month, today, Weekday(LocalDate(year, month, 1)) + n)
      ensures events == old(events) && currentDate == old(currentDate)
      ensures showModal == old(showModal) && editingEvent == old(editingEvent) && eventForm == old(eventForm)
    {
      ghost var w := Weekday(LocalDate(year, month, 1));
      MonthRoll(year, month);
      for i := 1 to n + 1
        invariant unchanged(`events, `currentDate, `showModal, `editingEvent, `eventForm)
        invariant GridPrefix(calendarDays, year, month, today, w + i - 1)
      {
        var date := JsDate(year, month, i);
        calendarDays := calendarDays + [Cell(i, date, false, date == today)];
      }
    }

    /** The third loop: the next month's days up to 42 cells. */
    method PushTrailDays(year: int, month: int, today: LocalDate, remaining: int)
      requires 0 <= month < 12 && remaining == 42 - |calendarDays|
      requires GridPrefix(calendarDays, year, month, today,
                          Weekday(LocalDate(year, month, 1)) + DaysInMonth(year, month))
      modifies this
      ensures GridPrefix(calendarDays, year, month, today, 42)
      ensures events == old(events) && currentDate == old(currentDate)
      ensures showModal == old(showModal) && editingEvent == old(editingEvent) && eventForm == old(eventForm)
    {
      ghost var start := |calendarDays|;
      for i := 1 to remaining + 1
        invariant unchanged(`events, `currentDate, `showModal, `editingEvent, `eventForm)
        invariant GridPrefix(calendarDays, year, month, today, start + i - 1)
      {
        var date := JsDate(year, month + 1, i);
        calendarDays := calendarDays + [Cell(i, date, true, false)];
      }
    }

    /** previousMonth: the first of the month before, and its grid. */
    method PreviousMonth(today: LocalDate)
      requires Valid()
      modifies this
      ensures Valid()
      ensures currentDate == JsDate(old(currentDate).year, old(currentDate).month - 1, 1)
      ensures MonthIndex(currentDate) == MonthIndex(old(currentDate)) - 1 && currentDate.day == 1
      ensures calendarDays == Grid(currentDate.year, currentDate.month, today)
      ensures events == old(events)
      ensures showModal == old(showModal) && editingEvent == old(editingEvent) && eventForm == old(eventForm)
    {
      MonthShiftIsOneMonth(currentDate.year, currentDate.month, -1);
      currentDate := JsDate(currentDate.year, currentDate.month - 1, 1);
      GenerateCalendarDays(today);
    }

    /** nextMonth: the first of the month after, and its grid. */
    method NextMonthClick(today: LocalDate)
      requires Valid()
      modifies this
      ensures Valid()
      ensures currentDate == JsDate(old(currentDate).year, old(currentDate).month + 1, 1)
      ensures MonthIndex(currentDate) == MonthIndex(old(currentDate)) + 1 && currentDate.day == 1
      ensures calendarDays == Grid(currentDate.year, currentDate.month, today)
      ensures events == old(events)
      ensures showModal == old(showModal) && editingEvent == old(editingEvent) && eventForm == old(eventForm)
    {
      MonthShiftIsOneMonth(currentDate.year, currentDate.month, 1);
      currentDate := JsDate(currentDate.year, currentDate.month + 1, 1);
      GenerateCalendarDays(today);
    }

    /** selectDate, `iso` being the cell date's `toISOString()`: a blank
        form starting and ending at that minute, shown. */
    method SelectDate(iso: string)
      modifies this
      ensures eventForm == FormAt(iso) && showModal
      ensures events == old(events) && calendarDays == old(calendarDays) && currentDate == old(currentDate)
      ensures editingEvent == old(editingEvent)
    {
      var dateStr := IsoMinutes(iso);
      eventForm := EventForm([], [], dateStr, dateStr, Other, []);
      showModal := true;
    }

    method CloseModal()
      modifies this
      ensures !showModal && editingEvent.None?
      ensures events == old(events) && calendarDays == old(calendarDays) && currentDate == old(currentDate)
      ensures eventForm == old(eventForm)
    {
      showModal := false;
      editingEvent := None;
    }

    /** saveEvent: nothing without a title; otherwise the form is sent, and
        when the request succeeds (`created`) the events are reloaded
        (`reloaded`, once they arrive) and the form closed. */
    method SaveEvent(created: bool, reloaded: seq<CalendarEvent>) returns (sent: Option<EventForm>)
      modifies this
      ensures old(eventForm).title == [] ==> sent.None? && events == old(events) && showModal == old(showModal)
      ensures old(eventForm).title != [] ==> sent == Some(old(eventForm))
      ensures old(eventForm).title != [] && created ==> events == reloaded && !showModal && editingEvent.None?
      ensures old(eventForm).title != [] && !created ==>
                events == old(events) && showModal == old(showModal) && editingEvent == old(editingEvent)
      ensures old(eventForm).title == [] ==> editingEvent == old(editingEvent)
      ensures calendarDays == old(calendarDays) && currentDate == old(currentDate) && eventForm == old(eventForm)
    {
      if eventForm.title == [] {
        return None;
      }
      sent := Some(eventForm);
      if created {
        LoadEvents(reloaded);
        CloseModal();
      }
    }
  }
}
