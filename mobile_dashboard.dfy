/**
 * The mobile home screen: today's open chores, the medications with a dose
 * still to log today, the next three active reminders, and the quick
 * "add reminder" dialog.
 */
module DashboardScreen {
  import opened Wrappers
  import opened Seqs
  import opened Sorting
  import opened Forms
  import opened Medicine
  import TS = TodaySchedule

  // ------------------------------------------------------------ today's chores

  /** Due today by its date text and not yet completed. */
  predicate OpenToday(c: TS.Chore, todayStr: string)
  {
    c.dueDate == todayStr && c.status != "COMPLETED"
  }

  function TodayChores(chores: seq<TS.Chore>, todayStr: string): (r: seq<TS.Chore>)
    ensures forall i :: 0 <= i < |r| ==> r[i] in chores && r[i].dueDate == todayStr && r[i].status != "COMPLETED"
    ensures forall i :: 0 <= i < |chores| && OpenToday(chores[i], todayStr) ==> chores[i] in r
  {
    Filter(chores, (c: TS.Chore) => OpenToday(c, todayStr))
  }

  // ------------------------------------------------------------ pending medications

  /** The screen's test: active, and some time missing from today's logged times. */
  predicate ShowsPending(m: Med, logs: seq<Log>, today: int)
  {
    m.active && Seqs.Some(m.times, (t: string) => t !in LoggedTimes(logs, m.id, today))
  }

  /** The reference: active, with a scheduled dose that no log marks taken today. */
  predicate HasUntakenDose(m: Med, logs: seq<Log>, today: int)
  {
    m.active && exists k :: 0 <= k < |m.times| && !DoseTaken(logs, m.id, m.times[k], today)
  }

  /** The screen's test is exactly the reference. */
  lemma ShowsPendingIffUntaken(m: Med, logs: seq<Log>, today: int)
    ensures ShowsPending(m, logs, today) <==> HasUntakenDose(m, logs, today)
  {
    forall k | 0 <= k < |m.times|
      ensures (m.times[k] !in LoggedTimes(logs, m.id, today)) == !DoseTaken(logs, m.id, m.times[k], today)
    {
      LoggedTimesTaken(logs, m.id, today, m.times[k]);
    }
  }

  function PendingMeds(meds: seq<Med>, logs: seq<Log>, today: int): (r: seq<Med>)
    ensures forall i :: 0 <= i < |r| ==> r[i] in meds && ShowsPending(r[i], logs, today)
    ensures forall i :: 0 <= i < |meds| && ShowsPending(meds[i], logs, today) ==> meds[i] in r
  {
    Filter(meds, (m: Med) => ShowsPending(m, logs, today))
  }

  /** The pending medications are the active ones with an untaken dose today;
      one with no times, or with every time logged, is never pending. */
  lemma PendingMedsExact(meds: seq<Med>, logs: seq<Log>, today: int, m: Med)
    requires m in meds
    ensures m in PendingMeds(meds, logs, today) <==> HasUntakenDose(m, logs, today)
  {
    ShowsPendingIffUntaken(m, logs, today);
    var r := PendingMeds(meds, logs, today);
    if m in r {
      var i :| 0 <= i < |r| && r[i] == m;
    }
  }

  // ------------------------------------------------------------ upcoming reminders

  /** Active, with a start that parses to now or later; an Invalid Date compares false. */
  predicate IsUpcoming(r: TS.Reminder, now: int, parseInstant: string -> Option<int>)
  {
    r.isActive == Some(true) && match parseInstant(r.startTime)
                                case None => false
                                case Some(t) => t >= now
  }

  function UpcomingOnly(now: int, parseInstant: string -> Option<int>): TS.Reminder -> bool
  {
    (r: TS.Reminder) => IsUpcoming(r, now, parseInstant)
  }

  /** The filter, then `.slice(0, 3)`: the list is not sorted. */
  function UpcomingReminders(reminders: seq<TS.Reminder>, now: int, parseInstant: string -> Option<int>): seq<TS.Reminder>
  {
    Take(Filter(reminders, UpcomingOnly(now, parseInstant)), 3)
  }

  /** At most three, each an upcoming reminder of the list. */
  lemma UpcomingAreListed(reminders: seq<TS.Reminder>, now: int, parseInstant: string -> Option<int>)
    ensures |UpcomingReminders(reminders, now, parseInstant)| <= 3
    ensures forall k :: 0 <= k < |UpcomingReminders(reminders, now, parseInstant)| ==>
              UpcomingReminders(reminders, now, parseInstant)[k] in reminders &&
              IsUpcoming(UpcomingReminders(reminders, now, parseInstant)[k], now, parseInstant)
  {
    var all := Filter(reminders, UpcomingOnly(now, parseInstant));
    var u := UpcomingReminders(reminders, now, parseInstant);
    forall k | 0 <= k < |u| ensures u[k] in reminders && IsUpcoming(u[k], now, parseInstant) {
      assert u[k] == all[k];
    }
  }

  /** They are the first three in list order: an upcoming reminder with
      fewer than three upcoming ones before it is shown. */
  lemma UpcomingFirstThree(reminders: seq<TS.Reminder>, now: int, parseInstant: string -> Option<int>, i: int)
    requires 0 <= i < |reminders| && IsUpcoming(reminders[i], now, parseInstant)
    requires Count(reminders[..i], UpcomingOnly(now, parseInstant)) < 3
    ensures reminders[i] in UpcomingReminders(reminders, now, parseInstant)
  {
    var p := UpcomingOnly(now, parseInstant);
    var all := Filter(reminders, p);
    FilterPosition(reminders, i, p);
    CountIsFilterLength(reminders[..i], p);
    TakeKeeps(all, 3, |Filter(reminders[..i], p)|);
  }

  // ------------------------------------------------------------ the add dialog

  /** What handleAddReminder sends: the title as typed, a Custom reminder on
      a one-off schedule, starting now. */
  datatype QuickReminder = QuickReminder(title: string, kind: string, scheduleType: string, startTime: string)

  /** The dialog after the handler: what was sent, the title box and whether
      the dialog is open. */
  datatype AddOutcome = AddOutcome(sent: Option<QuickReminder>, title: string, open: bool)

  /** handleAddReminder; `nowIso` is `new Date().toISOString()` and
      `succeeded` whether the mutation resolved. */
  function AddReminder(title: string, open: bool, nowIso: string, succeeded: bool): (r: AddOutcome)
    ensures r.sent.Some? <==> !Blank(title)
    ensures r.sent.Some? ==> r.sent.value == QuickReminder(title, "Custom", "ONCE", nowIso)
    ensures Blank(title) || !succeeded ==> r.title == title && r.open == open
    ensures !Blank(title) && succeeded ==> r.title == [] && !r.open
  {
    if Blank(title) then AddOutcome(None, title, open)
    else
      var request := QuickReminder(title, "Custom", "ONCE", nowIso);
      if succeeded then AddOutcome(Some(request), [], false) else AddOutcome(Some(request), title, open)
  }

  /** After a successful add the box is empty, so pressing again sends nothing. */
  lemma AddTwiceSendsOnce(title: string, open: bool, t1: string, t2: string, ok2: bool)
    requires !Blank(title)
    ensures var first := AddReminder(title, open, t1, true);
            first.sent.Some? && AddReminder(first.title, first.open, t2, ok2).sent.None?
  {
    assert Blank([]);
  }
}
