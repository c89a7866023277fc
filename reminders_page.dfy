/**
 * The web reminders page: choosing the members a reminder is for, the
 * checks of the add form and the reminder it sends, and the list of
 * reminders shown, ordered by start time.
 */
module RemindersPage {
  import opened Wrappers
  import opened Text
  import opened Seqs
  import opened Sorting
  import opened Forms
  import opened TodaySchedule

  // ---------------------------------------------------------------------
  // toggleTarget
  // ---------------------------------------------------------------------

  /** A member already chosen is dropped, any other is added at the end. */
  function ToggleTarget(targets: seq<string>, userId: string): (r: seq<string>)
    ensures userId in r <==> userId !in targets
    ensures forall x :: x != userId ==> (x in r <==> x in targets)
    ensures userId !in targets ==> r == targets + [userId]
  {
    if userId in targets then Filter(targets, (id: string) => id != userId) else targets + [userId]
  }

  /** The choice never holds a member twice. */
  lemma ToggleKeepsDistinct(targets: seq<string>, userId: string)
    requires Distinct(targets)
    ensures Distinct(ToggleTarget(targets, userId))
  {
    if userId in targets {
      FilterDistinct(targets, (id: string) => id != userId);
    }
  }

  /** Two clicks on a member give back the same members; a member who was
      not chosen leaves the list exactly as it was. */
  lemma ToggleTwice(targets: seq<string>, userId: string)
    ensures forall x :: x in ToggleTarget(ToggleTarget(targets, userId), userId) <==> x in targets
    ensures userId !in targets ==> ToggleTarget(ToggleTarget(targets, userId), userId) == targets
  {
    if userId !in targets {
      var once := targets + [userId];
      FilterSnoc(targets, userId, (id: string) => id != userId);
      FilterAll(targets, (id: string) => id != userId);
      assert Filter(once, (id: string) => id != userId) == targets;
    }
  }

  // ---------------------------------------------------------------------
  // handleSubmit
  // ---------------------------------------------------------------------

  const NeedTitle: string := "Please enter a reminder title"
  const NeedDate: string := "Please select a date"
  const NeedTarget: string := "Please select at least one family member"

  /** The reminder sent, with its once-only schedule and its members. */
  datatype TargetedReminder = TargetedReminder(reminder: ReminderRequest, schedule: string, targetUserIds: seq<string>)

  /** The local date-time the reminder starts: the chosen time, else 09:00. */
  function StartText(date: string, time: string): (r: string)
    ensures time != [] ==> r == date + "T" + time + ":00"
    ensures time == [] ==> r == date + "T09:00:00"
  {
    date + "T" + OrDefault(time, "09:00") + ":00"
  }

  /** The three checks, in order, then the reminder: trimmed title and
      description (an empty description is left out), Custom, active. */
  function Submit(form: ReminderForm, targets: seq<string>): (r: Submission<TargetedReminder>)
    ensures r == Rejected(NeedTitle) <==> Blank(form.title)
    ensures r == Rejected(NeedDate) <==> !Blank(form.title) && form.date == []
    ensures r == Rejected(NeedTarget) <==> !Blank(form.title) && form.date != [] && targets == []
    ensures r.Accepted? <==> !Blank(form.title) && form.date != [] && targets != []
    ensures r.Accepted? ==>
              && r.value.reminder == ReminderRequest(JsTrim(form.title), OrNull(JsTrim(form.description)), "Custom",
                                                     StartText(form.date, form.time), None, Some(true))
              && r.value.schedule == "ONCE" && r.value.targetUserIds == targets
  {
    if Blank(form.title) then Rejected(NeedTitle)
    else if form.date == [] then Rejected(NeedDate)
    else if |targets| == 0 then Rejected(NeedTarget)
    else
      Accepted(TargetedReminder(ReminderRequest(JsTrim(form.title), OrNull(JsTrim(form.description)), "Custom",
                                                StartText(form.date, form.time), None, Some(true)), "ONCE", targets))
  }

  /** An accepted reminder has a title that is neither blank nor padded. */
  lemma SubmittedTitleTrimmed(form: ReminderForm, targets: seq<string>)
    requires Submit(form, targets).Accepted?
    ensures var t := Submit(form, targets).value.reminder.title;
            t != [] && JsTrim(t) == t && !IsJsSpace(t[0]) && !IsJsSpace(t[|t| - 1])
  {
    TrimIdempotent(form.title, IsJsSpace);
  }

  // ---------------------------------------------------------------------
  // The list
  // ---------------------------------------------------------------------

  /** `isActive !== false`: a reminder without the flag is shown. */
  predicate Shown(r: Reminder) { r.isActive != Some(false) }

  function ShownReminders(reminders: seq<Reminder>): (r: seq<Reminder>)
    ensures forall i :: 0 <= i < |r| ==> r[i] in reminders && r[i].isActive != Some(false)
    ensures forall i :: 0 <= i < |reminders| && reminders[i].isActive != Some(false) ==> reminders[i] in r
  {
    Filter(reminders, Shown)
  }

  /** The sort key `startTime ? new Date(startTime).getTime() : 0`, None for
      an Invalid Date (NaN); `parseInstant` is `new Date(s).getTime()`. */
  function StartKey(r: Reminder, parseInstant: string -> Option<int>): Option<int>
  {
    if r.startTime == [] then Some(0) else parseInstant(r.startTime)
  }

  /** `dateA - dateB < 0`: a NaN difference orders nothing. */
  function StartsEarlier(parseInstant: string -> Option<int>): (Reminder, Reminder) -> bool
  {
    (a: Reminder, b: Reminder) =>
      StartKey(a, parseInstant).Some? && StartKey(b, parseInstant).Some?
      && StartKey(a, parseInstant).value < StartKey(b, parseInstant).value
  }

  /** The list: the shown reminders sorted on a copy. */
  function SortedReminders(reminders: seq<Reminder>, parseInstant: string -> Option<int>): seq<Reminder>
  {
    SortWith(ShownReminders(reminders), StartsEarlier(parseInstant))
  }

  /** The list holds every shown reminder once per occurrence and nothing else. */
  lemma SortedRemindersAreShown(reminders: seq<Reminder>, parseInstant: string -> Option<int>)
    ensures multiset(SortedReminders(reminders, parseInstant)) == multiset(ShownReminders(reminders))
  {
  }

  /** When every shown reminder has a readable start, the list is in
      ascending order of start, a missing start counting as 0. */
  lemma SortedRemindersAscending(reminders: seq<Reminder>, parseInstant: string -> Option<int>)
    requires forall i :: 0 <= i < |reminders| && Shown(reminders[i]) ==> StartKey(reminders[i], parseInstant).Some?
    ensures var s := SortedReminders(reminders, parseInstant);
            forall j, k :: 0 <= j < k < |s| ==>
              StartKey(s[j], parseInstant).Some? && StartKey(s[k], parseInstant).Some?
              && StartKey(s[j], parseInstant).value <= StartKey(s[k], parseInstant).value
  {
    var shown := ShownReminders(reminders);
    var lt := StartsEarlier(parseInstant);
    var byKey := (a: Reminder, b: Reminder) =>
      StartKey(a, parseInstant).GetOr(0) < StartKey(b, parseInstant).GetOr(0);
    forall a | a in shown ensures StartKey(a, parseInstant).Some? {
      var i :| 0 <= i < |reminders| && reminders[i] == a;
    }
    SortWithCongruent(shown, lt, byKey);
    assert StrictWeak(byKey);
    SortWithSorted(shown, byKey);
    var s := SortWith(shown, lt);
    forall k | 0 <= k < |s| ensures StartKey(s[k], parseInstant).Some? {
      assert s[k] in multiset(shown);
    }
  }
}
